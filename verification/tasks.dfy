/**
 * The task primitive (`root/tasks.py`). A `Task` wraps a function. `s` binds
 * arguments for a later run, `apply_async` starts the function, and `get`
 * hands back its result through a queue. `group`, `in_parallel` and `chain`
 * combine several tasks.
 *
 * Execution is synchronous: starting a task runs it to completion, so its
 * result is in the queue before any `get` looks. A `get` on an empty queue
 * waits forever, because nothing else will ever put a result there; that
 * outcome is `Blocked`.
 */
module Tasks {
  import opened Wrappers

  /** The Python values tasks take and return, as far as truthiness and tuples go. */
  datatype Value = NoneValue | Bool(b: bool) | Int(i: int) | Str(s: string) | Tuple(items: seq<Value>)

  /** Python truthiness. */
  predicate Truthy(v: Value)
  {
    match v
    case NoneValue => false
    case Bool(b) => b
    case Int(i) => i != 0
    case Str(s) => s != ""
    case Tuple(items) => items != []
  }

  /** `res or None`: a falsy result turns into None, and a truthy one is kept as it is. */
  function OrNone(v: Value): (r: Value)
    ensures r == NoneValue <==> !Truthy(v)
    ensures r != NoneValue ==> r == v
  {
    if Truthy(v) then v else NoneValue
  }

  /** The positional and keyword arguments of one call. */
  datatype Call = Call(args: seq<Value>, kwargs: map<string, Value>)

  /** `(signed, args, kwargs)`, the arguments `s` binds for the next run. */
  datatype Signature = Signature(signed: bool, args: seq<Value>, kwargs: map<string, Value>)

  /** `(False, (), {})`: nothing bound. */
  const Unsigned := Signature(false, [], map[])

  /** How one run of the wrapped function ended: with a value, or by raising. */
  datatype Outcome = Returned(value: Value) | Raised(error: string)

  /**
   * The call `apply_async` makes. With a bound signature, the call's own
   * positional arguments come first and the bound ones follow. The keyword
   * arguments are merged, and a bound keyword wins over a call keyword with
   * the same name.
   */
  function BoundCall(sig: Signature, args: seq<Value>, kwargs: map<string, Value>): (c: Call)
    ensures |c.args| >= |args| && c.args[..|args|] == args
    ensures c.kwargs.Keys == kwargs.Keys + (if sig.signed then sig.kwargs.Keys else {})
  {
    if sig.signed then Call(args + sig.args, kwargs + sig.kwargs) else Call(args, kwargs)
  }

  /**
   * Unsigned, the call is made with exactly the arguments given. Signed, the
   * positional arguments are the given ones followed by the bound ones, every
   * bound keyword is passed with its bound value, and every other given
   * keyword keeps its value.
   */
  lemma BoundCallMerges(sig: Signature, args: seq<Value>, kwargs: map<string, Value>)
    ensures var r := BoundCall(sig, args, kwargs);
      && (!sig.signed ==> r == Call(args, kwargs))
      && (sig.signed ==> |r.args| == |args| + |sig.args|
                         && (forall i :: 0 <= i < |args| ==> r.args[i] == args[i])
                         && (forall i :: 0 <= i < |sig.args| ==> r.args[|args| + i] == sig.args[i])
                         && r.kwargs.Keys == kwargs.Keys + sig.kwargs.Keys
                         && (forall k :: k in sig.kwargs ==> r.kwargs[k] == sig.kwargs[k]))
      && (forall k :: k in kwargs && !(sig.signed && k in sig.kwargs) ==> k in r.kwargs && r.kwargs[k] == kwargs[k])
  {
  }

  /**
   * What one run leaves in the queue. A returned value goes in as
   * `res or None`. A run that raised puts nothing, because the process dies
   * before it reaches `put`.
   */
  function Put(o: Outcome): seq<Value>
  {
    if o.Returned? then [OrNone(o.value)] else []
  }

  /** What `queue.get()` yields: the oldest queued value, or an endless wait. */
  datatype Received = Got(value: Value) | Blocked

  /** What `get` on a task whose queue is empty yields for a single run. */
  function Deliver(o: Outcome): Received
  {
    if o.Returned? then Got(OrNone(o.value)) else Blocked
  }

  /** The fields of a `Task` that its methods update: `queue`, `applied`, `signature`, `process`. */
  datatype TaskState = TaskState(queue: seq<Value>, applied: bool, signature: Signature, process: Option<Call>)

  /** A task just built: an empty queue, not applied, nothing bound, no process yet. */
  const Initial := TaskState([], false, Unsigned, None)

  /**
   * `apply_async(*args, **kwargs)`: run the function on the bound call, record
   * that call as the process, mark the task applied and drop the signature.
   */
  function Applied(st: TaskState, fn: Call -> Outcome, args: seq<Value>, kwargs: map<string, Value>): (r: TaskState)
    ensures r.applied && r.signature == Unsigned && r.process.Some?
    ensures |st.queue| <= |r.queue| <= |st.queue| + 1 && r.queue[..|st.queue|] == st.queue
  {
    var call := BoundCall(st.signature, args, kwargs);
    TaskState(st.queue + Put(fn(call)), true, Unsigned, Some(call))
  }

  /** `s(*args, **kwargs)`: bind the arguments, clear `applied` and start a new, empty queue. */
  function Signed(st: TaskState, args: seq<Value>, kwargs: map<string, Value>): (r: TaskState)
    ensures r.signature.signed && !r.applied && r.queue == [] && r.process == st.process
  {
    TaskState([], false, Signature(true, args, kwargs), st.process)
  }

  /**
   * `get(*args, **kwargs)`: start the task with these arguments unless it is
   * already applied, clear `applied`, then take the oldest value in the queue.
   */
  function Fetched(st: TaskState, fn: Call -> Outcome, args: seq<Value>, kwargs: map<string, Value>): (r: (TaskState, Received))
    ensures !r.0.applied
    ensures r.1.Blocked? ==> r.0.queue == []
    ensures st.applied ==> r.0.signature == st.signature && r.0.process == st.process
    ensures |r.0.queue| <= |st.queue|
  {
    var ran := if st.applied then st else Applied(st, fn, args, kwargs);
    if ran.queue == [] then (ran.(applied := false), Blocked)
    else (ran.(applied := false, queue := ran.queue[1..]), Got(ran.queue[0]))
  }

  /**
   * `get` always leaves the task unapplied. It returns the oldest queued
   * result, which may be left over from an earlier run. When the queue holds
   * nothing, it waits forever.
   */
  lemma GetTakesOldestResult(st: TaskState, fn: Call -> Outcome, args: seq<Value>, kwargs: map<string, Value>)
    ensures var q := if st.applied then st.queue else st.queue + Put(fn(BoundCall(st.signature, args, kwargs)));
            var (st', r) := Fetched(st, fn, args, kwargs);
            && !st'.applied
            && (q == [] <==> r == Blocked)
            && (q != [] ==> r == Got(q[0]) && st'.queue == q[1..])
            && st'.signature == (if st.applied then st.signature else Unsigned)
  {
  }

  /** Once a task is applied, the arguments passed to `get` make no difference. */
  lemma GetIgnoresArgsOnceApplied(st: TaskState, fn: Call -> Outcome, a1: seq<Value>, k1: map<string, Value>,
                                  a2: seq<Value>, k2: map<string, Value>)
    requires st.applied
    ensures Fetched(st, fn, a1, k1) == Fetched(st, fn, a2, k2)
  {
  }

  /**
   * `s(...)` followed by `get(...)` runs the function once, on the call's
   * arguments followed by the bound ones. The task ends with an empty queue,
   * not applied and unsigned. Results left in the queue before `s` are never
   * returned.
   */
  lemma SignThenGet(st: TaskState, fn: Call -> Outcome, sargs: seq<Value>, skw: map<string, Value>,
                    args: seq<Value>, kw: map<string, Value>)
    ensures var call := Call(args + sargs, kw + skw);
            Fetched(Signed(st, sargs, skw), fn, args, kw) == (TaskState([], false, Unsigned, Some(call)), Deliver(fn(call)))
  {
    var call := Call(args + sargs, kw + skw);
    assert BoundCall(Signed(st, sargs, skw).signature, args, kw) == call;
    if fn(call).Returned? {
      assert ([] + Put(fn(call)))[1..] == [];
    }
  }

  /** A falsy result comes back from `get` as None. */
  lemma FalsyResultIsNone(fn: Call -> Outcome, args: seq<Value>, kw: map<string, Value>)
    requires fn(Call(args, kw)).Returned? && !Truthy(fn(Call(args, kw)).value)
    ensures Fetched(Initial, fn, args, kw).1 == Got(NoneValue)
  {
  }

  /** Each `apply_async` adds at most one value to the queue: a raising run adds none. */
  lemma OneResultPerRun(st: TaskState, fn: Call -> Outcome, args: seq<Value>, kwargs: map<string, Value>)
    ensures var st' := Applied(st, fn, args, kwargs);
            st'.queue[..|st.queue|] == st.queue
            && |st'.queue| == |st.queue| + (if fn(BoundCall(st.signature, args, kwargs)).Returned? then 1 else 0)
  {
  }

  class Task {
    /** `_task`, the wrapped function, as a map from each call to its outcome. */
    const fn: Call -> Outcome
    var queue: seq<Value>
    var applied: bool
    var signature: Signature
    /** The call made by the process `apply_async` last started. */
    var process: Option<Call>

    function State(): TaskState
      reads this
    {
      TaskState(queue, applied, signature, process)
    }

    constructor (fn: Call -> Outcome)
      ensures this.fn == fn && State() == Initial
    {
      this.fn := fn;
      applied := false;
      signature := Unsigned;
      process := None;
      new;
      AddQueue();
    }

    /** `add_queue`: a new, empty result queue for the wrapper to put into. */
    method AddQueue()
      modifies this`queue
      ensures queue == []
    {
      queue := [];
    }

    /** `q_wrapper`: run the function and put `res or None` into the queue. */
    method Run(call: Call)
      modifies this`queue
      ensures queue == old(queue) + Put(fn(call))
    {
      var res := fn(call);
      if res.Returned? {
        queue := queue + [OrNone(res.value)];
      }
    }

    method ApplyAsync(args: seq<Value>, kwargs: map<string, Value>)
      modifies this
      ensures State() == Applied(old(State()), fn, args, kwargs)
    {
      var call := BoundCall(signature, args, kwargs);
      process := Some(call);
      Run(call);
      applied := true;
      signature := Unsigned;
    }

    /** `s`: bind the arguments and return the task itself. */
    method Sign(args: seq<Value>, kwargs: map<string, Value>) returns (t: Task)
      modifies this
      ensures t == this
      ensures State() == Signed(old(State()), args, kwargs)
    {
      signature := Signature(true, args, kwargs);
      applied := false;
      AddQueue();
      t := this;
    }

    method Get(args: seq<Value>, kwargs: map<string, Value>) returns (r: Received)
      modifies this
      ensures (State(), r) == Fetched(old(State()), fn, args, kwargs)
    {
      if !applied {
        ApplyAsync(args, kwargs);
      }
      applied := false;
      if queue == [] {
        r := Blocked;
      } else {
        r := Got(queue[0]);
        queue := queue[1..];
      }
    }
  }

  /** No task appears twice. */
  predicate Distinct(tasks: seq<Task>)
  {
    tasks == [] || (tasks[0] !in tasks[1..] && Distinct(tasks[1..]))
  }

  /** In a sequence of distinct tasks, the task at `i` is no other position's task. */
  lemma {:induction false} DistinctApart(tasks: seq<Task>, i: nat)
    requires Distinct(tasks) && i < |tasks|
    ensures forall j :: 0 <= j < |tasks| && j != i ==> tasks[j] != tasks[i]
  {
    assert forall j :: 1 <= j < |tasks| ==> tasks[j] == tasks[1..][j - 1];
    if i > 0 {
      DistinctApart(tasks[1..], i - 1);
    }
  }

  function States(tasks: seq<Task>): (r: seq<TaskState>)
    reads set t | t in tasks
    ensures |r| == |tasks| && forall i :: 0 <= i < |tasks| ==> r[i] == tasks[i].State()
  {
    seq(|tasks|, i requires 0 <= i < |tasks| reads tasks => tasks[i].State())
  }

  function Fns(tasks: seq<Task>): (r: seq<Call -> Outcome>)
    ensures |r| == |tasks| && forall i :: 0 <= i < |tasks| ==> r[i] == tasks[i].fn
  {
    seq(|tasks|, i requires 0 <= i < |tasks| => tasks[i].fn)
  }

  /** Every task after `apply_async()` with no arguments. */
  function AppliedAll(states: seq<TaskState>, fns: seq<Call -> Outcome>): (r: seq<TaskState>)
    requires |states| == |fns|
    ensures |r| == |states| && forall i :: 0 <= i < |states| ==> r[i] == Applied(states[i], fns[i], [], map[])
  {
    if states == [] then [] else [Applied(states[0], fns[0], [], map[])] + AppliedAll(states[1..], fns[1..])
  }

  /** The results of `get(*args)` on each task in turn, or None once one of them waits forever. */
  function Fetches(states: seq<TaskState>, fns: seq<Call -> Outcome>, args: seq<Value>): (r: Option<seq<Value>>)
    requires |states| == |fns|
    ensures r.Some? ==> |r.value| == |states|
  {
    if states == [] then Some([])
    else match Fetched(states[0], fns[0], args, map[]).1
      case Blocked => None
      case Got(v) =>
        match Fetches(states[1..], fns[1..], args)
        case None => None
        case Some(vs) => Some([v] + vs)
  }

  /** The tasks' states after each `get(*args)`. */
  function FetchedStates(states: seq<TaskState>, fns: seq<Call -> Outcome>, args: seq<Value>): (r: seq<TaskState>)
    requires |states| == |fns|
    ensures |r| == |states| && forall i :: 0 <= i < |states| ==> r[i] == Fetched(states[i], fns[i], args, map[]).0
  {
    if states == [] then [] else [Fetched(states[0], fns[0], args, map[]).0] + FetchedStates(states[1..], fns[1..], args)
  }

  /** `vs` in front of the values of `rest`, if there are any. */
  function Prepend(vs: seq<Value>, rest: Option<seq<Value>>): Option<seq<Value>>
  {
    match rest
    case None => None
    case Some(ws) => Some(vs + ws)
  }

  /** Task by task: the results arrive in the tasks' order, one per task, unless some task waits forever. */
  lemma {:induction false} FetchesEach(states: seq<TaskState>, fns: seq<Call -> Outcome>, args: seq<Value>)
    requires |states| == |fns|
    ensures Fetches(states, fns, args).Some?
            <==> forall i :: 0 <= i < |states| ==> Fetched(states[i], fns[i], args, map[]).1.Got?
    ensures Fetches(states, fns, args).Some? ==>
              var vs := Fetches(states, fns, args).value;
              |vs| == |states| && forall i :: 0 <= i < |states| ==> Got(vs[i]) == Fetched(states[i], fns[i], args, map[]).1
  {
    if states != [] {
      FetchesEach(states[1..], fns[1..], args);
      assert forall i :: 1 <= i < |states| ==> states[1..][i - 1] == states[i] && fns[1..][i - 1] == fns[i];
    }
  }

  /** `tuple(...)`, unwrapped when it holds a single result. */
  function Shape(results: seq<Value>): Value
  {
    if |results| == 1 then results[0] else Tuple(results)
  }

  /** How the body of a combined task ended. */
  datatype Run = Done(value: Value) | Failed(error: string) | Hung

  /**
   * What `get` on the `Task` that wraps a body returns. A returned value goes
   * through `res or None`. A body that raised or waits forever never puts
   * anything, so that `get` waits forever too.
   */
  function Delivered(run: Run): Received
  {
    if run.Done? then Got(OrNone(run.value)) else Blocked
  }

  /** `group`: start every task with no arguments, then `get()` each in order. */
  function GroupSpec(states: seq<TaskState>, fns: seq<Call -> Outcome>): (r: Received)
    requires |states| == |fns|
    ensures r.Got? ==> r.value.Tuple? && |r.value.items| == |states|
  {
    match Fetches(AppliedAll(states, fns), fns, [])
    case None => Blocked
    case Some(vs) => Got(Tuple(vs))
  }

  /** The body of `in_parallel`: the same runs as `group`, with a single result unwrapped. */
  function ParallelSpec(states: seq<TaskState>, fns: seq<Call -> Outcome>): (r: Run)
    requires |states| == |fns|
    ensures !r.Failed?
    ensures r.Done? && |states| != 1 ==> r.value.Tuple? && |r.value.items| == |states|
  {
    match Fetches(AppliedAll(states, fns), fns, [])
    case None => Hung
    case Some(vs) => Done(Shape(vs))
  }

  /**
   * The body of `chain` as written: `get()` the first task, then pass THAT
   * result to `get` on every later task.
   */
  function ChainSpec(states: seq<TaskState>, fns: seq<Call -> Outcome>): (r: Run)
    requires |states| == |fns|
    ensures r.Failed? <==> states == []
    ensures r.Done? && |states| != 2 ==> r.value.Tuple? && |r.value.items| == |states| - 1
  {
    if states == [] then Failed("IndexError")
    else match Fetched(states[0], fns[0], [], map[]).1
      case Blocked => Hung
      case Got(first) =>
        match Fetches(states[1..], fns[1..], [first])
        case None => Hung
        case Some(vs) => Done(Shape(vs))
  }

  /** The results of a pipeline: each task's `get` receives the result of the one before it. */
  function Pipe(states: seq<TaskState>, fns: seq<Call -> Outcome>, prev: Value): Option<seq<Value>>
    requires |states| == |fns|
  {
    if states == [] then Some([])
    else match Fetched(states[0], fns[0], [prev], map[]).1
      case Blocked => None
      case Got(v) =>
        match Pipe(states[1..], fns[1..], v)
        case None => None
        case Some(vs) => Some([v] + vs)
  }

  /** `chain` as its documentation describes it: every task is fed its predecessor's result. */
  function PipelineSpec(states: seq<TaskState>, fns: seq<Call -> Outcome>): Run
    requires |states| == |fns|
  {
    if states == [] then Failed("IndexError")
    else match Fetched(states[0], fns[0], [], map[]).1
      case Blocked => Hung
      case Got(first) =>
        match Pipe(states[1..], fns[1..], first)
        case None => Hung
        case Some(vs) => Done(Shape(vs))
  }

  /**
   * `group` returns one result per task, in the given order. Each task's
   * result is the oldest value in its queue once it has run with no
   * arguments. The whole group waits forever exactly when some task ends up
   * with nothing queued.
   */
  lemma GroupGivesOneResultPerTask(states: seq<TaskState>, fns: seq<Call -> Outcome>)
    requires |states| == |fns|
    ensures GroupSpec(states, fns).Got?
            <==> forall i :: 0 <= i < |states| ==> Applied(states[i], fns[i], [], map[]).queue != []
    ensures GroupSpec(states, fns).Got? ==>
              var vs := GroupSpec(states, fns).value.items;
              |vs| == |states|
              && forall i :: 0 <= i < |states| ==> vs[i] == Applied(states[i], fns[i], [], map[]).queue[0]
  {
    var applied := AppliedAll(states, fns);
    FetchesEach(applied, fns, []);
  }

  /**
   * `in_parallel` runs exactly what `group` runs. A single result comes back
   * unwrapped; any other number of results comes back as the tuple.
   */
  lemma ParallelIsGroupUnwrapped(states: seq<TaskState>, fns: seq<Call -> Outcome>)
    requires |states| == |fns|
    ensures ParallelSpec(states, fns).Hung? <==> GroupSpec(states, fns).Blocked?
    ensures ParallelSpec(states, fns).Done? ==>
              var g := GroupSpec(states, fns).value;
              && (|states| == 1 ==> ParallelSpec(states, fns).value == g.items[0])
              && (|states| != 1 ==> ParallelSpec(states, fns).value == g)
  {
    var applied := AppliedAll(states, fns);
    FetchesEach(applied, fns, []);
  }

  /**
   * As written, every task after the first is fetched with the FIRST task's
   * result as its only argument.
   */
  lemma ChainFeedsFirstResult(states: seq<TaskState>, fns: seq<Call -> Outcome>)
    requires |states| == |fns| && |states| > 0
    requires Fetched(states[0], fns[0], [], map[]).1.Got?
    ensures var first := Fetched(states[0], fns[0], [], map[]).1.value;
            ChainSpec(states, fns).Done? ==>
              var vs := Fetches(states[1..], fns[1..], [first]).value;
              |vs| == |states| - 1
              && forall i :: 1 <= i < |states| ==> Got(vs[i - 1]) == Fetched(states[i], fns[i], [first], map[]).1
  {
    var first := Fetched(states[0], fns[0], [], map[]).1.value;
    FetchesEach(states[1..], fns[1..], [first]);
    assert forall i :: 1 <= i < |states| ==> states[1..][i - 1] == states[i] && fns[1..][i - 1] == fns[i];
  }

  /** In the corrected pipeline every task is fetched with its predecessor's result. */
  lemma {:induction false} PipeFeedsPredecessor(states: seq<TaskState>, fns: seq<Call -> Outcome>, prev: Value)
    requires |states| == |fns|
    ensures Pipe(states, fns, prev).Some? ==>
              var vs := Pipe(states, fns, prev).value;
              |vs| == |states|
              && forall i :: 0 <= i < |states| ==>
                   Got(vs[i]) == Fetched(states[i], fns[i], [if i == 0 then prev else vs[i - 1]], map[]).1
  {
    if states != [] && Pipe(states, fns, prev).Some? {
      var v := Fetched(states[0], fns[0], [prev], map[]).1.value;
      PipeFeedsPredecessor(states[1..], fns[1..], v);
      var vs := Pipe(states, fns, prev).value;
      var ws := Pipe(states[1..], fns[1..], v).value;
      assert vs == [v] + ws;
      forall i | 1 <= i < |states|
        ensures Got(vs[i]) == Fetched(states[i], fns[i], [vs[i - 1]], map[]).1
      {
        assert states[1..][i - 1] == states[i] && fns[1..][i - 1] == fns[i];
        assert vs[i] == ws[i - 1];
        assert vs[i - 1] == (if i - 1 == 0 then v else ws[i - 2]);
      }
    }
  }

  /** A chain of one task runs it and yields None: the empty tuple of later results is falsy. */
  lemma ChainOfOneDeliversNone(st: TaskState, fn: Call -> Outcome)
    requires Fetched(st, fn, [], map[]).1.Got?
    ensures ChainSpec([st], [fn]) == Done(Tuple([]))
    ensures Delivered(ChainSpec([st], [fn])) == Got(NoneValue)
  {
  }

  /** An empty chain raises IndexError inside its body, so its task never delivers. */
  lemma EmptyChainNeverDelivers()
    ensures ChainSpec([], []) == Failed("IndexError")
    ensures Delivered(ChainSpec([], [])) == Blocked
  {
  }

  /** A function that ignores its arguments and returns 1. */
  const ReturnOne: Call -> Outcome := (c: Call) => Returned(Int(1))

  /** A function that adds one to its single integer argument. */
  const AddOne: Call -> Outcome :=
    (c: Call) => if |c.args| == 1 && c.args[0].Int? then Returned(Int(c.args[0].i + 1)) else Raised("TypeError")

  /** Two fresh add-one tasks, each fetched with 1, both give 2. */
  lemma AddOnesFedOne()
    ensures Fetches([Initial, Initial], [AddOne, AddOne], [Int(1)]) == Some([Int(2), Int(2)])
  {
    assert AddOne(Call([Int(1)], map[])) == Returned(Int(2));
    assert Fetched(Initial, AddOne, [Int(1)], map[]).1 == Got(Int(2));
    assert [Initial, Initial][1..] == [Initial] && [AddOne, AddOne][1..] == [AddOne];
    assert [Initial][1..] == [] && [AddOne][1..] == [];
    assert Fetches([], [], [Int(1)]) == Some([]);
    assert [Int(2)] + [] == [Int(2)] && [Int(2)] + [Int(2)] == [Int(2), Int(2)];
    assert Fetches([Initial], [AddOne], [Int(1)]) == Some([Int(2)]);
  }

  /** Two fresh add-one tasks in a pipeline fed 1 give 2, then 3. */
  lemma AddOnesPiped()
    ensures Pipe([Initial, Initial], [AddOne, AddOne], Int(1)) == Some([Int(2), Int(3)])
  {
    assert AddOne(Call([Int(1)], map[])) == Returned(Int(2));
    assert AddOne(Call([Int(2)], map[])) == Returned(Int(3));
    assert Fetched(Initial, AddOne, [Int(1)], map[]).1 == Got(Int(2));
    assert Fetched(Initial, AddOne, [Int(2)], map[]).1 == Got(Int(3));
    assert [Initial, Initial][1..] == [Initial] && [AddOne, AddOne][1..] == [AddOne];
    assert [Initial][1..] == [] && [AddOne][1..] == [];
    assert Pipe([], [], Int(3)) == Some([]);
    assert [Int(3)] + [] == [Int(3)] && [Int(2)] + [Int(3)] == [Int(2), Int(3)];
    assert Pipe([Initial], [AddOne], Int(2)) == Some([Int(3)]);
  }

  /**
   * Three fresh tasks: return 1, add one, add one. As written the chain gives
   * (2, 2), because the third task is fed 1. The pipeline gives (2, 3).
   */
  lemma ChainOfThree()
    ensures ChainSpec([Initial, Initial, Initial], [ReturnOne, AddOne, AddOne]) == Done(Tuple([Int(2), Int(2)]))
    ensures PipelineSpec([Initial, Initial, Initial], [ReturnOne, AddOne, AddOne]) == Done(Tuple([Int(2), Int(3)]))
  {
    var states, fns := [Initial, Initial, Initial], [ReturnOne, AddOne, AddOne];
    assert ReturnOne(Call([], map[])) == Returned(Int(1));
    assert Fetched(Initial, ReturnOne, [], map[]).1 == Got(Int(1));
    assert states[1..] == [Initial, Initial] && fns[1..] == [AddOne, AddOne];
    AddOnesFedOne();
    AddOnesPiped();
  }

  /** `[g.apply_async() for g in group]`. */
  method ApplyAll(tasks: seq<Task>)
    modifies set t | t in tasks
    ensures Distinct(tasks) ==> States(tasks) == AppliedAll(old(States(tasks)), Fns(tasks))
  {
    ghost var S := States(tasks);
    var i := 0;
    while i < |tasks|
      invariant 0 <= i <= |tasks|
      invariant Distinct(tasks) ==> forall j :: 0 <= j < i ==> tasks[j].State() == Applied(S[j], tasks[j].fn, [], map[])
      invariant Distinct(tasks) ==> forall j :: i <= j < |tasks| ==> tasks[j].State() == S[j]
    {
      if Distinct(tasks) {
        DistinctApart(tasks, i);
      }
      tasks[i].ApplyAsync([], map[]);
      i := i + 1;
    }
  }

  /** One more `get` in the loop of `GetAll`: it either waits forever or moves one result over. */
  lemma FetchesStep(S: seq<TaskState>, F: seq<Call -> Outcome>, args: seq<Value>, i: nat, results: seq<Value>)
    requires |S| == |F| && i < |S|
    ensures Fetched(S[i], F[i], args, map[]).1.Blocked? ==> Fetches(S[i..], F[i..], args) == None
    ensures Fetched(S[i], F[i], args, map[]).1.Got? ==>
              Prepend(results, Fetches(S[i..], F[i..], args))
              == Prepend(results + [Fetched(S[i], F[i], args, map[]).1.value], Fetches(S[i + 1..], F[i + 1..], args))
  {
    assert S[i..][1..] == S[i + 1..] && F[i..][1..] == F[i + 1..];
    if Fetches(S[i + 1..], F[i + 1..], args).Some? {
      var ws := Fetches(S[i + 1..], F[i + 1..], args).value;
      var v := Fetched(S[i], F[i], args, map[]).1;
      if v.Got? {
        assert results + ([v.value] + ws) == (results + [v.value]) + ws;
      }
    }
  }

  /** `Prepend` of nothing, and the end of the sequences. */
  lemma PrependNothing(results: seq<Value>, rest: Option<seq<Value>>)
    ensures Prepend([], rest) == rest
    ensures Prepend(results, Some([])) == Some(results)
  {
    if rest.Some? {
      assert [] + rest.value == rest.value;
    }
    assert results + [] == results;
  }

  /** `get(*args)` on the task at `i`, which changes no other task when the tasks are distinct. */
  method GetOne(tasks: seq<Task>, i: nat, args: seq<Value>) returns (g: Received)
    requires i < |tasks|
    modifies tasks[i]
    ensures (tasks[i].State(), g) == Fetched(old(tasks[i].State()), tasks[i].fn, args, map[])
    ensures Distinct(tasks) ==> forall j :: 0 <= j < |tasks| && j != i ==> tasks[j].State() == old(tasks[j].State())
  {
    if Distinct(tasks) {
      DistinctApart(tasks, i);
    }
    g := tasks[i].Get(args, map[]);
  }

  /** `tuple(task.get(*args) for task in tasks)`, or None once a `get` waits forever. */
  method GetAll(tasks: seq<Task>, args: seq<Value>) returns (r: Option<seq<Value>>)
    modifies set t | t in tasks
    ensures Distinct(tasks) ==> r == Fetches(old(States(tasks)), Fns(tasks), args)
    ensures Distinct(tasks) && r.Some? ==> States(tasks) == FetchedStates(old(States(tasks)), Fns(tasks), args)
  {
    ghost var S, F := States(tasks), Fns(tasks);
    var results: seq<Value> := [];
    var i := 0;
    assert S[0..] == S && F[0..] == F;
    PrependNothing([], Fetches(S, F, args));
    while i < |tasks|
      invariant 0 <= i <= |tasks|
      invariant Distinct(tasks) ==> Fetches(S, F, args) == Prepend(results, Fetches(S[i..], F[i..], args))
      invariant Distinct(tasks) ==> forall j :: 0 <= j < |tasks| ==>
                                      tasks[j].State() == if j < i then Fetched(S[j], F[j], args, map[]).0 else S[j]
    {
      var g := GetOne(tasks, i, args);
      assert Distinct(tasks) ==> g == Fetched(S[i], F[i], args, map[]).1;
      FetchesStep(S, F, args, i, results);
      if g.Blocked? {
        return None;
      }
      results := results + [g.value];
      i := i + 1;
    }
    assert S[i..] == [];
    PrependNothing(results, None);
    r := Some(results);
  }

  /** `group`: start every task, then collect their results in order. */
  method Group(tasks: seq<Task>) returns (r: Received)
    modifies set t | t in tasks
    ensures Distinct(tasks) ==> r == GroupSpec(old(States(tasks)), Fns(tasks))
    ensures Distinct(tasks) && r.Got? ==>
              States(tasks) == FetchedStates(AppliedAll(old(States(tasks)), Fns(tasks)), Fns(tasks), [])
  {
    ApplyAll(tasks);
    var results := GetAll(tasks, []);
    r := if results.Some? then Got(Tuple(results.value)) else Blocked;
  }

  /** `_parallel`, the body of the task `in_parallel` returns. */
  method InParallel(tasks: seq<Task>) returns (r: Run)
    modifies set t | t in tasks
    ensures Distinct(tasks) ==> r == ParallelSpec(old(States(tasks)), Fns(tasks))
    ensures Distinct(tasks) && r.Done? ==>
              States(tasks) == FetchedStates(AppliedAll(old(States(tasks)), Fns(tasks)), Fns(tasks), [])
  {
    ApplyAll(tasks);
    var results := GetAll(tasks, []);
    r := if results.Some? then Done(Shape(results.value)) else Hung;
  }

  /** `_chain`, the body of the task `chain` returns, as written. */
  method Chain(tasks: seq<Task>) returns (r: Run)
    modifies set t | t in tasks
    ensures Distinct(tasks) ==> r == ChainSpec(old(States(tasks)), Fns(tasks))
    ensures Distinct(tasks) && r.Done? ==>
              var first := Fetched(old(tasks[0].State()), tasks[0].fn, [], map[]);
              tasks[0].State() == first.0
              && States(tasks[1..]) == FetchedStates(old(States(tasks[1..])), Fns(tasks[1..]), [first.1.value])
  {
    if |tasks| == 0 {
      return Failed("IndexError");
    }
    ghost var S := States(tasks);
    var first := tasks[0].Get([], map[]);
    if first.Blocked? {
      return Hung;
    }
    assert Distinct(tasks) ==> States(tasks[1..]) == S[1..];
    assert Fns(tasks[1..]) == Fns(tasks)[1..];
    var rest := GetAll(tasks[1..], [first.value]);
    r := if rest.Some? then Done(Shape(rest.value)) else Hung;
  }

  /** One more `get` in the loop of `Pipeline`: it either waits forever or moves one result over. */
  lemma PipeStep(S: seq<TaskState>, F: seq<Call -> Outcome>, prev: Value, i: nat, results: seq<Value>)
    requires |S| == |F| && i < |S|
    ensures Fetched(S[i], F[i], [prev], map[]).1.Blocked? ==> Pipe(S[i..], F[i..], prev) == None
    ensures Fetched(S[i], F[i], [prev], map[]).1.Got? ==>
              var v := Fetched(S[i], F[i], [prev], map[]).1.value;
              Prepend(results, Pipe(S[i..], F[i..], prev)) == Prepend(results + [v], Pipe(S[i + 1..], F[i + 1..], v))
  {
    assert S[i..][1..] == S[i + 1..] && F[i..][1..] == F[i + 1..];
    var g := Fetched(S[i], F[i], [prev], map[]).1;
    if g.Got? && Pipe(S[i + 1..], F[i + 1..], g.value).Some? {
      var ws := Pipe(S[i + 1..], F[i + 1..], g.value).value;
      assert results + ([g.value] + ws) == (results + [g.value]) + ws;
    }
  }

  /** `get` on each task in turn, passing each the result of the one before, starting from `prev`. */
  method GetEachFed(tasks: seq<Task>, prev: Value) returns (r: Option<seq<Value>>)
    modifies set t | t in tasks
    ensures Distinct(tasks) ==> r == Pipe(old(States(tasks)), Fns(tasks), prev)
  {
    ghost var S, F := States(tasks), Fns(tasks);
    var last := prev;
    var results: seq<Value> := [];
    var i := 0;
    assert S[0..] == S && F[0..] == F;
    PrependNothing([], Pipe(S, F, prev));
    while i < |tasks|
      invariant 0 <= i <= |tasks|
      invariant Distinct(tasks) ==> Pipe(S, F, prev) == Prepend(results, Pipe(S[i..], F[i..], last))
      invariant Distinct(tasks) ==> forall j :: i <= j < |tasks| ==> tasks[j].State() == S[j]
    {
      PipeStep(S, F, last, i, results);
      var g := GetOne(tasks, i, [last]);
      assert Distinct(tasks) ==> g == Fetched(S[i], F[i], [last], map[]).1;
      if g.Blocked? {
        return None;
      }
      results := results + [g.value];
      last := g.value;
      i := i + 1;
    }
    assert S[i..] == [];
    PrependNothing(results, None);
    r := Some(results);
  }

  /** `_chain` as documented: each task after the first receives its predecessor's result. */
  method Pipeline(tasks: seq<Task>) returns (r: Run)
    modifies set t | t in tasks
    ensures Distinct(tasks) ==> r == PipelineSpec(old(States(tasks)), Fns(tasks))
  {
    if |tasks| == 0 {
      return Failed("IndexError");
    }
    ghost var S := States(tasks);
    var first := tasks[0].Get([], map[]);
    if first.Blocked? {
      return Hung;
    }
    assert Distinct(tasks) ==> States(tasks[1..]) == S[1..];
    assert Fns(tasks[1..]) == Fns(tasks)[1..];
    var rest := GetEachFed(tasks[1..], first.value);
    r := if rest.Some? then Done(Shape(rest.value)) else Hung;
  }
}
