/**
 * The decidable logic of the assistant's tools (`ModelTools`): unit
 * classification for an emissions calculation, the period a user's emission
 * total starts from, the running-total and budget arithmetic, and pledge
 * creation with its duplicate-name check.
 *
 * The emission-factor search, the carbon calculator and the store's summing
 * aggregation are outside the model: they are the functions of `Services`.
 */
module Tools {
  import opened Wrappers
  import opened Calendar
  import opened Documents

  /** What a tool raises. */
  datatype ToolError =
    | ValueError(message: string)
    | RecursionError        // a tracking frequency of "current" re-dispatches forever
    | UnboundLocalError     // neither a period nor a time delta: no start date is ever bound
    | OverflowError         // now minus the time delta falls outside `datetime.min` .. `datetime.max`

  const INVALID_UNIT := "The unit for activity must be `money` or a valid weight metric"
  const INVALID_PERIOD := "That is NOT a valid function call, ask the user what time period to search for emissions from"
  const NAME_TAKEN := "That pledge name is taken already. Kindly ask the user to specify another name"

  /** Units accepted as a weight metric (`kWh` included, as the source lists it). */
  const WEIGHT_UNITS: seq<string> := ["kWh", "g", "kg", "lb", "t", "ton"]

  /** Period words that name a start date directly. */
  const PERIODS: seq<string> := ["historical", "today", "day", "week", "month", "year"]

  /** The user's record in the `saviors` collection. */
  datatype Savior = Savior(id: string, currency: string, emissionsBudget: real, emissionFrequency: string)

  /** The best-matching emission factor of the vector search. */
  datatype Factor = Factor(activityId: string, activity: string)

  /** A document of the `logs` collection. */
  datatype LogEntry = LogEntry(saviorId: string, created: int, calculation: Calculation)

  /** Collaborators the tools call but whose logic is not modelled. */
  datatype Services = Services(
    savior: Savior,
    searchFactor: (string, string) -> Factor,            // (activity, unit type)
    emissions: (real, string, string, string) -> real,   // (value, activity id, unit type, unit) to kg CO2e
    sumSince: (seq<LogEntry>, int) -> real)              // total co2e of the user's logs dated after an instant

  /** The dictionary `_calculate` returns. */
  datatype Calculation = Calculation(
    co2e: real,
    activityUnitType: string,
    activityId: string,
    activity: string,
    activityUnit: string,
    activityValue: real,
    toolCallQuery: string)

  datatype UnitChoice = UnitChoice(unitType: string, unit: string)

  /** The unit branch of `_calculate`: money takes the user's currency, a weight metric is kept. */
  function ClassifyUnit(unit: string, currency: string): (r: Result<UnitChoice, ToolError>)
    ensures r.Ok? <==> unit == "money" || unit in WEIGHT_UNITS
    ensures r.Err? ==> r.error == ValueError(INVALID_UNIT)
    ensures r.Ok? ==> (r.value.unitType == "money" <==> unit == "money")
    ensures r.Ok? ==> (r.value.unitType == "weight" <==> unit != "money")
    ensures r.Ok? && unit == "money" ==> r.value.unit == currency
    ensures r.Ok? && unit != "money" ==> r.value.unit == unit
  {
    if unit == "money" then Ok(UnitChoice("money", currency))
    else if unit !in WEIGHT_UNITS then Err(ValueError(INVALID_UNIT))
    else Ok(UnitChoice("weight", unit))
  }

  /** `_calculate`: classify the unit, look up a factor, compute the emissions. */
  function Calculate(svc: Services, activity: string, value: real, unit: string): (r: Result<Calculation, ToolError>)
    ensures r.Err? <==> ClassifyUnit(unit, svc.savior.currency).Err?
    ensures r.Ok? ==> r.value.activityValue == value && r.value.toolCallQuery == activity
    ensures r.Ok? ==> r.value.activityUnit == (if unit == "money" then svc.savior.currency else unit)
    ensures r.Ok? ==> r.value.activityUnitType == (if unit == "money" then "money" else "weight")
    ensures r.Ok? ==> var f := svc.searchFactor(activity, r.value.activityUnitType);
                      && r.value.activityId == f.activityId && r.value.activity == f.activity
                      && r.value.co2e == svc.emissions(value, f.activityId, r.value.activityUnitType, r.value.activityUnit)
  {
    match ClassifyUnit(unit, svc.savior.currency)
    case Err(e) => Err(e)
    case Ok(choice) =>
      var factor := svc.searchFactor(activity, choice.unitType);
      var co2e := svc.emissions(value, factor.activityId, choice.unitType, choice.unit);
      Ok(Calculation(co2e, choice.unitType, factor.activityId, factor.activity,
                     choice.unit, value, activity))
  }

  /** Python truthiness of an optional string argument. */
  predicate Truthy(s: Option<string>) {
    s.Some? && s.value != ""
  }

  /** Start instant for a period word other than `current`. */
  function PeriodStart(period: string, now: Instant): (r: Result<int, ToolError>)
    ensures r.Ok? <==> period in PERIODS
    ensures r.Err? ==> r.error == ValueError(INVALID_PERIOD)
  {
    if period == "historical" then Ok(0)
    else if period == "today" || period == "day" then Ok(DayStart(now))
    else if period == "week" then Ok(WeekStart(now))
    else if period == "month" then Ok(MonthStart(now))
    else if period == "year" then Ok(YearStart(now))
    else Err(ValueError(INVALID_PERIOD))
  }

  /**
   * The start date `get_user_emissions` totals from. `current` re-dispatches
   * to the user's tracking frequency, passing no time delta.
   */
  function EmissionsStart(period: Option<string>, timeDelta: Option<int>, now: Instant, frequency: string): (r: Result<int, ToolError>)
    ensures r.Err? <==> if Truthy(period) then (if period.value == "current" then frequency else period.value) !in PERIODS
                        else timeDelta.None? || !(0 <= ToMillis(now) - timeDelta.value <= MAX_MILLIS)
    ensures r.Err? && !Truthy(period) ==> r.error == (if timeDelta.None? then UnboundLocalError else OverflowError)
    ensures r.Err? && Truthy(period) && period.value == "current" ==>
              r.error == (if frequency == "" then UnboundLocalError
                          else if frequency == "current" then RecursionError
                          else ValueError(INVALID_PERIOD))
    ensures r.Ok? && Truthy(period) ==> r == PeriodStart(if period.value == "current" then frequency else period.value, now)
    ensures r.Ok? && !Truthy(period) ==> r.value == ToMillis(now) - timeDelta.value && 0 <= r.value <= MAX_MILLIS
  {
    if Truthy(period) then
      if period.value == "current" then
        if frequency == "" then Err(UnboundLocalError)
        else if frequency == "current" then Err(RecursionError)
        else PeriodStart(frequency, now)
      else PeriodStart(period.value, now)
    else if timeDelta.Some? then
      var start := ToMillis(now) - timeDelta.value;
      if 0 <= start <= MAX_MILLIS then Ok(start) else Err(OverflowError)
    else Err(UnboundLocalError)
  }

  /** Asking for `current` is asking for the user's own tracking frequency. */
  lemma CurrentIsTrackingFrequency(now: Instant, timeDelta: Option<int>, frequency: string)
    requires frequency != "current"
    ensures EmissionsStart(Some("current"), timeDelta, now, frequency)
         == EmissionsStart(Some(frequency), None, now, frequency)
  {
  }

  /** Every named period starts no later than now, and the calendar ones within the current year. */
  lemma {:induction false} PeriodStartBounds(period: string, now: Instant)
    requires PeriodStart(period, now).Ok?
    ensures PeriodStart(period, now).value <= ToMillis(now)
    ensures period in ["today", "day", "month", "year"] ==>
              YearStart(now) <= PeriodStart(period, now).value && PeriodStart(period, now).value % DAY == 0
    ensures period == "week" ==> ToMillis(now) - 7 * DAY < PeriodStart(period, now).value
                                 && 0 <= PeriodStart(period, now).value && WeekdayAt(PeriodStart(period, now).value) == 0
  {
    PeriodStartsNested(now);
    if period == "week" {
      WeekStartIsMonday(now);
    }
  }

  /** `get_user_emissions`' result: the formatted string for a tool call, the raw number otherwise. */
  datatype Emissions = Formatted(kilograms: real) | Raw(kilograms: real)

  function UserEmissions(svc: Services, logs: seq<LogEntry>, period: Option<string>, timeDelta: Option<int>,
                         fromToolCall: bool, now: Instant): (r: Result<Emissions, ToolError>)
    ensures r.Err? <==> EmissionsStart(period, timeDelta, now, svc.savior.emissionFrequency).Err?
    ensures r.Ok? ==> (r.value.Formatted? <==> fromToolCall)
    ensures r.Ok? ==> r.value.kilograms
                      == svc.sumSince(logs, EmissionsStart(period, timeDelta, now, svc.savior.emissionFrequency).value)
  {
    match EmissionsStart(period, timeDelta, now, svc.savior.emissionFrequency)
    case Err(e) => Err(e)
    case Ok(start) =>
      var total := svc.sumSince(logs, start);
      if fromToolCall then Ok(Formatted(total)) else Ok(Raw(total))
  }

  /** An unrecognised period word raises whatever the tracking frequency is. */
  lemma UnknownPeriodRaises(svc: Services, logs: seq<LogEntry>, period: string, fromToolCall: bool, now: Instant)
    requires period != "" && period != "current" && period !in PERIODS
    ensures UserEmissions(svc, logs, Some(period), None, fromToolCall, now) == Err(ValueError(INVALID_PERIOD))
  {
  }

  /** What `calculate_emissions` reports (the numbers of its f-strings). */
  datatype Report =
    | Updated(co2e: real, budgetLeft: real)        // "Emissions updated: ... CO2e Budget left: ..."
    | Calculated(co2e: real, budgetIfTaken: real)  // "Emissions calculated: ... leftover budget if activity is taken: ..."

  /** The reply of `make_pledge`, quoting the name as the user gave it. */
  datatype PledgeAck = PledgeAck(name: string, frequency: string, avoidedPerPeriod: real)

  /** ASCII case folding of `str.lower`. */
  function LowerChar(c: char): char {
    if 'A' <= c <= 'Z' then (c as int + 32) as char else c
  }

  function Lower(s: string): (r: string)
    ensures |r| == |s|
    ensures forall i :: 0 <= i < |s| ==> r[i] == LowerChar(s[i])
  {
    seq(|s|, i requires 0 <= i < |s| => LowerChar(s[i]))
  }

  lemma LowerIdempotent(s: string)
    ensures Lower(Lower(s)) == Lower(s)
  {
  }

  /** `active_pledges`: the distinct pledge names stored for the user. */
  function ActivePledges(docs: seq<Pledge>, saviorId: string): set<string>
  {
    set d | d in docs && d.saviorId == saviorId :: d.name
  }

  /** The duplicate test as `make_pledge` writes it: exact, case-sensitive membership. */
  predicate NameTakenAsWritten(active: set<string>, name: string)
    ensures NameTakenAsWritten(active, name) ==> NameTaken(active, name)
    ensures NameTaken(active, name) && !NameTakenAsWritten(active, name) ==>
              exists n :: n in active && n != name && Lower(n) == Lower(name)
  {
    name in active
  }

  /** The duplicate test the stored lower-case names call for. */
  predicate NameTaken(active: set<string>, name: string) {
    exists n :: n in active && Lower(n) == Lower(name)
  }

  /** A user's pledge names are stored lower-cased and never repeat. */
  ghost predicate UniqueNames(docs: seq<Pledge>, saviorId: string) {
    forall i, j :: 0 <= i < j < |docs| && docs[i].saviorId == saviorId && docs[j].saviorId == saviorId
                   ==> docs[i].name != docs[j].name
  }

  ghost predicate LowerCaseNames(docs: seq<Pledge>) {
    forall i :: 0 <= i < |docs| ==> Lower(docs[i].name) == docs[i].name
  }

  /** The record `make_pledge` inserts for a successful calculation. */
  function NewPledge(svc: Services, c: Calculation, name: string, frequency: string, now: Instant): (p: Pledge)
    ensures p.impact == 0.0 && p.streak == 1
    ensures p.created == p.lastUpdated == ToMillis(now)
    ensures p.name == Lower(name) && p.saviorId == svc.savior.id
    ensures p.co2eFactor == c.co2e && p.frequency == Named(frequency)
  {
    Pledge(name := Lower(name), saviorId := svc.savior.id, activity := c.activity,
           activityUnitType := c.activityUnitType, toolCallQuery := c.toolCallQuery,
           co2eFactor := c.co2e, frequency := Named(frequency), impact := 0.0, streak := 1,
           created := ToMillis(now), lastUpdated := ToMillis(now))
  }

  /**
   * Finding: over stored lower-case names, the as-written check lets through
   * every name that is not itself lower-case but whose lower-cased form is
   * stored (`Plastic` over `plastic`). The corrected check refuses it, and the
   * record the as-written check lets in repeats a stored name.
   */
  lemma CaseVariantSlipsThrough(svc: Services, docs: seq<Pledge>, c: Calculation, name: string, frequency: string,
                                now: Instant)
    requires LowerCaseNames(docs)
    requires name != Lower(name) && Lower(name) in ActivePledges(docs, svc.savior.id)
    ensures !NameTakenAsWritten(ActivePledges(docs, svc.savior.id), name)
    ensures NameTaken(ActivePledges(docs, svc.savior.id), name)
    ensures !UniqueNames(docs + [NewPledge(svc, c, name, frequency, now)], svc.savior.id)
  {
    var id := svc.savior.id;
    forall d | d in docs && d.saviorId == id
      ensures d.name != name
    {
      var j :| 0 <= j < |docs| && docs[j] == d;
      assert Lower(docs[j].name) == docs[j].name;
    }
    LowerIdempotent(name);
    var d :| d in docs && d.saviorId == id && d.name == Lower(name);
    var i :| 0 <= i < |docs| && docs[i] == d;
    var all := docs + [NewPledge(svc, c, name, frequency, now)];
    assert all[i].name == all[|docs|].name && all[i].saviorId == all[|docs|].saviorId;
  }

  /** The example of the finding: `Plastic` over a stored `plastic`. */
  lemma PlasticSlipsThrough(svc: Services, stored: Pledge, c: Calculation, now: Instant)
    requires stored.name == "plastic" && stored.saviorId == svc.savior.id
    ensures !NameTakenAsWritten(ActivePledges([stored], svc.savior.id), "Plastic")
    ensures !UniqueNames([stored, NewPledge(svc, c, "Plastic", "day", now)], svc.savior.id)
  {
    assert Lower("Plastic") == "plastic";
    assert "plastic" != "Plastic";
    assert Lower([stored][0].name) == [stored][0].name;
    CaseVariantSlipsThrough(svc, [stored], c, "Plastic", "day", now);
    assert [stored] + [NewPledge(svc, c, "Plastic", "day", now)] == [stored, NewPledge(svc, c, "Plastic", "day", now)];
  }

  /** The corrected check refuses every case variant of a stored name. */
  lemma NameTakenRefusesCaseVariants(active: set<string>, name: string, variant: string)
    requires name in active && Lower(variant) == Lower(name)
    ensures NameTaken(active, variant)
  {
  }

  /** A name the corrected check admits keeps the stored names unique and lower-cased. */
  lemma {:induction false} AdmittedNameKeepsUnique(docs: seq<Pledge>, saviorId: string, p: Pledge, name: string)
    requires UniqueNames(docs, saviorId) && LowerCaseNames(docs)
    requires !NameTaken(ActivePledges(docs, saviorId), name)
    requires p.name == Lower(name) && p.saviorId == saviorId
    ensures UniqueNames(docs + [p], saviorId) && LowerCaseNames(docs + [p])
  {
    var docs' := docs + [p];
    LowerIdempotent(name);
    forall i, j | 0 <= i < j < |docs'| && docs'[i].saviorId == saviorId && docs'[j].saviorId == saviorId
      ensures docs'[i].name != docs'[j].name
    {
      if j == |docs| {
        var d := docs[i];
        assert d in docs;
        assert d.name in ActivePledges(docs, saviorId);
        assert Lower(d.name) != Lower(name);
      }
    }
  }

  /** The match filter `get_active_pledges` builds: the user, and the lower-cased names if any. */
  datatype PledgeFilter = PledgeFilter(saviorId: string, names: Option<seq<string>>)

  function ActivePledgesFilter(saviorId: string, pledgeNames: seq<string>): (f: PledgeFilter)
    ensures f.saviorId == saviorId
    ensures f.names.Some? <==> pledgeNames != []
    ensures f.names.Some? ==> |f.names.value| == |pledgeNames|
    ensures f.names.Some? ==> forall i :: 0 <= i < |pledgeNames| ==> f.names.value[i] == Lower(pledgeNames[i])
  {
    if pledgeNames == [] then PledgeFilter(saviorId, None)
    else PledgeFilter(saviorId, Some(seq(|pledgeNames|, i requires 0 <= i < |pledgeNames| => Lower(pledgeNames[i]))))
  }

  predicate Matches(f: PledgeFilter, d: Pledge) {
    d.saviorId == f.saviorId && (f.names.Some? ==> d.name in f.names.value)
  }

  /** A stored pledge is selected iff it is the user's and, when names were given, one of them lower-cased. */
  lemma FilterSelects(saviorId: string, pledgeNames: seq<string>, d: Pledge)
    ensures Matches(ActivePledgesFilter(saviorId, pledgeNames), d)
        <==> d.saviorId == saviorId
             && (pledgeNames == [] || exists i :: 0 <= i < |pledgeNames| && d.name == Lower(pledgeNames[i]))
  {
    var f := ActivePledgesFilter(saviorId, pledgeNames);
    if pledgeNames != [] && d.name in f.names.value {
      var k :| 0 <= k < |f.names.value| && f.names.value[k] == d.name;
      assert d.name == Lower(pledgeNames[k]);
    }
  }

  /** Python's `str` of a list whose elements render as `items`. */
  function ListText(items: seq<string>): (r: string)
    ensures |r| >= 2 && r[0] == '['
  {
    "[" + Join(items) + "]"
  }

  function Join(items: seq<string>): string {
    if items == [] then "" else if |items| == 1 then items[0] else items[0] + ", " + Join(items[1..])
  }

  function Quoted(names: seq<string>): seq<string> {
    seq(|names|, i requires 0 <= i < |names| => "'" + names[i] + "'")
  }

  function NoPledgesText(pledgeNames: seq<string>): (r: string)
    ensures |r| > 0 && r[0] == 'N'
  {
    "No pledges with names " + ListText(Quoted(pledgeNames))
      + " were found. Try listing the user's active pledges to them"
  }

  /** `str(pledge_impacts) or <fallback>` as written, over the rendered groups. */
  function ActivePledgesReplyAsWritten(groups: seq<string>, pledgeNames: seq<string>): (r: string)
    ensures r == ListText(groups)
  {
    var listing := ListText(groups);
    if listing != "" then listing else NoPledgesText(pledgeNames)
  }

  /** Finding: the string of a list is never empty, so the fallback is never given, not even for no match. */
  lemma FallbackUnreachable(groups: seq<string>, pledgeNames: seq<string>)
    ensures ActivePledgesReplyAsWritten(groups, pledgeNames) != NoPledgesText(pledgeNames)
    ensures ActivePledgesReplyAsWritten([], pledgeNames) == "[]"
  {
    assert ActivePledgesReplyAsWritten(groups, pledgeNames)[0] == '[';
  }

  /** The reply as intended: the fallback exactly when no pledge matched. */
  function ActivePledgesReply(groups: seq<string>, pledgeNames: seq<string>): (r: string)
    ensures r == NoPledgesText(pledgeNames) <==> groups == []
    ensures |r| > 0 && (r[0] == '[' <==> groups != [])
  {
    if groups == [] then NoPledgesText(pledgeNames) else ListText(groups)
  }

  /** The tool object with the two collections its tools insert into. */
  class ModelTools {
    const svc: Services
    var pledges: seq<Pledge>
    var logs: seq<LogEntry>

    constructor (svc: Services, pledges: seq<Pledge>, logs: seq<LogEntry>)
      ensures this.svc == svc && this.pledges == pledges && this.logs == logs
    {
      this.svc := svc;
      this.pledges := pledges;
      this.logs := logs;
    }

    /** `log_emissions`: one insert, and the previous current total plus the new emissions. */
    method LogEmissions(doc: Calculation, now: Instant) returns (r: Result<(real, real), ToolError>)
      modifies this
      ensures pledges == old(pledges)
      ensures match UserEmissions(svc, old(logs), Some("current"), None, false, now)
              case Err(e) => r == Err(e) && logs == old(logs)
              case Ok(previous) =>
                && r == Ok((doc.co2e, previous.kilograms + doc.co2e))
                && logs == old(logs) + [LogEntry(svc.savior.id, ToMillis(now), doc)]
    {
      var previous := UserEmissions(svc, logs, Some("current"), None, false, now);
      if previous.Err? {
        return Err(previous.error);
      }
      var co2e := doc.co2e;
      var newTotal := previous.value.kilograms + co2e;
      logs := logs + [LogEntry(svc.savior.id, ToMillis(now), doc)];
      r := Ok((co2e, newTotal));
    }

    /** `calculate_emissions`: the remaining budget, logging the activity only when asked to. */
    method CalculateEmissions(activity: string, value: real, unit: string, update: bool, now: Instant)
      returns (r: Result<Report, ToolError>)
      modifies this
      ensures pledges == old(pledges)
      ensures !update ==> logs == old(logs)
      ensures Calculate(svc, activity, value, unit).Err? ==>
                r == Err(Calculate(svc, activity, value, unit).error) && logs == old(logs)
      ensures Calculate(svc, activity, value, unit).Ok? ==>
                var c := Calculate(svc, activity, value, unit).value;
                match UserEmissions(svc, old(logs), Some("current"), None, false, now)
                case Err(e) => r == Err(e) && logs == old(logs)
                case Ok(current) =>
                  && (update ==> r == Ok(Updated(c.co2e, svc.savior.emissionsBudget - (current.kilograms + c.co2e)))
                                 && logs == old(logs) + [LogEntry(svc.savior.id, ToMillis(now), c)])
                  && (!update ==> r == Ok(Calculated(c.co2e, svc.savior.emissionsBudget - (c.co2e + current.kilograms))))
    {
      var calculation := Calculate(svc, activity, value, unit);
      if calculation.Err? {
        return Err(calculation.error);
      }
      var budget := svc.savior.emissionsBudget;
      if update {
        var logged := LogEmissions(calculation.value, now);
        if logged.Err? {
          return Err(logged.error);
        }
        var (co2e, newTotal) := logged.value;
        r := Ok(Updated(co2e, budget - newTotal));
      } else {
        var co2e := calculation.value.co2e;
        var current := UserEmissions(svc, logs, Some("current"), None, false, now);
        if current.Err? {
          return Err(current.error);
        }
        r := Ok(Calculated(co2e, budget - (co2e + current.value.kilograms)));
      }
    }

    /**
     * `make_pledge` with the duplicate check corrected to ignore case (see
     * `NameTakenAsWritten` for the source's check): a taken name or a failed
     * calculation raises and inserts nothing; otherwise exactly one new record.
     */
    method MakePledge(activity: string, unit: string, value: real, frequency: string, name: string, now: Instant)
      returns (r: Result<PledgeAck, ToolError>)
      modifies this
      ensures logs == old(logs)
      ensures NameTaken(ActivePledges(old(pledges), svc.savior.id), name) ==>
                r == Err(ValueError(NAME_TAKEN)) && pledges == old(pledges)
      ensures !NameTaken(ActivePledges(old(pledges), svc.savior.id), name) ==>
                match Calculate(svc, activity, value, unit)
                case Err(e) => r == Err(e) && pledges == old(pledges)
                case Ok(c) => && pledges == old(pledges) + [NewPledge(svc, c, name, frequency, now)]
                              && r == Ok(PledgeAck(name, frequency, c.co2e))
      ensures UniqueNames(old(pledges), svc.savior.id) && LowerCaseNames(old(pledges))
              ==> UniqueNames(pledges, svc.savior.id) && LowerCaseNames(pledges)
    {
      if NameTaken(ActivePledges(pledges, svc.savior.id), name) {
        return Err(ValueError(NAME_TAKEN));
      }
      var calculation := Calculate(svc, activity, value, unit);
      if calculation.Err? {
        return Err(calculation.error);
      }
      var c := calculation.value;
      var pledge := NewPledge(svc, c, name, frequency, now);
      if UniqueNames(pledges, svc.savior.id) && LowerCaseNames(pledges) {
        AdmittedNameKeepsUnique(pledges, svc.savior.id, pledge, name);
      }
      pledges := pledges + [pledge];
      r := Ok(PledgeAck(name, frequency, c.co2e));
    }

    /**
     * `make_pledge` as written: the duplicate check is exact membership, so a
     * case variant of a stored name is admitted and its lower-cased record
     * repeats the stored name.
     */
    method MakePledgeAsWritten(activity: string, unit: string, value: real, frequency: string, name: string, now: Instant)
      returns (r: Result<PledgeAck, ToolError>)
      modifies this
      ensures logs == old(logs)
      ensures NameTakenAsWritten(ActivePledges(old(pledges), svc.savior.id), name) ==>
                r == Err(ValueError(NAME_TAKEN)) && pledges == old(pledges)
      ensures !NameTakenAsWritten(ActivePledges(old(pledges), svc.savior.id), name) ==>
                match Calculate(svc, activity, value, unit)
                case Err(e) => r == Err(e) && pledges == old(pledges)
                case Ok(c) => && pledges == old(pledges) + [NewPledge(svc, c, name, frequency, now)]
                              && r == Ok(PledgeAck(name, frequency, c.co2e))
      ensures && LowerCaseNames(old(pledges)) && Calculate(svc, activity, value, unit).Ok?
              && name != Lower(name) && Lower(name) in ActivePledges(old(pledges), svc.savior.id)
              ==> r.Ok? && !UniqueNames(pledges, svc.savior.id)
    {
      if NameTakenAsWritten(ActivePledges(pledges, svc.savior.id), name) {
        return Err(ValueError(NAME_TAKEN));
      }
      var calculation := Calculate(svc, activity, value, unit);
      if calculation.Err? {
        return Err(calculation.error);
      }
      var c := calculation.value;
      if LowerCaseNames(pledges) && name != Lower(name) && Lower(name) in ActivePledges(pledges, svc.savior.id) {
        CaseVariantSlipsThrough(svc, pledges, c, name, frequency, now);
      }
      pledges := pledges + [NewPledge(svc, c, name, frequency, now)];
      r := Ok(PledgeAck(name, frequency, c.co2e));
    }
  }
}
