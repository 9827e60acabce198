/**
 * The documents the assistant persists in its `pledges` collection, and the
 * single-document lookup (`find_one` / `update_one` by `pledge_name`) that
 * both the pledge tool and the renewal scheduler rely on.
 */
module Documents {
  import opened Wrappers

  /**
   * How often a pledge renews. The pledge tool stores the word the model
   * chose (`"day"`, `"week"`, ...); the scheduler expects keyword arguments
   * of `timedelta`, modelled by their total length in milliseconds.
   */
  datatype Frequency = Named(word: string) | Duration(millis: int)

  datatype Pledge = Pledge(
    name: string,              // pledge_name
    saviorId: string,          // owning user
    activity: string,
    activityUnitType: string,
    toolCallQuery: string,
    co2eFactor: real,          // kilograms CO2e avoided per renewal
    frequency: Frequency,      // pledge_frequency
    impact: real,              // kilograms CO2e avoided so far
    streak: int,               // pledge_streak
    created: int,              // milliseconds
    lastUpdated: int)          // milliseconds

  /** Position of the first document named `name`, the one `find_one` and `update_one` pick. */
  function FindFirst(docs: seq<Pledge>, name: string): (r: Option<nat>)
    ensures r.Some? ==> r.value < |docs| && docs[r.value].name == name
  {
    if docs == [] then None
    else if docs[0].name == name then Some(0)
    else match FindFirst(docs[1..], name)
      case None => None
      case Some(i) => Some(i + 1)
  }

  /** The first match is the first: no earlier document has the name, and no match means no such document. */
  lemma {:induction false} FindFirstIsFirst(docs: seq<Pledge>, name: string)
    ensures FindFirst(docs, name).Some? ==> forall j :: 0 <= j < FindFirst(docs, name).value ==> docs[j].name != name
    ensures FindFirst(docs, name).None? <==> forall j :: 0 <= j < |docs| ==> docs[j].name != name
  {
    if docs != [] && docs[0].name != name {
      FindFirstIsFirst(docs[1..], name);
      assert forall j :: 1 <= j < |docs| ==> docs[j] == docs[1..][j - 1];
    }
  }

  /** `find_one({"pledge_name": name})`. */
  function FindOne(docs: seq<Pledge>, name: string): Option<Pledge>
  {
    match FindFirst(docs, name)
    case None => None
    case Some(i) => Some(docs[i])
  }

  /** Replacing the first match by a document of the same name keeps it the first match. */
  lemma ReplaceFirstKeepsLookup(docs: seq<Pledge>, name: string, d: Pledge)
    requires FindFirst(docs, name).Some? && d.name == name
    ensures FindFirst(docs[FindFirst(docs, name).value := d], name) == FindFirst(docs, name)
    ensures FindOne(docs[FindFirst(docs, name).value := d], name) == Some(d)
  {
    var i := FindFirst(docs, name).value;
    var docs' := docs[i := d];
    FindFirstIsFirst(docs, name);
    FindFirstIsFirst(docs', name);
    assert docs'[i].name == name;
    assert forall k :: 0 <= k < i ==> docs'[k] == docs[k];
    var j := FindFirst(docs', name);
    assert j.Some? && j.value <= i;
    assert j.value == i;
  }

  /** Appending a document never changes which document an existing name finds. */
  lemma AppendKeepsLookup(docs: seq<Pledge>, name: string, d: Pledge)
    requires FindFirst(docs, name).Some?
    ensures FindOne(docs + [d], name) == FindOne(docs, name)
  {
    var i := FindFirst(docs, name).value;
    var j := FindFirst(docs + [d], name);
    FindFirstIsFirst(docs, name);
    FindFirstIsFirst(docs + [d], name);
    assert (docs + [d])[i] == docs[i];
    assert j.Some? && j.value == i;
  }
}
