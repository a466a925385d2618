/** The server's revision ledger: `(revision, time)` entries in append order
    (oldest first), persisted as a JSON document `{"revisions": [...]}`. */
module RevisionLists {
  import opened Wrappers

  /** A timestamp, supplied by the caller (the wall clock is not modelled). */
  type Time = real

  datatype RevisionEntry = RevisionEntry(revision: string, time: Time)

  /** JSON values, as `json.loads` produces them and `json.dumps` consumes them. */
  datatype Json =
    | JNull
    | JBool(b: bool)
    | JNumber(n: real)
    | JString(s: string)
    | JArray(items: seq<Json>)
    | JObject(fields: map<string, Json>)

  datatype FormatError = FormatError(reason: string)

  // ----- Specification of the ledger as a sequence of entries -----

  /** `_find_revision_index`: the first position holding `id`, if any. */
  function FirstIndex(s: seq<RevisionEntry>, id: string): (r: Option<nat>)
    ensures r.Some? ==> r.value < |s| && s[r.value].revision == id
    ensures r.Some? ==> forall j :: 0 <= j < r.value ==> s[j].revision != id
    ensures r.None? ==> forall j :: 0 <= j < |s| ==> s[j].revision != id
  {
    if s == [] then None
    else if s[0].revision == id then Some(0)
    else match FirstIndex(s[1..], id)
      case None => None
      case Some(i) => Some(i + 1)
  }

  function RemoveAt(s: seq<RevisionEntry>, i: nat): (r: seq<RevisionEntry>)
    requires i < |s|
    ensures |r| == |s| - 1
  {
    s[..i] + s[i + 1..]
  }

  /** `latest_revision`: the last entry, or none for an empty ledger. */
  function Latest(s: seq<RevisionEntry>): Option<RevisionEntry> {
    if s == [] then None else Some(s[|s| - 1])
  }

  /** The ledger after `add_revision(id)` at time `now`, as the code is written:
      a no-op when `id` is the latest; otherwise an earlier entry for `id` is
      dropped, except at position 0, which the truth test reads as "not found";
      then `(id, now)` is appended. */
  function AddedRevision(s: seq<RevisionEntry>, id: string, now: Time): seq<RevisionEntry> {
    if Latest(s).Some? && Latest(s).value.revision == id then s
    else
      var kept := match FirstIndex(s, id)
        case Some(i) => if i != 0 then RemoveAt(s, i) else s
        case None => s;
      kept + [RevisionEntry(id, now)]
  }

  /** `add_revision` with the evident intent: any earlier entry for `id`, at
      whatever position, is dropped before appending. */
  function AddedRevisionFixed(s: seq<RevisionEntry>, id: string, now: Time): seq<RevisionEntry> {
    if Latest(s).Some? && Latest(s).value.revision == id then s
    else
      var kept := match FirstIndex(s, id)
        case Some(i) => RemoveAt(s, i)
        case None => s;
      kept + [RevisionEntry(id, now)]
  }

  /** The ledger after `remove_revision(id)`: the first entry for `id` is gone. */
  function RemovedRevision(s: seq<RevisionEntry>, id: string): seq<RevisionEntry> {
    match FirstIndex(s, id)
    case None => s
    case Some(i) => RemoveAt(s, i)
  }

  /** `as_list`: newest first. */
  function Reversed(s: seq<RevisionEntry>): (r: seq<RevisionEntry>)
    ensures |r| == |s|
    ensures forall i :: 0 <= i < |s| ==> r[i] == s[|s| - 1 - i]
  {
    if s == [] then [] else [s[|s| - 1]] + Reversed(s[..|s| - 1])
  }

  /** At most one entry per revision id: the invariant the ledger is meant to keep. */
  predicate Unique(s: seq<RevisionEntry>) {
    forall i, j :: 0 <= i < j < |s| ==> s[i].revision != s[j].revision
  }

  // ----- JSON encoding -----

  function EncodeEntry(e: RevisionEntry): Json {
    JObject(map["revision" := JString(e.revision), "time" := JNumber(e.time)])
  }

  function EncodeEntries(s: seq<RevisionEntry>): (r: seq<Json>)
    ensures |r| == |s|
  {
    if s == [] then [] else [EncodeEntry(s[0])] + EncodeEntries(s[1..])
  }

  /** `dumps`: the entries in stored order under the key `revisions`. */
  function Encode(s: seq<RevisionEntry>): Json {
    JObject(map["revisions" := JArray(EncodeEntries(s))])
  }

  function DecodeEntry(j: Json): Result<RevisionEntry, FormatError> {
    if !j.JObject? then Err(FormatError("entry is not an object"))
    else if "revision" !in j.fields || "time" !in j.fields then Err(FormatError("entry lacks a key"))
    else
      var rev := j.fields["revision"];
      var time := j.fields["time"];
      if !rev.JString? || !time.JNumber? then Err(FormatError("entry has a value of the wrong kind"))
      else Ok(RevisionEntry(rev.s, time.n))
  }

  function DecodeEntries(items: seq<Json>): (r: Result<seq<RevisionEntry>, FormatError>)
    ensures r.Ok? ==> |r.value| == |items|
  {
    if items == [] then Ok([])
    else match DecodeEntry(items[0])
      case Err(e) => Err(e)
      case Ok(first) =>
        match DecodeEntries(items[1..])
        case Err(e) => Err(e)
        case Ok(rest) => Ok([first] + rest)
  }

  /** `loads`: the entries under `revisions`, in document order. */
  function Decode(doc: Json): Result<seq<RevisionEntry>, FormatError> {
    if !doc.JObject? || "revisions" !in doc.fields then Err(FormatError("no revisions key"))
    else if !doc.fields["revisions"].JArray? then Err(FormatError("revisions is not a list"))
    else DecodeEntries(doc.fields["revisions"].items)
  }

  // ----- The ledger object -----

  class RevisionList {
    var data: seq<RevisionEntry>

    constructor ()
      ensures data == []
    {
      data := [];
    }

    /** `RevisionList.loads` */
    static method Loads(doc: Json) returns (r: Result<RevisionList, FormatError>)
      ensures r.Err? <==> Decode(doc).Err?
      ensures r.Ok? ==> fresh(r.value) && r.value.data == Decode(doc).value
    {
      var decoded := Decode(doc);
      if decoded.Err? {
        return Err(decoded.error);
      }
      var ret := new RevisionList();
      ret.data := decoded.value;
      return Ok(ret);
    }

    /** `dumps` */
    function Dumps(): Json
      reads this
    {
      Encode(data)
    }

    /** `__eq__`: equal serialised forms. */
    predicate Equals(other: RevisionList)
      reads this, other
    {
      Dumps() == other.Dumps()
    }

    /** `latest_revision` */
    function LatestRevision(): (r: Option<RevisionEntry>)
      reads this
      ensures r.None? <==> data == []
      ensures r.Some? ==> r.value == data[|data| - 1]
    {
      Latest(data)
    }

    /** `_find_revision_index`: a linear scan for the first entry with `id`. */
    method FindRevisionIndex(id: string) returns (r: Option<nat>)
      ensures r.Some? ==> r.value < |data| && data[r.value].revision == id
      ensures r.Some? ==> forall j :: 0 <= j < r.value ==> data[j].revision != id
      ensures r.None? ==> forall j :: 0 <= j < |data| ==> data[j].revision != id
    {
      var i := 0;
      while i < |data|
        invariant 0 <= i <= |data|
        invariant forall j :: 0 <= j < i ==> data[j].revision != id
      {
        if data[i].revision == id {
          return Some(i);
        }
        i := i + 1;
      }
      return None;
    }

    /** `get_time`: the time of the first entry with `id`, or none. */
    function GetTime(id: string): (r: Option<Time>)
      reads this
      ensures r.None? <==> forall j :: 0 <= j < |data| ==> data[j].revision != id
      ensures r.Some? ==> exists j :: (0 <= j < |data| && data[j] == RevisionEntry(id, r.value)
                                       && forall k :: 0 <= k < j ==> data[k].revision != id)
    {
      match FirstIndex(data, id)
      case None => None
      case Some(i) => Some(data[i].time)
    }

    /** `as_list`: the entries newest first; the ledger is left as it is. */
    function AsList(): (r: seq<RevisionEntry>)
      reads this
      ensures |r| == |data|
      ensures forall i :: 0 <= i < |data| ==> r[i] == data[|data| - 1 - i]
    {
      Reversed(data)
    }

    /** `add_revision` */
    method AddRevision(id: string, now: Time)
      modifies this
      ensures data == AddedRevision(old(data), id, now)
    {
      var lt := LatestRevision();
      if lt.Some? && lt.value.revision == id {
        return;
      }
      var index := FindRevisionIndex(id);
      assert index == FirstIndex(data, id) by { FirstIndexUnique(data, id, index); }
      if index.Some? && index.value != 0 {
        data := data[..index.value] + data[index.value + 1..];
      }
      data := data + [RevisionEntry(id, now)];
    }

    /** `remove_revision` */
    method RemoveRevision(id: string)
      modifies this
      ensures data == RemovedRevision(old(data), id)
    {
      var index := FindRevisionIndex(id);
      assert index == FirstIndex(data, id) by { FirstIndexUnique(data, id, index); }
      if index.None? {
        return;
      }
      data := data[..index.value] + data[index.value + 1..];
    }
  }

  /** The first-match characterisation pins down the index. */
  lemma FirstIndexUnique(s: seq<RevisionEntry>, id: string, r: Option<nat>)
    requires r.Some? ==> r.value < |s| && s[r.value].revision == id
    requires r.Some? ==> forall j :: 0 <= j < r.value ==> s[j].revision != id
    requires r.None? ==> forall j :: 0 <= j < |s| ==> s[j].revision != id
    ensures r == FirstIndex(s, id)
  {
  }

  // ----- Properties -----

  /** `loads(dumps(l))` gives back `l`'s entries. */
  lemma {:induction false} DecodeEncode(s: seq<RevisionEntry>)
    ensures Decode(Encode(s)) == Ok(s)
  {
    EntriesRoundTrip(s);
  }

  lemma {:induction false} EntriesRoundTrip(s: seq<RevisionEntry>)
    ensures DecodeEntries(EncodeEntries(s)) == Ok(s)
  {
    if s != [] {
      EntriesRoundTrip(s[1..]);
      assert EncodeEntries(s)[1..] == EncodeEntries(s[1..]);
      assert [s[0]] + s[1..] == s;
    }
  }

  /** Two ledgers are equal (same serialised form) exactly when they hold the same entries in the same order. */
  lemma EqualityIsSameEntries(a: seq<RevisionEntry>, b: seq<RevisionEntry>)
    ensures Encode(a) == Encode(b) <==> a == b
  {
    if Encode(a) == Encode(b) {
      DecodeEncode(a);
      DecodeEncode(b);
    }
  }

  /** Re-adding the latest revision changes nothing: order and times stay. */
  lemma AddLatestIsNoOp(s: seq<RevisionEntry>, id: string, now: Time)
    requires s != [] && s[|s| - 1].revision == id
    ensures AddedRevision(s, id, now) == s
  {
  }

  /** Any add that is not a no-op leaves `(id, now)` as the latest entry and first in the listing. */
  lemma AddMakesLatest(s: seq<RevisionEntry>, id: string, now: Time)
    requires s == [] || s[|s| - 1].revision != id
    ensures Latest(AddedRevision(s, id, now)) == Some(RevisionEntry(id, now))
    ensures Reversed(AddedRevision(s, id, now))[0] == RevisionEntry(id, now)
  {
  }

  /** Adding a new id appends it and keeps every earlier entry in place. */
  lemma AddNewAppends(s: seq<RevisionEntry>, id: string, now: Time)
    requires forall j :: 0 <= j < |s| ==> s[j].revision != id
    ensures AddedRevision(s, id, now) == s + [RevisionEntry(id, now)]
  {
  }

  /** Re-adding an id stored at position 1 or later (and not latest) moves it to
      the end: the length is unchanged and the other entries keep their order. */
  lemma AddMovesToEnd(s: seq<RevisionEntry>, id: string, now: Time, i: nat)
    requires 1 <= i < |s| - 1 && s[i].revision == id
    requires forall j :: 0 <= j < i ==> s[j].revision != id
    requires s[|s| - 1].revision != id
    ensures AddedRevision(s, id, now) == s[..i] + s[i + 1..] + [RevisionEntry(id, now)]
    ensures |AddedRevision(s, id, now)| == |s|
  {
    FirstIndexUnique(s, id, Some(i));
  }

  function Count(s: seq<RevisionEntry>, id: string): nat {
    if s == [] then 0 else (if s[0].revision == id then 1 else 0) + Count(s[1..], id)
  }

  lemma {:induction false} CountAppend(s: seq<RevisionEntry>, e: RevisionEntry, id: string)
    ensures Count(s + [e], id) == Count(s, id) + (if e.revision == id then 1 else 0)
  {
    if s != [] {
      assert (s + [e])[1..] == s[1..] + [e];
      CountAppend(s[1..], e, id);
    }
  }

  /** The position-0 quirk: re-adding the oldest entry's id (when it is not the
      latest) keeps the old entry, so the ledger grows and holds `id` twice. */
  lemma AddQuirkAtFront(s: seq<RevisionEntry>, id: string, now: Time)
    requires |s| >= 2 && s[0].revision == id && s[|s| - 1].revision != id
    ensures AddedRevision(s, id, now) == s + [RevisionEntry(id, now)]
    ensures |AddedRevision(s, id, now)| == |s| + 1
    ensures Count(AddedRevision(s, id, now), id) >= 2
    ensures Unique(s) ==> !Unique(AddedRevision(s, id, now))
  {
    CountAppend(s, RevisionEntry(id, now), id);
    var r := AddedRevision(s, id, now);
    assert r[0].revision == r[|r| - 1].revision;
  }

  /** A concrete ledger the quirk breaks: `[a, b]` plus `a` is `[a, b, a]`. */
  lemma QuirkCounterexample()
    ensures var s := [RevisionEntry("a", 1.0), RevisionEntry("b", 2.0)];
      Unique(s) && AddedRevision(s, "a", 3.0) == s + [RevisionEntry("a", 3.0)]
      && !Unique(AddedRevision(s, "a", 3.0))
  {
    var s := [RevisionEntry("a", 1.0), RevisionEntry("b", 2.0)];
    AddQuirkAtFront(s, "a", 3.0);
  }

  /** Away from the quirk, the code and the intended add agree. */
  lemma AddAgreesWithFixed(s: seq<RevisionEntry>, id: string, now: Time)
    requires FirstIndex(s, id) != Some(0)
    ensures AddedRevision(s, id, now) == AddedRevisionFixed(s, id, now)
  {
  }

  lemma {:induction false} UniqueRemoveAt(s: seq<RevisionEntry>, i: nat)
    requires i < |s| && Unique(s)
    ensures Unique(RemoveAt(s, i))
    ensures forall j :: 0 <= j < |RemoveAt(s, i)| ==> RemoveAt(s, i)[j].revision != s[i].revision
  {
    var r := RemoveAt(s, i);
    forall j | 0 <= j < |r| ensures r[j] == if j < i then s[j] else s[j + 1] {}
  }

  /** The intended add keeps the one-entry-per-id invariant. */
  lemma AddFixedKeepsUnique(s: seq<RevisionEntry>, id: string, now: Time)
    requires Unique(s)
    ensures Unique(AddedRevisionFixed(s, id, now))
  {
    if !(Latest(s).Some? && Latest(s).value.revision == id) {
      match FirstIndex(s, id)
      case Some(i) => UniqueRemoveAt(s, i);
      case None =>
    }
  }

  /** Removing an absent id changes nothing; otherwise exactly the first matching entry goes. */
  lemma RemoveRevisionEffect(s: seq<RevisionEntry>, id: string)
    ensures (forall j :: 0 <= j < |s| ==> s[j].revision != id) ==> RemovedRevision(s, id) == s
    ensures FirstIndex(s, id).Some? ==>
      |RemovedRevision(s, id)| == |s| - 1
      && RemovedRevision(s, id) == s[..FirstIndex(s, id).value] + s[FirstIndex(s, id).value + 1..]
  {
  }

  /** In a ledger with one entry per id, removing an id removes it completely. */
  lemma RemoveUniqueForgets(s: seq<RevisionEntry>, id: string)
    requires Unique(s)
    ensures Unique(RemovedRevision(s, id))
    ensures forall j :: 0 <= j < |RemovedRevision(s, id)| ==> RemovedRevision(s, id)[j].revision != id
  {
    match FirstIndex(s, id)
    case Some(i) => UniqueRemoveAt(s, i);
    case None =>
  }

  /** Listing reverses storage twice over to the stored order. */
  lemma {:induction false} ReversedTwice(s: seq<RevisionEntry>)
    ensures Reversed(Reversed(s)) == s
  {
    var r := Reversed(Reversed(s));
    assert |r| == |s|;
    forall i | 0 <= i < |s| ensures r[i] == s[i] {}
  }
}
