/**
 * Sync state of one athlete (`sync_state.json`) and the FitTrackee export
 * ledger (`exports/fittrackee.json`): their dictionary forms, the defaults
 * used when the file is absent, and the ledger's query and update operations.
 */
module State {
  import opened Util
  import opened DateTimes

  // ---------------------------------------------------------------- SyncState

  /** Watermark and totals of the last sync. */
  datatype SyncState = SyncState(lastSync: Option<DateTime>,
                                 lastActivityDate: Option<DateTime>,
                                 totalActivities: int)

  const DefaultSyncState: SyncState := SyncState(None, None, 0)

  predicate OptValid(d: Option<DateTime>) { d.Some? ==> Valid(d.value) }

  predicate SyncStateValid(s: SyncState) { OptValid(s.lastSync) && OptValid(s.lastActivityDate) }

  function DateJson(d: Option<DateTime>): Json
    requires OptValid(d)
  {
    if d.Some? then JStr(IsoFormat(d.value)) else JNull
  }

  /** `SyncState.to_dict`. */
  function SyncStateToDict(s: SyncState): Json
    requires SyncStateValid(s)
  {
    JObj(map["last_sync" := DateJson(s.lastSync),
             "last_activity_date" := DateJson(s.lastActivityDate),
             "total_activities" := JInt(s.totalActivities)])
  }

  /** A missing or null date is None; a string is parsed with `fromisoformat`. */
  function DateFromJson(v: Option<Json>): (r: Outcome<Option<DateTime>>)
    ensures r.Success? ==> OptValid(r.value)
  {
    match v
    case None => Success(None)
    case Some(JNull) => Success(None)
    case Some(JStr(t)) =>
      (match FromIsoFormat(t)
       case Some(d) => Success(Some(d))
       case None => Failure("Invalid isoformat string: " + t))
    case Some(_) => Failure("not a datetime")
  }

  /** `SyncState.from_dict`: absent keys give None dates and 0 activities. */
  function SyncStateFromDict(data: Json): (r: Outcome<SyncState>)
    ensures r.Success? ==> SyncStateValid(r.value)
  {
    if !data.JObj? then Failure("object has no attribute 'get'")
    else
      var a := DateFromJson(Get(data.fields, "last_sync"));
      var b := DateFromJson(Get(data.fields, "last_activity_date"));
      var t := match Get(data.fields, "total_activities")
               case None => Success(0)
               case Some(JInt(n)) => Success(n)
               case Some(_) => Failure("not an int");
      if a.Failure? then Failure(a.error)
      else if b.Failure? then Failure(b.error)
      else if t.Failure? then Failure(t.error)
      else Success(SyncState(a.value, b.value, t.value))
  }

  lemma DateJsonRoundTrip(d: Option<DateTime>)
    requires OptValid(d)
    ensures DateFromJson(Some(DateJson(d))) == Success(d)
  {
    if d.Some? { IsoFormatRoundTrip(d.value); }
  }

  /** `from_dict(to_dict(s))` gives back `s`; a None date stays None. */
  lemma SyncStateRoundTrip(s: SyncState)
    requires SyncStateValid(s)
    ensures SyncStateFromDict(SyncStateToDict(s)) == Success(s)
  {
    DateJsonRoundTrip(s.lastSync);
    DateJsonRoundTrip(s.lastActivityDate);
  }

  /** `load_sync_state`: `file` is the parsed `sync_state.json`, None when it does not exist. */
  function LoadSyncState(file: Option<Json>): (r: Outcome<SyncState>)
    ensures file.None? ==> r == Success(SyncState(None, None, 0))
    ensures file.Some? ==> r == SyncStateFromDict(file.value)
    ensures r.Success? ==> SyncStateValid(r.value)
  {
    if file.None? then Success(DefaultSyncState) else SyncStateFromDict(file.value)
  }

  // ---------------------------------------------------------------- export entries

  /** One upload of a session to FitTrackee. */
  datatype ExportEntry = ExportEntry(ses: string, workoutId: int, exportedAt: DateTime)

  predicate EntryValid(e: ExportEntry) { Valid(e.exportedAt) }

  /** `FitTrackeeExportEntry.to_dict`. */
  function EntryToDict(e: ExportEntry): Json
    requires EntryValid(e)
  {
    JObj(map["ses" := JStr(e.ses), "ft_workout_id" := JInt(e.workoutId),
             "exported_at" := JStr(IsoFormat(e.exportedAt))])
  }

  /**
   * `FitTrackeeExportEntry.from_dict`: the three keys are required (KeyError
   * otherwise, `exported_at` looked up first); a trailing "Z" in the timestamp
   * is read as "+00:00".
   */
  function EntryFromDict(data: Json): Outcome<ExportEntry>
  {
    if !data.JObj? then Failure("object is not subscriptable")
    else if "exported_at" !in data.fields then Failure("'exported_at'")
    else if !data.fields["exported_at"].JStr? then Failure("not a datetime")
    else
      var at := FromIsoFormat(ReplaceAll(data.fields["exported_at"].s, "Z", "+00:00"));
      if at.None? then Failure("Invalid isoformat string")
      else if "ses" !in data.fields then Failure("'ses'")
      else if "ft_workout_id" !in data.fields then Failure("'ft_workout_id'")
      else match (data.fields["ses"], data.fields["ft_workout_id"])
        case (JStr(k), JInt(id)) => Success(ExportEntry(k, id, at.value))
        case _ => Failure("unexpected value type")
  }

  /** `from_dict(to_dict(e)) == e`. */
  lemma EntryRoundTrip(e: ExportEntry)
    requires EntryValid(e)
    ensures EntryFromDict(EntryToDict(e)) == Success(e)
  {
    IsoFormatHasNoZ(e.exportedAt);
    ReplaceAllNoMatch(IsoFormat(e.exportedAt), "Z", "+00:00");
    IsoFormatRoundTrip(e.exportedAt);
  }

  // ---------------------------------------------------------------- the ledger as a list

  /** `any(e.ses == k for e in s)`. */
  predicate Exported(s: seq<ExportEntry>, k: string)
  {
    exists i :: 0 <= i < |s| && s[i].ses == k
  }

  /** The first entry for session `k`, scanning from the front. */
  function Find(s: seq<ExportEntry>, k: string): Option<ExportEntry>
    decreases |s|
  {
    if s == [] then None else if s[0].ses == k then Some(s[0]) else Find(s[1..], k)
  }

  /** The entries for session `k`, in order. */
  function Matching(s: seq<ExportEntry>, k: string): seq<ExportEntry>
    decreases |s|
  {
    if s == [] then [] else (if s[0].ses == k then [s[0]] else []) + Matching(s[1..], k)
  }

  /** `[e for e in s if e.ses != k]`. */
  function Without(s: seq<ExportEntry>, k: string): seq<ExportEntry>
    decreases |s|
  {
    if s == [] then [] else (if s[0].ses != k then [s[0]] else []) + Without(s[1..], k)
  }

  /** The list `record_export(e.ses, ...)` leaves: earlier entries for the session dropped, `e` appended. */
  function Record(s: seq<ExportEntry>, e: ExportEntry): seq<ExportEntry>
  {
    Without(s, e.ses) + [e]
  }

  /** Every session has at most one entry. */
  ghost predicate OneEntryPerSession(s: seq<ExportEntry>)
  {
    forall k :: |Matching(s, k)| <= 1
  }

  /** `Find` returns the first entry for `k`, and nothing exactly when `k` was never exported. */
  lemma {:induction false} FindSpec(s: seq<ExportEntry>, k: string)
    ensures Find(s, k).None? <==> !Exported(s, k)
    ensures Find(s, k).Some? ==>
      exists i :: 0 <= i < |s| && s[i] == Find(s, k).value && s[i].ses == k
                  && forall j :: 0 <= j < i ==> s[j].ses != k
    decreases |s|
  {
    if s != [] && s[0].ses != k {
      FindSpec(s[1..], k);
      assert Exported(s, k) <==> Exported(s[1..], k) by {
        if Exported(s, k) {
          var i :| 0 <= i < |s| && s[i].ses == k;
          assert s[1..][i - 1].ses == k;
        }
        if Exported(s[1..], k) {
          var i :| 0 <= i < |s[1..]| && s[1..][i].ses == k;
          assert s[i + 1].ses == k;
        }
      }
      if Find(s, k).Some? {
        var i :| 0 <= i < |s[1..]| && s[1..][i] == Find(s, k).value && s[1..][i].ses == k
                 && forall j :: 0 <= j < i ==> s[1..][j].ses != k;
        assert s[i + 1] == Find(s, k).value;
        assert forall j :: 0 <= j < i + 1 ==> s[j].ses != k by {
          forall j | 0 <= j < i + 1 ensures s[j].ses != k {
            if j > 0 { assert s[j] == s[1..][j - 1]; }
          }
        }
      }
    }
  }

  lemma {:induction false} MatchingAppend(a: seq<ExportEntry>, b: seq<ExportEntry>, k: string)
    ensures Matching(a + b, k) == Matching(a, k) + Matching(b, k)
    decreases |a|
  {
    if a != [] {
      MatchingAppend(a[1..], b, k);
      assert (a + b)[0] == a[0] && (a + b)[1..] == a[1..] + b;
    } else {
      assert a + b == b;
    }
  }

  lemma {:induction false} WithoutAppend(a: seq<ExportEntry>, b: seq<ExportEntry>, k: string)
    ensures Without(a + b, k) == Without(a, k) + Without(b, k)
    decreases |a|
  {
    if a != [] {
      WithoutAppend(a[1..], b, k);
      assert (a + b)[0] == a[0] && (a + b)[1..] == a[1..] + b;
    } else {
      assert a + b == b;
    }
  }

  /** Dropping session `k` removes all of its entries and keeps every other session's entries. */
  lemma {:induction false} MatchingWithout(s: seq<ExportEntry>, k: string, k2: string)
    ensures Matching(Without(s, k), k) == []
    ensures k2 != k ==> Matching(Without(s, k), k2) == Matching(s, k2)
    decreases |s|
  {
    if s != [] {
      MatchingWithout(s[1..], k, k2);
      var head := if s[0].ses != k then [s[0]] else [];
      MatchingAppend(head, Without(s[1..], k), k);
      MatchingAppend(head, Without(s[1..], k), k2);
      assert Matching(head, k) == [] by { if head != [] { assert head[1..] == []; } }
      if head != [] { assert head[1..] == []; }
    }
  }

  /** Dropping `k` again changes nothing. */
  lemma {:induction false} WithoutIdempotent(s: seq<ExportEntry>, k: string)
    ensures Without(Without(s, k), k) == Without(s, k)
    decreases |s|
  {
    if s != [] {
      WithoutIdempotent(s[1..], k);
      var head := if s[0].ses != k then [s[0]] else [];
      WithoutAppend(head, Without(s[1..], k), k);
      if head != [] { assert head[1..] == []; }
    }
  }

  /** After recording, the session has exactly the new entry: an earlier workout id is superseded, not duplicated. */
  lemma RecordSupersedes(s: seq<ExportEntry>, e: ExportEntry)
    ensures Matching(Record(s, e), e.ses) == [e]
  {
    MatchingAppend(Without(s, e.ses), [e], e.ses);
    MatchingWithout(s, e.ses, e.ses);
    assert [e][1..] == [];
  }

  /** Recording leaves every other session's entries as they were, in order, and puts the new entry last. */
  lemma RecordKeepsOthers(s: seq<ExportEntry>, e: ExportEntry, k: string)
    requires k != e.ses
    ensures Matching(Record(s, e), k) == Matching(s, k)
    ensures Without(Record(s, e), e.ses) == Without(s, e.ses)
    ensures Record(s, e)[|Record(s, e)| - 1] == e
  {
    MatchingAppend(Without(s, e.ses), [e], k);
    MatchingWithout(s, e.ses, k);
    assert [e][1..] == [];
    WithoutAppend(Without(s, e.ses), [e], e.ses);
    WithoutIdempotent(s, e.ses);
  }

  /** Recording keeps the one-entry-per-session invariant. */
  lemma RecordKeepsOneEntry(s: seq<ExportEntry>, e: ExportEntry)
    requires OneEntryPerSession(s)
    ensures OneEntryPerSession(Record(s, e))
  {
    forall k ensures |Matching(Record(s, e), k)| <= 1 {
      if k == e.ses { RecordSupersedes(s, e); } else { RecordKeepsOthers(s, e, k); }
    }
  }

  /** After `record_export(k, id)`, `is_exported(k)` holds and `get_export(k)` is the new entry. */
  lemma RecordThenFind(s: seq<ExportEntry>, e: ExportEntry)
    ensures Exported(Record(s, e), e.ses)
    ensures Find(Record(s, e), e.ses) == Some(e)
  {
    var r := Record(s, e);
    RecordSupersedes(s, e);
    assert r[|r| - 1] == e;
    FindMatching(r, e.ses);
  }

  /** The first entry for `k` is the first of `Matching(s, k)`. */
  lemma {:induction false} FindMatching(s: seq<ExportEntry>, k: string)
    ensures Find(s, k) == (if Matching(s, k) == [] then None else Some(Matching(s, k)[0]))
    ensures Matching(s, k) != [] ==> Exported(s, k)
    decreases |s|
  {
    if s != [] {
      FindMatching(s[1..], k);
      if s[0].ses != k && Matching(s, k) != [] {
        var i :| 0 <= i < |s[1..]| && s[1..][i].ses == k;
        assert s[i + 1].ses == k;
      }
    }
  }

  // ---------------------------------------------------------------- the ledger's dictionary form

  function EntriesToJson(s: seq<ExportEntry>): seq<Json>
    requires forall i :: 0 <= i < |s| ==> EntryValid(s[i])
  {
    seq(|s|, i requires 0 <= i < |s| => EntryToDict(s[i]))
  }

  /** `FitTrackeeExportState.to_dict`. */
  function LedgerToDict(url: string, s: seq<ExportEntry>): Json
    requires forall i :: 0 <= i < |s| ==> EntryValid(s[i])
  {
    JObj(map["fittrackee_url" := JStr(url), "exports" := JList(EntriesToJson(s))])
  }

  /** The entries appended one by one by `from_dict`; the first bad entry's error is raised. */
  function EntriesFromJson(items: seq<Json>): Outcome<seq<ExportEntry>>
  {
    Traverse(items, EntryFromDict)
  }

  /** `FitTrackeeExportState.from_dict`: url defaults to "" and the export list to []. */
  function LedgerFromDict(data: Json): Outcome<(string, seq<ExportEntry>)>
  {
    if !data.JObj? then Failure("object has no attribute 'get'")
    else
      var url := match Get(data.fields, "fittrackee_url")
                 case None => Success("")
                 case Some(JStr(u)) => Success(u)
                 case Some(_) => Failure("not a string");
      var items := match Get(data.fields, "exports")
                   case None => Success([])
                   case Some(JList(xs)) => Success(xs)
                   case Some(_) => Failure("not a list");
      if url.Failure? then Failure(url.error)
      else if items.Failure? then Failure(items.error)
      else match EntriesFromJson(items.value)
        case Failure(err) => Failure(err)
        case Success(es) => Success((url.value, es))
  }

  lemma EntriesRoundTrip(s: seq<ExportEntry>)
    requires forall i :: 0 <= i < |s| ==> EntryValid(s[i])
    ensures EntriesFromJson(EntriesToJson(s)) == Success(s)
  {
    forall i | 0 <= i < |s| ensures EntryFromDict(EntriesToJson(s)[i]) == Success(s[i]) {
      EntryRoundTrip(s[i]);
    }
    TraverseInverse(EntriesToJson(s), s, EntryFromDict);
  }

  /** `from_dict(to_dict(state))` keeps the url and the export list, in order. */
  lemma LedgerRoundTrip(url: string, s: seq<ExportEntry>)
    requires forall i :: 0 <= i < |s| ==> EntryValid(s[i])
    ensures LedgerFromDict(LedgerToDict(url, s)) == Success((url, s))
  {
    EntriesRoundTrip(s);
    var d := LedgerToDict(url, s);
    assert Get(d.fields, "fittrackee_url") == Some(JStr(url));
    assert Get(d.fields, "exports") == Some(JList(EntriesToJson(s)));
  }

  // ---------------------------------------------------------------- the ledger object

  /** `FitTrackeeExportState`: the FitTrackee url and the export entries, oldest first. */
  class ExportLedger {
    var url: string
    var exports: seq<ExportEntry>

    constructor (url: string)
      ensures this.url == url && exports == []
    {
      this.url := url;
      exports := [];
    }

    /** `is_exported`. */
    predicate IsExported(k: string)
      reads this
    {
      Exported(exports, k)
    }

    /** `get_export`: the first entry for the session, scanning in list order. */
    method GetExport(k: string) returns (r: Option<ExportEntry>)
      ensures r == Find(exports, k)
    {
      var i := 0;
      while i < |exports|
        invariant 0 <= i <= |exports|
        invariant Find(exports, k) == Find(exports[i..], k)
      {
        if exports[i].ses == k {
          return Some(exports[i]);
        }
        assert exports[i..][1..] == exports[i + 1..];
        i := i + 1;
      }
      return None;
    }

    /** `record_export`; `now` stands for `datetime.now()` when no time is given. */
    method RecordExport(k: string, workoutId: int, exportedAt: Option<DateTime>, now: DateTime)
      modifies this
      ensures url == old(url)
      ensures exports == Record(old(exports), ExportEntry(k, workoutId, OrNow(exportedAt, now)))
    {
      var at := if exportedAt.Some? then exportedAt.value else now;
      exports := Without(exports, k);
      exports := exports + [ExportEntry(k, workoutId, at)];
    }

    /** `to_dict`. */
    function ToDict(): Json
      reads this
      requires forall i :: 0 <= i < |exports| ==> EntryValid(exports[i])
    {
      LedgerToDict(url, exports)
    }

    /** `from_dict`: build an empty ledger, then append the decoded entries one at a time. */
    static method FromDict(data: Json) returns (r: Outcome<ExportLedger>)
      ensures r.Success? <==> LedgerFromDict(data).Success?
      ensures r.Success? ==> fresh(r.value)
      ensures r.Success? ==>
        r.value.url == LedgerFromDict(data).value.0 && r.value.exports == LedgerFromDict(data).value.1
    {
      if !data.JObj? { return Failure("object has no attribute 'get'"); }
      var url := "";
      if "fittrackee_url" in data.fields {
        if !data.fields["fittrackee_url"].JStr? { return Failure("not a string"); }
        url := data.fields["fittrackee_url"].s;
      }
      var items: seq<Json> := [];
      if "exports" in data.fields {
        if !data.fields["exports"].JList? { return Failure("not a list"); }
        items := data.fields["exports"].items;
      }
      var state := new ExportLedger(url);
      var err := state.AppendEntries(items);
      if err.Some? { return Failure(err.value); }
      return Success(state);
    }

    /** The loop of `from_dict`: decode each item and append it, stopping at the first bad one. */
    method AppendEntries(items: seq<Json>) returns (err: Option<string>)
      requires exports == []
      modifies this
      ensures url == old(url)
      ensures err.None? <==> EntriesFromJson(items).Success?
      ensures err.None? ==> exports == EntriesFromJson(items).value
      ensures err.Some? ==> EntriesFromJson(items) == Failure(err.value)
    {
      var i := 0;
      while i < |items|
        invariant 0 <= i <= |items|
        invariant url == old(url)
        invariant EntriesFromJson(items[..i]) == Success(exports)
      {
        assert items[..i + 1][..i] == items[..i];
        match EntryFromDict(items[i]) {
          case Failure(e) =>
            TraverseFailurePropagates(items, i + 1, EntryFromDict);
            return Some(e);
          case Success(e) =>
            exports := exports + [e];
        }
        i := i + 1;
      }
      assert items[..i] == items;
      return None;
    }
  }

  /** The export time: the given one, else the current time. */
  function OrNow(d: Option<DateTime>, now: DateTime): DateTime { if d.Some? then d.value else now }

  /** `load_fittrackee_export_state`: `file` is the parsed ledger file, None when it does not exist. */
  method LoadFitTrackeeExportState(file: Option<Json>) returns (r: Outcome<ExportLedger>)
    ensures file.None? ==> r.Success? && r.value.url == "" && r.value.exports == []
    ensures file.Some? ==> (r.Success? <==> LedgerFromDict(file.value).Success?)
    ensures file.Some? && r.Success? ==>
      r.value.url == LedgerFromDict(file.value).value.0 && r.value.exports == LedgerFromDict(file.value).value.1
  {
    if file.None? {
      var state := new ExportLedger("");
      return Success(state);
    }
    r := ExportLedger.FromDict(file.value);
  }
}
