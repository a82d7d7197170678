/**
 * The data-layout migrations of the strava-backup package: renaming the
 * legacy `sub=<user>` athlete directories to `athl=<user>`, rewriting the
 * dataset's Makefile and README.md, adding the log-file rule to
 * `.gitattributes`, building `athletes.tsv` from every athlete's
 * `sessions.tsv`, and adding the start-point columns to those files.
 *
 * Directories are values: a directory listing is a sequence of entries in
 * `iterdir` order, the dataset root is a map from file name to content, and
 * an athlete directory carries its profile and its `sessions.tsv`.
 */
module Migrate {
  import opened Util

  /** The athlete directory prefix before the rename, and after it. */
  const LegacyPrefix: string := "sub="
  const AthletePrefix: string := "athl="

  // ---------------------------------------------------------------- sub= -> athl=

  /** One entry of the data directory. */
  datatype Entry = Entry(name: string, isDir: bool)

  /** A directory whose name starts with the legacy prefix. */
  predicate IsLegacy(e: Entry)
  {
    e.isDir && LegacyPrefix <= e.name
  }

  /** The new name of a legacy directory: the same user behind the new prefix. */
  function Target(e: Entry): string
    requires IsLegacy(e)
  {
    AthletePrefix + e.name[|LegacyPrefix|..]
  }

  /** An entry after its rename; entries that are not legacy directories stay. */
  function Migrated(e: Entry): Entry
  {
    if IsLegacy(e) then Entry(Target(e), true) else e
  }

  /** The listing once its first `n` entries have been migrated. */
  function Renamed(es: seq<Entry>, n: nat): (r: seq<Entry>)
    requires n <= |es|
    ensures |r| == |es|
  {
    seq(|es|, k requires 0 <= k < |es| => if k < n then Migrated(es[k]) else es[k])
  }

  /** Some entry of the listing has the name `n`. */
  predicate HasName(es: seq<Entry>, n: string)
  {
    exists j :: 0 <= j < |es| && es[j].name == n
  }

  /** A directory listing never shows a name twice. */
  ghost predicate DistinctNames(es: seq<Entry>)
  {
    forall i, j :: 0 <= i < j < |es| ==> es[i].name != es[j].name
  }

  /** The `k`-th entry is a legacy directory whose new name is already taken. */
  ghost predicate Clashes(es: seq<Entry>, k: int)
  {
    0 <= k < |es| && IsLegacy(es[k]) && HasName(es, Target(es[k]))
  }

  /** The `k`-th entry is the first one that clashes. */
  ghost predicate FirstClash(es: seq<Entry>, k: int)
  {
    Clashes(es, k) && forall j :: 0 <= j < k ==> !Clashes(es, j)
  }

  /** The (old name, new name) pairs of the legacy directories, in listing order. */
  function Plan(es: seq<Entry>): seq<(string, string)>
    decreases |es|
  {
    if es == [] then []
    else
      var e := es[|es| - 1];
      Plan(es[..|es| - 1]) + (if IsLegacy(e) then [(e.name, Target(e))] else [])
  }

  /**
   * Every planned rename takes a `sub=` name to the `athl=` name of the same
   * user, and every legacy directory is planned.
   */
  lemma {:induction false} PlanRenamesEachLegacy(es: seq<Entry>)
    ensures forall p :: p in Plan(es) ==>
              LegacyPrefix <= p.0 && AthletePrefix <= p.1
              && p.0[|LegacyPrefix|..] == p.1[|AthletePrefix|..]
    ensures forall k :: 0 <= k < |es| && IsLegacy(es[k]) ==> (es[k].name, Target(es[k])) in Plan(es)
    decreases |es|
  {
    if es != [] {
      var init := es[..|es| - 1];
      PlanRenamesEachLegacy(init);
      forall k | 0 <= k < |es| && IsLegacy(es[k])
        ensures (es[k].name, Target(es[k])) in Plan(es)
      {
        if k < |es| - 1 {
          assert es[k] == init[k];
        }
      }
    }
  }

  /** Two legacy directories with the same new name had the same old name. */
  lemma SameTargetSameName(a: Entry, b: Entry)
    requires IsLegacy(a) && IsLegacy(b) && Target(a) == Target(b)
    ensures a.name == b.name
  {
    assert a.name == LegacyPrefix + a.name[|LegacyPrefix|..];
    assert b.name == LegacyPrefix + b.name[|LegacyPrefix|..];
    assert a.name[|LegacyPrefix|..] == Target(a)[|AthletePrefix|..];
  }

  /** A directory already carrying the new prefix is not a legacy one. */
  lemma AthleteNameNotLegacy(e: Entry)
    requires AthletePrefix <= e.name
    ensures !IsLegacy(e)
  {
    assert e.name[0] == 'a';
  }

  /**
   * Checking the target name against the partly renamed directory gives the
   * same answer as checking it against the original listing: an earlier
   * rename cannot produce it (names are distinct) and cannot remove it (an
   * `athl=` name is never renamed).
   */
  lemma ClashUnaffected(es: seq<Entry>, i: nat)
    requires DistinctNames(es) && i < |es| && IsLegacy(es[i])
    ensures HasName(Renamed(es, i), Target(es[i])) <==> HasName(es, Target(es[i]))
  {
    var t := Target(es[i]);
    var cur := Renamed(es, i);
    if HasName(cur, t) {
      var j :| 0 <= j < |cur| && cur[j].name == t;
      if j < i && IsLegacy(es[j]) { SameTargetSameName(es[j], es[i]); }
      assert es[j].name == t;
    }
    if HasName(es, t) {
      var j :| 0 <= j < |es| && es[j].name == t;
      AthleteNameNotLegacy(es[j]);
      assert cur[j].name == t;
    }
  }

  /**
   * `migrate_athlete_prefixes`: renames each legacy directory of the listing
   * (None when the data directory does not exist) to its `athl=` name and
   * returns the renames. A taken target raises; the renames made before it
   * stay. A dry run plans the same renames and renames nothing.
   */
  method MigrateAthletePrefixes(listing: Option<seq<Entry>>, dryRun: bool)
    returns (r: Outcome<seq<(string, string)>>, after: Option<seq<Entry>>)
    requires listing.Some? ==> DistinctNames(listing.value)
    ensures listing.None? ==> r == Success([]) && after == None
    ensures listing.Some? ==> after.Some?
    ensures listing.Some? ==> (r.Success? <==> forall k :: 0 <= k < |listing.value| ==> !Clashes(listing.value, k))
    ensures listing.Some? && r.Success? ==>
              r.value == Plan(listing.value)
              && after.value == (if dryRun then listing.value else Renamed(listing.value, |listing.value|))
    ensures listing.Some? && r.Failure? ==>
              exists k :: FirstClash(listing.value, k)
                          && after.value == (if dryRun then listing.value else Renamed(listing.value, k))
  {
    if listing.None? {
      return Success([]), None;
    }
    var es := listing.value;
    var cur := es;
    var renames: seq<(string, string)> := [];
    var i := 0;
    while i < |es|
      invariant 0 <= i <= |es|
      invariant cur == if dryRun then es else Renamed(es, i)
      invariant renames == Plan(es[..i])
      invariant forall j :: 0 <= j < i ==> !Clashes(es, j)
    {
      var e := es[i];
      assert es[..i + 1][..i] == es[..i];
      if e.isDir && LegacyPrefix <= e.name {
        var target := AthletePrefix + e.name[|LegacyPrefix|..];
        if !dryRun { ClashUnaffected(es, i); }
        if HasName(cur, target) {
          assert FirstClash(es, i);
          return Failure("Cannot migrate " + e.name + " -> " + target + ": destination already exists"),
            Some(cur);
        }
        renames := renames + [(e.name, target)];
        if !dryRun {
          cur := cur[i := Entry(target, true)];
        }
      }
      assert !dryRun ==> cur == Renamed(es, i + 1);
      i := i + 1;
    }
    assert es[..i] == es;
    return Success(renames), Some(cur);
  }

  // ---------------------------------------------------------------- athletes.tsv

  /** The part of `athlete.json` that `athletes.tsv` shows. */
  datatype Profile = Profile(firstname: string, lastname: string, city: string, country: string)

  /** An athlete directory: its user name, its profile if one loads, its `sessions.tsv` if it exists. */
  datatype AthleteDir = AthleteDir(username: string, profile: Option<Profile>, sessions: Option<Table>)

  /** The rows of a `sessions.tsv` that may be absent. */
  function RowsOf(t: Option<Table>): seq<map<string, string>>
  {
    if t.Some? then t.value.rows else []
  }

  /** `row.get(col, "")` on a row read by `csv.DictReader`. */
  function Cell(row: map<string, string>, col: string): string
  {
    if col in row then row[col] else ""
  }

  /**
   * What `total += number(row.get(col, 0) or 0)` adds when a `ValueError` is
   * suppressed: 0 for a missing or empty cell and for text that is not an
   * optional `-` followed by decimal digits. Both columns are read as integers.
   */
  function Amount(row: map<string, string>, col: string): int
  {
    var text := Cell(row, col);
    if text == "" then 0
    else match ParseInt(text)
      case Some(v) => v
      case None => 0
  }

  /** Python's `a < b` on strings. */
  predicate LexLt(a: string, b: string)
  {
    a != b && LexLe(a, b)
  }

  /** The earliest date so far, after one more row's `datetime`. */
  function NextFirst(first: Option<string>, dt: string): Option<string>
  {
    if dt != "" && (first.None? || LexLt(dt, first.value)) then Some(dt) else first
  }

  /** The latest date so far, after one more row's `datetime`. */
  function NextLast(last: Option<string>, dt: string): Option<string>
  {
    if dt != "" && (last.None? || LexLt(last.value, dt)) then Some(dt) else last
  }

  /** The sports seen so far, after one more row's `sport`. */
  function NextSports(types: seq<string>, sport: string): seq<string>
  {
    if sport != "" && sport !in types then types + [sport] else types
  }

  /** `first_activity` after reading `rows`. */
  function FirstDate(rows: seq<map<string, string>>): Option<string>
    decreases |rows|
  {
    if rows == [] then None
    else NextFirst(FirstDate(rows[..|rows| - 1]), Cell(rows[|rows| - 1], "datetime"))
  }

  /** `last_activity` after reading `rows`. */
  function LastDate(rows: seq<map<string, string>>): Option<string>
    decreases |rows|
  {
    if rows == [] then None
    else NextLast(LastDate(rows[..|rows| - 1]), Cell(rows[|rows| - 1], "datetime"))
  }

  /** The total of one numeric column over `rows`. */
  function SumOf(rows: seq<map<string, string>>, col: string): int
    decreases |rows|
  {
    if rows == [] then 0 else SumOf(rows[..|rows| - 1], col) + Amount(rows[|rows| - 1], col)
  }

  /** The `activity_types` set after reading `rows`, in the order the sports first appear. */
  function Sports(rows: seq<map<string, string>>): seq<string>
    decreases |rows|
  {
    if rows == [] then [] else NextSports(Sports(rows[..|rows| - 1]), Cell(rows[|rows| - 1], "sport"))
  }

  /** The per-athlete totals `generate_athletes_tsv` keeps while it reads the rows. */
  datatype Summary = Summary(
    count: nat,
    first: Option<string>,
    last: Option<string>,
    distance: int,
    movingTime: int,
    types: seq<string>)

  /** The totals over a sequence of session rows. */
  function Summarize(rows: seq<map<string, string>>): Summary
  {
    Summary(|rows|, FirstDate(rows), LastDate(rows), SumOf(rows, "distance_m"),
            SumOf(rows, "moving_time_s"), Sports(rows))
  }

  /** No sport name is listed twice. */
  ghost predicate Distinct(xs: seq<string>)
  {
    forall i, j :: 0 <= i < j < |xs| ==> xs[i] != xs[j]
  }

  /** No row has a non-empty `datetime`. */
  ghost predicate NoDates(rows: seq<map<string, string>>)
  {
    forall k :: 0 <= k < |rows| ==> Cell(rows[k], "datetime") == ""
  }

  /**
   * The first activity is the least non-empty `datetime` of the rows, and is
   * present exactly when some row has one.
   */
  lemma {:induction false} FirstDateLeast(rows: seq<map<string, string>>)
    ensures FirstDate(rows).None? <==> NoDates(rows)
    ensures FirstDate(rows).Some? ==> FirstDate(rows).value != ""
    ensures FirstDate(rows).Some? ==>
              exists k :: 0 <= k < |rows| && Cell(rows[k], "datetime") == FirstDate(rows).value
    ensures forall k :: 0 <= k < |rows| && Cell(rows[k], "datetime") != "" ==>
              LexLe(FirstDate(rows).value, Cell(rows[k], "datetime"))
    decreases |rows|
  {
    if rows != [] {
      var n := |rows| - 1;
      var init := rows[..n];
      var f := FirstDate(init);
      FirstDateLeast(init);
      var dt := Cell(rows[n], "datetime");
      assert forall k :: 0 <= k < n ==> rows[k] == init[k];
      if dt != "" {
        if f.Some? {
          LexLeTotal(dt, f.value);
          if LexLt(dt, f.value) {
            forall k | 0 <= k < n && Cell(rows[k], "datetime") != ""
              ensures LexLe(dt, Cell(rows[k], "datetime"))
            {
              LexLeTrans(dt, f.value, Cell(rows[k], "datetime"));
            }
          }
        }
        LexLeRefl(dt);
      }
    }
  }

  /**
   * The last activity is the greatest non-empty `datetime` of the rows, and
   * is present exactly when some row has one.
   */
  lemma {:induction false} LastDateGreatest(rows: seq<map<string, string>>)
    ensures LastDate(rows).None? <==> NoDates(rows)
    ensures LastDate(rows).Some? ==>
              exists k :: 0 <= k < |rows| && Cell(rows[k], "datetime") == LastDate(rows).value
    ensures forall k :: 0 <= k < |rows| && Cell(rows[k], "datetime") != "" ==>
              LexLe(Cell(rows[k], "datetime"), LastDate(rows).value)
    decreases |rows|
  {
    if rows != [] {
      var n := |rows| - 1;
      var init := rows[..n];
      var l := LastDate(init);
      LastDateGreatest(init);
      var dt := Cell(rows[n], "datetime");
      assert forall k :: 0 <= k < n ==> rows[k] == init[k];
      if dt != "" {
        if l.Some? {
          LexLeTotal(l.value, dt);
          if LexLt(l.value, dt) {
            forall k | 0 <= k < n && Cell(rows[k], "datetime") != ""
              ensures LexLe(Cell(rows[k], "datetime"), dt)
            {
              LexLeTrans(Cell(rows[k], "datetime"), l.value, dt);
            }
          }
        }
        LexLeRefl(dt);
      }
    }
  }

  /** The sport list holds each non-empty `sport` of the rows, once. */
  lemma {:induction false} SportsOnce(rows: seq<map<string, string>>)
    ensures Distinct(Sports(rows))
    ensures forall x :: x in Sports(rows) <==>
              x != "" && exists k :: 0 <= k < |rows| && Cell(rows[k], "sport") == x
    decreases |rows|
  {
    if rows != [] {
      var n := |rows| - 1;
      var init := rows[..n];
      SportsOnce(init);
      assert forall k :: 0 <= k < n ==> rows[k] == init[k];
    }
  }

  lemma {:induction false} LexLeRefl(a: string)
    ensures LexLe(a, a)
    decreases |a|
  {
    if a != [] { LexLeRefl(a[1..]); }
  }

  /** Hence the first activity never comes after the last one. */
  lemma FirstNotAfterLast(rows: seq<map<string, string>>)
    requires FirstDate(rows).Some?
    ensures LastDate(rows).Some? && LexLe(FirstDate(rows).value, LastDate(rows).value)
  {
    FirstDateLeast(rows);
    LastDateGreatest(rows);
    var k :| 0 <= k < |rows| && Cell(rows[k], "datetime") == FirstDate(rows).value;
    LexLeTrans(FirstDate(rows).value, Cell(rows[k], "datetime"), LastDate(rows).value);
  }

  /** A list without repetitions holds each element at most once. */
  lemma {:induction false} DistinctCounts(xs: seq<string>)
    requires Distinct(xs)
    ensures forall x :: multiset(xs)[x] <= 1
    decreases |xs|
  {
    if xs != [] {
      DistinctCounts(xs[1..]);
      assert xs == [xs[0]] + xs[1..];
      assert xs[0] !in xs[1..];
    }
  }

  /** Two equal elements at different positions count twice. */
  lemma TwoOccurrences(xs: seq<string>, i: nat, j: nat)
    requires i < j < |xs|
    ensures multiset(xs)[xs[j]] >= if xs[i] == xs[j] then 2 else 1
  {
    assert xs == xs[..j] + xs[j..];
    assert multiset(xs) == multiset(xs[..j]) + multiset(xs[j..]);
    assert xs[i] in xs[..j] && xs[j] in xs[j..];
  }

  /** A list that holds each element at most once has no repetitions. */
  lemma CountsDistinct(xs: seq<string>)
    requires forall x :: multiset(xs)[x] <= 1
    ensures Distinct(xs)
  {
    forall i, j | 0 <= i < j < |xs|
      ensures xs[i] != xs[j]
    {
      TwoOccurrences(xs, i, j);
    }
  }

  /** `",".join(sorted(activity_types))`. */
  function ActivityTypes(types: seq<string>): string
  {
    Join(SortBy(types, LexLe), ",")
  }

  /** Sorting the distinct sport names keeps them distinct and keeps all of them. */
  lemma SortedTypes(types: seq<string>)
    requires Distinct(types)
    ensures OrderedBy(SortBy(types, LexLe), LexLe)
    ensures Distinct(SortBy(types, LexLe))
    ensures forall x :: x in SortBy(types, LexLe) <==> x in types
  {
    LexLeIsTotal();
    SortByOrdered(types, LexLe);
    var sorted := SortBy(types, LexLe);
    DistinctCounts(types);
    CountsDistinct(sorted);
    forall x
      ensures x in sorted <==> x in types
    {
      assert x in sorted <==> x in multiset(sorted);
      assert x in types <==> x in multiset(types);
    }
  }

  /** One row of `athletes.tsv`; distance and moving time are the raw totals in metres and seconds. */
  datatype AthleteRow = AthleteRow(
    username: string,
    firstname: string,
    lastname: string,
    city: string,
    country: string,
    sessionCount: nat,
    firstActivity: string,
    lastActivity: string,
    totalDistanceM: int,
    totalMovingTimeS: int,
    activityTypes: string)

  /** The header of `athletes.tsv`. */
  const AthletesColumns: seq<string> := [
    "username", "firstname", "lastname", "city", "country", "session_count",
    "first_activity", "last_activity", "total_distance_km", "total_moving_time_h",
    "activity_types"]

  function OrEmpty(o: Option<string>): string
  {
    if o.Some? then o.value else ""
  }

  /** The `athletes.tsv` row of one athlete directory. */
  function AthleteRowOf(a: AthleteDir): AthleteRow
  {
    var s := Summarize(RowsOf(a.sessions));
    var p := a.profile;
    AthleteRow(
      a.username,
      if p.Some? then p.value.firstname else "",
      if p.Some? then p.value.lastname else "",
      if p.Some? then p.value.city else "",
      if p.Some? then p.value.country else "",
      s.count, OrEmpty(s.first), OrEmpty(s.last), s.distance, s.movingTime,
      ActivityTypes(s.types))
  }

  /**
   * What a row of `athletes.tsv` states about the athlete's sessions: one
   * session per row of `sessions.tsv`; the first activity is empty exactly
   * when no row has a date, and never comes after the last one.
   */
  lemma AthleteRowDates(a: AthleteDir)
    ensures AthleteRowOf(a).sessionCount == |RowsOf(a.sessions)|
    ensures AthleteRowOf(a).firstActivity == "" <==> NoDates(RowsOf(a.sessions))
    ensures LexLe(AthleteRowOf(a).firstActivity, AthleteRowOf(a).lastActivity)
  {
    var rows := RowsOf(a.sessions);
    var r := AthleteRowOf(a);
    assert r.firstActivity == OrEmpty(FirstDate(rows)) && r.lastActivity == OrEmpty(LastDate(rows));
    FirstDateLeast(rows);
    LastDateGreatest(rows);
    if FirstDate(rows).Some? {
      FirstNotAfterLast(rows);
    }
  }

  /** The activity types of a row are the sorted, deduplicated sports of its sessions, joined by commas. */
  lemma AthleteRowTypes(a: AthleteDir)
    ensures exists sorted: seq<string> ::
              && AthleteRowOf(a).activityTypes == Join(sorted, ",")
              && OrderedBy(sorted, LexLe) && Distinct(sorted)
              && forall x :: x in sorted <==>
                   x != "" && exists k :: 0 <= k < |RowsOf(a.sessions)| && Cell(RowsOf(a.sessions)[k], "sport") == x
  {
    var rows := RowsOf(a.sessions);
    SportsOnce(rows);
    SortedTypes(Sports(rows));
    var sorted := SortBy(Sports(rows), LexLe);
    assert AthleteRowOf(a).activityTypes == Join(sorted, ",");
  }

  /** The per-row loop of `generate_athletes_tsv` over one `sessions.tsv`. */
  method SummarizeSessions(rows: seq<map<string, string>>) returns (s: Summary)
    ensures s == Summarize(rows)
  {
    var count := 0;
    var first: Option<string> := None;
    var last: Option<string> := None;
    var distance := 0;
    var movingTime := 0;
    var types: seq<string> := [];
    var i := 0;
    while i < |rows|
      invariant 0 <= i <= |rows|
      invariant count == i
      invariant first == FirstDate(rows[..i]) && last == LastDate(rows[..i])
      invariant distance == SumOf(rows[..i], "distance_m") && movingTime == SumOf(rows[..i], "moving_time_s")
      invariant types == Sports(rows[..i])
    {
      var row := rows[i];
      assert rows[..i + 1][..i] == rows[..i];
      count := count + 1;
      var dt := Cell(row, "datetime");
      if dt != "" {
        if first.None? || LexLt(dt, first.value) {
          first := Some(dt);
        }
        if last.None? || LexLt(last.value, dt) {
          last := Some(dt);
        }
      }
      distance := distance + Amount(row, "distance_m");
      movingTime := movingTime + Amount(row, "moving_time_s");
      var sport := Cell(row, "sport");
      if sport != "" && sport !in types {
        types := types + [sport];
      }
      i := i + 1;
    }
    assert rows[..i] == rows;
    s := Summary(count, first, last, distance, movingTime, types);
  }

  /** The rows of `athletes.tsv`: one per athlete directory, in iteration order. */
  function AthleteRows(athletes: seq<AthleteDir>): (rows: seq<AthleteRow>)
    ensures |rows| == |athletes|
  {
    seq(|athletes|, i requires 0 <= i < |athletes| => AthleteRowOf(athletes[i]))
  }

  /** `generate_athletes_tsv`. */
  method GenerateAthletesTsv(athletes: seq<AthleteDir>) returns (rows: seq<AthleteRow>)
    ensures rows == AthleteRows(athletes)
  {
    rows := [];
    for i := 0 to |athletes|
      invariant |rows| == i
      invariant forall j :: 0 <= j < i ==> rows[j] == AthleteRowOf(athletes[j])
    {
      var a := athletes[i];
      var s := SummarizeSessions(RowsOf(a.sessions));
      var p := a.profile;
      rows := rows + [AthleteRow(
        a.username,
        if p.Some? then p.value.firstname else "",
        if p.Some? then p.value.lastname else "",
        if p.Some? then p.value.city else "",
        if p.Some? then p.value.country else "",
        s.count, OrEmpty(s.first), OrEmpty(s.last), s.distance, s.movingTime,
        ActivityTypes(s.types))];
    }
    assert rows == AthleteRows(athletes);
  }

  // ---------------------------------------------------------------- start coordinates

  /**
   * The start point of an athlete's session, by user name and session key:
   * the first GPS coordinate, rounded to six places, as latitude and
   * longitude text; None when the session directory is missing, its tracking
   * manifest is missing or has no GPS, or the track has no coordinates.
   */
  type StartPoints = (string, string) -> Option<(string, string)>

  /** `str` of a rounded float is never empty. */
  ghost predicate NonEmptyPoints(start: StartPoints)
  {
    forall user, key :: start(user, key).Some? ==> start(user, key).value.0 != "" && start(user, key).value.1 != ""
  }

  /** The coordinates a row receives: none without a session key. */
  function StartOf(user: string, row: map<string, string>, start: StartPoints): Option<(string, string)>
  {
    var key := Cell(row, "datetime");
    if key == "" then None else start(user, key)
  }

  /** A row with its `center_lat` and `center_lng` cells set to the start point, or to "". */
  function WithCenter(user: string, row: map<string, string>, start: StartPoints): map<string, string>
  {
    match StartOf(user, row, start)
    case Some(p) => row["center_lat" := p.0]["center_lng" := p.1]
    case None => row["center_lat" := ""]["center_lng" := ""]
  }

  /** Both center columns are in the header. */
  predicate HasCenter(fieldnames: seq<string>)
  {
    "center_lat" in fieldnames && "center_lng" in fieldnames
  }

  /** The header with each missing center column appended. */
  function CenterHeader(fieldnames: seq<string>): seq<string>
  {
    var f := if "center_lat" in fieldnames then fieldnames else fieldnames + ["center_lat"];
    if "center_lng" in f then f else f + ["center_lng"]
  }

  /** Appending the missing columns keeps the old header in place and adds only the two center columns. */
  lemma CenterHeaderMeaning(fieldnames: seq<string>)
    ensures fieldnames <= CenterHeader(fieldnames)
    ensures HasCenter(CenterHeader(fieldnames))
    ensures forall c :: c in CenterHeader(fieldnames) ==> c in fieldnames || c == "center_lat" || c == "center_lng"
    ensures HasCenter(fieldnames) ==> CenterHeader(fieldnames) == fieldnames
  {
  }

  /** Every row with its center cells set. */
  function CenterRows(user: string, rows: seq<map<string, string>>, start: StartPoints): (r: seq<map<string, string>>)
    ensures |r| == |rows|
  {
    seq(|rows|, k requires 0 <= k < |rows| => WithCenter(user, rows[k], start))
  }

  /** The number of rows that get a start point. */
  function Hits(user: string, rows: seq<map<string, string>>, start: StartPoints): nat
    decreases |rows|
  {
    if rows == [] then 0
    else Hits(user, rows[..|rows| - 1], start) + (if StartOf(user, rows[|rows| - 1], start).Some? then 1 else 0)
  }

  /** The number of rows whose `center_lat` cell is filled. */
  function Filled(rows: seq<map<string, string>>): nat
    decreases |rows|
  {
    if rows == [] then 0
    else Filled(rows[..|rows| - 1]) + (if Cell(rows[|rows| - 1], "center_lat") != "" then 1 else 0)
  }

  /** The count of updated sessions is the number of rows whose coordinates were filled in. */
  lemma {:induction false} HitsAreFilled(user: string, rows: seq<map<string, string>>, start: StartPoints)
    requires NonEmptyPoints(start)
    ensures Filled(CenterRows(user, rows, start)) == Hits(user, rows, start) <= |rows|
    decreases |rows|
  {
    if rows != [] {
      var n := |rows| - 1;
      HitsAreFilled(user, rows[..n], start);
      assert CenterRows(user, rows, start)[..n] == CenterRows(user, rows[..n], start);
    }
  }

  /** `sessions.tsv` after the start points are added. */
  function CenterTable(user: string, t: Table, start: StartPoints): Table
  {
    Table(CenterHeader(t.fieldnames), CenterRows(user, t.rows, start))
  }

  /** A sessions file is skipped when it is missing, or has both columns and `force` is off. */
  predicate SkipsCenter(a: AthleteDir, force: bool)
  {
    a.sessions.None? || (HasCenter(a.sessions.value.fieldnames) && !force)
  }

  /** An athlete directory after `add_center_coords_to_sessions`. */
  function CenterDir(a: AthleteDir, force: bool, start: StartPoints): AthleteDir
  {
    if SkipsCenter(a, force) then a
    else a.(sessions := Some(CenterTable(a.username, a.sessions.value, start)))
  }

  /** The sessions one athlete directory contributes to the count. */
  function CenterCount(a: AthleteDir, force: bool, start: StartPoints): nat
  {
    if SkipsCenter(a, force) then 0 else Hits(a.username, a.sessions.value.rows, start)
  }

  /** The count over every athlete directory. */
  function TotalCenterCount(athletes: seq<AthleteDir>, force: bool, start: StartPoints): nat
    decreases |athletes|
  {
    if athletes == [] then 0
    else TotalCenterCount(athletes[..|athletes| - 1], force, start) + CenterCount(athletes[|athletes| - 1], force, start)
  }

  /**
   * What `add_center_coords_to_sessions` does to one athlete directory: a
   * skipped file is left as it is; otherwise both columns are in the header,
   * every row keeps its other cells, and its center cells hold the start
   * point or "".
   */
  lemma CenterDirMeaning(a: AthleteDir, force: bool, start: StartPoints)
    ensures SkipsCenter(a, force) ==> CenterDir(a, force, start) == a && CenterCount(a, force, start) == 0
    ensures !SkipsCenter(a, force) ==>
              var before := a.sessions.value;
              var after := CenterDir(a, force, start).sessions.value;
              && HasCenter(after.fieldnames) && before.fieldnames <= after.fieldnames
              && |after.rows| == |before.rows|
              && forall k :: 0 <= k < |before.rows| ==>
                   && (forall c :: c != "center_lat" && c != "center_lng" ==>
                         (c in after.rows[k] <==> c in before.rows[k])
                         && (c in before.rows[k] ==> after.rows[k][c] == before.rows[k][c]))
                   && "center_lat" in after.rows[k] && "center_lng" in after.rows[k]
                   && (StartOf(a.username, before.rows[k], start).Some? ==>
                         (after.rows[k]["center_lat"], after.rows[k]["center_lng"])
                           == StartOf(a.username, before.rows[k], start).value)
                   && (StartOf(a.username, before.rows[k], start).None? ==>
                         after.rows[k]["center_lat"] == "" && after.rows[k]["center_lng"] == "")
  {
    if !SkipsCenter(a, force) {
      CenterHeaderMeaning(a.sessions.value.fieldnames);
    }
  }

  /** The row loop of `add_center_coords_to_sessions` over one file whose header lacks a column or is forced. */
  method CenterSessions(user: string, t: Table, start: StartPoints) returns (n: nat, out: Table)
    ensures out == CenterTable(user, t, start)
    ensures n == Hits(user, t.rows, start)
  {
    var fieldnames := t.fieldnames;
    if "center_lat" !in fieldnames {
      fieldnames := fieldnames + ["center_lat"];
    }
    if "center_lng" !in fieldnames {
      fieldnames := fieldnames + ["center_lng"];
    }
    var rows := t.rows;
    n := 0;
    for i := 0 to |rows|
      invariant |rows| == |t.rows|
      invariant forall k :: 0 <= k < i ==> rows[k] == WithCenter(user, t.rows[k], start)
      invariant forall k :: i <= k < |rows| ==> rows[k] == t.rows[k]
      invariant n == Hits(user, t.rows[..i], start)
    {
      assert t.rows[..i + 1][..i] == t.rows[..i];
      var row := rows[i];
      var key := Cell(row, "datetime");
      var point := if key == "" then None else start(user, key);
      if point.Some? {
        rows := rows[i := row["center_lat" := point.value.0]["center_lng" := point.value.1]];
        n := n + 1;
      } else {
        rows := rows[i := row["center_lat" := ""]["center_lng" := ""]];
      }
    }
    assert t.rows[..|t.rows|] == t.rows;
    out := Table(fieldnames, rows);
  }

  /** Every athlete directory after `add_center_coords_to_sessions`. */
  function CenterDirs(athletes: seq<AthleteDir>, force: bool, start: StartPoints): (r: seq<AthleteDir>)
    ensures |r| == |athletes|
  {
    seq(|athletes|, i requires 0 <= i < |athletes| => CenterDir(athletes[i], force, start))
  }

  /** `add_center_coords_to_sessions`: every athlete directory in turn. */
  method AddCenterCoordsToSessions(athletes: seq<AthleteDir>, force: bool, start: StartPoints)
    returns (count: nat, out: seq<AthleteDir>)
    ensures out == CenterDirs(athletes, force, start)
    ensures count == TotalCenterCount(athletes, force, start)
  {
    count := 0;
    out := athletes;
    for i := 0 to |athletes|
      invariant |out| == |athletes|
      invariant forall j :: 0 <= j < i ==> out[j] == CenterDir(athletes[j], force, start)
      invariant forall j :: i <= j < |out| ==> out[j] == athletes[j]
      invariant count == TotalCenterCount(athletes[..i], force, start)
    {
      assert athletes[..i + 1][..i] == athletes[..i];
      var a := athletes[i];
      if a.sessions.None? {
        continue;
      }
      var t := a.sessions.value;
      if "center_lat" in t.fieldnames && "center_lng" in t.fieldnames && !force {
        continue;
      }
      var n, t' := CenterSessions(a.username, t, start);
      out := out[i := a.(sessions := Some(t'))];
      count := count + n;
    }
    assert athletes[..|athletes|] == athletes;
    assert out == CenterDirs(athletes, force, start);
  }

  // ---------------------------------------------------------------- dataset files

  /** The dataset files that name athlete directories. */
  const DatasetFiles: seq<string> := ["Makefile", "README.md"]

  /** The file exists and still mentions the legacy prefix. */
  predicate NamesLegacy(files: map<string, string>, f: string)
  {
    f in files && Contains(files[f], LegacyPrefix)
  }

  /** The files of `names` that mention the legacy prefix, in order. */
  function Reported(files: map<string, string>, names: seq<string>): (r: seq<string>)
    decreases |names|
  {
    if names == [] then []
    else
      var f := names[|names| - 1];
      Reported(files, names[..|names| - 1]) + (if NamesLegacy(files, f) then [f] else [])
  }

  /** The dataset root once `f`, if it mentions the legacy prefix, is rewritten. */
  function RewriteOne(files: map<string, string>, f: string): map<string, string>
  {
    if NamesLegacy(files, f) then files[f := ReplaceAll(files[f], LegacyPrefix, AthletePrefix)] else files
  }

  /** The dataset root once each file of `names` in turn is rewritten. */
  function Rewritten(files: map<string, string>, names: seq<string>): (r: map<string, string>)
    decreases |names|
  {
    if names == [] then files else RewriteOne(Rewritten(files, names[..|names| - 1]), names[|names| - 1])
  }

  /** Rewriting the files of `names` keeps the set of files and leaves every other file as it was. */
  lemma {:induction false} RewrittenElsewhere(files: map<string, string>, names: seq<string>)
    ensures Rewritten(files, names).Keys == files.Keys
    ensures forall f :: f in files && f !in names ==> Rewritten(files, names)[f] == files[f]
    decreases |names|
  {
    if names != [] {
      RewrittenElsewhere(files, names[..|names| - 1]);
    }
  }

  /** Replacing `sub=` by `athl=` cannot leave a `sub=` behind. */
  lemma LegacyPrefixErased()
    ensures ReplacementErases(LegacyPrefix, AthletePrefix)
  {
  }

  /** A file is reported exactly when it is a dataset file that mentions the legacy prefix. */
  lemma {:induction false} ReportedMeaning(files: map<string, string>, names: seq<string>)
    ensures forall f :: f in Reported(files, names) <==> f in names && NamesLegacy(files, f)
    decreases |names|
  {
    if names != [] {
      ReportedMeaning(files, names[..|names| - 1]);
      assert names == names[..|names| - 1] + [names[|names| - 1]];
    }
  }

  /**
   * After a real run neither dataset file mentions the legacy prefix, every
   * other file is as it was, and a second run reports nothing.
   */
  lemma UpdateDatasetFilesErases(files: map<string, string>)
    ensures forall f :: f in DatasetFiles && f in files ==> !NamesLegacy(Rewritten(files, DatasetFiles), f)
    ensures Rewritten(files, DatasetFiles).Keys == files.Keys
    ensures forall f :: f in files && f !in DatasetFiles ==> Rewritten(files, DatasetFiles)[f] == files[f]
    ensures Reported(Rewritten(files, DatasetFiles), DatasetFiles) == []
  {
    var out := Rewritten(files, DatasetFiles);
    RewrittenElsewhere(files, DatasetFiles);
    LegacyPrefixErased();
    forall f | f in DatasetFiles && f in files
      ensures !NamesLegacy(out, f)
    {
      if NamesLegacy(files, f) {
        ReplaceAllErases(files[f], LegacyPrefix, AthletePrefix);
      }
    }
    ReportedMeaning(out, DatasetFiles);
  }

  /**
   * `update_dataset_files`: rewrites `sub=` to `athl=` in the Makefile and
   * README.md of the dataset root and reports each rewritten file; a dry run
   * reports the same files and writes nothing.
   */
  method UpdateDatasetFiles(files: map<string, string>, dryRun: bool)
    returns (updated: seq<string>, out: map<string, string>)
    ensures updated == Reported(files, DatasetFiles)
    ensures out == if dryRun then files else Rewritten(files, DatasetFiles)
  {
    updated := [];
    out := files;
    for k := 0 to |DatasetFiles|
      invariant updated == Reported(files, DatasetFiles[..k])
      invariant out == if dryRun then files else Rewritten(files, DatasetFiles[..k])
    {
      assert DatasetFiles[..k + 1][..k] == DatasetFiles[..k];
      var f := DatasetFiles[k];
      assert f !in DatasetFiles[..k];
      RewrittenElsewhere(files, DatasetFiles[..k]);
      if f !in out {
        continue;
      }
      var content := out[f];
      if !Contains(content, LegacyPrefix) {
        continue;
      }
      if !dryRun {
        out := out[f := ReplaceAll(content, LegacyPrefix, AthletePrefix)];
      }
      updated := updated + [f];
    }
    assert DatasetFiles[..|DatasetFiles|] == DatasetFiles;
  }

  // ---------------------------------------------------------------- .gitattributes

  /** The rule that routes log files to git-annex. */
  const LogRule: string :=
    "# Force log files to git-annex to avoid bloating .git/objects\n"
    + "*.log annex.largefiles=anything\n"
    + "logs/**/*.log annex.largefiles=anything\n"

  /** The text whose presence means the rule is already there. */
  const LogRuleMarker: string := "*.log annex.largefiles"

  /** The rule text follows anything it is appended to. */
  lemma MarkerAfter(prefix: string)
    ensures Contains(prefix + LogRule, LogRuleMarker)
  {
    var s := prefix + LogRule;
    assert s[|prefix| + 62..][..|LogRuleMarker|] == LogRule[62..62 + |LogRuleMarker|];
    ContainsAt(s, LogRuleMarker, |prefix| + 62);
  }

  /**
   * `add_log_gitattributes_rule` on the content of `.gitattributes` (None
   * when the file is missing): whether the rule was (or would be) added, and
   * the content afterwards. After a real run the rule is always present.
   */
  function AddLogRule(gitattributes: Option<string>, dryRun: bool): (r: (bool, Option<string>))
    ensures r.0 <==> !(gitattributes.Some? && Contains(gitattributes.value, LogRuleMarker))
    ensures !dryRun ==> r.1.Some? && Contains(r.1.value, LogRuleMarker)
  {
    if gitattributes.Some? && Contains(gitattributes.value, LogRuleMarker) then (false, gitattributes)
    else if dryRun then (true, gitattributes)
    else
      var prefix := RStrip(OrEmpty(gitattributes)) + "\n\n";
      MarkerAfter(prefix);
      (true, Some(prefix + LogRule))
  }

  /** A second call adds nothing and leaves the content byte-identical. */
  lemma AddLogRuleIdempotent(gitattributes: Option<string>, dryRun: bool)
    ensures AddLogRule(AddLogRule(gitattributes, false).1, dryRun) == (false, AddLogRule(gitattributes, false).1)
  {
  }

  /** When the rule is added, the old content without its trailing whitespace comes first, then a blank line, then the rule. */
  lemma AddLogRuleAppends(gitattributes: Option<string>)
    requires AddLogRule(gitattributes, false).0
    ensures var content := AddLogRule(gitattributes, false).1.value;
            var kept := RStrip(OrEmpty(gitattributes));
            kept <= OrEmpty(gitattributes) && content == kept + "\n\n" + LogRule
  {
  }

  /** A dry run gives the real run's answer and changes nothing, not even a missing file. */
  lemma AddLogRuleDryRun(gitattributes: Option<string>)
    ensures AddLogRule(gitattributes, true) == (AddLogRule(gitattributes, false).0, gitattributes)
  {
  }

  // ---------------------------------------------------------------- the whole migration

  /**
   * The parts of a data directory and its dataset root that the migration
   * reads and writes. `athletes` is the list of `athl=` directories
   * `iter_athlete_dirs` yields once the prefix renames are done; it is given
   * here rather than derived from `listing`.
   */
  datatype Layout = Layout(
    listing: Option<seq<Entry>>,
    athletes: seq<AthleteDir>,
    athletesTsv: Option<seq<AthleteRow>>,
    parentIsDataset: bool,
    parentFiles: map<string, string>,
    dataFiles: map<string, string>)

  /**
   * The dataset root: the parent of the data directory when it holds
   * `.datalad`, else the data directory itself (the second check of the code
   * can only pick the data directory again).
   */
  function DatasetRoot(l: Layout): map<string, string>
  {
    if l.parentIsDataset then l.parentFiles else l.dataFiles
  }

  function WithDatasetRoot(l: Layout, files: map<string, string>): Layout
  {
    if l.parentIsDataset then l.(parentFiles := files) else l.(dataFiles := files)
  }

  function Gitattributes(files: map<string, string>): Option<string>
  {
    if ".gitattributes" in files then Some(files[".gitattributes"]) else None
  }

  /** The result dictionary of `run_full_migration`. */
  datatype Report = Report(
    prefixRenames: seq<(string, string)>,
    datasetFilesUpdated: seq<string>,
    logGitattributesAdded: bool,
    athletesTsvWritten: bool,
    sessionsUpdated: nat)

  /** The dataset root after steps 2 and 3 of a real run. */
  function MigratedRoot(files: map<string, string>): map<string, string>
  {
    var rewritten := Rewritten(files, DatasetFiles);
    var g := AddLogRule(Gitattributes(rewritten), false);
    if g.0 then rewritten[".gitattributes" := g.1.value] else rewritten
  }

  /** After a real run the dataset root's `.gitattributes` exists and carries the log rule. */
  lemma MigratedRootHasLogRule(files: map<string, string>)
    ensures ".gitattributes" in MigratedRoot(files)
    ensures Contains(MigratedRoot(files)[".gitattributes"], LogRuleMarker)
  {
    RewrittenElsewhere(files, DatasetFiles);
  }

  /** Steps 2 and 3: the dataset files and the log rule. */
  method UpdateDatasetRoot(files: map<string, string>, dryRun: bool)
    returns (updated: seq<string>, added: bool, out: map<string, string>)
    ensures updated == Reported(files, DatasetFiles)
    ensures added == AddLogRule(Gitattributes(files), dryRun).0
    ensures out == if dryRun then files else MigratedRoot(files)
  {
    updated, out := UpdateDatasetFiles(files, dryRun);
    assert Gitattributes(out) == Gitattributes(files);
    var g := AddLogRule(Gitattributes(out), dryRun);
    added := g.0;
    if added && !dryRun {
      out := out[".gitattributes" := g.1.value];
    }
  }

  /**
   * `run_full_migration`: the prefix renames when `needs_migration` says so
   * (a clash raises, and nothing after it runs), the dataset files and the
   * log rule, and, unless this is a dry run, `athletes.tsv` and the center
   * columns. `l.athletes` stands for the athlete directories after the
   * renames, as `Layout` says.
   */
  method RunFullMigration(l: Layout, needsMigration: bool, dryRun: bool, start: StartPoints)
    returns (r: Outcome<Report>, out: Layout)
    requires l.listing.Some? ==> DistinctNames(l.listing.value)
    ensures r.Failure? <==> needsMigration && l.listing.Some? && exists k :: Clashes(l.listing.value, k)
    ensures r.Failure? ==> out.athletes == l.athletes && out.athletesTsv == l.athletesTsv && DatasetRoot(out) == DatasetRoot(l)
    ensures dryRun ==> out == l
    ensures r.Success? ==>
              && r.value.prefixRenames == (if needsMigration && l.listing.Some? then Plan(l.listing.value) else [])
              && r.value.datasetFilesUpdated == Reported(DatasetRoot(l), DatasetFiles)
              && r.value.logGitattributesAdded == AddLogRule(Gitattributes(DatasetRoot(l)), dryRun).0
    ensures r.Success? && dryRun ==> !r.value.athletesTsvWritten && r.value.sessionsUpdated == 0
    ensures r.Success? && !dryRun ==>
              && r.value.athletesTsvWritten
              && out.athletesTsv == Some(AthleteRows(l.athletes))
              && out.athletes == CenterDirs(l.athletes, false, start)
              && r.value.sessionsUpdated == TotalCenterCount(l.athletes, false, start)
              && DatasetRoot(out) == MigratedRoot(DatasetRoot(l))
  {
    out := l;
    var renames: seq<(string, string)> := [];
    if needsMigration {
      var m, after := MigrateAthletePrefixes(l.listing, dryRun);
      out := out.(listing := after);
      if m.Failure? {
        return Failure(m.error), out;
      }
      renames := m.value;
    }
    var root := DatasetRoot(out);
    var updated, added, newRoot := UpdateDatasetRoot(root, dryRun);
    out := WithDatasetRoot(out, newRoot);
    var sessionsUpdated := 0;
    if !dryRun {
      var rows := GenerateAthletesTsv(out.athletes);
      out := out.(athletesTsv := Some(rows));
      var n, athletes := AddCenterCoordsToSessions(out.athletes, false, start);
      out := out.(athletes := athletes);
      sessionsUpdated := n;
    }
    r := Success(Report(renames, updated, added, !dryRun, sessionsUpdated));
  }
}
