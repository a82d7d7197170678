/**
 * The migrations of the renamed package (mykrok) on top of the strava-backup
 * ones: the config directory `.strava-backup/` becomes `.mykrok/`, paths and
 * names in `.gitattributes` and the dataset template files are rewritten, and
 * the `center_*` columns of `sessions.tsv` become `start_*`. The functions
 * the two packages share are the ones of module `Migrate`.
 *
 * The dataset root is a value: its regular files by name, and its
 * directories by name, each as a map from the relative path of a file inside
 * it to that file's content.
 */
module MykrokMigrate {
  import opened Util
  import opened Migrate

  // ---------------------------------------------------------------- center_* -> start_*

  /** A header cell after the rename. */
  function StartColumn(c: string): string
  {
    if c == "center_lat" then "start_lat" else if c == "center_lng" then "start_lng" else c
  }

  /** The header with `center_lat` and `center_lng` renamed in place. */
  function StartHeader(fieldnames: seq<string>): (r: seq<string>)
    ensures |r| == |fieldnames|
  {
    seq(|fieldnames|, k requires 0 <= k < |fieldnames| => StartColumn(fieldnames[k]))
  }

  /** The header still has a legacy column. */
  predicate HasOldColumns(fieldnames: seq<string>)
  {
    "center_lat" in fieldnames || "center_lng" in fieldnames
  }

  /** The header has both new columns. */
  predicate HasNewColumns(fieldnames: seq<string>)
  {
    "start_lat" in fieldnames && "start_lng" in fieldnames
  }

  /** The header rename keeps every other column where it was and leaves no legacy column. */
  lemma StartHeaderMeaning(fieldnames: seq<string>)
    ensures forall k :: 0 <= k < |fieldnames| && fieldnames[k] == "center_lat" ==> StartHeader(fieldnames)[k] == "start_lat"
    ensures forall k :: 0 <= k < |fieldnames| && fieldnames[k] == "center_lng" ==> StartHeader(fieldnames)[k] == "start_lng"
    ensures forall k :: 0 <= k < |fieldnames| && fieldnames[k] != "center_lat" && fieldnames[k] != "center_lng" ==>
              StartHeader(fieldnames)[k] == fieldnames[k]
    ensures !HasOldColumns(StartHeader(fieldnames))
  {
  }

  /** `row[to] = row.pop(from)` when `from` is in the row. */
  function MoveKey(row: map<string, string>, from: string, to: string): map<string, string>
  {
    if from in row then (row - {from})[to := row[from]] else row
  }

  /** A row with its center cells moved to the start columns. */
  function RenameRow(row: map<string, string>): map<string, string>
  {
    MoveKey(MoveKey(row, "center_lat", "start_lat"), "center_lng", "start_lng")
  }

  /** A row after the rename, with a missing start value computed from the first GPS point. */
  function StartRow(user: string, row: map<string, string>, start: StartPoints): map<string, string>
  {
    var r := RenameRow(row);
    var key := Cell(r, "datetime");
    if key != "" && (Cell(r, "start_lat") == "" || Cell(r, "start_lng") == "") && start(user, key).Some? then
      r["start_lat" := start(user, key).value.0]["start_lng" := start(user, key).value.1]
    else r
  }

  /**
   * What a migrated row holds: no legacy cell; every other cell as before;
   * the start cells are the old center cells, or, when one of them is
   * missing and the session has a start point, that start point.
   */
  lemma StartRowMeaning(user: string, row: map<string, string>, start: StartPoints)
    ensures "center_lat" !in StartRow(user, row, start) && "center_lng" !in StartRow(user, row, start)
    ensures forall c :: c !in {"center_lat", "center_lng", "start_lat", "start_lng"} ==>
              (c in StartRow(user, row, start) <==> c in row)
              && (c in row ==> StartRow(user, row, start)[c] == row[c])
    ensures var r := RenameRow(row);
            StartRow(user, row, start) == r
            || (start(user, Cell(row, "datetime")).Some?
                && (Cell(r, "start_lat") == "" || Cell(r, "start_lng") == "")
                && StartRow(user, row, start)["start_lat"] == start(user, Cell(row, "datetime")).value.0
                && StartRow(user, row, start)["start_lng"] == start(user, Cell(row, "datetime")).value.1)
    ensures Cell(RenameRow(row), "start_lat") != "" && Cell(RenameRow(row), "start_lng") != "" ==>
              StartRow(user, row, start) == RenameRow(row)
    ensures "center_lat" in row ==> RenameRow(row)["start_lat"] == row["center_lat"]
    ensures "center_lng" in row ==> RenameRow(row)["start_lng"] == row["center_lng"]
  {
    assert Cell(RenameRow(row), "datetime") == Cell(row, "datetime");
  }

  /** Every row after the migration. */
  function StartRows(user: string, rows: seq<map<string, string>>, start: StartPoints): (r: seq<map<string, string>>)
    ensures |r| == |rows|
  {
    seq(|rows|, k requires 0 <= k < |rows| => StartRow(user, rows[k], start))
  }

  /** A sessions file is rewritten exactly when its header still has a legacy column. */
  predicate MigratesStart(a: AthleteDir)
  {
    a.sessions.Some? && HasOldColumns(a.sessions.value.fieldnames)
  }

  /** Every key of the row is a header cell, so `DictWriter` (with `extrasaction="raise"`) accepts it. */
  predicate RowFits(header: seq<string>, row: map<string, string>)
  {
    forall c :: c in row ==> c in header
  }

  /** The index of the first row `DictWriter` refuses, or the number of rows when it accepts them all. */
  function FirstStray(header: seq<string>, rows: seq<map<string, string>>): (k: nat)
    ensures k <= |rows|
    ensures forall j :: 0 <= j < k ==> RowFits(header, rows[j])
    ensures k < |rows| ==> !RowFits(header, rows[k])
    decreases |rows|
  {
    if rows == [] || !RowFits(header, rows[0]) then 0 else 1 + FirstStray(header, rows[1..])
  }

  /** The message of the `ValueError` `DictWriter` raises on a key outside the header. */
  const StrayFieldError: string := "ValueError: dict contains fields not in fieldnames"

  /**
   * One sessions file whose header has a legacy column, as the rewrite leaves
   * it: the renamed header and every migrated row; or, when a migrated row has
   * a key outside the renamed header, the header and the rows before that
   * one (the file was already truncated), together with the `ValueError`.
   */
  function StartFile(user: string, t: Table, start: StartPoints): (Table, Option<string>)
  {
    var header := StartHeader(t.fieldnames);
    var rows := StartRows(user, t.rows, start);
    var k := FirstStray(header, rows);
    if k == |rows| then (Table(header, rows), None) else (Table(header, rows[..k]), Some(StrayFieldError))
  }

  /**
   * A header with only `center_lat` gets only `start_lat`, but a row whose
   * start point is computed also gets a `start_lng` cell, which the writer
   * refuses: the file keeps its header and the rows before that row, and the
   * migration raises.
   */
  lemma OneLegacyColumnRaises(user: string, t: Table, start: StartPoints, i: nat)
    requires "center_lng" !in t.fieldnames && "start_lng" !in t.fieldnames
    requires i < |t.rows| && forall j :: 0 <= j < i ==> RowFits(StartHeader(t.fieldnames), StartRow(user, t.rows[j], start))
    requires "center_lng" !in t.rows[i] && "start_lng" !in t.rows[i]
    requires Cell(t.rows[i], "datetime") != "" && start(user, Cell(t.rows[i], "datetime")).Some?
    ensures StartFile(user, t, start) == (Table(StartHeader(t.fieldnames), StartRows(user, t.rows, start)[..i]), Some(StrayFieldError))
  {
    var header := StartHeader(t.fieldnames);
    var row := StartRow(user, t.rows[i], start);
    assert Cell(RenameRow(t.rows[i]), "datetime") == Cell(t.rows[i], "datetime");
    assert Cell(RenameRow(t.rows[i]), "start_lng") == "";
    assert "start_lng" in row;
    assert forall k :: 0 <= k < |header| ==> header[k] == StartColumn(t.fieldnames[k]) != "start_lng";
    var rows := StartRows(user, t.rows, start);
    assert rows[i] == row && !RowFits(header, rows[i]);
    assert forall j :: 0 <= j < i ==> RowFits(header, rows[j]);
  }

  /** A header whose legacy columns come in pairs, with rows holding only header keys, is rewritten without error. */
  lemma BothColumnsWrite(user: string, t: Table, start: StartPoints)
    requires "center_lat" in t.fieldnames && "center_lng" in t.fieldnames
    requires forall j :: 0 <= j < |t.rows| ==> RowFits(t.fieldnames, t.rows[j])
    ensures StartFile(user, t, start) == (Table(StartHeader(t.fieldnames), StartRows(user, t.rows, start)), None)
  {
    var header := StartHeader(t.fieldnames);
    var rows := StartRows(user, t.rows, start);
    var a :| 0 <= a < |t.fieldnames| && t.fieldnames[a] == "center_lat";
    var b :| 0 <= b < |t.fieldnames| && t.fieldnames[b] == "center_lng";
    assert header[a] == "start_lat" && header[b] == "start_lng";
    forall j | 0 <= j < |rows| ensures RowFits(header, rows[j]) {
      var row := t.rows[j];
      StartRowMeaning(user, row, start);
      forall c | c in rows[j] ensures c in header {
        if c != "start_lat" && c != "start_lng" {
          assert c in row;
          var m :| 0 <= m < |t.fieldnames| && t.fieldnames[m] == c;
          assert header[m] == c;
        }
      }
    }
    assert FirstStray(header, rows) == |rows|;
  }

  /** An athlete directory after `migrate_center_to_start_coords`, with the error its file raised. */
  function StartDirOutcome(a: AthleteDir, start: StartPoints): (AthleteDir, Option<string>)
  {
    if MigratesStart(a) then
      var f := StartFile(a.username, a.sessions.value, start);
      (a.(sessions := Some(f.0)), f.1)
    else (a, None)
  }

  /** An athlete directory after `migrate_center_to_start_coords`. */
  function StartDir(a: AthleteDir, start: StartPoints): AthleteDir
  {
    StartDirOutcome(a, start).0
  }

  /** Rewriting the directory's sessions file raises. */
  predicate StartFails(a: AthleteDir, start: StartPoints)
  {
    StartDirOutcome(a, start).1.Some?
  }

  /** Every athlete directory after the migration, each taken on its own. */
  function StartDirs(athletes: seq<AthleteDir>, start: StartPoints): (r: seq<AthleteDir>)
    ensures |r| == |athletes|
  {
    seq(|athletes|, i requires 0 <= i < |athletes| => StartDir(athletes[i], start))
  }

  /** The index of the first directory whose rewrite raises, or the number of directories. */
  function FirstFailing(athletes: seq<AthleteDir>, start: StartPoints): (k: nat)
    ensures k <= |athletes|
    ensures forall j :: 0 <= j < k ==> !StartFails(athletes[j], start)
    ensures k < |athletes| ==> StartFails(athletes[k], start)
    decreases |athletes|
  {
    if athletes == [] || StartFails(athletes[0], start) then 0 else 1 + FirstFailing(athletes[1..], start)
  }

  /**
   * The athlete directories once the loop has run: each one up to and
   * including the first that raises is rewritten, the ones after it are not.
   */
  function StartedDirs(athletes: seq<AthleteDir>, start: StartPoints): (r: seq<AthleteDir>)
    ensures |r| == |athletes|
    ensures FirstFailing(athletes, start) == |athletes| ==> r == StartDirs(athletes, start)
  {
    var f := FirstFailing(athletes, start);
    seq(|athletes|, i requires 0 <= i < |athletes| => if i <= f then StartDir(athletes[i], start) else athletes[i])
  }

  /** The number of files the migration rewrites. */
  function StartCount(athletes: seq<AthleteDir>): nat
    decreases |athletes|
  {
    if athletes == [] then 0
    else StartCount(athletes[..|athletes| - 1]) + (if MigratesStart(athletes[|athletes| - 1]) then 1 else 0)
  }

  /**
   * Already migrated files (both new columns, no old one) and files without
   * either kind are left alone and not counted; the count never exceeds the
   * number of athletes.
   */
  lemma {:induction false} StartCountMeaning(athletes: seq<AthleteDir>, start: StartPoints)
    ensures StartCount(athletes) <= |athletes|
    ensures StartCount(athletes) == 0 <==> forall i :: 0 <= i < |athletes| ==> !MigratesStart(athletes[i])
    ensures forall i :: 0 <= i < |athletes| && !MigratesStart(athletes[i]) ==> StartDirs(athletes, start)[i] == athletes[i]
    decreases |athletes|
  {
    if athletes != [] {
      var n := |athletes| - 1;
      StartCountMeaning(athletes[..n], start);
      assert forall i :: 0 <= i < n ==> athletes[..n][i] == athletes[i];
    }
  }

  /**
   * The migration of one sessions file whose header has a legacy column:
   * rename the header, migrate the rows, then write them one by one until
   * the writer refuses one.
   */
  method MigrateSessionsFile(user: string, t: Table, start: StartPoints) returns (out: Table, err: Option<string>)
    ensures (out, err) == StartFile(user, t, start)
  {
    var fieldnames: seq<string> := [];
    for k := 0 to |t.fieldnames|
      invariant fieldnames == StartHeader(t.fieldnames[..k])
    {
      var col := t.fieldnames[k];
      if col == "center_lat" {
        fieldnames := fieldnames + ["start_lat"];
      } else if col == "center_lng" {
        fieldnames := fieldnames + ["start_lng"];
      } else {
        fieldnames := fieldnames + [col];
      }
    }
    assert t.fieldnames[..|t.fieldnames|] == t.fieldnames;
    var rows := t.rows;
    for i := 0 to |rows|
      invariant |rows| == |t.rows|
      invariant forall k :: 0 <= k < i ==> rows[k] == StartRow(user, t.rows[k], start)
      invariant forall k :: i <= k < |rows| ==> rows[k] == t.rows[k]
    {
      var row := rows[i];
      if "center_lat" in row {
        row := (row - {"center_lat"})["start_lat" := row["center_lat"]];
      }
      if "center_lng" in row {
        row := (row - {"center_lng"})["start_lng" := row["center_lng"]];
      }
      var key := Cell(row, "datetime");
      if key != "" && (Cell(row, "start_lat") == "" || Cell(row, "start_lng") == "") {
        var point := start(user, key);
        if point.Some? {
          row := row["start_lat" := point.value.0]["start_lng" := point.value.1];
        }
      }
      rows := rows[i := row];
    }
    assert rows == StartRows(user, t.rows, start);
    var written := 0;
    while written < |rows| && RowFits(fieldnames, rows[written])
      invariant 0 <= written <= |rows|
      invariant forall j :: 0 <= j < written ==> RowFits(fieldnames, rows[j])
    {
      written := written + 1;
    }
    assert written == FirstStray(fieldnames, rows);
    if written < |rows| {
      return Table(fieldnames, rows[..written]), Some(StrayFieldError);
    }
    out, err := Table(fieldnames, rows), None;
  }

  /**
   * `migrate_center_to_start_coords`: rewrites every sessions file whose
   * header still has a legacy column, and counts them; a file the writer
   * refuses raises out of the loop, leaving the files after it alone.
   */
  method MigrateCenterToStartCoords(athletes: seq<AthleteDir>, start: StartPoints)
    returns (r: Outcome<nat>, out: seq<AthleteDir>)
    ensures out == StartedDirs(athletes, start)
    ensures r.Failure? <==> FirstFailing(athletes, start) < |athletes|
    ensures r.Failure? ==> r.error == StrayFieldError
    ensures r.Success? ==> r.value == StartCount(athletes) && out == StartDirs(athletes, start)
  {
    var count := 0;
    out := athletes;
    var f := FirstFailing(athletes, start);
    for i := 0 to |athletes|
      invariant i <= f
      invariant |out| == |athletes|
      invariant forall j :: 0 <= j < i ==> out[j] == StartDir(athletes[j], start)
      invariant forall j :: i <= j < |out| ==> out[j] == athletes[j]
      invariant count == StartCount(athletes[..i])
    {
      assert athletes[..i + 1][..i] == athletes[..i];
      var a := athletes[i];
      if a.sessions.None? {
        continue;
      }
      var t := a.sessions.value;
      var hasOld := "center_lat" in t.fieldnames || "center_lng" in t.fieldnames;
      var hasNew := "start_lat" in t.fieldnames && "start_lng" in t.fieldnames;
      if hasNew && !hasOld {
        continue;
      }
      var modified := hasOld;
      var err := None;
      if hasOld {
        t, err := MigrateSessionsFile(a.username, t, start);
      }
      if modified {
        out := out[i := a.(sessions := Some(t))];
        if err.Some? {
          assert out == StartedDirs(athletes, start);
          return Failure(err.value), out;
        }
        count := count + 1;
      }
    }
    assert athletes[..|athletes|] == athletes;
    r := Success(count);
  }

  // ---------------------------------------------------------------- config directory

  /** The dataset root: regular files by name, and directories by name with the files inside them by relative path. */
  datatype Root = Root(files: map<string, string>, dirs: map<string, map<string, string>>)

  /** Something of that name is in the root. */
  predicate Exists(r: Root, name: string)
  {
    name in r.files || name in r.dirs
  }

  /** A file, or a directory holding files, at `p` inside a directory. */
  predicate PathIn(d: map<string, string>, p: string)
  {
    p in d || exists q :: q in d && p + "/" <= q
  }

  /** `.mykrok/config.toml` exists. */
  predicate ConfigExists(r: Root)
  {
    ".mykrok" in r.dirs && PathIn(r.dirs[".mykrok"], "config.toml")
  }

  /** The moves `migrate_config_directory` reports. */
  datatype ConfigReport = ConfigReport(dirRenamed: Option<(string, string)>, fileMigrated: Option<(string, string)>)

  /** The report, or the exception, and the root afterwards. */
  datatype ConfigResult = ConfigResult(outcome: Outcome<ConfigReport>, root: Root)

  /** The directory move applies: `.strava-backup` is a directory and nothing is called `.mykrok`. */
  predicate MovesDir(r: Root)
  {
    ".strava-backup" in r.dirs && !Exists(r, ".mykrok")
  }

  /** The root after `shutil.move(".strava-backup", ".mykrok")`. */
  function DirMoved(r: Root): Root
    requires ".strava-backup" in r.dirs
  {
    Root(r.files, (r.dirs - {".strava-backup"})[".mykrok" := r.dirs[".strava-backup"]])
  }

  /** The second part of `migrate_config_directory`, on the root as the first part left it. */
  function MoveConfigFile(r: Root, dirRenamed: Option<(string, string)>, dryRun: bool, probe: Root): ConfigResult
  {
    if ".strava-backup.toml" in r.files && !ConfigExists(probe) then
      var report := ConfigReport(dirRenamed, Some((".strava-backup.toml", ".mykrok/config.toml")));
      if dryRun then ConfigResult(Success(report), r)
      else if ".mykrok" in r.files then ConfigResult(Failure("FileExistsError: .mykrok"), r)
      else
        var d := if ".mykrok" in r.dirs then r.dirs[".mykrok"] else map[];
        ConfigResult(Success(report),
          Root(r.files - {".strava-backup.toml"}, r.dirs[".mykrok" := d["config.toml" := r.files[".strava-backup.toml"]]]))
    else ConfigResult(Success(ConfigReport(dirRenamed, None)), r)
  }

  /**
   * `migrate_config_directory` as written: moves `.strava-backup/` to
   * `.mykrok/` unless something is called `.mykrok`, then moves
   * `.strava-backup.toml` to `.mykrok/config.toml` unless that exists. A dry
   * run checks the second move against the root it has not changed.
   */
  function MigrateConfigDirectory(r: Root, dryRun: bool): (res: ConfigResult)
    ensures dryRun ==> res.root == r
    ensures res.outcome.Failure? ==> !dryRun && ".mykrok" in r.files
  {
    var moves := MovesDir(r);
    var r1 := if moves && !dryRun then DirMoved(r) else r;
    MoveConfigFile(r1, if moves then Some((".strava-backup", ".mykrok")) else None, dryRun, r1)
  }

  /** The root the file move is checked against in a real run: after the directory move, if that applies. */
  function AfterDirStep(r: Root): Root
  {
    if MovesDir(r) then DirMoved(r) else r
  }

  /**
   * In a real run `.strava-backup/` becomes `.mykrok/` with every file in it,
   * and `dir_renamed` is reported, exactly when the directory move applies;
   * otherwise no directory changes name.
   */
  lemma RealRunMovesDir(r: Root)
    ensures var res := MigrateConfigDirectory(r, false);
            res.outcome.Success? ==> res.outcome.value.dirRenamed == (if MovesDir(r) then Some((".strava-backup", ".mykrok")) else None)
    ensures var res := MigrateConfigDirectory(r, false);
            MovesDir(r) ==>
              && res.outcome.Success?
              && ".strava-backup" !in res.root.dirs && ".mykrok" in res.root.dirs
              && forall p :: p in r.dirs[".strava-backup"] ==>
                   p in res.root.dirs[".mykrok"] && res.root.dirs[".mykrok"][p] == r.dirs[".strava-backup"][p]
    ensures var res := MigrateConfigDirectory(r, false);
            !MovesDir(r) ==> (".strava-backup" in r.dirs <==> ".strava-backup" in res.root.dirs)
  {
    if MovesDir(r) {
      var r1 := DirMoved(r);
      if ".strava-backup.toml" in r.files && !ConfigExists(r1) {
        assert "config.toml" !in r.dirs[".strava-backup"];
      }
    }
  }

  /**
   * In a real run `.strava-backup.toml` becomes `.mykrok/config.toml`, and
   * `file_migrated` is reported, exactly when it exists and no
   * `.mykrok/config.toml` exists after the directory step; that move raises
   * only when `.mykrok` is a file. Otherwise the files are left as they are.
   */
  lemma RealRunMovesFile(r: Root)
    ensures var res := MigrateConfigDirectory(r, false);
            var moves := ".strava-backup.toml" in r.files && !ConfigExists(AfterDirStep(r));
            && (res.outcome.Failure? <==> moves && ".mykrok" in r.files)
            && (res.outcome.Success? ==>
                  res.outcome.value.fileMigrated == (if moves then Some((".strava-backup.toml", ".mykrok/config.toml")) else None))
            && (moves && res.outcome.Success? ==>
                  && ".strava-backup.toml" !in res.root.files
                  && ".mykrok" in res.root.dirs && "config.toml" in res.root.dirs[".mykrok"]
                  && res.root.dirs[".mykrok"]["config.toml"] == r.files[".strava-backup.toml"])
            && (!moves ==> res.root.files == r.files)
  {
  }

  /**
   * A dry run reports moving `.strava-backup.toml` although the real run,
   * having moved a `.strava-backup/` that holds `config.toml`, skips it.
   */
  lemma DryRunReportsSkippedFileMove()
    ensures var r := Root(map[".strava-backup.toml" := "a"], map[".strava-backup" := map["config.toml" := "b"]]);
            && MigrateConfigDirectory(r, true).outcome == Success(ConfigReport(
                 Some((".strava-backup", ".mykrok")), Some((".strava-backup.toml", ".mykrok/config.toml"))))
            && MigrateConfigDirectory(r, false).outcome == Success(ConfigReport(Some((".strava-backup", ".mykrok")), None))
  {
    var r := Root(map[".strava-backup.toml" := "a"], map[".strava-backup" := map["config.toml" := "b"]]);
    assert !ConfigExists(r);
    assert ConfigExists(DirMoved(r));
  }

  /**
   * `migrate_config_directory` with the dry run checking the second move
   * against the root the first move would leave; the real run is unchanged.
   */
  function MigrateConfigDirectoryFixed(r: Root, dryRun: bool): (res: ConfigResult)
    ensures dryRun ==> res.root == r
    ensures !dryRun ==> res == MigrateConfigDirectory(r, false)
  {
    var moves := MovesDir(r);
    var probe := if moves then DirMoved(r) else r;
    MoveConfigFile(if dryRun then r else probe, if moves then Some((".strava-backup", ".mykrok")) else None, dryRun, probe)
  }

  /** With the fix, a dry run reports exactly the moves a real run makes. */
  lemma FixedDryRunReportsRealMoves(r: Root)
    requires MigrateConfigDirectoryFixed(r, false).outcome.Success?
    ensures MigrateConfigDirectoryFixed(r, true).outcome == MigrateConfigDirectoryFixed(r, false).outcome
  {
  }

  /**
   * The migration never overwrites: an existing `.mykrok` file stays as it
   * was, every file of an existing `.mykrok/` keeps its content, and an
   * existing `.mykrok/config.toml` is not replaced.
   */
  lemma ConfigNeverOverwrites(r: Root, dryRun: bool)
    ensures var after := MigrateConfigDirectory(r, dryRun).root;
            && (".mykrok" in r.files ==> ".mykrok" in after.files && after.files[".mykrok"] == r.files[".mykrok"])
            && (".mykrok" in r.dirs ==>
                  ".mykrok" in after.dirs
                  && forall p :: p in r.dirs[".mykrok"] ==>
                       p in after.dirs[".mykrok"] && after.dirs[".mykrok"][p] == r.dirs[".mykrok"][p])
  {
  }

  // ---------------------------------------------------------------- .gitattributes paths

  const LegacyConfigDir: string := ".strava-backup"
  const ConfigDir: string := ".mykrok"

  /** Replacing `.strava-backup` by `.mykrok` cannot leave a `.strava-backup` behind. */
  lemma ConfigDirErased()
    ensures ReplacementErases(LegacyConfigDir, ConfigDir)
  {
  }

  /** A text that mentions the legacy name changes when every mention is replaced. */
  lemma ReplacingChanges(s: string)
    requires Contains(s, LegacyConfigDir)
    ensures ReplaceAll(s, LegacyConfigDir, ConfigDir) != s
    ensures !Contains(ReplaceAll(s, LegacyConfigDir, ConfigDir), LegacyConfigDir)
  {
    ConfigDirErased();
    ReplaceAllErases(s, LegacyConfigDir, ConfigDir);
  }

  /**
   * `update_gitattributes_paths` on the content of `.gitattributes` (None when
   * it is missing): whether it was (or would be) updated, and the content
   * afterwards. The substitution of `\.strava-backup(/config\.toml)?` by
   * `.mykrok\1` puts `.mykrok` wherever `.strava-backup` was.
   */
  function UpdateGitattributesPaths(gitattributes: Option<string>, dryRun: bool): (r: (bool, Option<string>))
    ensures r.0 <==> gitattributes.Some? && Contains(gitattributes.value, LegacyConfigDir)
    ensures r.1.Some? == gitattributes.Some?
    ensures dryRun ==> r.1 == gitattributes
    ensures !dryRun && r.1.Some? ==> !Contains(r.1.value, LegacyConfigDir)
  {
    if gitattributes.None? || !Contains(gitattributes.value, LegacyConfigDir) then (false, gitattributes)
    else if dryRun then (true, gitattributes)
    else
      var content := ReplaceAll(gitattributes.value, LegacyConfigDir, ConfigDir);
      ReplacingChanges(gitattributes.value);
      if content != gitattributes.value then (true, Some(content)) else (false, gitattributes)
  }

  /** After a real run a second call finds nothing to update and changes nothing. */
  lemma UpdateGitattributesPathsIdempotent(gitattributes: Option<string>, dryRun: bool)
    ensures var once := UpdateGitattributesPaths(gitattributes, false).1;
            UpdateGitattributesPaths(once, dryRun) == (false, once)
  {
  }

  // ---------------------------------------------------------------- template files

  /** A regular expression of the replacement list: literal text, or literal text followed by `\b`. */
  datatype Pattern = Literal(text: string) | WordEnd(text: string)

  /** A word character for `\b`: an ASCII letter or digit, or `_`. */
  predicate IsWordChar(c: char)
  {
    ('a' <= c <= 'z') || ('A' <= c <= 'Z') || ('0' <= c <= '9') || c == '_'
  }

  /** `t` followed by a word boundary starts `s`; the last character of `t` is a word character. */
  predicate WordEndAt(s: string, t: string)
  {
    t <= s && (|s| == |t| || !IsWordChar(s[|t|]))
  }

  /** `re.search` of `t\b` in `s`. */
  predicate ContainsWordEnd(s: string, t: string)
    decreases |s|
  {
    WordEndAt(s, t) || (s != [] && ContainsWordEnd(s[1..], t))
  }

  /** `re.sub` of `t\b` by `rep` in `s`: each leftmost match replaced, scanning on after it. */
  function ReplaceWordEnd(s: string, t: string, rep: string): string
    requires |t| > 0
    decreases |s|
  {
    if s == [] then []
    else if WordEndAt(s, t) then rep + ReplaceWordEnd(s[|t|..], t, rep)
    else [s[0]] + ReplaceWordEnd(s[1..], t, rep)
  }

  lemma {:induction false} ReplaceWordEndNoMatch(s: string, t: string, rep: string)
    requires |t| > 0 && !ContainsWordEnd(s, t)
    ensures ReplaceWordEnd(s, t, rep) == s
    decreases |s|
  {
    if s != [] {
      ReplaceWordEndNoMatch(s[1..], t, rep);
      assert s == [s[0]] + s[1..];
    }
  }

  /** `re.search(pattern, s)`. */
  predicate Matches(p: Pattern, s: string)
  {
    match p
    case Literal(t) => Contains(s, t)
    case WordEnd(t) => ContainsWordEnd(s, t)
  }

  /** `re.sub(pattern, rep, s)`. */
  function Substitute(p: Pattern, rep: string, s: string): string
  {
    if p.text == [] then s
    else match p
      case Literal(t) => ReplaceAll(s, t, rep)
      case WordEnd(t) => ReplaceWordEnd(s, t, rep)
  }

  /** A substitution whose pattern does not match leaves the text as it is. */
  lemma SubstituteNoMatch(p: Pattern, rep: string, s: string)
    requires !Matches(p, s)
    ensures Substitute(p, rep, s) == s
  {
    if p.text != [] {
      match p
      case Literal(t) => ReplaceAllNoMatch(s, t, rep);
      case WordEnd(t) => ReplaceWordEndNoMatch(s, t, rep);
    }
  }

  /** The replacements of the template files, more specific ones first. */
  const TemplateReplacements: seq<(Pattern, string)> := [
    (Literal(".strava-backup/"), ".mykrok/"),
    (Literal(".strava-backup"), ".mykrok"),
    (Literal("strava-backup sync"), "mykrok sync"),
    (Literal("strava-backup auth"), "mykrok auth"),
    (Literal("\"strava-backup sync\""), "\"mykrok sync\""),
    (Literal("\"strava-backup sync --full\""), "\"mykrok sync --full\""),
    (WordEnd("# Strava Backup"), "# MyKrok Activity Backup"),
    (Literal("Strava Backup Makefile"), "MyKrok Activity Backup Makefile"),
    (Literal("Strava Backup Commands"), "MyKrok Commands"),
    (Literal("Strava Backup Dataset"), "MyKrok Activity Backup Dataset"),
    (Literal("\"Sync new Strava activities\""), "\"Sync new activities\""),
    (Literal("\"Full Strava sync\""), "\"Full activity sync\"")]

  /** The files whose content the replacements rewrite. */
  const TemplateFiles: seq<string> := ["README.md", "Makefile", ".gitignore"]

  /** Every replacement of the list applied in turn, first to last. */
  function Applied(s: string, reps: seq<(Pattern, string)>): string
    decreases |reps|
  {
    if reps == [] then s else Applied(Substitute(reps[0].0, reps[0].1, s), reps[1..])
  }

  /** Some pattern of the list matches. */
  predicate AnyMatch(s: string, reps: seq<(Pattern, string)>)
  {
    exists k :: 0 <= k < |reps| && Matches(reps[k].0, s)
  }

  /** When no pattern matches, the replacements change nothing. */
  lemma {:induction false} AppliedNoMatch(s: string, reps: seq<(Pattern, string)>)
    requires !AnyMatch(s, reps)
    ensures Applied(s, reps) == s
    decreases |reps|
  {
    if reps != [] {
      SubstituteNoMatch(reps[0].0, reps[0].1, s);
      assert !AnyMatch(s, reps[1..]) by {
        forall k | 0 <= k < |reps[1..]|
          ensures !Matches(reps[1..][k].0, s)
        {
          assert reps[1..][k] == reps[k + 1];
        }
      }
      AppliedNoMatch(s, reps[1..]);
    }
  }

  /** The check loop of `update_dataset_template_files`: does some pattern of `reps` match? */
  method NeedsTemplateUpdate(content: string, reps: seq<(Pattern, string)>) returns (needs: bool)
    ensures needs <==> AnyMatch(content, reps)
  {
    needs := false;
    for k := 0 to |reps|
      invariant !needs ==> forall j :: 0 <= j < k ==> !Matches(reps[j].0, content)
      invariant needs ==> AnyMatch(content, reps)
    {
      var found := match reps[k].0
        case Literal(t) => Contains(content, t)
        case WordEnd(t) => ContainsWordEnd(content, t);
      if found {
        needs := true;
        break;
      }
    }
  }

  /** The substitution loop of `update_dataset_template_files`. */
  method ApplyTemplateReplacements(original: string, reps: seq<(Pattern, string)>) returns (content: string)
    ensures content == Applied(original, reps)
  {
    content := original;
    for k := 0 to |reps|
      invariant Applied(content, reps[k..]) == Applied(original, reps)
    {
      assert reps[k..][1..] == reps[k + 1..];
      content := Substitute(reps[k].0, reps[k].1, content);
    }
  }

  /** A template file is reported: in a dry run when some pattern matches, in a real run when its content changes. */
  predicate TemplateReported(files: map<string, string>, f: string, reps: seq<(Pattern, string)>, dryRun: bool)
  {
    f in files
    && AnyMatch(files[f], reps)
    && (dryRun || Applied(files[f], reps) != files[f])
  }

  /** The template files reported, in order. */
  function TemplatesReported(files: map<string, string>, names: seq<string>, reps: seq<(Pattern, string)>, dryRun: bool): seq<string>
    decreases |names|
  {
    if names == [] then []
    else
      var f := names[|names| - 1];
      TemplatesReported(files, names[..|names| - 1], reps, dryRun) + (if TemplateReported(files, f, reps, dryRun) then [f] else [])
  }

  /** The root files once every template file of `names` the replacements change is rewritten. */
  function TemplatesRewritten(files: map<string, string>, names: seq<string>, reps: seq<(Pattern, string)>): map<string, string>
    decreases |names|
  {
    if names == [] then files
    else
      var f := names[|names| - 1];
      var r := TemplatesRewritten(files, names[..|names| - 1], reps);
      if TemplateReported(files, f, reps, false) then r[f := Applied(files[f], reps)] else r
  }

  /**
   * A file is reported only when some pattern matches it; a file a real
   * run reports is also reported by a dry run, and its content changed;
   * a file no pattern matches is neither reported nor changed.
   */
  lemma TemplateReportedMeaning(files: map<string, string>, f: string, reps: seq<(Pattern, string)>)
    ensures TemplateReported(files, f, reps, true) ==> AnyMatch(files[f], reps)
    ensures TemplateReported(files, f, reps, false) ==> TemplateReported(files, f, reps, true)
    ensures f in files && AnyMatch(files[f], reps) && !TemplateReported(files, f, reps, false) ==>
              Applied(files[f], reps) == files[f]
    ensures f in files && !AnyMatch(files[f], reps) ==>
              Applied(files[f], reps) == files[f] && !TemplateReported(files, f, reps, true)
  {
    if f in files && !AnyMatch(files[f], reps) {
      AppliedNoMatch(files[f], reps);
    }
  }

  /**
   * Over a list of names: a name is reported exactly when it is listed and
   * reported on its own, so a real run reports a subset of what a dry run
   * does; the rewritten root keeps its keys and changes only reported files.
   */
  lemma {:induction false} TemplatesMeaning(files: map<string, string>, names: seq<string>, reps: seq<(Pattern, string)>)
    ensures forall d: bool, f :: f in TemplatesReported(files, names, reps, d) <==> f in names && TemplateReported(files, f, reps, d)
    ensures forall f :: f in TemplatesReported(files, names, reps, false) ==> f in TemplatesReported(files, names, reps, true)
    ensures TemplatesRewritten(files, names, reps).Keys == files.Keys
    ensures forall f :: f in files ==>
              TemplatesRewritten(files, names, reps)[f] ==
                if f in TemplatesReported(files, names, reps, false) then Applied(files[f], reps) else files[f]
    decreases |names|
  {
    if names != [] {
      var f := names[|names| - 1];
      var init := names[..|names| - 1];
      TemplatesMeaning(files, init, reps);
      assert names == init + [f];
      TemplateReportedMeaning(files, f, reps);
    }
  }

  /**
   * `update_dataset_template_files`: each of `names` in turn; a file some
   * pattern matches is reported in a dry run, and in a real run is
   * rewritten and reported when the replacements change it.
   */
  method UpdateTemplates(files: map<string, string>, names: seq<string>, reps: seq<(Pattern, string)>, dryRun: bool)
    returns (updated: seq<string>, out: map<string, string>)
    ensures updated == TemplatesReported(files, names, reps, dryRun)
    ensures out == if dryRun then files else TemplatesRewritten(files, names, reps)
  {
    updated := [];
    out := files;
    for k := 0 to |names|
      invariant updated == TemplatesReported(files, names[..k], reps, dryRun)
      invariant out == if dryRun then files else TemplatesRewritten(files, names[..k], reps)
    {
      assert names[..k + 1][..k] == names[..k];
      var f := names[k];
      if f !in files {
        continue;
      }
      var original := files[f];
      var needs := NeedsTemplateUpdate(original, reps);
      if !needs {
        continue;
      }
      if dryRun {
        updated := updated + [f];
        continue;
      }
      var content := ApplyTemplateReplacements(original, reps);
      if content != original {
        out := out[f := content];
        updated := updated + [f];
      }
    }
    assert names[..|names|] == names;
  }

  /** `update_dataset_template_files` on the dataset root's README.md, Makefile and .gitignore. */
  method UpdateDatasetTemplateFiles(files: map<string, string>, dryRun: bool)
    returns (updated: seq<string>, out: map<string, string>)
    ensures updated == TemplatesReported(files, TemplateFiles, TemplateReplacements, dryRun)
    ensures out == if dryRun then files else TemplatesRewritten(files, TemplateFiles, TemplateReplacements)
  {
    updated, out := UpdateTemplates(files, TemplateFiles, TemplateReplacements, dryRun);
  }

  // ---------------------------------------------------------------- run_full_migration

  /**
   * What `run_full_migration` works on: the data directory's listing (None
   * when it is not a directory), its athlete directories and `athletes.tsv`,
   * and the two candidate dataset roots. `athletes` is the list
   * `iter_athlete_dirs` yields after the renames, given here rather than
   * derived from `listing`.
   */
  datatype DatasetLayout = DatasetLayout(
    listing: Option<seq<Entry>>,
    athletes: seq<AthleteDir>,
    athletesTsv: Option<seq<AthleteRow>>,
    parentIsDataset: bool,
    parentRoot: Root,
    dataRoot: Root)

  /** The dataset root: the parent of the data directory when it holds `.datalad`, else the data directory. */
  function RootOf(l: DatasetLayout): Root
  {
    if l.parentIsDataset then l.parentRoot else l.dataRoot
  }

  function WithRoot(l: DatasetLayout, r: Root): DatasetLayout
  {
    if l.parentIsDataset then l.(parentRoot := r) else l.(dataRoot := r)
  }

  /** Replacing the dataset root changes only the root. */
  lemma WithRootOnlyRoot(l: DatasetLayout, r: Root)
    ensures RootOf(WithRoot(l, r)) == r
    ensures WithRoot(l, r).listing == l.listing
    ensures WithRoot(l, r).athletes == l.athletes && WithRoot(l, r).athletesTsv == l.athletesTsv
    ensures r == RootOf(l) ==> WithRoot(l, r) == l
  {
  }

  /** The result dictionary of `run_full_migration`. */
  datatype MigrationReport = MigrationReport(
    configDirMigrated: Option<(string, string)>,
    configFileMigrated: Option<(string, string)>,
    gitattributesPathsUpdated: bool,
    templateFilesUpdated: seq<string>,
    prefixRenames: seq<(string, string)>,
    datasetFilesUpdated: seq<string>,
    logGitattributesAdded: bool,
    coordsColumnsMigrated: nat,
    athletesTsvWritten: bool)

  /** The root files after step 2: `.gitattributes` with its paths updated. */
  function AfterPaths(files: map<string, string>, dryRun: bool): map<string, string>
  {
    var g := UpdateGitattributesPaths(Gitattributes(files), dryRun);
    if g.0 && !dryRun then files[".gitattributes" := g.1.value] else files
  }

  /** The root files after step 3: the template files rewritten. */
  function AfterTemplates(files: map<string, string>, dryRun: bool): map<string, string>
  {
    var f := AfterPaths(files, dryRun);
    if dryRun then f else TemplatesRewritten(f, TemplateFiles, TemplateReplacements)
  }

  /** Steps 2 and 3: the `.gitattributes` paths, then the template files. */
  method UpdateMykrokRoot(files: map<string, string>, dryRun: bool)
    returns (paths: bool, templates: seq<string>, out: map<string, string>)
    ensures paths == UpdateGitattributesPaths(Gitattributes(files), dryRun).0
    ensures templates == TemplatesReported(AfterPaths(files, dryRun), TemplateFiles, TemplateReplacements, dryRun)
    ensures out == AfterTemplates(files, dryRun)
  {
    var g := UpdateGitattributesPaths(Gitattributes(files), dryRun);
    paths := g.0;
    var f2 := files;
    if g.0 && !dryRun {
      f2 := f2[".gitattributes" := g.1.value];
    }
    templates, out := UpdateDatasetTemplateFiles(f2, dryRun);
  }

  /**
   * Steps 7 and 8: the `start_*` columns, then `athletes.tsv` from the
   * migrated sessions. A sessions file the writer refuses raises before
   * `athletes.tsv` is written.
   */
  method RefreshAthletes(athletes: seq<AthleteDir>, start: StartPoints)
    returns (migrated: Outcome<nat>, out: seq<AthleteDir>, rows: Option<seq<AthleteRow>>)
    ensures out == StartedDirs(athletes, start)
    ensures migrated.Failure? <==> FirstFailing(athletes, start) < |athletes|
    ensures migrated.Failure? ==> migrated.error == StrayFieldError && rows.None?
    ensures migrated.Success? ==>
              migrated.value == StartCount(athletes) && rows == Some(AthleteRows(StartDirs(athletes, start)))
  {
    migrated, out := MigrateCenterToStartCoords(athletes, start);
    rows := None;
    if migrated.Success? {
      var written := GenerateAthletesTsv(out);
      rows := Some(written);
    }
  }

  /** The dataset root after steps 1 to 3, or as step 1 left it when that raised. */
  function Prepared(root: Root, dryRun: bool): Root
  {
    var c := MigrateConfigDirectory(root, dryRun);
    if c.outcome.Failure? then c.root else Root(AfterTemplates(c.root.files, dryRun), c.root.dirs)
  }

  /** Steps 1 to 3: the config directory, then the `.gitattributes` paths and the template files. */
  method PrepareRoot(root: Root, dryRun: bool)
    returns (config: Outcome<ConfigReport>, paths: bool, templates: seq<string>, out: Root)
    ensures config == MigrateConfigDirectory(root, dryRun).outcome
    ensures out == Prepared(root, dryRun)
    ensures dryRun ==> out == root
    ensures var files := MigrateConfigDirectory(root, dryRun).root.files;
            config.Success? ==>
              && paths == UpdateGitattributesPaths(Gitattributes(files), dryRun).0
              && templates == TemplatesReported(AfterPaths(files, dryRun), TemplateFiles, TemplateReplacements, dryRun)
  {
    var c := MigrateConfigDirectory(root, dryRun);
    config, out := c.outcome, c.root;
    paths, templates := false, [];
    if config.Success? {
      var files;
      paths, templates, files := UpdateMykrokRoot(c.root.files, dryRun);
      out := Root(files, c.root.dirs);
    }
  }

  /**
   * Steps 5 to 8 on the layout steps 1 to 4 left: the dataset files and the
   * log rule, and unless this is a dry run the `start_*` columns and
   * `athletes.tsv`, which step 7's `ValueError` can stop.
   */
  method CompleteMigration(l: DatasetLayout, dryRun: bool, start: StartPoints)
    returns (updated: seq<string>, added: bool, migrated: Outcome<nat>, out: DatasetLayout)
    ensures updated == Reported(RootOf(l).files, DatasetFiles)
    ensures added == AddLogRule(Gitattributes(RootOf(l).files), dryRun).0
    ensures dryRun ==> migrated == Success(0) && out == l
    ensures !dryRun ==>
              && (migrated.Failure? <==> FirstFailing(l.athletes, start) < |l.athletes|)
              && (migrated.Failure? ==> migrated.error == StrayFieldError && out.athletesTsv == l.athletesTsv)
              && (migrated.Success? ==>
                    migrated.value == StartCount(l.athletes)
                    && out.athletesTsv == Some(AthleteRows(StartDirs(l.athletes, start))))
              && out.listing == l.listing
              && out.athletes == StartedDirs(l.athletes, start)
              && RootOf(out) == Root(MigratedRoot(RootOf(l).files), RootOf(l).dirs)
  {
    var root := RootOf(l);
    var files;
    updated, added, files := UpdateDatasetRoot(root.files, dryRun);
    WithRootOnlyRoot(l, Root(files, root.dirs));
    out := WithRoot(l, Root(files, root.dirs));
    migrated := Success(0);
    if !dryRun {
      var athletes, rows;
      migrated, athletes, rows := RefreshAthletes(l.athletes, start);
      var kept := l.(athletes := athletes, athletesTsv := if rows.Some? then rows else l.athletesTsv);
      WithRootOnlyRoot(kept, Root(files, root.dirs));
      out := WithRoot(kept, Root(files, root.dirs));
    }
  }

  /** Step 4 raises: a legacy directory's new name is taken. */
  ghost predicate PrefixClash(l: DatasetLayout, needsMigration: bool)
  {
    needsMigration && l.listing.Some? && exists k :: Clashes(l.listing.value, k)
  }

  /**
   * `run_full_migration`: (1) the config directory, (2) the `.gitattributes`
   * paths, (3) the template files, (4) the prefix renames when
   * `needs_migration` says so, (5) the dataset files, (6) the log rule, and
   * unless this is a dry run (7) the `start_*` columns and (8)
   * `athletes.tsv`. A step that raises ends the run. `l.athletes` stands for
   * the athlete directories `iter_athlete_dirs` yields once step 4 has
   * renamed the legacy ones.
   */
  method RunFullMigration(l: DatasetLayout, needsMigration: bool, dryRun: bool, start: StartPoints)
    returns (r: Outcome<MigrationReport>, out: DatasetLayout)
    requires l.listing.Some? ==> DistinctNames(l.listing.value)
    ensures var c := MigrateConfigDirectory(RootOf(l), dryRun).outcome;
            r.Failure? <==> c.Failure? || PrefixClash(l, needsMigration) || (!dryRun && FirstFailing(l.athletes, start) < |l.athletes|)
    ensures var c := MigrateConfigDirectory(RootOf(l), dryRun);
            r.Success? ==>
              && r.value.configDirMigrated == c.outcome.value.dirRenamed
              && r.value.configFileMigrated == c.outcome.value.fileMigrated
              && r.value.gitattributesPathsUpdated == UpdateGitattributesPaths(Gitattributes(c.root.files), dryRun).0
              && r.value.templateFilesUpdated ==
                   TemplatesReported(AfterPaths(c.root.files, dryRun), TemplateFiles, TemplateReplacements, dryRun)
    ensures dryRun ==> out == l
    ensures r.Failure? ==> out.athletesTsv == l.athletesTsv
    ensures MigrateConfigDirectory(RootOf(l), dryRun).outcome.Failure? || PrefixClash(l, needsMigration) ==>
              out.athletes == l.athletes && RootOf(out) == Prepared(RootOf(l), dryRun)
    ensures var p := Prepared(RootOf(l), dryRun);
            r.Failure? && MigrateConfigDirectory(RootOf(l), dryRun).outcome.Success? && !PrefixClash(l, needsMigration) ==>
              && !dryRun && r.error == StrayFieldError
              && out.athletes == StartedDirs(l.athletes, start)
              && RootOf(out) == Root(MigratedRoot(p.files), p.dirs)
    ensures var files := Prepared(RootOf(l), dryRun).files;
            r.Success? ==>
              && r.value.prefixRenames == (if needsMigration && l.listing.Some? then Plan(l.listing.value) else [])
              && r.value.datasetFilesUpdated == Reported(files, DatasetFiles)
              && r.value.logGitattributesAdded == AddLogRule(Gitattributes(files), dryRun).0
    ensures r.Success? && dryRun ==> !r.value.athletesTsvWritten && r.value.coordsColumnsMigrated == 0
    ensures var p := Prepared(RootOf(l), dryRun);
            r.Success? && !dryRun ==>
              && r.value.athletesTsvWritten
              && out.athletes == StartDirs(l.athletes, start)
              && r.value.coordsColumnsMigrated == StartCount(l.athletes)
              && out.athletesTsv == Some(AthleteRows(StartDirs(l.athletes, start)))
              && RootOf(out) == Root(MigratedRoot(p.files), p.dirs)
  {
    var config, paths, templates, prepared := PrepareRoot(RootOf(l), dryRun);
    WithRootOnlyRoot(l, prepared);
    out := WithRoot(l, prepared);
    if config.Failure? {
      return Failure(config.error), out;
    }
    var renames: seq<(string, string)> := [];
    if needsMigration {
      var m, after := MigrateAthletePrefixes(l.listing, dryRun);
      out := out.(listing := after);
      if m.Failure? {
        return Failure(m.error), out;
      }
      renames := m.value;
    }
    var updated, added, migrated;
    updated, added, migrated, out := CompleteMigration(out, dryRun, start);
    if migrated.Failure? {
      return Failure(migrated.error), out;
    }
    r := Success(MigrationReport(config.value.dirRenamed, config.value.fileMigrated,
                                 paths, templates, renames, updated, added, migrated.value, !dryRun));
  }
}
