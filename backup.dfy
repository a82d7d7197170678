/**
 * `BackupService.sync` and `_download_photos`: one incremental sync of an
 * athlete's activities from Strava into the data directory.
 *
 * The Strava client is an oracle (`Client`): each call's answer, or the
 * exception it raises, is fixed in advance. The data directory of the
 * athlete is a value (`Store`) that the sync returns updated. The clock
 * (`datetime.now()`), the local time zone, the photo file naming of
 * `get_photo_path` and the session listing order of `iter_session_dirs` are
 * parameters.
 */
module Backup {
  import opened Util
  import opened DateTimes
  import opened State
  import opened Activities

  // ---------------------------------------------------------------- the environment

  /** What each Strava client call gives, or the exception it raises. */
  datatype Client = Client(
    /** `get_athlete()`, reduced to the username of the athlete. */
    athlete: Outcome<string>,
    /** `get_activities(after, before, limit)`: the ids of the listed summaries. */
    activities: (Option<int>, Option<int>, Option<int>) -> Outcome<seq<int>>,
    /** `get_activity(id)`. */
    detail: int -> Outcome<StravaActivity>,
    /** `get_activity_streams(id)` followed by `save_tracking_data`: None for no streams, else the manifest's `has_gps`. */
    streams: int -> Outcome<Option<bool>>,
    photos: int -> Outcome<seq<Json>>,
    comments: int -> Outcome<seq<Json>>,
    kudos: int -> Outcome<seq<Json>>,
    gear: Outcome<seq<Json>>,
    /** Whether `requests.get(url)` and `raise_for_status()` succeed. */
    download: string -> bool)

  /** Every detail object carries real datetimes, as Python's `datetime` guarantees. */
  ghost predicate ClientValid(c: Client)
  {
    forall id :: c.detail(id).Success? ==> Valid(c.detail(id).value.startDate) && Valid(c.detail(id).value.startDateLocal)
  }

  /** A file of a session's `photos/` directory. */
  datatype PhotoFile = PhotoFile(fileName: string)

  /** `get_photo_path(photos_dir, photo_dt, ext)`: the file a photo is stored under. */
  type PhotoNamer = (DateTime, string) -> PhotoFile

  /** What `_download_photos` does with one photo: raise, skip it, or fetch a url into a file. */
  type Plan = Outcome<Option<(string, PhotoFile)>>

  /**
   * The part of the data directory a sync reads and writes. `unwritable`
   * holds the session keys whose directory cannot be created (a disk error).
   */
  datatype Store = Store(
    sessions: SessionDirs,
    photoFiles: map<string, set<PhotoFile>>,
    unwritable: set<string>,
    syncState: Option<Json>,
    sessionsTsv: Option<Table>,
    gear: Option<seq<Json>>)

  function PhotosIn(s: Store, key: string): set<PhotoFile>
  {
    if key in s.photoFiles then s.photoFiles[key] else {}
  }

  datatype Includes = Includes(photos: bool, streams: bool, comments: bool)

  // ---------------------------------------------------------------- the fetch window

  datatype Window = Window(after: Option<int>, before: Option<int>)

  /**
   * The `after`/`before` timestamps handed to `get_activities`: an explicit
   * `after` wins; otherwise an incremental sync starts one day (86400 s)
   * before the stored `last_activity_date`; `before` only comes from the
   * caller. `.timestamp()` reads a naive datetime in the local `zone`.
   */
  function FetchWindow(full: bool, after: Option<DateTime>, before: Option<DateTime>, state: SyncState, zone: Zone): (w: Window)
    ensures after.Some? ==> w.after == Some(PosixTimestamp(after.value, zone))
    ensures after.None? && !full && state.lastActivityDate.Some?
            ==> w.after == Some(PosixTimestamp(state.lastActivityDate.value, zone) - 86400)
    ensures after.None? && (full || state.lastActivityDate.None?) ==> w.after.None?
    ensures before.Some? <==> w.before.Some?
    ensures before.Some? ==> w.before.value == PosixTimestamp(before.value, zone)
  {
    Window(
      if after.Some? then Some(PosixTimestamp(after.value, zone))
      else if !full && state.lastActivityDate.Some? then Some(PosixTimestamp(state.lastActivityDate.value, zone) - 86400)
      else None,
      if before.Some? then Some(PosixTimestamp(before.value, zone)) else None)
  }

  /**
   * An incremental sync asks again for everything that started up to a day
   * before the watermark, so the last synced activity is fetched again.
   */
  lemma IncrementalWindowOverlaps(state: SyncState, d: DateTime, zone: Zone)
    requires state.lastActivityDate.Some?
    requires PosixTimestamp(state.lastActivityDate.value, zone) - 86400 < PosixTimestamp(d, zone)
    ensures var w := FetchWindow(false, None, None, state, zone); w.after.Some? && w.after.value < PosixTimestamp(d, zone)
    ensures FetchWindow(false, None, None, state, zone).after.value < PosixTimestamp(state.lastActivityDate.value, zone)
  {}

  /** The zone matters only for naive bounds: aware ones give the same window in every zone. */
  lemma AwareWindowZoneFree(full: bool, after: Option<DateTime>, before: Option<DateTime>, state: SyncState,
                            z1: Zone, z2: Zone)
    requires after.Some? ==> after.value.offset.Some?
    requires before.Some? ==> before.value.offset.Some?
    requires after.None? && !full && state.lastActivityDate.Some? ==> state.lastActivityDate.value.offset.Some?
    ensures FetchWindow(full, after, before, state, z1) == FetchWindow(full, after, before, state, z2)
  {}

  // ---------------------------------------------------------------- the id filter

  /** `[a for a in activity_list if a.id in activity_id_filter]`. */
  function KeepListed(ids: seq<int>, wanted: seq<int>): seq<int>
    decreases |ids|
  {
    if ids == [] then []
    else (if ids[0] in wanted then [ids[0]] else []) + KeepListed(ids[1..], wanted)
  }

  /** `a` is `b` with some elements left out, the rest in their order. */
  ghost predicate Subsequence<T>(a: seq<T>, b: seq<T>)
    decreases |b|
  {
    a == [] || (b != [] && ((a[0] == b[0] && Subsequence(a[1..], b[1..])) || Subsequence(a, b[1..])))
  }

  /** The filter keeps every occurrence of a wanted id, drops every other, and keeps the order. */
  lemma {:induction false} KeepListedSpec(ids: seq<int>, wanted: seq<int>)
    ensures forall x :: multiset(KeepListed(ids, wanted))[x] == (if x in wanted then multiset(ids)[x] else 0)
    ensures Subsequence(KeepListed(ids, wanted), ids)
    decreases |ids|
  {
    if ids != [] {
      KeepListedSpec(ids[1..], wanted);
      assert ids == [ids[0]] + ids[1..];
      var r := KeepListed(ids, wanted);
      if ids[0] in wanted {
        assert r == [ids[0]] + KeepListed(ids[1..], wanted);
        assert r[0] == ids[0] && r[1..] == KeepListed(ids[1..], wanted);
      } else {
        assert r == KeepListed(ids[1..], wanted);
        SubsequenceDropHead(r, ids);
      }
    }
  }

  lemma SubsequenceDropHead<T>(a: seq<T>, b: seq<T>)
    requires b != [] && Subsequence(a, b[1..])
    ensures Subsequence(a, b)
  {}

  /** `if activity_id_filter:` — None and an empty list both leave the listing alone. */
  function FilterIds(ids: seq<int>, filter: Option<seq<int>>): (r: seq<int>)
    ensures filter.None? || filter.value == [] ==> r == ids
    ensures filter.Some? && filter.value != [] ==> r == KeepListed(ids, filter.value)
  {
    if filter.Some? && filter.value != [] then KeepListed(ids, filter.value) else ids
  }

  // ---------------------------------------------------------------- one photo

  const PhotoSizes: seq<string> := ["2048", "1024", "600", "256"]

  /** The url of the first size from `PhotoSizes[i..]` present in `urls`. */
  function PreferredUrl(urls: map<string, Json>, i: nat): (r: Option<Json>)
    decreases 4 - i
  {
    if i >= 4 then None
    else if PhotoSizes[i] in urls then Some(urls[PhotoSizes[i]])
    else PreferredUrl(urls, i + 1)
  }

  /** Size `k` is the first of the preference order that `urls` offers. */
  ghost predicate FirstOffered(urls: map<string, Json>, k: int)
  {
    0 <= k < 4 && PhotoSizes[k] in urls && forall j :: 0 <= j < k ==> PhotoSizes[j] !in urls
  }

  /** The preferred url is the first size offered among 2048, 1024, 600 and 256, if any. */
  lemma {:induction false} PreferredUrlFirst(urls: map<string, Json>, i: nat)
    requires i <= 4 && forall j :: 0 <= j < i ==> PhotoSizes[j] !in urls
    ensures PreferredUrl(urls, i).None? <==> forall k :: 0 <= k < 4 ==> PhotoSizes[k] !in urls
    ensures PreferredUrl(urls, i).Some?
            ==> exists k :: FirstOffered(urls, k) && PreferredUrl(urls, i).value == urls[PhotoSizes[k]]
    decreases 4 - i
  {
    if i < 4 {
      if PhotoSizes[i] in urls {
        assert FirstOffered(urls, i);
      } else {
        PreferredUrlFirst(urls, i + 1);
      }
    }
  }

  /** The size loop of `_download_photos`: the url of the largest size offered. */
  method LargestUrl(urls: map<string, Json>) returns (url: Option<Json>)
    ensures url == PreferredUrl(urls, 0)
  {
    url := None;
    var i := 0;
    while i < |PhotoSizes|
      invariant 0 <= i <= 4
      invariant PreferredUrl(urls, 0) == PreferredUrl(urls, i)
    {
      if PhotoSizes[i] in urls {
        url := Some(urls[PhotoSizes[i]]);
        return;
      }
      i := i + 1;
    }
  }

  /**
   * The photo's timestamp: `created_at` parsed with `fromisoformat` (after
   * "Z" becomes "+00:00"), the clock when it is missing, empty or does not
   * parse; a value that is neither a string nor empty raises.
   */
  function PhotoTime(photo: map<string, Json>, now: DateTime): Outcome<DateTime>
  {
    var created := if "created_at" in photo then photo["created_at"] else JNull;
    if !Truthy(created) then Success(now)
    else if !created.JStr? then Failure("created_at is not a datetime")
    else match FromIsoFormat(ReplaceAll(created.s, "Z", "+00:00"))
      case Some(d) => Success(d)
      case None => Success(now)
  }

  /** "png" when the url mentions ".png" in any case, else "jpg". */
  function PhotoExt(url: string): string
  {
    if Contains(Lower(url), ".png") then "png" else "jpg"
  }

  /**
   * What `_download_photos` does with one photo before looking at the disk:
   * skip it (None) or download a url to a file name; a malformed photo
   * raises.
   */
  function PhotoTarget(photo: Json, now: DateTime, name: PhotoNamer): (r: Plan)
    ensures r.Success? && r.value.Some? ==> r.value.value.0 != ""
  {
    if !photo.JObj? then Failure("object has no attribute 'get'")
    else
      var urls := if "urls" in photo.fields then photo.fields["urls"] else JObj(map[]);
      if !Truthy(urls) then Success(None)
      else if !urls.JObj? then Failure("urls is not a dictionary")
      else match PreferredUrl(urls.fields, 0)
        case None => Success(None)
        case Some(u) =>
          if !Truthy(u) then Success(None)
          else if !u.JStr? then Failure("object has no attribute 'lower'")
          else
            var t :- PhotoTime(photo.fields, now);
            Success(Some((u.s, name(t, PhotoExt(u.s)))))
  }

  /** `PhotoTarget` computed step by step, with the size loop. */
  method PlanPhoto(photo: Json, now: DateTime, name: PhotoNamer) returns (r: Plan)
    ensures r == PhotoTarget(photo, now, name)
  {
    if !photo.JObj? {
      return Failure("object has no attribute 'get'");
    }
    var urls := if "urls" in photo.fields then photo.fields["urls"] else JObj(map[]);
    if !Truthy(urls) {
      return Success(None);
    }
    if !urls.JObj? {
      return Failure("urls is not a dictionary");
    }
    var url := LargestUrl(urls.fields);
    if url.None? || !Truthy(url.value) {
      return Success(None);
    }
    if !url.value.JStr? {
      return Failure("object has no attribute 'lower'");
    }
    var t := PhotoTime(photo.fields, now);
    if t.Failure? {
      return Failure(t.error);
    }
    r := Success(Some((url.value.s, name(t.value, PhotoExt(url.value.s)))));
  }

  /** The plan of every photo of the list, in order. */
  function Plans(photos: seq<Json>, now: DateTime, name: PhotoNamer): (r: seq<Plan>)
    ensures |r| == |photos|
    decreases |photos|
  {
    if photos == [] then [] else Plans(photos[..|photos| - 1], now, name) + [PhotoTarget(photos[|photos| - 1], now, name)]
  }

  lemma {:induction false} PlansAt(photos: seq<Json>, i: nat, now: DateTime, name: PhotoNamer)
    requires i < |photos|
    ensures Plans(photos, now, name)[i] == PhotoTarget(photos[i], now, name)
    decreases |photos|
  {
    if i < |photos| - 1 {
      var init := photos[..|photos| - 1];
      PlansAt(init, i, now, name);
      assert init[i] == photos[i];
    }
  }

  /** The file name of a planned download whose request succeeds. */
  function Fetched(t: Plan, download: string -> bool): Option<PhotoFile>
  {
    if t.Success? && t.value.Some? && download(t.value.value.0) then Some(t.value.value.1) else None
  }

  /** The files the planned photos are downloaded to, when the disk has none of them. */
  function Downloads(plans: seq<Plan>, download: string -> bool): set<PhotoFile>
    decreases |plans|
  {
    if plans == [] then {}
    else
      var d := Fetched(plans[|plans| - 1], download);
      Downloads(plans[..|plans| - 1], download) + (if d.Some? then {d.value} else {})
  }

  /** A file downloaded for a prefix of the photos is downloaded for all of them. */
  lemma {:induction false} DownloadsMonotone(plans: seq<Plan>, k: nat, download: string -> bool)
    requires k <= |plans|
    ensures Downloads(plans[..k], download) <= Downloads(plans, download)
    decreases |plans|
  {
    if k < |plans| {
      var init := plans[..|plans| - 1];
      assert init[..k] == plans[..k];
      DownloadsMonotone(init, k, download);
    } else {
      assert plans[..k] == plans;
    }
  }

  /**
   * The photo directory and the download count after the plans run against
   * a directory holding `existing`: a planned file is fetched only when it
   * is not on disk yet.
   */
  function Replay(plans: seq<Plan>, existing: set<PhotoFile>, download: string -> bool): (set<PhotoFile>, nat)
    decreases |plans|
  {
    if plans == [] then (existing, 0)
    else
      var (files, n) := Replay(plans[..|plans| - 1], existing, download);
      var got := Fetched(plans[|plans| - 1], download);
      if got.Some? && got.value !in files then (files + {got.value}, n + 1) else (files, n)
  }

  /** One more plan replayed after the first `i`. */
  lemma ReplayStep(plans: seq<Plan>, i: nat, existing: set<PhotoFile>, download: string -> bool)
    requires i < |plans|
    ensures var (files, n) := Replay(plans[..i], existing, download);
            var got := Fetched(plans[i], download);
            Replay(plans[..i + 1], existing, download)
            == if got.Some? && got.value !in files then (files + {got.value}, n + 1) else (files, n)
  {
    assert plans[..i + 1][..i] == plans[..i];
  }

  /**
   * The directory ends up with every planned file, and the count is the
   * number of files that were not there before: no photo is fetched twice
   * and at most one file is written per photo.
   */
  lemma {:induction false} ReplaySpec(plans: seq<Plan>, existing: set<PhotoFile>, download: string -> bool)
    ensures Replay(plans, existing, download).0 == existing + Downloads(plans, download)
    ensures Replay(plans, existing, download).1 == |Replay(plans, existing, download).0 - existing|
    ensures Replay(plans, existing, download).1 <= |plans|
    decreases |plans|
  {
    if plans != [] {
      var init := plans[..|plans| - 1];
      ReplaySpec(init, existing, download);
      var (files, n) := Replay(init, existing, download);
      var got := Fetched(plans[|plans| - 1], download);
      if got.Some? && got.value !in files {
        assert (files + {got.value}) - existing == (files - existing) + {got.value};
      }
    }
  }

  /**
   * A file is downloaded exactly when some photo's url is offered, its
   * request succeeds and its name is that file.
   */
  lemma {:induction false} DownloadsSpec(photos: seq<Json>, f: PhotoFile, now: DateTime, name: PhotoNamer,
                                         download: string -> bool)
    ensures f in Downloads(Plans(photos, now, name), download)
            <==> exists i :: 0 <= i < |photos| && Fetched(PhotoTarget(photos[i], now, name), download) == Some(f)
    decreases |photos|
  {
    if photos != [] {
      var n := |photos|;
      var init := photos[..n - 1];
      DownloadsLast(photos, now, name, download);
      DownloadsSpec(init, f, now, name, download);
      SnocSplit(photos);
      FetchedSomewhereLast(photos, init, photos[n - 1], f, now, name, download);
    }
  }

  /** A non-empty sequence is its prefix followed by its last element. */
  lemma SnocSplit<T>(xs: seq<T>)
    requires |xs| > 0
    ensures xs == xs[..|xs| - 1] + [xs[|xs| - 1]]
  {
  }

  /** Some photo yields `f` when one before the last does or the last one does. */
  lemma FetchedSomewhereLast(photos: seq<Json>, init: seq<Json>, last: Json, f: PhotoFile, now: DateTime,
                             name: PhotoNamer, download: string -> bool)
    requires photos == init + [last]
    ensures (exists i :: 0 <= i < |photos| && Fetched(PhotoTarget(photos[i], now, name), download) == Some(f))
            <==> (exists i :: 0 <= i < |init| && Fetched(PhotoTarget(init[i], now, name), download) == Some(f))
                 || Fetched(PhotoTarget(last, now, name), download) == Some(f)
  {
    if exists i :: 0 <= i < |photos| && Fetched(PhotoTarget(photos[i], now, name), download) == Some(f) {
      var i :| 0 <= i < |photos| && Fetched(PhotoTarget(photos[i], now, name), download) == Some(f);
      if i < |init| {
        assert init[i] == photos[i];
      }
    }
    if exists i :: 0 <= i < |init| && Fetched(PhotoTarget(init[i], now, name), download) == Some(f) {
      var i :| 0 <= i < |init| && Fetched(PhotoTarget(init[i], now, name), download) == Some(f);
      assert photos[i] == init[i];
    }
    assert photos[|init|] == last;
  }

  /** The downloads of all the photos are those of all but the last, and the last one's. */
  lemma DownloadsLast(photos: seq<Json>, now: DateTime, name: PhotoNamer, download: string -> bool)
    requires |photos| > 0
    ensures var d := Fetched(PhotoTarget(photos[|photos| - 1], now, name), download);
            Downloads(Plans(photos, now, name), download)
            == Downloads(Plans(photos[..|photos| - 1], now, name), download) + (if d.Some? then {d.value} else {})
  {
    var plans := Plans(photos, now, name);
    assert plans[..|photos| - 1] == Plans(photos[..|photos| - 1], now, name);
  }

  // ---------------------------------------------------------------- _download_photos

  /**
   * The outcome of `_download_photos` on `photos`: without an exception
   * (`failed` false) every plan is well formed and the directory and count
   * are the replay of all of them; with one, the directory and count are the
   * replay of the photos before the first malformed one.
   */
  ghost predicate Downloaded(photos: seq<Json>, existing: set<PhotoFile>, now: DateTime, name: PhotoNamer,
                             download: string -> bool, files: set<PhotoFile>, downloaded: nat, failed: bool)
  {
    var plans := Plans(photos, now, name);
    if !failed then
      (forall j :: 0 <= j < |photos| ==> plans[j].Success?) && (files, downloaded) == Replay(plans, existing, download)
    else
      exists k :: 0 <= k < |photos| && plans[k].Failure? && (forall j :: 0 <= j < k ==> plans[j].Success?)
                  && (files, downloaded) == Replay(plans[..k], existing, download)
  }

  /** Whatever the outcome, the directory keeps its files and gains only planned ones. */
  lemma DownloadedKeeps(photos: seq<Json>, existing: set<PhotoFile>, now: DateTime, name: PhotoNamer,
                        download: string -> bool, files: set<PhotoFile>, downloaded: nat, failed: bool)
    requires Downloaded(photos, existing, now, name, download, files, downloaded, failed)
    ensures existing <= files && files - existing <= Downloads(Plans(photos, now, name), download)
    ensures downloaded == |files - existing| && downloaded <= |photos|
    ensures !failed ==> files == existing + Downloads(Plans(photos, now, name), download)
  {
    var plans := Plans(photos, now, name);
    if failed {
      var k :| 0 <= k < |photos| && plans[k].Failure? && (forall j :: 0 <= j < k ==> plans[j].Success?)
               && (files, downloaded) == Replay(plans[..k], existing, download);
      ReplaySpec(plans[..k], existing, download);
      DownloadsMonotone(plans, k, download);
    } else {
      ReplaySpec(plans, existing, download);
    }
  }

  /**
   * `_download_photos` over the photo directory holding `existing`: returns
   * the number downloaded, the files afterwards, and the exception that
   * ended the loop, if any. Without an exception the result is the replay
   * of every photo's plan; with one it is the replay of the photos before
   * the first malformed one (files written before it stay written).
   */
  method DownloadPhotos(photos: seq<Json>, existing: set<PhotoFile>, now: DateTime, name: PhotoNamer,
                        download: string -> bool)
    returns (downloaded: nat, files: set<PhotoFile>, error: Option<string>)
    ensures Downloaded(photos, existing, now, name, download, files, downloaded, error.Some?)
  {
    ghost var plans := Plans(photos, now, name);
    downloaded, files, error := 0, existing, None;
    var i := 0;
    while i < |photos| && error.None?
      invariant 0 <= i <= |photos|
      invariant (files, downloaded) == Replay(plans[..i], existing, download)
      invariant forall j :: 0 <= j < i ==> plans[j].Success?
      invariant error.Some? ==> i < |photos| && plans[i].Failure?
      decreases |photos| - i, if error.None? then 1 else 0
    {
      var target := PlanPhoto(photos[i], now, name);
      PlansAt(photos, i, now, name);
      if target.Failure? {
        error := Some(target.error);
      } else {
        ReplayStep(plans, i, existing, download);
        var got := if target.value.Some? && download(target.value.value.0) then Some(target.value.value.1) else None;
        assert got == Fetched(plans[i], download);
        if got.Some? && got.value !in files {
          files := files + {got.value};
          downloaded := downloaded + 1;
        }
        i := i + 1;
      }
    }
    DownloadedAt(photos, existing, now, name, download, files, downloaded, i, error.Some?);
  }

  /** Where the loop of `_download_photos` stops: after every photo, or at the first malformed one. */
  lemma DownloadedAt(photos: seq<Json>, existing: set<PhotoFile>, now: DateTime, name: PhotoNamer,
                     download: string -> bool, files: set<PhotoFile>, downloaded: nat, i: nat, failed: bool)
    requires i <= |photos| && (files, downloaded) == Replay(Plans(photos, now, name)[..i], existing, download)
    requires forall j :: 0 <= j < i ==> Plans(photos, now, name)[j].Success?
    requires failed ==> i < |photos| && Plans(photos, now, name)[i].Failure?
    requires !failed ==> i == |photos|
    ensures Downloaded(photos, existing, now, name, download, files, downloaded, failed)
  {
    var plans := Plans(photos, now, name);
    if !failed {
      assert plans[..i] == plans;
    }
  }

  // ---------------------------------------------------------------- one activity

  /** An activity with the fields the sub-resource fetches may change blanked out. */
  function Unenriched(a: Activity): Activity
  {
    a.(hasGps := false, hasPhotos := false, photoCount := 0, photos := [],
       comments := [], commentCount := 0, kudos := [], kudosCount := 0)
  }

  /** Whether the photo step of the sync fetched a non-empty photo list for `a`. */
  predicate GotPhotos(c: Client, inc: Includes, id: int)
  {
    inc.photos && c.photos(id).Success? && c.photos(id).value != []
  }

  /**
   * The activity after the streams, photos, comments and kudos steps of the
   * per-activity loop. Each failed fetch is swallowed and leaves its fields
   * as they were; the photo fields are set before the downloads start.
   */
  function Enriched(c: Client, inc: Includes, a: Activity): (b: Activity)
  {
    var streams := c.streams(a.id);
    var photos := c.photos(a.id);
    var comments := c.comments(a.id);
    var kudos := c.kudos(a.id);
    a.(hasGps := if inc.streams && streams.Success? && streams.value.Some? then streams.value.value else a.hasGps,
       photos := if GotPhotos(c, inc, a.id) then photos.value else a.photos,
       hasPhotos := if GotPhotos(c, inc, a.id) then true else a.hasPhotos,
       photoCount := if GotPhotos(c, inc, a.id) then |photos.value| else a.photoCount,
       comments := if inc.comments && comments.Success? then comments.value else a.comments,
       commentCount := if inc.comments && comments.Success? then |comments.value| else a.commentCount,
       kudos := if inc.comments && kudos.Success? then kudos.value else a.kudos,
       kudosCount := if inc.comments && kudos.Success? then |kudos.value| else a.kudosCount)
  }

  /**
   * Enrichment changes only the enrichable fields; the photo counts agree
   * with the photo list whenever photos were fetched, and so do the comment
   * and kudos counts with their lists.
   */
  lemma EnrichedKeeps(c: Client, inc: Includes, a: Activity)
    ensures Unenriched(Enriched(c, inc, a)) == Unenriched(a)
    ensures ActivityValid(a) ==> ActivityValid(Enriched(c, inc, a))
    ensures var b := Enriched(c, inc, a);
            GotPhotos(c, inc, a.id) ==> b.hasPhotos && b.photoCount == |b.photos| && b.photos != []
    ensures var b := Enriched(c, inc, a);
            (b.comments != a.comments ==> b.commentCount == |b.comments|)
            && (b.kudos != a.kudos ==> b.kudosCount == |b.kudos|)
    ensures !inc.streams && !inc.photos && !inc.comments ==> Enriched(c, inc, a) == a
  {}

  /**
   * The photo step of the per-activity loop: when a non-empty photo list
   * was fetched, its photos are downloaded into the session's `photos/`
   * directory holding `existing`. The downloads only count when
   * `_download_photos` returns normally; `written` and `failed` are what it
   * counted and whether it raised.
   */
  method FetchPhotos(c: Client, inc: Includes, id: int, existing: set<PhotoFile>, now: DateTime, name: PhotoNamer)
    returns (files: set<PhotoFile>, downloaded: nat, ghost written: nat, ghost failed: bool)
    ensures !GotPhotos(c, inc, id) ==> files == existing && downloaded == 0
    ensures GotPhotos(c, inc, id)
            ==> Downloaded(c.photos(id).value, existing, now, name, c.download, files, written, failed)
                && downloaded == (if failed then 0 else written)
                && downloaded <= |c.photos(id).value|
    ensures existing <= files
  {
    files, downloaded, written, failed := existing, 0, 0, false;
    if inc.photos {
      var photos := c.photos(id);
      if photos.Success? && photos.value != [] {
        var n, after, error := DownloadPhotos(photos.value, existing, now, name, c.download);
        DownloadedKeeps(photos.value, existing, now, name, c.download, after, n, error.Some?);
        files, written, failed := after, n, error.Some?;
        if error.None? {
          downloaded := n;
        }
      }
    }
  }

  /**
   * The streams, photos, comments and kudos steps of the per-activity loop:
   * the enriched activity, the photo directory afterwards and the number of
   * photos downloaded.
   */
  method FetchExtras(c: Client, a: Activity, inc: Includes, existing: set<PhotoFile>, now: DateTime, name: PhotoNamer)
    returns (b: Activity, files: set<PhotoFile>, downloaded: nat)
    ensures b == Enriched(c, inc, a)
    ensures !GotPhotos(c, inc, a.id) ==> files == existing && downloaded == 0
    ensures GotPhotos(c, inc, a.id) ==> downloaded <= |c.photos(a.id).value|
    ensures existing <= files
  {
    var hasGps := a.hasGps;
    if inc.streams {
      var streams := c.streams(a.id);
      if streams.Success? && streams.value.Some? {
        hasGps := streams.value.value;
      }
    }
    var photos, hasPhotos, photoCount := a.photos, a.hasPhotos, a.photoCount;
    if inc.photos {
      var fetched := c.photos(a.id);
      if fetched.Success? && fetched.value != [] {
        photos, hasPhotos, photoCount := fetched.value, true, |fetched.value|;
      }
    }
    ghost var written, failed;
    files, downloaded, written, failed := FetchPhotos(c, inc, a.id, existing, now, name);
    var comments, commentCount, kudos, kudosCount := a.comments, a.commentCount, a.kudos, a.kudosCount;
    if inc.comments {
      var fetched := c.comments(a.id);
      if fetched.Success? {
        comments, commentCount := fetched.value, |fetched.value|;
      }
      var given := c.kudos(a.id);
      if given.Success? {
        kudos, kudosCount := given.value, |given.value|;
      }
    }
    b := a.(hasGps := hasGps, photos := photos, hasPhotos := hasPhotos, photoCount := photoCount,
            comments := comments, commentCount := commentCount, kudos := kudos, kudosCount := kudosCount);
  }

  /** How one activity of the listing ended. */
  datatype Status = New | Updated | Errored(activityId: string, error: string)

  /** The start date of the activity behind `id`, when its detail fetch succeeds. */
  function StartOf(c: Client, id: int): Option<DateTime>
  {
    if c.detail(id).Success? then Some(c.detail(id).value.startDate) else None
  }

  /** Whether `d` has a session directory holding an `info.json`. */
  predicate HasInfo(s: Store, d: DateTime)
    requires Valid(d)
  {
    ActivityExists(s.sessions, d)
  }

  /** The session directory `key` holds an `info.json`. */
  predicate HasInfoAt(s: Store, key: string)
  {
    key in s.sessions && s.sessions[key].Some?
  }

  /**
   * What the sync promises about the activity `id`, judged against the store
   * `s` together with the session keys `earlier` that the sync has already
   * given an `info.json`: it errs exactly when its detail fetch fails or
   * (outside a dry run) its session directory cannot be created; otherwise it
   * counts as new exactly when no `info.json` existed for its start date
   * (`is_new = not activity_exists(...)`), and as updated when one did.
   */
  ghost predicate StatusFits(c: Client, s: Store, dryRun: bool, id: int, st: Status, earlier: set<string>)
    requires ClientValid(c)
  {
    var start := StartOf(c, id);
    && (st.Errored? <==> start.None? || (!dryRun && SessionKey(start.value) in s.unwritable))
    && (st.Errored? ==> st.activityId == IntToString(id))
    && (!st.Errored? ==> (st.New? <==> !HasInfo(s, start.value) && SessionKey(start.value) !in earlier))
  }

  /** Every `info.json` of `s` is still present in `t`. */
  ghost predicate InfosKept(s: Store, t: Store)
  {
    forall k :: k in s.sessions && s.sessions[k].Some? ==> k in t.sessions && t.sessions[k].Some?
  }

  /**
   * One turn of the per-activity loop of `sync`. `fetched` is the start date
   * when the detail fetch succeeded; a dry run changes nothing.
   */
  /** The store once `b`'s `info.json` is saved and its photo directory holds `files`. */
  function Saved(s: Store, b: Activity, files: set<PhotoFile>): Store
    requires ActivityValid(b)
  {
    s.(sessions := SaveActivity(s.sessions, b), photoFiles := s.photoFiles[SessionKey(b.startDate) := files])
  }

  /** Saving keeps every `info.json` already there and writes `b`'s. */
  lemma SavedInfos(s: Store, b: Activity, files: set<PhotoFile>)
    requires ActivityValid(b)
    ensures InfosKept(s, Saved(s, b, files)) && HasInfo(Saved(s, b, files), b.startDate)
  {
    var key := SessionKey(b.startDate);
    var t := Saved(s, b, files);
    assert t.sessions == s.sessions[key := Some(ToDict(b))];
    forall k | k in s.sessions && s.sessions[k].Some? ensures k in t.sessions && t.sessions[k].Some? {
      if k != key {
        assert t.sessions[k] == s.sessions[k];
      }
    }
  }

  /** Saving touches no session directory but `b`'s. */
  lemma SavedSessionsFrame(s: Store, b: Activity, files: set<PhotoFile>)
    requires ActivityValid(b)
    ensures forall k :: k != SessionKey(b.startDate) ==>
              (k in Saved(s, b, files).sessions <==> k in s.sessions)
              && (k in s.sessions ==> Saved(s, b, files).sessions[k] == s.sessions[k])
  {
  }

  /** Setting one photo directory to a superset of it grows the store's photos and changes no other directory. */
  lemma PhotosGrow(s: Store, t: Store, key: string, files: set<PhotoFile>)
    requires t.photoFiles == s.photoFiles[key := files] && PhotosIn(s, key) <= files
    ensures forall k :: PhotosIn(s, k) <= PhotosIn(t, k)
    ensures forall k :: k != key ==> PhotosIn(t, k) == PhotosIn(s, k)
  {
  }

  /** What is saved for `b` reads back as `b`. */
  lemma SavedLoads(s: Store, b: Activity, files: set<PhotoFile>)
    requires ActivityValid(b)
    ensures LoadActivity(Saved(s, b, files).sessions[SessionKey(b.startDate)]) == Success(Some(b))
  {
    SaveThenLoad(s.sessions, b, b.startDate);
  }

  /**
   * The writing part of one turn of the loop, once the session directory of
   * `a` exists: enrich `a`, download its photos and save its `info.json`.
   */
  method WriteActivity(c: Client, s: Store, a: Activity, inc: Includes, now: DateTime, name: PhotoNamer)
    returns (t: Store, photos: nat)
    requires ActivityValid(a)
    ensures photos <= (if GotPhotos(c, inc, a.id) then |c.photos(a.id).value| else 0)
    ensures InfosKept(s, t) && HasInfo(t, a.startDate)
    ensures t.unwritable == s.unwritable && t.syncState == s.syncState && t.sessionsTsv == s.sessionsTsv && t.gear == s.gear
    ensures forall k :: PhotosIn(s, k) <= PhotosIn(t, k)
    ensures LoadActivity(t.sessions[SessionKey(a.startDate)]) == Success(Some(Enriched(c, inc, a)))
    ensures forall k :: k != SessionKey(a.startDate) ==>
              (k in t.sessions <==> k in s.sessions) && (k in s.sessions ==> t.sessions[k] == s.sessions[k])
              && PhotosIn(t, k) == PhotosIn(s, k)
  {
    var key := SessionKey(a.startDate);
    var b, files, n := FetchExtras(c, a, inc, PhotosIn(s, key), now, name);
    EnrichedKeeps(c, inc, a);
    assert b.startDate == Unenriched(b).startDate == Unenriched(a).startDate == a.startDate;
    t := Saved(s, b, files);
    SavedInfos(s, b, files);
    SavedSessionsFrame(s, b, files);
    PhotosGrow(s, t, key, files);
    SavedLoads(s, b, files);
    photos := n;
  }

  /**
   * One turn of the per-activity loop of `sync`. `fetched` is the start date
   * when the detail fetch succeeded; a dry run changes nothing.
   */
  method ProcessActivity(c: Client, id: int, s: Store, dryRun: bool, inc: Includes, now: DateTime, name: PhotoNamer)
    returns (t: Store, st: Status, photos: nat, fetched: Option<DateTime>)
    requires ClientValid(c)
    ensures fetched == StartOf(c, id)
    ensures StatusFits(c, s, dryRun, id, st, {})
    ensures dryRun || st.Errored? ==> t == s && photos == 0
    ensures photos <= OfferedPhotos(c, inc, id, st)
    ensures InfosKept(s, t) && t.unwritable == s.unwritable
    ensures t.syncState == s.syncState && t.sessionsTsv == s.sessionsTsv && t.gear == s.gear
    ensures forall k :: PhotosIn(s, k) <= PhotosIn(t, k)
    ensures !dryRun && !st.Errored? ==> HasInfo(t, fetched.value)
    ensures !dryRun && !st.Errored? ==>
              forall k :: k != SessionKey(fetched.value) ==> (HasInfoAt(t, k) <==> HasInfoAt(s, k))
  {
    var detail := c.detail(id);
    if detail.Failure? {
      return s, Errored(IntToString(id), detail.error), 0, None;
    }
    var a := FromStravaActivity(detail.value);
    fetched := Some(a.startDate);
    var isNew := !ActivityExists(s.sessions, a.startDate);
    if dryRun {
      return s, if isNew then New else Updated, 0, fetched;
    }
    var key := SessionKey(a.startDate);
    if key in s.unwritable {
      return s, Errored(IntToString(id), "Permission denied: " + key), 0, fetched;
    }
    t, photos := WriteActivity(c, s, a, inc, now, name);
    st := if isNew then New else Updated;
  }

  // ---------------------------------------------------------------- sync

  /** The later of a running maximum and a new start date (`activity.start_date > latest`). */
  function Later(latest: Option<DateTime>, d: Option<DateTime>): Option<DateTime>
  {
    if d.None? then latest
    else if latest.None? || Before(latest.value, d.value) then d
    else latest
  }

  /** The latest start date among the activities of `ids` whose detail fetch succeeds. */
  function LatestStart(c: Client, ids: seq<int>): Option<DateTime>
    decreases |ids|
  {
    if ids == [] then None else Later(LatestStart(c, ids[..|ids| - 1]), StartOf(c, ids[|ids| - 1]))
  }

  /**
   * `LatestStart` is None exactly when no detail fetch succeeds; otherwise it
   * is one of the fetched start dates and none of them is later.
   */
  lemma {:induction false} LatestStartIsMax(c: Client, ids: seq<int>)
    ensures LatestStart(c, ids).None? <==> forall i :: 0 <= i < |ids| ==> StartOf(c, ids[i]).None?
    ensures LatestStart(c, ids).Some? ==>
              (exists i :: 0 <= i < |ids| && StartOf(c, ids[i]) == LatestStart(c, ids))
              && forall i :: 0 <= i < |ids| && StartOf(c, ids[i]).Some?
                   ==> !Before(LatestStart(c, ids).value, StartOf(c, ids[i]).value)
    decreases |ids|
  {
    if ids != [] {
      var n := |ids|;
      var init := ids[..n - 1];
      LatestStartIsMax(c, init);
      assert forall i :: 0 <= i < n - 1 ==> ids[i] == init[i];
      var prev := LatestStart(c, init);
      var d := StartOf(c, ids[n - 1]);
      if d.Some? && (prev.None? || Before(prev.value, d.value)) {
        assert LatestStart(c, ids) == d;
      } else if prev.Some? {
        var w :| 0 <= w < n - 1 && StartOf(c, init[w]) == prev;
        assert StartOf(c, ids[w]) == prev;
      }
    }
  }

  /** The running maximum after one more id. */
  lemma LatestStep(c: Client, ids: seq<int>, i: nat)
    requires i < |ids|
    ensures LatestStart(c, ids[..i + 1]) == Later(LatestStart(c, ids[..i]), StartOf(c, ids[i]))
  {
    assert ids[..i + 1][..i] == ids[..i];
  }

  /** The latest start date is a start date of a client whose dates are valid, so it is valid. */
  lemma LatestStartValid(c: Client, ids: seq<int>)
    requires ClientValid(c)
    ensures OptValid(LatestStart(c, ids))
  {
    LatestStartIsMax(c, ids);
    if LatestStart(c, ids).Some? {
      var i :| 0 <= i < |ids| && StartOf(c, ids[i]) == LatestStart(c, ids);
    }
  }

  datatype SyncError = SyncError(activityId: string, error: string)

  /** The dictionary `sync` returns. */
  datatype SyncReport = SyncReport(athlete: string, synced: nat, added: nat, updated: nat,
                                   photosDownloaded: nat, errors: seq<SyncError>)

  function CountNew(sts: seq<Status>): nat
    decreases |sts|
  {
    if sts == [] then 0 else CountNew(sts[..|sts| - 1]) + (if sts[|sts| - 1].New? then 1 else 0)
  }

  function CountUpdated(sts: seq<Status>): nat
    decreases |sts|
  {
    if sts == [] then 0 else CountUpdated(sts[..|sts| - 1]) + (if sts[|sts| - 1].Updated? then 1 else 0)
  }

  /** One `{activity_id, error}` entry per errored activity, in order. */
  function ErrorsOf(sts: seq<Status>): (r: seq<SyncError>)
    ensures CountNew(sts) + CountUpdated(sts) + |r| == |sts|
    decreases |sts|
  {
    if sts == [] then []
    else
      var last := sts[|sts| - 1];
      ErrorsOf(sts[..|sts| - 1]) + (if last.Errored? then [SyncError(last.activityId, last.error)] else [])
  }

  /** The ids the sync processes: the listing for the fetch window, then the id filter. */
  function Candidates(c: Client, s: Store, full: bool, after: Option<DateTime>, before: Option<DateTime>,
                      limit: Option<int>, filter: Option<seq<int>>, zone: Zone): Outcome<seq<int>>
  {
    var state :- LoadSyncState(s.syncState);
    var w := FetchWindow(full, after, before, state, zone);
    var listed :- c.activities(w.after, w.before, limit);
    Success(FilterIds(listed, filter))
  }

  /** The `info.json` contents of the session directories in listing order. */
  function Infos(dirs: SessionDirs, keys: seq<string>): seq<Option<Json>>
  {
    seq(|keys|, j requires 0 <= j < |keys| => if keys[j] in dirs then dirs[keys[j]] else None)
  }

  /** The sync state written at the end of a real run. */
  function NextState(prior: SyncState, now: DateTime, latest: Option<DateTime>, synced: nat): SyncState
  {
    SyncState(Some(now), if latest.Some? then latest else prior.lastActivityDate, synced)
  }


  /** The detail of `id` was fetched and its session directory in `t` holds an `info.json`. */
  ghost predicate InfoFor(c: Client, t: Store, id: int)
    requires ClientValid(c)
  {
    StartOf(c, id).Some? && HasInfo(t, StartOf(c, id).value)
  }

  lemma InfoForKept(c: Client, t: Store, next: Store, id: int)
    requires ClientValid(c) && InfoFor(c, t, id) && InfosKept(t, next)
    ensures InfoFor(c, next, id)
  {
    assert HasInfo(t, StartOf(c, id).value);
  }

  /**
   * The session keys a real run has given an `info.json` while processing
   * `ids`: those of the activities whose status is not an error.
   */
  ghost function Written(c: Client, ids: seq<int>, sts: seq<Status>): set<string>
    requires ClientValid(c) && |sts| == |ids|
    decreases |ids|
  {
    if ids == [] then {}
    else
      var n := |ids|;
      var start := StartOf(c, ids[n - 1]);
      Written(c, ids[..n - 1], sts[..n - 1])
        + (if !sts[n - 1].Errored? && start.Some? then {SessionKey(start.value)} else {})
  }

  /** The keys given an `info.json` before the next id: none in a dry run, which writes nothing. */
  ghost function Earlier(c: Client, dryRun: bool, ids: seq<int>, sts: seq<Status>): set<string>
    requires ClientValid(c) && |sts| == |ids|
  {
    if dryRun then {} else Written(c, ids, sts)
  }

  /** The `info.json` files of `t` are those of `s` and those under the keys `written`. */
  ghost predicate InfosExactly(s: Store, t: Store, written: set<string>)
  {
    forall k :: HasInfoAt(t, k) <==> HasInfoAt(s, k) || k in written
  }

  /** One more processed id adds its session key when its status is not an error. */
  lemma WrittenStep(c: Client, ids: seq<int>, i: nat, sts: seq<Status>, st: Status)
    requires ClientValid(c) && i < |ids| && |sts| == i
    ensures Written(c, ids[..i + 1], sts + [st])
            == Written(c, ids[..i], sts)
               + (if !st.Errored? && StartOf(c, ids[i]).Some? then {SessionKey(StartOf(c, ids[i]).value)} else {})
  {
    assert ids[..i + 1][..i] == ids[..i];
    assert (sts + [st])[..i] == sts;
  }

  /**
   * A status judged against the store `t` reached by the loop is the status
   * judged against the store `s` before the sync together with the keys the
   * loop has written: `t` holds exactly those `info.json` files.
   */
  lemma StatusRelative(c: Client, s: Store, t: Store, dryRun: bool, id: int, st: Status, earlier: set<string>)
    requires ClientValid(c)
    requires StatusFits(c, t, dryRun, id, st, {}) && t.unwritable == s.unwritable
    requires InfosExactly(s, t, earlier)
    ensures StatusFits(c, s, dryRun, id, st, earlier)
  {
    var start := StartOf(c, id);
    if start.Some? {
      assert HasInfo(t, start.value) <==> HasInfoAt(t, SessionKey(start.value));
      assert HasInfo(s, start.value) <==> HasInfoAt(s, SessionKey(start.value));
    }
  }

  /**
   * The counters `sync` reports, against the status of each processed id,
   * judged against the store before the sync and the sessions the ids before
   * it have written.
   */
  ghost predicate Counted(c: Client, s: Store, dryRun: bool, ids: seq<int>, rep: SyncReport, sts: seq<Status>)
    requires ClientValid(c)
  {
    && |sts| == |ids|
    && (forall i :: 0 <= i < |ids| ==> StatusFits(c, s, dryRun, ids[i], sts[i], Earlier(c, dryRun, ids[..i], sts[..i])))
    && rep.added == CountNew(sts) && rep.updated == CountUpdated(sts) && rep.errors == ErrorsOf(sts)
    && rep.synced == rep.added + rep.updated && rep.synced + |rep.errors| == |ids|
  }

  /** The session of every id processed without an error is among the written keys. */
  lemma {:induction false} WrittenHas(c: Client, ids: seq<int>, sts: seq<Status>, i: nat)
    requires ClientValid(c) && |sts| == |ids| && i < |ids| && !sts[i].Errored? && StartOf(c, ids[i]).Some?
    ensures SessionKey(StartOf(c, ids[i]).value) in Written(c, ids, sts)
    decreases |ids|
  {
    var n := |ids|;
    if i < n - 1 {
      assert ids[..n - 1][i] == ids[i] && sts[..n - 1][i] == sts[i];
      WrittenHas(c, ids[..n - 1], sts[..n - 1], i);
    }
  }

  /**
   * In a real run, an activity whose session an earlier activity of the same
   * run has already saved counts as updated, not as new, even when the
   * session had no `info.json` before the sync.
   */
  lemma RepeatedSessionUpdated(c: Client, s: Store, ids: seq<int>, rep: SyncReport, sts: seq<Status>, i: nat, j: nat)
    requires ClientValid(c) && Counted(c, s, false, ids, rep, sts)
    requires i < j < |ids| && !sts[i].Errored? && !sts[j].Errored?
    requires SessionKey(StartOf(c, ids[i]).value) == SessionKey(StartOf(c, ids[j]).value)
    ensures sts[j].Updated?
  {
    assert ids[..j][i] == ids[i] && sts[..j][i] == sts[i];
    WrittenHas(c, ids[..j], sts[..j], i);
  }

  /** Each status fits its id, as `Counted` states pointwise; kept step by step by the loop of `sync`. */
  ghost predicate AllFit(c: Client, s: Store, dryRun: bool, ids: seq<int>, sts: seq<Status>)
    requires ClientValid(c)
    decreases |ids|
  {
    && |sts| == |ids|
    && (ids != [] ==>
          && AllFit(c, s, dryRun, ids[..|ids| - 1], sts[..|sts| - 1])
          && StatusFits(c, s, dryRun, ids[|ids| - 1], sts[|sts| - 1], Earlier(c, dryRun, ids[..|ids| - 1], sts[..|sts| - 1])))
  }

  lemma {:induction false} AllFitEach(c: Client, s: Store, dryRun: bool, ids: seq<int>, sts: seq<Status>)
    requires ClientValid(c) && AllFit(c, s, dryRun, ids, sts)
    ensures |sts| == |ids|
    ensures forall i :: 0 <= i < |ids| ==> StatusFits(c, s, dryRun, ids[i], sts[i], Earlier(c, dryRun, ids[..i], sts[..i]))
    decreases |ids|
  {
    if ids != [] {
      var n := |ids|;
      AllFitEach(c, s, dryRun, ids[..n - 1], sts[..n - 1]);
      forall i | 0 <= i < n ensures StatusFits(c, s, dryRun, ids[i], sts[i], Earlier(c, dryRun, ids[..i], sts[..i])) {
        if i < n - 1 {
          assert ids[..n - 1][i] == ids[i] && sts[..n - 1][i] == sts[i];
          assert ids[..n - 1][..i] == ids[..i] && sts[..n - 1][..i] == sts[..i];
        }
      }
    }
  }

  /** Every id whose status is not an error has its `info.json` in `t`. */
  ghost predicate AllInfo(c: Client, t: Store, ids: seq<int>, sts: seq<Status>)
    requires ClientValid(c)
    decreases |ids|
  {
    && |sts| == |ids|
    && (ids != [] ==>
          && AllInfo(c, t, ids[..|ids| - 1], sts[..|sts| - 1])
          && (!sts[|sts| - 1].Errored? ==> InfoFor(c, t, ids[|ids| - 1])))
  }

  lemma {:induction false} AllInfoKept(c: Client, t: Store, next: Store, ids: seq<int>, sts: seq<Status>)
    requires ClientValid(c) && AllInfo(c, t, ids, sts) && InfosKept(t, next)
    ensures AllInfo(c, next, ids, sts)
    decreases |ids|
  {
    if ids != [] {
      var n := |ids|;
      AllInfoKept(c, t, next, ids[..n - 1], sts[..n - 1]);
      if !sts[n - 1].Errored? {
        InfoForKept(c, t, next, ids[n - 1]);
      }
    }
  }

  lemma {:induction false} AllInfoEach(c: Client, t: Store, ids: seq<int>, sts: seq<Status>)
    requires ClientValid(c) && AllInfo(c, t, ids, sts)
    ensures |sts| == |ids| && forall i :: 0 <= i < |ids| && !sts[i].Errored? ==> InfoFor(c, t, ids[i])
    decreases |ids|
  {
    if ids != [] {
      var n := |ids|;
      AllInfoEach(c, t, ids[..n - 1], sts[..n - 1]);
      forall i | 0 <= i < n && !sts[i].Errored? ensures InfoFor(c, t, ids[i]) {
        if i < n - 1 {
          assert ids[..n - 1][i] == ids[i] && sts[..n - 1][i] == sts[i];
        }
      }
    }
  }

  /** One more status adds one to its own counter. */
  lemma CountStep(sts: seq<Status>, st: Status)
    ensures CountNew(sts + [st]) == CountNew(sts) + (if st.New? then 1 else 0)
    ensures CountUpdated(sts + [st]) == CountUpdated(sts) + (if st.Updated? then 1 else 0)
    ensures ErrorsOf(sts + [st]) == ErrorsOf(sts) + (if st.Errored? then [SyncError(st.activityId, st.error)] else [])
  {
    assert (sts + [st])[..|sts|] == sts;
  }

  lemma AllFitStep(c: Client, s: Store, dryRun: bool, ids: seq<int>, i: nat, sts: seq<Status>, st: Status)
    requires ClientValid(c) && i < |ids| && AllFit(c, s, dryRun, ids[..i], sts)
    requires StatusFits(c, s, dryRun, ids[i], st, Earlier(c, dryRun, ids[..i], sts))
    ensures AllFit(c, s, dryRun, ids[..i + 1], sts + [st])
  {
    assert ids[..i + 1][..i] == ids[..i];
    assert (sts + [st])[..i] == sts;
  }

  lemma AllInfoStep(c: Client, t: Store, ids: seq<int>, i: nat, sts: seq<Status>, st: Status)
    requires ClientValid(c) && i < |ids| && AllInfo(c, t, ids[..i], sts)
    requires !st.Errored? ==> InfoFor(c, t, ids[i])
    ensures AllInfo(c, t, ids[..i + 1], sts + [st])
  {
    assert ids[..i + 1][..i] == ids[..i];
    assert (sts + [st])[..i] == sts;
  }

  /** The photos Strava offers for the activity behind `id`, when it was saved with photos included. */
  function OfferedPhotos(c: Client, inc: Includes, id: int, st: Status): nat
  {
    if !st.Errored? && c.detail(id).Success? && GotPhotos(c, inc, c.detail(id).value.id)
    then |c.photos(c.detail(id).value.id).value| else 0
  }

  /** The photos offered for the processed ids: the most `sync` can count as downloaded. */
  function PhotoCap(c: Client, inc: Includes, ids: seq<int>, sts: seq<Status>): nat
    requires |sts| == |ids|
    decreases |ids|
  {
    if ids == [] then 0
    else PhotoCap(c, inc, ids[..|ids| - 1], sts[..|sts| - 1]) + OfferedPhotos(c, inc, ids[|ids| - 1], sts[|sts| - 1])
  }

  /** One more processed id adds its offered photos. */
  lemma PhotoCapStep(c: Client, inc: Includes, ids: seq<int>, i: nat, sts: seq<Status>, st: Status)
    requires i < |ids| && |sts| == i
    ensures PhotoCap(c, inc, ids[..i + 1], sts + [st]) == PhotoCap(c, inc, ids[..i], sts) + OfferedPhotos(c, inc, ids[i], st)
  {
    assert ids[..i + 1][..i] == ids[..i];
    assert (sts + [st])[..i] == sts;
  }

  /** Without `include_photos`, or without any photo offered, nothing can be counted as downloaded. */
  lemma {:induction false} PhotoCapNone(c: Client, inc: Includes, ids: seq<int>, sts: seq<Status>)
    requires |sts| == |ids|
    requires !inc.photos || forall i :: 0 <= i < |ids| ==> OfferedPhotos(c, inc, ids[i], sts[i]) == 0
    ensures PhotoCap(c, inc, ids, sts) == 0
    decreases |ids|
  {
    if ids != [] {
      var n := |ids|;
      assert forall i :: 0 <= i < n - 1 ==> ids[..n - 1][i] == ids[i] && sts[..n - 1][i] == sts[i];
      PhotoCapNone(c, inc, ids[..n - 1], sts[..n - 1]);
    }
  }

  /** The loop of `sync` over the candidate ids, with the counters it keeps. */
  method SyncLoop(c: Client, s: Store, ids: seq<int>, dryRun: bool, inc: Includes, now: DateTime, name: PhotoNamer)
    returns (t: Store, synced: nat, added: nat, updated: nat, photos: nat, errors: seq<SyncError>,
             latest: Option<DateTime>, ghost sts: seq<Status>)
    requires ClientValid(c)
    ensures Counted(c, s, dryRun, ids, SyncReport("", synced, added, updated, photos, errors), sts)
    ensures latest == LatestStart(c, ids) && OptValid(latest)
    ensures dryRun ==> t == s && photos == 0
    ensures photos <= PhotoCap(c, inc, ids, sts)
    ensures InfosKept(s, t) && t.unwritable == s.unwritable
    ensures t.syncState == s.syncState && t.sessionsTsv == s.sessionsTsv && t.gear == s.gear
    ensures !dryRun ==> forall i :: 0 <= i < |ids| && !sts[i].Errored? ==> InfoFor(c, t, ids[i])
  {
    t, synced, added, updated, photos, errors, latest, sts := s, 0, 0, 0, 0, [], None, [];
    var i := 0;
    while i < |ids|
      invariant 0 <= i <= |ids|
      invariant AllFit(c, s, dryRun, ids[..i], sts)
      invariant added == CountNew(sts) && updated == CountUpdated(sts) && errors == ErrorsOf(sts)
      invariant synced == added + updated
      invariant latest == LatestStart(c, ids[..i])
      invariant dryRun ==> t == s && photos == 0
      invariant |sts| == i && photos <= PhotoCap(c, inc, ids[..i], sts)
      invariant InfosKept(s, t) && t.unwritable == s.unwritable
      invariant t.syncState == s.syncState && t.sessionsTsv == s.sessionsTsv && t.gear == s.gear
      invariant !dryRun ==> AllInfo(c, t, ids[..i], sts)
      invariant !dryRun ==> InfosExactly(s, t, Written(c, ids[..i], sts))
    {
      var next, st, counted, fetched := SyncStep(c, s, t, ids, i, dryRun, inc, now, name, sts, photos);
      CountStep(sts, st);
      LatestStep(c, ids, i);
      latest := Later(latest, fetched);
      added := added + if st.New? then 1 else 0;
      updated := updated + if st.Updated? then 1 else 0;
      synced := synced + if st.Errored? then 0 else 1;
      errors := errors + if st.Errored? then [SyncError(st.activityId, st.error)] else [];
      t := next;
      sts := sts + [st];
      photos := counted;
      i := i + 1;
    }
    assert ids[..i] == ids;
    LatestStartValid(c, ids);
    AllFitEach(c, s, dryRun, ids, sts);
    if !dryRun {
      AllInfoEach(c, t, ids, sts);
    }
  }

  /** The body of the loop of `sync`: process the next id, keeping what the loop knows about the store. */
  method SyncStep(c: Client, s: Store, t: Store, ids: seq<int>, i: nat, dryRun: bool, inc: Includes, now: DateTime,
                  name: PhotoNamer, ghost sts: seq<Status>, photos: nat)
    returns (next: Store, st: Status, counted: nat, fetched: Option<DateTime>)
    requires ClientValid(c) && i < |ids| && AllFit(c, s, dryRun, ids[..i], sts)
    requires dryRun ==> t == s && photos == 0
    requires |sts| == i && photos <= PhotoCap(c, inc, ids[..i], sts)
    requires InfosKept(s, t) && t.unwritable == s.unwritable
    requires !dryRun ==> AllInfo(c, t, ids[..i], sts)
    requires !dryRun ==> InfosExactly(s, t, Written(c, ids[..i], sts))
    ensures fetched == StartOf(c, ids[i])
    ensures AllFit(c, s, dryRun, ids[..i + 1], sts + [st])
    ensures dryRun ==> next == s && counted == 0
    ensures counted <= PhotoCap(c, inc, ids[..i + 1], sts + [st])
    ensures InfosKept(s, next) && next.unwritable == s.unwritable
    ensures next.syncState == t.syncState && next.sessionsTsv == t.sessionsTsv && next.gear == t.gear
    ensures !dryRun ==> AllInfo(c, next, ids[..i + 1], sts + [st])
    ensures !dryRun ==> InfosExactly(s, next, Written(c, ids[..i + 1], sts + [st]))
  {
    var n;
    next, st, n, fetched := ProcessActivity(c, ids[i], t, dryRun, inc, now, name);
    PhotoCapStep(c, inc, ids, i, sts, st);
    counted := photos + n;
    StatusRelative(c, s, t, dryRun, ids[i], st, Earlier(c, dryRun, ids[..i], sts));
    AllFitStep(c, s, dryRun, ids, i, sts, st);
    if !dryRun {
      AllInfoKept(c, t, next, ids[..i], sts);
      AllInfoStep(c, next, ids, i, sts, st);
      WrittenStep(c, ids, i, sts, st);
      if !st.Errored? {
        assert HasInfoAt(next, SessionKey(fetched.value));
      }
    }
  }

  /** After a real run, sessions.tsv lists every stored activity, oldest first. */
  ghost predicate TsvCurrent(t: Store, listing: SessionDirs -> seq<string>)
  {
    var stored := StoredActivities(Infos(t.sessions, listing(t.sessions)));
    && stored.Success? && t.sessionsTsv.Some? && t.sessionsTsv.value.fieldnames == SessionsColumns
    && RowsOf(t.sessionsTsv.value.rows, SortBy(SortBy(stored.value, NewestFirst), OldestFirst))
  }

  /**
   * The end of a real run: the athlete's gear when the fetch gave any,
   * sessions.tsv rebuilt from the stored activities (which may raise), then
   * the sync state.
   */
  method Finish(c: Client, t: Store, prior: SyncState, now: DateTime, latest: Option<DateTime>, synced: nat,
                listing: SessionDirs -> seq<string>)
    returns (u: Store, err: Option<string>)
    requires Valid(now) && OptValid(latest) && SyncStateValid(prior)
    ensures u.sessions == t.sessions && u.photoFiles == t.photoFiles && u.unwritable == t.unwritable
    ensures u.gear == (if c.gear.Success? && c.gear.value != [] then Some(c.gear.value) else t.gear)
    ensures err.None? <==> StoredActivities(Infos(t.sessions, listing(t.sessions))).Success?
    ensures err.None? ==> LoadSyncState(u.syncState) == Success(NextState(prior, now, latest, synced)) && TsvCurrent(u, listing)
  {
    u := t;
    if c.gear.Success? && c.gear.value != [] {
      u := u.(gear := Some(c.gear.value));
    }
    var table := UpdateSessionsTsv(Infos(u.sessions, listing(u.sessions)));
    if table.Failure? {
      return u, Some(table.error);
    }
    var next := NextState(prior, now, latest, synced);
    SyncStateRoundTrip(next);
    u := u.(sessionsTsv := Some(table.value), syncState := Some(SyncStateToDict(next)));
    err := None;
  }

  /** The part of `sync` after the candidate ids are known: the loop, then the end of a real run. */
  method SyncIds(c: Client, s: Store, athlete: string, prior: SyncState, ids: seq<int>, inc: Includes, dryRun: bool,
                 now: DateTime, name: PhotoNamer, listing: SessionDirs -> seq<string>)
    returns (t: Store, r: Outcome<SyncReport>, ghost sts: seq<Status>)
    requires ClientValid(c) && Valid(now) && SyncStateValid(prior)
    ensures r.Success? ==> r.value.athlete == athlete && Counted(c, s, dryRun, ids, r.value, sts)
    ensures r.Success? ==> r.value.photosDownloaded <= PhotoCap(c, inc, ids, sts)
    ensures r.Failure? ==> !dryRun && StoredActivities(Infos(t.sessions, listing(t.sessions))).Failure?
    ensures dryRun ==> t == s && r.Success? && r.value.photosDownloaded == 0
    ensures !dryRun && r.Success? ==>
              && LoadSyncState(t.syncState) == Success(NextState(prior, now, LatestStart(c, ids), r.value.synced))
              && t.gear == (if c.gear.Success? && c.gear.value != [] then Some(c.gear.value) else s.gear)
              && TsvCurrent(t, listing)
              && InfosKept(s, t)
              && forall i :: 0 <= i < |ids| && !sts[i].Errored? ==> InfoFor(c, t, ids[i])
  {
    var synced, added, updated, photos, errors, latest;
    t, synced, added, updated, photos, errors, latest, sts := SyncLoop(c, s, ids, dryRun, inc, now, name);
    if !dryRun {
      var err;
      t, err := Finish(c, t, prior, now, latest, synced, listing);
      if err.Some? {
        return t, Failure(err.value), sts;
      }
    }
    r := Success(SyncReport(athlete, synced, added, updated, photos, errors));
  }

  /**
   * `BackupService.sync`. `listing` gives the session keys `iter_session_dirs`
   * yields for a data directory. The athlete, state, listing and sessions.tsv
   * steps raise out of the sync; everything per activity is caught.
   */
  method Sync(c: Client, s: Store, full: bool, after: Option<DateTime>, before: Option<DateTime>,
              limit: Option<int>, filter: Option<seq<int>>, inc: Includes, dryRun: bool,
              now: DateTime, zone: Zone, name: PhotoNamer, listing: SessionDirs -> seq<string>)
    returns (t: Store, r: Outcome<SyncReport>, ghost sts: seq<Status>)
    requires ClientValid(c) && Valid(now)
    ensures c.athlete.Failure? || Candidates(c, s, full, after, before, limit, filter, zone).Failure? ==> r.Failure? && t == s
    ensures r.Failure? && c.athlete.Success? && Candidates(c, s, full, after, before, limit, filter, zone).Success?
            ==> !dryRun && StoredActivities(Infos(t.sessions, listing(t.sessions))).Failure?
    ensures r.Success? ==>
              && c.athlete.Success? && r.value.athlete == c.athlete.value
              && Candidates(c, s, full, after, before, limit, filter, zone).Success?
              && Counted(c, s, dryRun, Candidates(c, s, full, after, before, limit, filter, zone).value, r.value, sts)
              && r.value.photosDownloaded <= PhotoCap(c, inc, Candidates(c, s, full, after, before, limit, filter, zone).value, sts)
    ensures dryRun ==> t == s && (r.Success? ==> r.value.photosDownloaded == 0)
    ensures !dryRun && r.Success? ==>
              var ids := Candidates(c, s, full, after, before, limit, filter, zone).value;
              && LoadSyncState(t.syncState)
                 == Success(NextState(LoadSyncState(s.syncState).value, now, LatestStart(c, ids), r.value.synced))
              && t.gear == (if c.gear.Success? && c.gear.value != [] then Some(c.gear.value) else s.gear)
              && TsvCurrent(t, listing)
              && InfosKept(s, t)
              && forall i :: 0 <= i < |ids| && !sts[i].Errored? ==> InfoFor(c, t, ids[i])
  {
    t, sts := s, [];
    if c.athlete.Failure? {
      return s, Failure(c.athlete.error), [];
    }
    var state := LoadSyncState(s.syncState);
    if state.Failure? {
      return s, Failure(state.error), [];
    }
    var w := FetchWindow(full, after, before, state.value, zone);
    var listed := c.activities(w.after, w.before, limit);
    if listed.Failure? {
      return s, Failure(listed.error), [];
    }
    var ids := FilterIds(listed.value, filter);
    t, r, sts := SyncIds(c, s, c.athlete.value, state.value, ids, inc, dryRun, now, name, listing);
  }
}
