/**
 * The map view: which sessions give routes, heat points and photo markers
 * under the command-line filters, and how the page centres, zooms, colours
 * and down-samples what it shows.
 */
module MapView {
  import opened Util
  import opened DateTimes
  import Activities
  import Browser
  import Migrate

  // ---------------------------------------------------------------- filters

  /** The filters of `generate_map`: optional date bounds and an optional activity type. */
  datatype Filter = Filter(after: Option<DateTime>, before: Option<DateTime>, activityType: Option<string>)

  /** Neither `after and date < after` nor `before and date > before` holds. */
  predicate InWindow(f: Filter, d: DateTime)
  {
    !(f.after.Some? && Before(d, f.after.value)) && !(f.before.Some? && Before(f.before.value, d))
  }

  /** Both bounds are inclusive. */
  lemma WindowInclusive(f: Filter, d: DateTime)
    ensures InWindow(f, d) <==> (f.after.None? || Timestamp(f.after.value) <= Timestamp(d))
                                && (f.before.None? || Timestamp(d) <= Timestamp(f.before.value))
  {
  }

  /** `not activity_type or activity.type.lower() == activity_type.lower()`. */
  predicate TypeMatches(f: Filter, activityType: string)
  {
    f.activityType.None? || f.activityType.value == "" || Lower(activityType) == Lower(f.activityType.value)
  }

  /** The type filter ignores the case of both the filter and the activity type. */
  lemma TypeFilterIgnoresCase(f: Filter, activityType: string)
    ensures TypeMatches(f, activityType) <==> TypeMatches(f, Lower(activityType))
    ensures f.activityType.Some? ==>
              (TypeMatches(f, activityType) <==> TypeMatches(f.(activityType := Some(Lower(f.activityType.value))), activityType))
  {
    LowerIdempotent(activityType);
    if f.activityType.Some? {
      LowerIdempotent(f.activityType.value);
      assert |Lower(f.activityType.value)| == |f.activityType.value|;
    }
  }

  /** The session's date, parsed from its key, when the key parses and the date is inside the window. */
  function SessionDate(s: Browser.Session, f: Filter): (r: Option<DateTime>)
    ensures r.Some? <==> ParseSessionKey(s.key).Some? && InWindow(f, ParseSessionKey(s.key).value)
    ensures r.Some? ==> r == ParseSessionKey(s.key) && Valid(r.value)
  {
    match ParseSessionKey(s.key)
    case None => None
    case Some(d) => if InWindow(f, d) then Some(d) else None
  }

  // ---------------------------------------------------------------- photo locations

  /** `len(j)`; anything but a string, a list or an object raises TypeError. */
  function Len(j: Json): (r: Outcome<nat>)
    ensures r.Success? <==> j.JStr? || j.JList? || j.JObj?
  {
    match j
    case JStr(s) => Success(|s|)
    case JList(items) => Success(|items|)
    case JObj(fields) => Success(|fields|)
    case _ => Failure("TypeError")
  }

  /**
   * `j[i]`: an element of a list, a one-character string of a string;
   * out of range raises IndexError, an object (whose keys are strings)
   * raises KeyError, anything else TypeError.
   */
  function At(j: Json, i: nat): (r: Outcome<Json>)
    ensures j.JList? && i < |j.items| ==> r == Success(j.items[i])
    ensures r.Failure? ==> r.error in {"IndexError", "KeyError", "TypeError"}
  {
    match j
    case JList(items) => if i < |items| then Success(items[i]) else Failure("IndexError")
    case JStr(s) => if i < |s| then Success(JStr([s[i]])) else Failure("IndexError")
    case JObj(_) => Failure("KeyError")
    case _ => Failure("TypeError")
  }

  /** The errors the location lookup catches. */
  predicate Caught(e: string) { e == "IndexError" || e == "TypeError" }

  /** The guarded block: `location_raw[0][1]`, kept when it is truthy and has at least two items. */
  function NestedLocation(raw: Json): Outcome<Option<Json>>
  {
    var first :- At(raw, 0);
    var location :- At(first, 1);
    if !Truthy(location) then Success(None)
    else
      var n :- Len(location);
      if n < 2 then Success(None) else Success(Some(location))
  }

  /** `photo.get(key, default)`; None when the photo is not an object. */
  function Field(photo: Json, key: string, default: Json): Option<Json>
  {
    match photo
    case JObj(fields) => Some(if key in fields then fields[key] else default)
    case _ => None
  }

  /**
   * The latitude and longitude of a photo, None when the photo is skipped,
   * or the error that escapes: a photo that is not an object has no `get`,
   * `len` of a truthy number raises TypeError, and an object where a list
   * is expected raises KeyError.
   */
  function PhotoLocation(photo: Json): (r: Outcome<Option<(Json, Json)>>)
    ensures r.Success? && r.value.Some? ==> Field(photo, "location", JNull).Some? && Truthy(Field(photo, "location", JNull).value)
    ensures !photo.JObj? ==> r.Failure?
  {
    match Field(photo, "location", JNull)
    case None => Failure("AttributeError")
    case Some(raw) =>
      if !Truthy(raw) then Success(None)
      else
        var n :- Len(raw);
        if n == 0 then Success(None)
        else
          match NestedLocation(raw)
          case Failure(e) => if Caught(e) then Success(None) else Failure(e)
          case Success(None) => Success(None)
          case Success(Some(location)) =>
            var lat :- At(location, 0);
            var lng :- At(location, 1);
            Success(Some((lat, lng)))
  }

  /** A location `[[root, [lat, lng, ...]], ...]`: the first two items, or a skip with fewer than two. */
  lemma LocationFromNestedList(fields: map<string, Json>, root: Json, items: seq<Json>, more: seq<Json>, rest: seq<Json>)
    requires "location" in fields && fields["location"] == JList([JList([root, JList(items)] + more)] + rest)
    ensures |items| >= 2 ==> PhotoLocation(JObj(fields)) == Success(Some((items[0], items[1])))
    ensures |items| < 2 ==> PhotoLocation(JObj(fields)) == Success(None)
  {
    var raw := fields["location"];
    assert raw.items[0] == JList([root, JList(items)] + more);
    assert raw.items[0].items[1] == JList(items);
  }

  /** A missing, null or empty location is skipped; so is one whose first item has no second item. */
  lemma LocationSkipped(fields: map<string, Json>, first: seq<Json>, rest: seq<Json>)
    ensures "location" !in fields ==> PhotoLocation(JObj(fields)) == Success(None)
    ensures "location" in fields && fields["location"] in {JNull, JList([]), JStr("")} ==> PhotoLocation(JObj(fields)) == Success(None)
    ensures ("location" in fields && fields["location"] == JList([JList(first)] + rest) && |first| < 2
             ==> PhotoLocation(JObj(fields)) == Success(None))
  {
    if "location" in fields && fields["location"] == JList([JList(first)] + rest) && |first| < 2 {
      assert fields["location"].items[0] == JList(first);
    }
  }

  // ---------------------------------------------------------------- the local photo file

  /** `Path(name).stem`: the name without its suffix. */
  function Stem(name: string): string
  {
    name[..|name| - |Browser.Suffix(name)|]
  }

  /** The first element, in order, that satisfies `p`. */
  function FirstMatch<T>(xs: seq<T>, p: T -> bool): Option<T>
    decreases |xs|
  {
    if xs == [] then None
    else if p(xs[0]) then Some(xs[0])
    else FirstMatch(xs[1..], p)
  }

  /** Nothing is found exactly when no element satisfies `p`. */
  lemma {:induction false} FirstMatchNone<T>(xs: seq<T>, p: T -> bool)
    ensures FirstMatch(xs, p).None? <==> forall i :: 0 <= i < |xs| ==> !p(xs[i])
    decreases |xs|
  {
    if xs != [] && !p(xs[0]) {
      FirstMatchNone(xs[1..], p);
      assert forall j :: 1 <= j < |xs| ==> xs[j] == xs[1..][j - 1];
    }
  }

  /** A found element is the first one that satisfies `p`. */
  lemma {:induction false} FirstMatchAt<T>(xs: seq<T>, p: T -> bool) returns (i: nat)
    requires FirstMatch(xs, p).Some?
    ensures i < |xs| && xs[i] == FirstMatch(xs, p).value && p(xs[i])
    ensures forall j :: 0 <= j < i ==> !p(xs[j])
    decreases |xs|
  {
    if p(xs[0]) {
      i := 0;
    } else {
      var k := FirstMatchAt(xs[1..], p);
      i := k + 1;
      assert forall j :: 1 <= j < |xs| ==> xs[j] == xs[1..][j - 1];
    }
  }

  /** The first file name, in listing order, whose stem is `stem`. */
  function FirstWithStem(names: seq<string>, stem: string): Option<string>
  {
    FirstMatch(names, n => Stem(n) == stem)
  }

  /** No file is found exactly when no stem matches. */
  lemma FirstWithStemNone(names: seq<string>, stem: string)
    ensures FirstWithStem(names, stem).None? <==> forall i :: 0 <= i < |names| ==> Stem(names[i]) != stem
  {
    FirstMatchNone(names, n => Stem(n) == stem);
  }

  /** A found file is the first one whose stem matches. */
  lemma FirstWithStemAt(names: seq<string>, stem: string) returns (i: nat)
    requires FirstWithStem(names, stem).Some?
    ensures i < |names| && names[i] == FirstWithStem(names, stem).value && Stem(names[i]) == stem
    ensures forall j :: 0 <= j < i ==> Stem(names[j]) != stem
  {
    i := FirstMatchAt(names, n => Stem(n) == stem);
  }

  /** The search of the photos directory for the file of a photo. */
  method FindPhotoFile(names: seq<string>, stem: string) returns (r: Option<string>)
    ensures r == FirstWithStem(names, stem)
  {
    r := None;
    var i := 0;
    while i < |names|
      invariant 0 <= i <= |names|
      invariant FirstWithStem(names, stem) == FirstWithStem(names[i..], stem)
      decreases |names| - i
    {
      if Stem(names[i]) == stem {
        r := Some(names[i]);
        return;
      }
      assert names[i..][1..] == names[i + 1..];
      i := i + 1;
    }
  }

  /** `created_at` without `+00:00` and `Z`, through `fromisoformat` and `strftime("%Y%m%dT%H%M%S")`. */
  function ExpectedStem(created: Json): Option<string>
  {
    match created
    case JStr(s) =>
      (match FromIsoFormat(ReplaceAll(ReplaceAll(s, "+00:00", ""), "Z", ""))
       case Some(d) => Some(SessionKey(d))
       case None => None)
    case _ => None
  }

  /** The photo's path below the data directory, when the photos directory has a file for it. */
  function LocalPath(username: string, sessionKey: string, photoNames: Option<seq<string>>, created: Json): Option<string>
  {
    if photoNames.Some? && Truthy(created) && ExpectedStem(created).Some? then
      match FirstWithStem(photoNames.value, ExpectedStem(created).value)
      case Some(n) => Some(Migrate.AthletePrefix + username + "/ses=" + sessionKey + "/photos/" + n)
      case None => None
    else None
  }

  /** A local path names the first listed file whose stem is the expected one. */
  lemma LocalPathFound(username: string, sessionKey: string, photoNames: Option<seq<string>>, created: Json)
    requires LocalPath(username, sessionKey, photoNames, created).Some?
    ensures photoNames.Some? && ExpectedStem(created).Some?
    ensures exists i :: && 0 <= i < |photoNames.value| && Stem(photoNames.value[i]) == ExpectedStem(created).value
                        && (forall j :: 0 <= j < i ==> Stem(photoNames.value[j]) != ExpectedStem(created).value)
                        && LocalPath(username, sessionKey, photoNames, created).value
                           == Migrate.AthletePrefix + username + "/ses=" + sessionKey + "/photos/" + photoNames.value[i]
  {
    var i := FirstWithStemAt(photoNames.value, ExpectedStem(created).value);
  }

  /** No local path when the photos directory has no file with the expected stem. */
  lemma LocalPathMissing(username: string, sessionKey: string, names: seq<string>, created: Json)
    requires ExpectedStem(created).Some?
    requires forall i :: 0 <= i < |names| ==> Stem(names[i]) != ExpectedStem(created).value
    ensures LocalPath(username, sessionKey, Some(names), created).None?
  {
    FirstWithStemNone(names, ExpectedStem(created).value);
  }

  // ---------------------------------------------------------------- geotagged photos

  /** One photo marker. */
  datatype GeoPhoto = GeoPhoto(lat: Json, lng: Json, activityName: string, activityType: string,
                               activityDate: string, photoDate: Json, urls: Json, localPath: Option<string>,
                               sessionKey: string)

  /** The marker of one photo of an activity, None when the photo is skipped. */
  function PhotoEntry(username: string, s: Browser.Session, d: DateTime, a: Activities.Activity, photo: Json)
    : (r: Outcome<Option<GeoPhoto>>)
    requires Valid(d)
    ensures r.Success? && r.value.Some? ==> && r.value.value.sessionKey == s.key
                                             && r.value.value.activityName == a.name
                                             && r.value.value.activityDate == DateText(d)
  {
    var location :- PhotoLocation(photo);
    if location.None? then Success(None)
    else
      var created := OrElse(Field(photo, "created_at", JStr("")), JStr(""));
      var urls := OrElse(Field(photo, "urls", JObj(map[])), JObj(map[]));
      Success(Some(GeoPhoto(location.value.0, location.value.1, a.name, a.activityType, DateText(d), created, urls,
                            LocalPath(username, s.key, s.photoNames, created), s.key)))
  }

  /** The markers of `photos`, in order, or the first error. */
  function PhotoEntries(username: string, s: Browser.Session, d: DateTime, a: Activities.Activity, photos: seq<Json>)
    : Outcome<seq<GeoPhoto>>
    requires Valid(d)
    decreases |photos|
  {
    if photos == [] then Success([])
    else
      var front :- PhotoEntries(username, s, d, a, photos[..|photos| - 1]);
      var last :- PhotoEntry(username, s, d, a, photos[|photos| - 1]);
      Success(front + (if last.Some? then [last.value] else []))
  }

  lemma {:induction false} PhotoEntriesFailureStays(username: string, s: Browser.Session, d: DateTime,
                                                    a: Activities.Activity, photos: seq<Json>, i: nat)
    requires Valid(d) && i <= |photos| && PhotoEntries(username, s, d, a, photos[..i]).Failure?
    ensures PhotoEntries(username, s, d, a, photos) == PhotoEntries(username, s, d, a, photos[..i])
    decreases |photos| - i
  {
    if i < |photos| {
      assert photos[..i + 1][..i] == photos[..i];
      PhotoEntriesFailureStays(username, s, d, a, photos, i + 1);
    } else {
      assert photos[..i] == photos;
    }
  }

  /** The session's activity, when the session passes the date, activity and type checks and has photos. */
  function PhotoActivity(s: Browser.Session, f: Filter): (r: Option<Activities.Activity>)
    ensures r.Some? ==> SessionDate(s, f).Some? && s.activity == r && TypeMatches(f, r.value.activityType)
                        && r.value.photos != []
  {
    if SessionDate(s, f).Some? && s.activity.Some? && TypeMatches(f, s.activity.value.activityType)
       && s.activity.value.photos != []
    then s.activity
    else None
  }

  /** The markers of one session. */
  function SessionGeoPhotos(username: string, s: Browser.Session, f: Filter): Outcome<seq<GeoPhoto>>
  {
    match PhotoActivity(s, f)
    case None => Success([])
    case Some(a) => PhotoEntries(username, s, SessionDate(s, f).value, a, a.photos)
  }

  /** The marker of one photo, with the search of the photos directory for its file. */
  method PhotoMarker(username: string, s: Browser.Session, d: DateTime, a: Activities.Activity, photo: Json)
    returns (r: Outcome<Option<GeoPhoto>>)
    requires Valid(d)
    ensures r == PhotoEntry(username, s, d, a, photo)
  {
    var location := PhotoLocation(photo);
    if location.Failure? {
      return Failure(location.error);
    }
    if location.value.None? {
      return Success(None);
    }
    var created := OrElse(Field(photo, "created_at", JStr("")), JStr(""));
    var urls := OrElse(Field(photo, "urls", JObj(map[])), JObj(map[]));
    var localPath: Option<string> := None;
    if s.photoNames.Some? && Truthy(created) && ExpectedStem(created).Some? {
      var name := FindPhotoFile(s.photoNames.value, ExpectedStem(created).value);
      if name.Some? {
        localPath := Some(Migrate.AthletePrefix + username + "/ses=" + s.key + "/photos/" + name.value);
      }
    }
    r := Success(Some(GeoPhoto(location.value.value.0, location.value.value.1, a.name, a.activityType,
                               DateText(d), created, urls, localPath, s.key)));
  }

  /** The photo loop of one session. */
  method SessionPhotos(username: string, s: Browser.Session, f: Filter) returns (r: Outcome<seq<GeoPhoto>>)
    ensures r == SessionGeoPhotos(username, s, f)
  {
    var a := PhotoActivity(s, f);
    if a.None? {
      return Success([]);
    }
    var d := SessionDate(s, f).value;
    var photos := a.value.photos;
    var acc: seq<GeoPhoto> := [];
    var i := 0;
    while i < |photos|
      invariant 0 <= i <= |photos|
      invariant PhotoEntries(username, s, d, a.value, photos[..i]) == Success(acc)
      decreases |photos| - i
    {
      assert photos[..i + 1][..i] == photos[..i];
      var entry := PhotoMarker(username, s, d, a.value, photos[i]);
      if entry.Failure? {
        PhotoEntriesFailureStays(username, s, d, a.value, photos, i + 1);
        return Failure(entry.error);
      }
      acc := acc + (if entry.value.Some? then [entry.value.value] else []);
      i := i + 1;
    }
    assert photos[..i] == photos;
    r := Success(acc);
  }

  /** The markers of one athlete's sessions, in order, or the first error. */
  function AthletePhotos(username: string, ss: seq<Browser.Session>, f: Filter): Outcome<seq<GeoPhoto>>
    decreases |ss|
  {
    if ss == [] then Success([])
    else
      var front :- AthletePhotos(username, ss[..|ss| - 1], f);
      var last :- SessionGeoPhotos(username, ss[|ss| - 1], f);
      Success(front + last)
  }

  lemma {:induction false} AthletePhotosFailureStays(username: string, ss: seq<Browser.Session>, f: Filter, i: nat)
    requires i <= |ss| && AthletePhotos(username, ss[..i], f).Failure?
    ensures AthletePhotos(username, ss, f) == AthletePhotos(username, ss[..i], f)
    decreases |ss| - i
  {
    if i < |ss| {
      assert ss[..i + 1][..i] == ss[..i];
      AthletePhotosFailureStays(username, ss, f, i + 1);
    } else {
      assert ss[..i] == ss;
    }
  }

  /** What `_collect_geotagged_photos` returns: every athlete's markers, in order, or the first error. */
  function GeotaggedPhotos(dir: seq<Browser.Athlete>, f: Filter): Outcome<seq<GeoPhoto>>
    decreases |dir|
  {
    if dir == [] then Success([])
    else
      var front :- GeotaggedPhotos(dir[..|dir| - 1], f);
      var last :- AthletePhotos(dir[|dir| - 1].username, dir[|dir| - 1].sessions, f);
      Success(front + last)
  }

  lemma {:induction false} GeotaggedPhotosFailureStays(dir: seq<Browser.Athlete>, f: Filter, i: nat)
    requires i <= |dir| && GeotaggedPhotos(dir[..i], f).Failure?
    ensures GeotaggedPhotos(dir, f) == GeotaggedPhotos(dir[..i], f)
    decreases |dir| - i
  {
    if i < |dir| {
      assert dir[..i + 1][..i] == dir[..i];
      GeotaggedPhotosFailureStays(dir, f, i + 1);
    } else {
      assert dir[..i] == dir;
    }
  }

  /** The session loop of one athlete. */
  method AthleteGeoPhotos(username: string, ss: seq<Browser.Session>, f: Filter) returns (r: Outcome<seq<GeoPhoto>>)
    ensures r == AthletePhotos(username, ss, f)
  {
    var acc: seq<GeoPhoto> := [];
    var j := 0;
    while j < |ss|
      invariant 0 <= j <= |ss|
      invariant AthletePhotos(username, ss[..j], f) == Success(acc)
      decreases |ss| - j
    {
      assert ss[..j + 1][..j] == ss[..j];
      var found := SessionPhotos(username, ss[j], f);
      if found.Failure? {
        AthletePhotosFailureStays(username, ss, f, j + 1);
        return Failure(found.error);
      }
      acc := acc + found.value;
      j := j + 1;
    }
    assert ss[..j] == ss;
    r := Success(acc);
  }

  /** `_collect_geotagged_photos`: the nested loops over athletes and sessions. */
  method CollectGeotaggedPhotos(dir: seq<Browser.Athlete>, f: Filter) returns (r: Outcome<seq<GeoPhoto>>)
    ensures r == GeotaggedPhotos(dir, f)
  {
    var photos: seq<GeoPhoto> := [];
    var i := 0;
    while i < |dir|
      invariant 0 <= i <= |dir|
      invariant GeotaggedPhotos(dir[..i], f) == Success(photos)
      decreases |dir| - i
    {
      assert dir[..i + 1][..i] == dir[..i];
      var found := AthleteGeoPhotos(dir[i].username, dir[i].sessions, f);
      if found.Failure? {
        GeotaggedPhotosFailureStays(dir, f, i + 1);
        return Failure(found.error);
      }
      photos := photos + found.value;
      i := i + 1;
    }
    assert dir[..i] == dir;
    r := Success(photos);
  }

  // ---------------------------------------------------------------- routes

  /** One route of the routes page. */
  datatype RouteData = RouteData(name: string, activityType: string, date: string, distanceKm: int,
                                 coords: seq<(real, real)>)

  /**
   * The route of a session: its key parses to a date inside the window, its
   * tracking manifest says it has GPS, its activity loads and has the wanted
   * type, and it has coordinates.
   */
  function SessionRoute(s: Browser.Session, f: Filter): Option<RouteData>
  {
    if SessionDate(s, f).Some? && s.manifestGps == Some(true) && s.activity.Some?
       && TypeMatches(f, s.activity.value.activityType) && s.coords != []
    then
      var a := s.activity.value;
      Some(RouteData(a.name, a.activityType, DateText(SessionDate(s, f).value), Browser.DistanceKm(a.distance), s.coords))
    else None
  }

  /** Which sessions give a route, and what the route holds. */
  lemma SessionRouteMeaning(s: Browser.Session, f: Filter)
    ensures var r := SessionRoute(s, f);
            && (r.Some? <==> SessionDate(s, f).Some? && s.manifestGps == Some(true) && s.activity.Some?
                             && TypeMatches(f, s.activity.value.activityType) && s.coords != [])
            && (r.Some? ==> r.value.coords == s.coords && r.value.name == s.activity.value.name
                            && r.value.activityType == s.activity.value.activityType
                            && r.value.date == DateText(SessionDate(s, f).value)
                            && r.value.distanceKm == Browser.DistanceKm(s.activity.value.distance))
  {
  }

  /** The route of each session, in order (`None` where the session is skipped). */
  function RouteOptions(ss: seq<Browser.Session>, f: Filter): (r: seq<Option<RouteData>>)
    ensures |r| == |ss|
  {
    seq(|ss|, i requires 0 <= i < |ss| => SessionRoute(ss[i], f))
  }

  /** The values of the present options, in order. */
  function Somes<T>(opts: seq<Option<T>>): seq<T>
    decreases |opts|
  {
    if opts == [] then []
    else
      var last := opts[|opts| - 1];
      Somes(opts[..|opts| - 1]) + (if last.Some? then [last.value] else [])
  }

  lemma SomesStep<T>(opts: seq<Option<T>>, j: nat)
    requires j < |opts|
    ensures Somes(opts[..j + 1]) == Somes(opts[..j]) + (if opts[j].Some? then [opts[j].value] else [])
  {
    assert opts[..j + 1][..j] == opts[..j];
  }

  /** Each value comes from a present option. */
  lemma {:induction false} SomesFrom<T>(opts: seq<Option<T>>, x: T)
    requires x in Somes(opts)
    ensures exists j :: 0 <= j < |opts| && opts[j] == Some(x)
    decreases |opts|
  {
    var n := |opts| - 1;
    if opts[n] != Some(x) {
      assert x in Somes(opts[..n]);
      SomesFrom(opts[..n], x);
      var j :| 0 <= j < n && opts[..n][j] == Some(x);
      assert opts[..n][j] == opts[j];
    }
  }

  /** Each present option gives a value. */
  lemma {:induction false} SomesHas<T>(opts: seq<Option<T>>, j: nat)
    requires j < |opts| && opts[j].Some?
    ensures opts[j].value in Somes(opts)
    decreases |opts|
  {
    var n := |opts| - 1;
    if j < n {
      SomesHas(opts[..n], j);
      assert opts[..n][j] == opts[j];
    }
  }

  /** The routes of one athlete's sessions, in order. */
  function AthleteRoutes(ss: seq<Browser.Session>, f: Filter): seq<RouteData>
  {
    Somes(RouteOptions(ss, f))
  }

  /** Every route of the data directory, athlete by athlete. */
  function Routes(dir: seq<Browser.Athlete>, f: Filter): seq<RouteData>
    decreases |dir|
  {
    if dir == [] then [] else Routes(dir[..|dir| - 1], f) + AthleteRoutes(dir[|dir| - 1].sessions, f)
  }

  /** Each route of an athlete is the route of one of its sessions, and each route of a session is kept. */
  lemma AthleteRouteFrom(ss: seq<Browser.Session>, f: Filter, r: RouteData)
    ensures r in AthleteRoutes(ss, f) <==> exists j :: 0 <= j < |ss| && SessionRoute(ss[j], f) == Some(r)
  {
    var opts := RouteOptions(ss, f);
    if r in AthleteRoutes(ss, f) {
      SomesFrom(opts, r);
      var j :| 0 <= j < |opts| && opts[j] == Some(r);
      assert SessionRoute(ss[j], f) == Some(r);
    }
    if exists j :: 0 <= j < |ss| && SessionRoute(ss[j], f) == Some(r) {
      var j :| 0 <= j < |ss| && SessionRoute(ss[j], f) == Some(r);
      assert opts[j] == Some(r);
      SomesHas(opts, j);
    }
  }

  /** Each route of the data directory is the route of one of its sessions. */
  lemma {:induction false} RouteFrom(dir: seq<Browser.Athlete>, f: Filter, r: RouteData)
    requires r in Routes(dir, f)
    ensures exists i, j :: 0 <= i < |dir| && 0 <= j < |dir[i].sessions| && SessionRoute(dir[i].sessions[j], f) == Some(r)
    decreases |dir|
  {
    var n := |dir| - 1;
    if r in AthleteRoutes(dir[n].sessions, f) {
      AthleteRouteFrom(dir[n].sessions, f, r);
    } else {
      RouteFrom(dir[..n], f, r);
      var i, j :| 0 <= i < n && 0 <= j < |dir[..n][i].sessions| && SessionRoute(dir[..n][i].sessions[j], f) == Some(r);
      assert dir[..n][i] == dir[i];
    }
  }

  /** A route comes from a session with a GPS manifest, an activity and coordinates. */
  lemma RoutesNeedGps(dir: seq<Browser.Athlete>, f: Filter, r: RouteData)
    requires r in Routes(dir, f)
    ensures exists i, j :: 0 <= i < |dir| && 0 <= j < |dir[i].sessions|
                           && dir[i].sessions[j].manifestGps == Some(true) && dir[i].sessions[j].activity.Some?
                           && dir[i].sessions[j].coords == r.coords && r.coords != []
  {
    RouteFrom(dir, f, r);
    var i, j :| 0 <= i < |dir| && 0 <= j < |dir[i].sessions| && SessionRoute(dir[i].sessions[j], f) == Some(r);
    SessionRouteMeaning(dir[i].sessions[j], f);
  }

  /** All coordinates of `routes`, route by route. */
  function Points(routes: seq<RouteData>): seq<(real, real)>
    decreases |routes|
  {
    if routes == [] then [] else Points(routes[..|routes| - 1]) + routes[|routes| - 1].coords
  }

  lemma PointsSnoc(routes: seq<RouteData>, r: RouteData)
    ensures Points(routes + [r]) == Points(routes) + r.coords
  {
    assert (routes + [r])[..|routes|] == routes;
  }

  lemma {:induction false} PointsAppend(a: seq<RouteData>, b: seq<RouteData>)
    ensures Points(a + b) == Points(a) + Points(b)
    decreases |b|
  {
    if b == [] {
      assert a + b == a;
    } else {
      var n := |b| - 1;
      assert (a + b)[..|a + b| - 1] == a + b[..n];
      PointsAppend(a, b[..n]);
    }
  }

  // ---------------------------------------------------------------- centre, zoom and colour

  function MinOf(xs: seq<real>): (m: real)
    requires xs != []
    ensures m in xs && forall x :: x in xs ==> m <= x
    decreases |xs|
  {
    if |xs| == 1 then xs[0]
    else
      var m := MinOf(xs[1..]);
      assert xs == [xs[0]] + xs[1..];
      if xs[0] <= m then xs[0] else m
  }

  function MaxOf(xs: seq<real>): (m: real)
    requires xs != []
    ensures m in xs && forall x :: x in xs ==> x <= m
    decreases |xs|
  {
    if |xs| == 1 then xs[0]
    else
      var m := MaxOf(xs[1..]);
      assert xs == [xs[0]] + xs[1..];
      if m <= xs[0] then xs[0] else m
  }

  /** The zoom for a span in degrees: 15, 12, 10, 7 or 4, over bands of width 0.01, 0.1, 1 and 10. */
  function Zoom(span: real): (z: int)
    ensures z in {15, 12, 10, 7, 4}
  {
    if span < 0.01 then 15 else if span < 0.1 then 12 else if span < 1.0 then 10 else if span < 10.0 then 7 else 4
  }

  /** A wider span never zooms in further. */
  lemma ZoomNonIncreasing(a: real, b: real)
    requires a <= b
    ensures Zoom(b) <= Zoom(a)
  {
  }

  /** The map's view of a set of coordinates: centre and zoom. */
  datatype View = View(lat: real, lng: real, zoom: int)

  /** The view with nothing to show. */
  const World := View(0.0, 0.0, 2)

  /**
   * The centre is the midpoint of the latitude and longitude ranges, and the
   * zoom follows the larger of the two spans.
   */
  function ViewOf(lats: seq<real>, lngs: seq<real>): (v: View)
    requires lats != [] && lngs != []
    ensures forall x :: x in lats ==> v.lat - (MaxOf(lats) - MinOf(lats)) / 2.0 <= x <= v.lat + (MaxOf(lats) - MinOf(lats)) / 2.0
    ensures forall x :: x in lngs ==> v.lng - (MaxOf(lngs) - MinOf(lngs)) / 2.0 <= x <= v.lng + (MaxOf(lngs) - MinOf(lngs)) / 2.0
    ensures v.zoom == Zoom(if MaxOf(lats) - MinOf(lats) >= MaxOf(lngs) - MinOf(lngs)
                           then MaxOf(lats) - MinOf(lats) else MaxOf(lngs) - MinOf(lngs))
  {
    var latSpan := MaxOf(lats) - MinOf(lats);
    var lngSpan := MaxOf(lngs) - MinOf(lngs);
    View((MinOf(lats) + MaxOf(lats)) / 2.0, (MinOf(lngs) + MaxOf(lngs)) / 2.0,
         Zoom(if latSpan >= lngSpan then latSpan else lngSpan))
  }

  /** The view of the routes page: every route coordinate, or the world view without any. */
  function RoutesView(points: seq<(real, real)>): (v: View)
    ensures points == [] ==> v == World
  {
    if points == [] then World
    else ViewOf(seq(|points|, k requires 0 <= k < |points| => points[k].0),
                seq(|points|, k requires 0 <= k < |points| => points[k].1))
  }

  /** The palette of the routes page. */
  const TypeColours: map<string, string> :=
    map["Run" := "#FF5722", "Ride" := "#2196F3", "Hike" := "#4CAF50", "Walk" := "#9C27B0",
        "Swim" := "#00BCD4", "Other" := "#607D8B"]

  /** A route's colour: its type's colour, else the colour of "Other". */
  function Colour(activityType: string): (c: string)
    ensures activityType in TypeColours ==> c == TypeColours[activityType]
    ensures activityType !in TypeColours ==> c == TypeColours["Other"]
    ensures c in TypeColours.Values
  {
    if activityType in TypeColours then TypeColours[activityType] else TypeColours["Other"]
  }

  /** Types outside the palette all share the colour of "Other". */
  lemma UnknownTypesShareColour(t: string, u: string)
    requires t !in TypeColours && u !in TypeColours
    ensures Colour(t) == Colour(u) == Colour("Other")
  {
  }

  // ---------------------------------------------------------------- heat points

  const MaxPoints: nat := 50000

  /** `points[::step]`: every `step`-th point, from the first. */
  function EveryNth(points: seq<(real, real)>, step: nat): (r: seq<(real, real)>)
    requires step > 0
    ensures |r| <= |points| && (points != [] ==> r != [] && r[0] == points[0])
    decreases |points|
  {
    if points == [] then []
    else if |points| <= step then [points[0]]
    else [points[0]] + EveryNth(points[step..], step)
  }

  /** The `i`-th point kept is the point at `i * step`. */
  lemma {:induction false} EveryNthAt(points: seq<(real, real)>, step: nat, i: nat)
    requires step > 0 && i < |EveryNth(points, step)|
    ensures i * step < |points| && EveryNth(points, step)[i] == points[i * step]
    decreases i
  {
    if i > 0 {
      EveryNthAt(points[step..], step, i - 1);
      assert (i - 1) * step + step == i * step;
    }
  }

  /** Every index that is a multiple of `step` is kept: the count is `|points| / step` rounded up. */
  lemma {:induction false} EveryNthCovers(points: seq<(real, real)>, step: nat)
    requires step > 0
    ensures |points| <= |EveryNth(points, step)| * step
    decreases |points|
  {
    if |points| > step {
      EveryNthCovers(points[step..], step);
      var k := |EveryNth(points[step..], step)|;
      assert |EveryNth(points, step)| == k + 1;
      assert (k + 1) * step == k * step + step;
    }
  }

  /** With `|points| <= m * step`, at most `m` points are kept. */
  lemma {:induction false} EveryNthBound(points: seq<(real, real)>, step: nat, m: nat)
    requires step > 0 && |points| <= m * step
    ensures |EveryNth(points, step)| <= m
    decreases |points|
  {
    if |points| > step {
      assert m * step == (m - 1) * step + step;
      EveryNthBound(points[step..], step, m - 1);
    } else if points != [] {
      assert m != 0;
    }
  }

  /** A step of 1 keeps every point. */
  lemma {:induction false} EveryNthOne(points: seq<(real, real)>)
    ensures EveryNth(points, 1) == points
    decreases |points|
  {
    if |points| > 1 {
      EveryNthOne(points[1..]);
      assert points == [points[0]] + points[1..];
    }
  }

  /** The down-sampling as written: with more than `MaxPoints` points, every `(n // MaxPoints)`-th. */
  function SampleAsWritten(points: seq<(real, real)>): seq<(real, real)>
  {
    if |points| > MaxPoints then EveryNth(points, |points| / MaxPoints) else points
  }

  /** Below twice the bound the step is 1, so nothing is dropped: up to 99999 points stay. */
  lemma SampleAsWrittenKeepsTooMany(points: seq<(real, real)>)
    requires MaxPoints < |points| < 2 * MaxPoints
    ensures SampleAsWritten(points) == points && |SampleAsWritten(points)| > MaxPoints
  {
    assert |points| / MaxPoints == 1;
    EveryNthOne(points);
  }

  /**
   * The down-sampling as written keeps up to `MaxPoints` points unchanged;
   * above that it starts at the first point, and each point it keeps is the
   * input point at a multiple of `n // MaxPoints`.
   */
  lemma SampleAsWrittenAt(points: seq<(real, real)>, i: nat)
    ensures |points| <= MaxPoints ==> SampleAsWritten(points) == points
    ensures |points| > MaxPoints ==> |SampleAsWritten(points)| <= |points| && SampleAsWritten(points)[0] == points[0]
    ensures |points| > MaxPoints && i < |SampleAsWritten(points)| ==>
              i * (|points| / MaxPoints) < |points| && SampleAsWritten(points)[i] == points[i * (|points| / MaxPoints)]
  {
    if |points| > MaxPoints && i < |SampleAsWritten(points)| {
      EveryNthAt(points, |points| / MaxPoints, i);
    }
  }

  /** The step that keeps at most `MaxPoints` points: `n / MaxPoints` rounded up. */
  function SampleStep(n: nat): (step: nat)
    requires n > 0
    ensures step > 0 && n <= MaxPoints * step
  {
    (n + MaxPoints - 1) / MaxPoints
  }

  /** The down-sampling, with the step rounded up. */
  function Sample(points: seq<(real, real)>): seq<(real, real)>
  {
    if |points| > MaxPoints then EveryNth(points, SampleStep(|points|)) else points
  }

  /**
   * The corrected down-sampling keeps at most `MaxPoints` points; up to
   * `MaxPoints` points are kept unchanged.
   */
  lemma SampleBounded(points: seq<(real, real)>)
    ensures |points| <= MaxPoints ==> Sample(points) == points
    ensures |Sample(points)| <= MaxPoints
  {
    if |points| > MaxPoints {
      var step := SampleStep(|points|);
      EveryNthBound(points, step, MaxPoints);
    }
  }

  /** Each point the corrected down-sampling keeps is the input point at a multiple of its step. */
  lemma SampleAt(points: seq<(real, real)>, i: nat)
    requires |points| > MaxPoints && i < |Sample(points)|
    ensures i * SampleStep(|points|) < |points| && Sample(points)[i] == points[i * SampleStep(|points|)]
  {
    EveryNthAt(points, SampleStep(|points|), i);
  }

  /** A heat entry: latitude, longitude and intensity. */
  function Heat(points: seq<(real, real)>): (h: seq<(real, real, real)>)
    ensures |h| == |points|
    ensures forall i :: 0 <= i < |h| ==> h[i] == (points[i].0, points[i].1, 1.0)
  {
    seq(|points|, i requires 0 <= i < |points| => (points[i].0, points[i].1, 1.0))
  }

  /** A JSON number as Python arithmetic sees it (booleans count as 0 and 1). */
  function Number(j: Json): Option<real>
  {
    match j
    case JInt(i) => Some(i as real)
    case JReal(r) => Some(r)
    case JBool(b) => Some(if b then 1.0 else 0.0)
    case _ => None
  }

  /** The numbers of `js`, None when one of them is not a number. */
  function Numbers(js: seq<Json>): (r: Option<seq<real>>)
    ensures r.Some? ==> |r.value| == |js|
    ensures r.None? <==> exists i :: 0 <= i < |js| && Number(js[i]).None?
    decreases |js|
  {
    if js == [] then Some([])
    else
      var x, xs := Number(js[0]), Numbers(js[1..]);
      assert forall i :: 1 <= i < |js| ==> js[i] == js[1..][i - 1];
      if x.Some? && xs.Some? then Some([x.value] + xs.value) else None
  }

  // ---------------------------------------------------------------- the pages

  /** What the generated page shows. */
  datatype MapPage =
    | RoutesMap(view: View, routes: seq<(RouteData, string)>, photos: seq<GeoPhoto>)
    | HeatMap(view: View, heat: seq<(real, real, real)>, photos: seq<GeoPhoto>)

  /** `_generate_routes_html`: the routes with their colours, viewed over all their coordinates. */
  function RoutesPage(routes: seq<RouteData>, photos: seq<GeoPhoto>): (p: MapPage)
    ensures p.RoutesMap? && p.photos == photos && |p.routes| == |routes|
    ensures forall i :: 0 <= i < |routes| ==> p.routes[i] == (routes[i], Colour(routes[i].activityType))
    ensures Points(routes) == [] ==> p.view == World
    ensures Points(routes) != [] ==> p.view == ViewOf(Lats(Points(routes)), Lngs(Points(routes)))
  {
    RoutesMap(RoutesView(Points(routes)),
              seq(|routes|, i requires 0 <= i < |routes| => (routes[i], Colour(routes[i].activityType))),
              photos)
  }

  /** The photos' coordinates are all numbers. */
  predicate NumericPhotos(photos: seq<GeoPhoto>)
  {
    forall i :: 0 <= i < |photos| ==> Number(photos[i].lat).Some? && Number(photos[i].lng).Some?
  }

  function PhotoLats(photos: seq<GeoPhoto>): (js: seq<Json>)
    ensures |js| == |photos| && forall i :: 0 <= i < |js| ==> js[i] == photos[i].lat
  {
    seq(|photos|, i requires 0 <= i < |photos| => photos[i].lat)
  }

  function PhotoLngs(photos: seq<GeoPhoto>): (js: seq<Json>)
    ensures |js| == |photos| && forall i :: 0 <= i < |js| ==> js[i] == photos[i].lng
  {
    seq(|photos|, i requires 0 <= i < |photos| => photos[i].lng)
  }

  function Lats(points: seq<(real, real)>): (xs: seq<real>)
    ensures |xs| == |points| && forall i :: 0 <= i < |xs| ==> xs[i] == points[i].0
  {
    seq(|points|, k requires 0 <= k < |points| => points[k].0)
  }

  function Lngs(points: seq<(real, real)>): (xs: seq<real>)
    ensures |xs| == |points| && forall i :: 0 <= i < |xs| ==> xs[i] == points[i].1
  {
    seq(|points|, k requires 0 <= k < |points| => points[k].1)
  }

  /**
   * `_generate_heatmap_html`: the view covers the points and the photos; a
   * photo coordinate that is not a number makes `min`/`max` and the midpoint
   * raise TypeError.
   */
  function HeatmapPage(points: seq<(real, real)>, photos: seq<GeoPhoto>): (r: Outcome<MapPage>)
    ensures r.Success? ==> r.value.HeatMap? && r.value.photos == photos && r.value.heat == Heat(SampleAsWritten(points))
    ensures points == [] && photos == [] ==> r == Success(HeatMap(World, [], []))
    ensures r.Success? && !(points == [] && photos == []) ==>
              && Numbers(PhotoLats(photos)).Some? && Numbers(PhotoLngs(photos)).Some?
              && r.value.view == ViewOf(Lats(points) + Numbers(PhotoLats(photos)).value,
                                        Lngs(points) + Numbers(PhotoLngs(photos)).value)
  {
    var heat := Heat(SampleAsWritten(points));
    if points == [] && photos == [] then Success(HeatMap(World, heat, photos))
    else
      var photoLats, photoLngs := Numbers(PhotoLats(photos)), Numbers(PhotoLngs(photos));
      if photoLats.None? || photoLngs.None? then Failure("TypeError")
      else Success(HeatMap(ViewOf(Lats(points) + photoLats.value, Lngs(points) + photoLngs.value), heat, photos))
  }

  /** The heat map fails exactly when a photo has a coordinate that is not a number. */
  lemma HeatmapFailsOnText(points: seq<(real, real)>, photos: seq<GeoPhoto>)
    ensures HeatmapPage(points, photos).Failure? <==> !NumericPhotos(photos)
  {
    if photos == [] {
      assert NumericPhotos(photos);
    }
    if !NumericPhotos(photos) {
      var i :| 0 <= i < |photos| && !(Number(photos[i].lat).Some? && Number(photos[i].lng).Some?);
      assert PhotoLats(photos)[i] == photos[i].lat && PhotoLngs(photos)[i] == photos[i].lng;
    } else {
      forall i | 0 <= i < |photos| ensures Number(PhotoLats(photos)[i]).Some? && Number(PhotoLngs(photos)[i]).Some? {
      }
    }
  }

  /** What `generate_map` produces: the photos when asked for, then the heat map or the routes page. */
  function MapOf(dir: seq<Browser.Athlete>, f: Filter, heatmap: bool, showPhotos: bool): Outcome<MapPage>
  {
    var photos :- if showPhotos then GeotaggedPhotos(dir, f) else Success([]);
    if heatmap then HeatmapPage(Points(Routes(dir, f)), photos) else Success(RoutesPage(Routes(dir, f), photos))
  }

  /** Without `show_photos` the page has no photos, and the routes page always succeeds. */
  lemma HiddenPhotos(dir: seq<Browser.Athlete>, f: Filter, heatmap: bool)
    ensures MapOf(dir, f, heatmap, false).Success?
    ensures MapOf(dir, f, heatmap, false).value.photos == []
  {
    if heatmap {
      HeatmapFailsOnText(Points(Routes(dir, f)), []);
    }
  }

  /** The session loop of one athlete, over the route of each session: the routes, or in heat-map mode their coordinates. */
  method AddRoutes(opts: seq<Option<RouteData>>, heatmap: bool, routes0: seq<RouteData>, points0: seq<(real, real)>)
    returns (routes: seq<RouteData>, points: seq<(real, real)>)
    ensures heatmap ==> routes == routes0 && points == points0 + Points(Somes(opts))
    ensures !heatmap ==> points == points0 && routes == routes0 + Somes(opts)
  {
    routes, points := routes0, points0;
    var j := 0;
    ghost var done: seq<RouteData> := [];
    while j < |opts|
      invariant 0 <= j <= |opts|
      invariant done == Somes(opts[..j])
      invariant heatmap ==> routes == routes0 && points == points0 + Points(done)
      invariant !heatmap ==> points == points0 && routes == routes0 + done
      decreases |opts| - j
    {
      var route := opts[j];
      SomesStep(opts, j);
      if route.Some? {
        PointsSnoc(done, route.value);
        if heatmap {
          assert points + route.value.coords == points0 + (Points(done) + route.value.coords);
          points := points + route.value.coords;
        } else {
          assert routes + [route.value] == routes0 + (done + [route.value]);
          routes := routes + [route.value];
        }
        done := done + [route.value];
      }
      j := j + 1;
    }
    assert opts[..j] == opts;
  }

  /** The nested loops over athletes and sessions: every route, or in heat-map mode every point. */
  method CollectRoutes(dir: seq<Browser.Athlete>, f: Filter, heatmap: bool)
    returns (routes: seq<RouteData>, allPoints: seq<(real, real)>)
    ensures heatmap ==> routes == [] && allPoints == Points(Routes(dir, f))
    ensures !heatmap ==> allPoints == [] && routes == Routes(dir, f)
  {
    routes, allPoints := [], [];
    var i := 0;
    while i < |dir|
      invariant 0 <= i <= |dir|
      invariant heatmap ==> routes == [] && allPoints == Points(Routes(dir[..i], f))
      invariant !heatmap ==> allPoints == [] && routes == Routes(dir[..i], f)
      decreases |dir| - i
    {
      assert dir[..i + 1][..i] == dir[..i];
      PointsAppend(Routes(dir[..i], f), AthleteRoutes(dir[i].sessions, f));
      var opts := RouteOptions(dir[i].sessions, f);
      routes, allPoints := AddRoutes(opts, heatmap, routes, allPoints);
      i := i + 1;
    }
    assert dir[..i] == dir;
  }

  /** `generate_map`: the photos, then the routes or the heat map. */
  method GenerateMap(dir: seq<Browser.Athlete>, f: Filter, heatmap: bool, showPhotos: bool) returns (r: Outcome<MapPage>)
    ensures r == MapOf(dir, f, heatmap, showPhotos)
  {
    var photos: seq<GeoPhoto> := [];
    if showPhotos {
      var collected := CollectGeotaggedPhotos(dir, f);
      if collected.Failure? {
        return Failure(collected.error);
      }
      photos := collected.value;
    }
    var routes, allPoints := CollectRoutes(dir, f, heatmap);
    if heatmap {
      r := HeatmapPage(allPoints, photos);
    } else {
      r := Success(RoutesPage(routes, photos));
    }
  }
}
