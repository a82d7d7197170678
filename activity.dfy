/**
 * The activity record: its construction from a Strava detail object, its
 * `info.json` dictionary form, its place in the session directories of an
 * athlete, and the `sessions.tsv` summary written from all of them.
 *
 * Python floats (distance, speeds, elevation, heart rate, ...) are modelled
 * as integers.
 */
module Activities {
  import opened Util
  import opened DateTimes

  // ---------------------------------------------------------------- the record

  datatype Activity = Activity(
    id: int,
    name: string,
    activityType: string,
    sportType: string,
    startDate: DateTime,
    startDateLocal: DateTime,
    timezone: string,
    distance: int,
    movingTime: int,
    elapsedTime: int,
    description: Option<string>,
    totalElevationGain: Option<int>,
    calories: Option<int>,
    averageSpeed: Option<int>,
    maxSpeed: Option<int>,
    averageHeartrate: Option<int>,
    maxHeartrate: Option<int>,
    averageWatts: Option<int>,
    maxWatts: Option<int>,
    averageCadence: Option<int>,
    gearId: Option<string>,
    deviceName: Option<string>,
    trainer: bool,
    commute: bool,
    isPrivate: bool,
    kudosCount: int,
    commentCount: int,
    athleteCount: int,
    achievementCount: int,
    prCount: int,
    hasGps: bool,
    hasPhotos: bool,
    photoCount: int,
    comments: seq<Json>,
    kudos: seq<Json>,
    laps: seq<Json>,
    segmentEfforts: seq<Json>,
    photos: seq<Json>)

  predicate ActivityValid(a: Activity) { Valid(a.startDate) && Valid(a.startDateLocal) }

  /** The detail object the Strava client returns; None is Python's None. */
  datatype StravaActivity = StravaActivity(
    id: int,
    name: Option<string>,
    description: Option<string>,
    activityType: string,
    sportType: Option<string>,
    startDate: DateTime,
    startDateLocal: DateTime,
    timezone: Option<string>,
    distance: Option<int>,
    movingTime: Option<int>,
    elapsedTime: Option<int>,
    totalElevationGain: Option<int>,
    calories: Option<int>,
    averageSpeed: Option<int>,
    maxSpeed: Option<int>,
    averageHeartrate: Option<int>,
    maxHeartrate: Option<int>,
    averageWatts: Option<int>,
    maxWatts: Option<int>,
    averageCadence: Option<int>,
    gearId: Option<string>,
    deviceName: Option<string>,
    trainer: Option<bool>,
    commute: Option<bool>,
    isPrivate: Option<bool>,
    kudosCount: Option<int>,
    commentCount: Option<int>,
    athleteCount: Option<int>,
    achievementCount: Option<int>,
    prCount: Option<int>,
    startLatLng: Option<seq<real>>)

  /** Python truthiness of an optional number, string or list. */
  predicate IntTruthy(v: Option<int>) { v.Some? && v.value != 0 }
  predicate StrTruthy(v: Option<string>) { v.Some? && v.value != "" }

  /** `x or default` for an optional number. */
  function IntOr(v: Option<int>, default: int): int { if IntTruthy(v) then v.value else default }

  /** `float(x) if x else None`: zero becomes None. */
  function NonZero(v: Option<int>): (r: Option<int>)
    ensures r.Some? <==> IntTruthy(v)
    ensures r.Some? ==> r == v
  {
    if IntTruthy(v) then v else None
  }

  /**
   * `Activity.from_strava_activity`: a missing or empty name becomes
   * "Untitled", a missing sport type falls back to the type, a missing time
   * zone becomes the text "None", and `has_gps` tells whether a start
   * location was reported.
   */
  function FromStravaActivity(s: StravaActivity): (a: Activity)
    ensures a.name != "" && (StrTruthy(s.name) ==> a.name == s.name.value)
    ensures !StrTruthy(s.name) ==> a.name == "Untitled"
    ensures a.sportType == (if StrTruthy(s.sportType) then s.sportType.value else s.activityType)
    ensures a.hasGps <==> (s.startLatLng.Some? && |s.startLatLng.value| > 0)
    ensures a.athleteCount != 0 && a.totalElevationGain != Some(0)
    ensures !a.hasPhotos && a.photoCount == 0 && a.comments == [] && a.kudos == [] && a.photos == []
    ensures a.id == s.id && a.startDate == s.startDate
  {
    Activity(
      s.id,
      if StrTruthy(s.name) then s.name.value else "Untitled",
      s.activityType,
      if StrTruthy(s.sportType) then s.sportType.value else s.activityType,
      s.startDate,
      s.startDateLocal,
      if s.timezone.Some? then s.timezone.value else "None",
      IntOr(s.distance, 0),
      IntOr(s.movingTime, 0),
      IntOr(s.elapsedTime, 0),
      s.description,
      NonZero(s.totalElevationGain),
      s.calories,
      NonZero(s.averageSpeed),
      NonZero(s.maxSpeed),
      s.averageHeartrate,
      s.maxHeartrate,
      s.averageWatts,
      s.maxWatts,
      s.averageCadence,
      s.gearId,
      s.deviceName,
      s.trainer == Some(true),
      s.commute == Some(true),
      s.isPrivate == Some(true),
      IntOr(s.kudosCount, 0),
      IntOr(s.commentCount, 0),
      IntOr(s.athleteCount, 1),
      IntOr(s.achievementCount, 0),
      IntOr(s.prCount, 0),
      s.startLatLng.Some? && |s.startLatLng.value| > 0,
      false, 0, [], [], [], [], [])
  }

  // ---------------------------------------------------------------- info.json

  function OptInt(v: Option<int>): Json { if v.Some? then JInt(v.value) else JNull }
  function OptStr(v: Option<string>): Json { if v.Some? then JStr(v.value) else JNull }

  /*
   * `Activity.to_dict` writes one flat dictionary. It is built here by
   * inserting its keys group by group, in the order the source lists them.
   * Each insertion states where its own keys land (Has...) and that it
   * leaves every other key alone (Keeps).
   */

  /** `r` agrees with `m` on every key outside `keys`. */
  ghost predicate Keeps<V>(m: map<string, V>, r: map<string, V>, keys: set<string>)
  {
    forall k :: k !in keys ==> (k in r <==> k in m) && (k in m ==> r[k] == m[k])
  }


  const IdentityKeys: set<string> := {"id", "name", "description", "type", "sport_type", "start_date", "start_date_local", "timezone"}

  /** The entries for the identity and the two dates, as `to_dict` writes them, are in `d`. */
  predicate HasIdentity(d: map<string, Json>, a: Activity)
    requires ActivityValid(a)
  {
    && "id" in d && d["id"] == JInt(a.id)
    && "name" in d && d["name"] == JStr(a.name)
    && "description" in d && d["description"] == OptStr(a.description)
    && "type" in d && d["type"] == JStr(a.activityType)
    && "sport_type" in d && d["sport_type"] == JStr(a.sportType)
    && "start_date" in d && d["start_date"] == JStr(IsoFormat(a.startDate))
    && "start_date_local" in d && d["start_date_local"] == JStr(IsoFormat(a.startDateLocal))
    && "timezone" in d && d["timezone"] == JStr(a.timezone)
  }

  /** Inserts the identity and the two dates. */
  function WithIdentity(m: map<string, Json>, a: Activity): (r: map<string, Json>)
    requires ActivityValid(a)
    ensures HasIdentity(r, a) && Keeps(m, r, IdentityKeys)
  {
    m
    ["id" := JInt(a.id)]
    ["name" := JStr(a.name)]
    ["description" := OptStr(a.description)]
    ["type" := JStr(a.activityType)]
    ["sport_type" := JStr(a.sportType)]
    ["start_date" := JStr(IsoFormat(a.startDate))]
    ["start_date_local" := JStr(IsoFormat(a.startDateLocal))]
    ["timezone" := JStr(a.timezone)]
  }

  /** An insertion of keys apart from these keeps the identity and the two dates. */
  lemma IdentityKept(m: map<string, Json>, r: map<string, Json>, keys: set<string>, a: Activity)
    requires ActivityValid(a)
    requires HasIdentity(m, a) && Keeps(m, r, keys) && IdentityKeys !! keys
    ensures HasIdentity(r, a)
  {}

  const MeasuresKeys: set<string> := {"distance", "moving_time", "elapsed_time", "total_elevation_gain", "calories", "average_speed", "max_speed", "average_heartrate", "max_heartrate", "average_watts", "max_watts", "average_cadence"}

  /** The entries for distance, times and the optional measures, as `to_dict` writes them, are in `d`. */
  predicate HasMeasures(d: map<string, Json>, a: Activity)
  {
    && "distance" in d && d["distance"] == JInt(a.distance)
    && "moving_time" in d && d["moving_time"] == JInt(a.movingTime)
    && "elapsed_time" in d && d["elapsed_time"] == JInt(a.elapsedTime)
    && "total_elevation_gain" in d && d["total_elevation_gain"] == OptInt(a.totalElevationGain)
    && "calories" in d && d["calories"] == OptInt(a.calories)
    && "average_speed" in d && d["average_speed"] == OptInt(a.averageSpeed)
    && "max_speed" in d && d["max_speed"] == OptInt(a.maxSpeed)
    && "average_heartrate" in d && d["average_heartrate"] == OptInt(a.averageHeartrate)
    && "max_heartrate" in d && d["max_heartrate"] == OptInt(a.maxHeartrate)
    && "average_watts" in d && d["average_watts"] == OptInt(a.averageWatts)
    && "max_watts" in d && d["max_watts"] == OptInt(a.maxWatts)
    && "average_cadence" in d && d["average_cadence"] == OptInt(a.averageCadence)
  }

  /** Inserts distance, times and the optional measures. */
  function WithMeasures(m: map<string, Json>, a: Activity): (r: map<string, Json>)
    ensures HasMeasures(r, a) && Keeps(m, r, MeasuresKeys)
  {
    m
    ["distance" := JInt(a.distance)]
    ["moving_time" := JInt(a.movingTime)]
    ["elapsed_time" := JInt(a.elapsedTime)]
    ["total_elevation_gain" := OptInt(a.totalElevationGain)]
    ["calories" := OptInt(a.calories)]
    ["average_speed" := OptInt(a.averageSpeed)]
    ["max_speed" := OptInt(a.maxSpeed)]
    ["average_heartrate" := OptInt(a.averageHeartrate)]
    ["max_heartrate" := OptInt(a.maxHeartrate)]
    ["average_watts" := OptInt(a.averageWatts)]
    ["max_watts" := OptInt(a.maxWatts)]
    ["average_cadence" := OptInt(a.averageCadence)]
  }

  /** An insertion of keys apart from these keeps distance, times and the optional measures. */
  lemma MeasuresKept(m: map<string, Json>, r: map<string, Json>, keys: set<string>, a: Activity)
    requires HasMeasures(m, a) && Keeps(m, r, keys) && MeasuresKeys !! keys
    ensures HasMeasures(r, a)
  {}

  const GearKeys: set<string> := {"gear_id", "device_name", "trainer", "commute", "private"}

  /** The entries for gear, device and the three flags, as `to_dict` writes them, are in `d`. */
  predicate HasGear(d: map<string, Json>, a: Activity)
  {
    && "gear_id" in d && d["gear_id"] == OptStr(a.gearId)
    && "device_name" in d && d["device_name"] == OptStr(a.deviceName)
    && "trainer" in d && d["trainer"] == JBool(a.trainer)
    && "commute" in d && d["commute"] == JBool(a.commute)
    && "private" in d && d["private"] == JBool(a.isPrivate)
  }

  /** Inserts gear, device and the three flags. */
  function WithGear(m: map<string, Json>, a: Activity): (r: map<string, Json>)
    ensures HasGear(r, a) && Keeps(m, r, GearKeys)
  {
    m
    ["gear_id" := OptStr(a.gearId)]
    ["device_name" := OptStr(a.deviceName)]
    ["trainer" := JBool(a.trainer)]
    ["commute" := JBool(a.commute)]
    ["private" := JBool(a.isPrivate)]
  }

  /** An insertion of keys apart from these keeps gear, device and the three flags. */
  lemma GearKept(m: map<string, Json>, r: map<string, Json>, keys: set<string>, a: Activity)
    requires HasGear(m, a) && Keeps(m, r, keys) && GearKeys !! keys
    ensures HasGear(r, a)
  {}

  const SocialKeys: set<string> := {"kudos_count", "comment_count", "athlete_count", "achievement_count", "pr_count"}

  /** The entries for the social counts, as `to_dict` writes them, are in `d`. */
  predicate HasSocial(d: map<string, Json>, a: Activity)
  {
    && "kudos_count" in d && d["kudos_count"] == JInt(a.kudosCount)
    && "comment_count" in d && d["comment_count"] == JInt(a.commentCount)
    && "athlete_count" in d && d["athlete_count"] == JInt(a.athleteCount)
    && "achievement_count" in d && d["achievement_count"] == JInt(a.achievementCount)
    && "pr_count" in d && d["pr_count"] == JInt(a.prCount)
  }

  /** Inserts the social counts. */
  function WithSocial(m: map<string, Json>, a: Activity): (r: map<string, Json>)
    ensures HasSocial(r, a) && Keeps(m, r, SocialKeys)
  {
    m
    ["kudos_count" := JInt(a.kudosCount)]
    ["comment_count" := JInt(a.commentCount)]
    ["athlete_count" := JInt(a.athleteCount)]
    ["achievement_count" := JInt(a.achievementCount)]
    ["pr_count" := JInt(a.prCount)]
  }

  /** An insertion of keys apart from these keeps the social counts. */
  lemma SocialKept(m: map<string, Json>, r: map<string, Json>, keys: set<string>, a: Activity)
    requires HasSocial(m, a) && Keeps(m, r, keys) && SocialKeys !! keys
    ensures HasSocial(r, a)
  {}

  const MediaKeys: set<string> := {"has_gps", "has_photos", "photo_count", "comments", "kudos", "laps", "segment_efforts", "photos"}

  /** The entries for the GPS and photo flags and the attached lists, as `to_dict` writes them, are in `d`. */
  predicate HasMedia(d: map<string, Json>, a: Activity)
  {
    && "has_gps" in d && d["has_gps"] == JBool(a.hasGps)
    && "has_photos" in d && d["has_photos"] == JBool(a.hasPhotos)
    && "photo_count" in d && d["photo_count"] == JInt(a.photoCount)
    && "comments" in d && d["comments"] == JList(a.comments)
    && "kudos" in d && d["kudos"] == JList(a.kudos)
    && "laps" in d && d["laps"] == JList(a.laps)
    && "segment_efforts" in d && d["segment_efforts"] == JList(a.segmentEfforts)
    && "photos" in d && d["photos"] == JList(a.photos)
  }

  /** Inserts the GPS and photo flags and the attached lists. */
  function WithMedia(m: map<string, Json>, a: Activity): (r: map<string, Json>)
    ensures HasMedia(r, a) && Keeps(m, r, MediaKeys)
  {
    m
    ["has_gps" := JBool(a.hasGps)]
    ["has_photos" := JBool(a.hasPhotos)]
    ["photo_count" := JInt(a.photoCount)]
    ["comments" := JList(a.comments)]
    ["kudos" := JList(a.kudos)]
    ["laps" := JList(a.laps)]
    ["segment_efforts" := JList(a.segmentEfforts)]
    ["photos" := JList(a.photos)]
  }

  /** `Activity.to_dict`. */
  function ToDict(a: Activity): Json
    requires ActivityValid(a)
  {
    JObj(WithMedia(WithSocial(WithGear(WithMeasures(WithIdentity(map[], a), a), a), a), a))
  }

  /** The identity keys are apart from every later group's keys. */
  lemma IdentityKeysApart()
    ensures IdentityKeys !! MeasuresKeys && IdentityKeys !! GearKeys
    ensures IdentityKeys !! SocialKeys && IdentityKeys !! MediaKeys
  {}

  /** The measure keys are apart from every later group's keys. */
  lemma MeasuresKeysApart()
    ensures MeasuresKeys !! GearKeys && MeasuresKeys !! SocialKeys && MeasuresKeys !! MediaKeys
  {}

  /** The gear and social keys are apart from every later group's keys. */
  lemma LaterKeysApart()
    ensures GearKeys !! SocialKeys && GearKeys !! MediaKeys && SocialKeys !! MediaKeys
  {}

  /** Five insertions in a row, each keeping what the earlier ones wrote, leave all five groups in place. */
  lemma LayersHaveAll(m0: map<string, Json>, m1: map<string, Json>, m2: map<string, Json>,
                      m3: map<string, Json>, d: map<string, Json>, a: Activity)
    requires ActivityValid(a)
    requires HasIdentity(m0, a)
    requires HasMeasures(m1, a) && Keeps(m0, m1, MeasuresKeys)
    requires HasGear(m2, a) && Keeps(m1, m2, GearKeys)
    requires HasSocial(m3, a) && Keeps(m2, m3, SocialKeys)
    requires HasMedia(d, a) && Keeps(m3, d, MediaKeys)
    ensures HasIdentity(d, a) && HasMeasures(d, a) && HasGear(d, a) && HasSocial(d, a) && HasMedia(d, a)
  {
    IdentityKeysApart();
    MeasuresKeysApart();
    LaterKeysApart();
    IdentityKept(m0, m1, MeasuresKeys, a);
    IdentityKept(m1, m2, GearKeys, a);
    IdentityKept(m2, m3, SocialKeys, a);
    IdentityKept(m3, d, MediaKeys, a);
    MeasuresKept(m1, m2, GearKeys, a);
    MeasuresKept(m2, m3, SocialKeys, a);
    MeasuresKept(m3, d, MediaKeys, a);
    GearKept(m2, m3, SocialKeys, a);
    GearKept(m3, d, MediaKeys, a);
    SocialKept(m3, d, MediaKeys, a);
  }

  /** Every entry `to_dict` writes is in its result. */
  lemma ToDictHasAll(a: Activity)
    requires ActivityValid(a)
    ensures var d := ToDict(a).fields;
      HasIdentity(d, a) && HasMeasures(d, a) && HasGear(d, a) && HasSocial(d, a) && HasMedia(d, a)
  {
    var m0 := WithIdentity(map[], a);
    var m1 := WithMeasures(m0, a);
    var m2 := WithGear(m1, a);
    var m3 := WithSocial(m2, a);
    LayersHaveAll(m0, m1, m2, m3, WithMedia(m3, a), a);
  }

  /** `data[key]`: KeyError when absent. */
  function Required(d: map<string, Json>, key: string): Outcome<Json>
  {
    if key in d then Success(d[key]) else Failure("'" + key + "'")
  }

  function AsInt(v: Json): Outcome<int> { if v.JInt? then Success(v.i) else Failure("not an int") }
  function AsStr(v: Json): Outcome<string> { if v.JStr? then Success(v.s) else Failure("not a string") }

  /** `data.get(key, default)` for a number. */
  function IntGet(d: map<string, Json>, key: string, default: int): Outcome<int>
  {
    if key !in d then Success(default) else AsInt(d[key])
  }

  function BoolGet(d: map<string, Json>, key: string): Outcome<bool>
  {
    if key !in d then Success(false) else if d[key].JBool? then Success(d[key].b) else Failure("not a bool")
  }

  function StrGet(d: map<string, Json>, key: string, default: string): Outcome<string>
  {
    if key !in d then Success(default) else AsStr(d[key])
  }

  /** `data.get(key)` for an optional number: absent and null are both None. */
  function OptIntGet(d: map<string, Json>, key: string): Outcome<Option<int>>
  {
    if key !in d || d[key].JNull? then Success(None)
    else if d[key].JInt? then Success(Some(d[key].i)) else Failure("not an int")
  }

  function OptStrGet(d: map<string, Json>, key: string): Outcome<Option<string>>
  {
    if key !in d || d[key].JNull? then Success(None)
    else if d[key].JStr? then Success(Some(d[key].s)) else Failure("not a string")
  }

  function ListGet(d: map<string, Json>, key: string): Outcome<seq<Json>>
  {
    if key !in d then Success([]) else if d[key].JList? then Success(d[key].items) else Failure("not a list")
  }

  /** A date field: parsed with `fromisoformat`, after "Z" becomes "+00:00" when `zulu` is set. */
  function DateGet(d: map<string, Json>, key: string, zulu: bool): (r: Outcome<DateTime>)
    ensures r.Success? ==> Valid(r.value)
  {
    if key !in d || !d[key].JStr? then Failure("not a datetime")
    else
      var t := if zulu then ReplaceAll(d[key].s, "Z", "+00:00") else d[key].s;
      match FromIsoFormat(t)
      case Some(dt) => Success(dt)
      case None => Failure("Invalid isoformat string: " + t)
  }

  /** The identity fields of `from_dict`: `id`, `name` and `type` are required. */
  function IdentityFields(d: map<string, Json>): (r: Outcome<(int, string, Option<string>, string, string, string)>)
    ensures r.Success? ==> "id" in d && "name" in d && "type" in d
    ensures r.Success? && "sport_type" !in d ==> r.value.4 == r.value.3
    ensures r.Success? && "timezone" !in d ==> r.value.5 == ""
  {
    var idJ :- Required(d, "id");
    var id :- AsInt(idJ);
    var nameJ :- Required(d, "name");
    var name :- AsStr(nameJ);
    var description :- OptStrGet(d, "description");
    var typeJ :- Required(d, "type");
    var activityType :- AsStr(typeJ);
    var sportType :- StrGet(d, "sport_type", activityType);
    var timezone :- StrGet(d, "timezone", "");
    Success((id, name, description, activityType, sportType, timezone))
  }

  /** Distance, times and the optional measures of `from_dict`. */
  function MeasureFields(d: map<string, Json>): (r: Outcome<(int, int, int, Option<int>, Option<int>, Option<int>,
                                                          Option<int>, Option<int>, Option<int>, Option<int>,
                                                          Option<int>, Option<int>)>)
    ensures r.Success? && "distance" !in d ==> r.value.0 == 0
    ensures r.Success? && "moving_time" !in d ==> r.value.1 == 0
    ensures r.Success? && "elapsed_time" !in d ==> r.value.2 == 0
    ensures r.Success? && "calories" !in d ==> r.value.4 == None
  {
    var distance :- IntGet(d, "distance", 0);
    var movingTime :- IntGet(d, "moving_time", 0);
    var elapsedTime :- IntGet(d, "elapsed_time", 0);
    var elevation :- OptIntGet(d, "total_elevation_gain");
    var calories :- OptIntGet(d, "calories");
    var averageSpeed :- OptIntGet(d, "average_speed");
    var maxSpeed :- OptIntGet(d, "max_speed");
    var averageHeartrate :- OptIntGet(d, "average_heartrate");
    var maxHeartrate :- OptIntGet(d, "max_heartrate");
    var averageWatts :- OptIntGet(d, "average_watts");
    var maxWatts :- OptIntGet(d, "max_watts");
    var averageCadence :- OptIntGet(d, "average_cadence");
    Success((distance, movingTime, elapsedTime, elevation, calories, averageSpeed, maxSpeed,
             averageHeartrate, maxHeartrate, averageWatts, maxWatts, averageCadence))
  }

  /** Gear, device and the three flags of `from_dict`. */
  function GearFields(d: map<string, Json>): (r: Outcome<(Option<string>, Option<string>, bool, bool, bool)>)
    ensures r.Success? && "trainer" !in d ==> !r.value.2
    ensures r.Success? && "commute" !in d ==> !r.value.3
    ensures r.Success? && "private" !in d ==> !r.value.4
  {
    var gearId :- OptStrGet(d, "gear_id");
    var deviceName :- OptStrGet(d, "device_name");
    var trainer :- BoolGet(d, "trainer");
    var commute :- BoolGet(d, "commute");
    var isPrivate :- BoolGet(d, "private");
    Success((gearId, deviceName, trainer, commute, isPrivate))
  }

  /** The social counts of `from_dict`: `athlete_count` defaults to 1, the others to 0. */
  function SocialFields(d: map<string, Json>): (r: Outcome<(int, int, int, int, int)>)
    ensures r.Success? && "kudos_count" !in d ==> r.value.0 == 0
    ensures r.Success? && "comment_count" !in d ==> r.value.1 == 0
    ensures r.Success? && "athlete_count" !in d ==> r.value.2 == 1
    ensures r.Success? && "achievement_count" !in d ==> r.value.3 == 0
    ensures r.Success? && "pr_count" !in d ==> r.value.4 == 0
  {
    var kudosCount :- IntGet(d, "kudos_count", 0);
    var commentCount :- IntGet(d, "comment_count", 0);
    var athleteCount :- IntGet(d, "athlete_count", 1);
    var achievementCount :- IntGet(d, "achievement_count", 0);
    var prCount :- IntGet(d, "pr_count", 0);
    Success((kudosCount, commentCount, athleteCount, achievementCount, prCount))
  }

  /** The GPS and photo flags and the attached lists of `from_dict`. */
  function MediaFields(d: map<string, Json>): (r: Outcome<(bool, bool, int, seq<Json>, seq<Json>, seq<Json>,
                                                        seq<Json>, seq<Json>)>)
    ensures r.Success? && "has_gps" !in d ==> !r.value.0
    ensures r.Success? && "has_photos" !in d ==> !r.value.1
    ensures r.Success? && "photo_count" !in d ==> r.value.2 == 0
    ensures r.Success? && "comments" !in d ==> r.value.3 == []
    ensures r.Success? && "kudos" !in d ==> r.value.4 == []
    ensures r.Success? && "photos" !in d ==> r.value.7 == []
  {
    var hasGps :- BoolGet(d, "has_gps");
    var hasPhotos :- BoolGet(d, "has_photos");
    var photoCount :- IntGet(d, "photo_count", 0);
    var comments :- ListGet(d, "comments");
    var kudos :- ListGet(d, "kudos");
    var laps :- ListGet(d, "laps");
    var segmentEfforts :- ListGet(d, "segment_efforts");
    var photos :- ListGet(d, "photos");
    Success((hasGps, hasPhotos, photoCount, comments, kudos, laps, segmentEfforts, photos))
  }

  /**
   * `Activity.from_dict`. The two dates are parsed first; then `id`, `name`
   * and `type` are required and every other key falls back to its default.
   */
  function FromDict(data: Json): (r: Outcome<Activity>)
    ensures r.Success? ==> data.JObj? && "id" in data.fields && "name" in data.fields && "type" in data.fields
    ensures r.Success? ==> ActivityValid(r.value)
    ensures r.Success? && "sport_type" !in data.fields ==> r.value.sportType == r.value.activityType
    ensures r.Success? && "timezone" !in data.fields ==> r.value.timezone == ""
    ensures r.Success? && "distance" !in data.fields ==> r.value.distance == 0
    ensures r.Success? && "athlete_count" !in data.fields ==> r.value.athleteCount == 1
    ensures r.Success? && "kudos_count" !in data.fields ==> r.value.kudosCount == 0
    ensures r.Success? && "trainer" !in data.fields ==> !r.value.trainer
    ensures r.Success? && "has_gps" !in data.fields ==> !r.value.hasGps
    ensures r.Success? && "photo_count" !in data.fields ==> r.value.photoCount == 0
    ensures r.Success? && "photos" !in data.fields ==> r.value.photos == []
  {
    if !data.JObj? then Failure("object has no attribute 'get'")
    else
      var d := data.fields;
      var startDate :- DateGet(d, "start_date", true);
      var startLocal :- DateGet(d, "start_date_local", false);
      var i :- IdentityFields(d);
      var m :- MeasureFields(d);
      var g :- GearFields(d);
      var s :- SocialFields(d);
      var p :- MediaFields(d);
      Success(Activity(i.0, i.1, i.3, i.4, startDate, startLocal, i.5, m.0, m.1, m.2, i.2,
                       m.3, m.4, m.5, m.6, m.7, m.8, m.9, m.10, m.11, g.0, g.1, g.2, g.3, g.4,
                       s.0, s.1, s.2, s.3, s.4, p.0, p.1, p.2, p.3, p.4, p.5, p.6, p.7))
  }

  lemma OptIntGetInverse(d: map<string, Json>, key: string, v: Option<int>)
    requires key in d && d[key] == OptInt(v)
    ensures OptIntGet(d, key) == Success(v)
  {}

  lemma OptStrGetInverse(d: map<string, Json>, key: string, v: Option<string>)
    requires key in d && d[key] == OptStr(v)
    ensures OptStrGet(d, key) == Success(v)
  {}

  lemma IdentityInverse(d: map<string, Json>, a: Activity)
    requires ActivityValid(a) && HasIdentity(d, a)
    ensures IdentityFields(d) == Success((a.id, a.name, a.description, a.activityType, a.sportType, a.timezone))
  {
    OptStrGetInverse(d, "description", a.description);
  }

  lemma MeasuresInverse(d: map<string, Json>, a: Activity)
    requires HasMeasures(d, a)
    ensures MeasureFields(d)
            == Success((a.distance, a.movingTime, a.elapsedTime, a.totalElevationGain,
                        a.calories, a.averageSpeed, a.maxSpeed, a.averageHeartrate,
                        a.maxHeartrate, a.averageWatts, a.maxWatts, a.averageCadence))
  {
    OptIntGetInverse(d, "total_elevation_gain", a.totalElevationGain);
    OptIntGetInverse(d, "calories", a.calories);
    OptIntGetInverse(d, "average_speed", a.averageSpeed);
    OptIntGetInverse(d, "max_speed", a.maxSpeed);
    OptIntGetInverse(d, "average_heartrate", a.averageHeartrate);
    OptIntGetInverse(d, "max_heartrate", a.maxHeartrate);
    OptIntGetInverse(d, "average_watts", a.averageWatts);
    OptIntGetInverse(d, "max_watts", a.maxWatts);
    OptIntGetInverse(d, "average_cadence", a.averageCadence);
  }

  lemma GearInverse(d: map<string, Json>, a: Activity)
    requires HasGear(d, a)
    ensures GearFields(d) == Success((a.gearId, a.deviceName, a.trainer, a.commute, a.isPrivate))
  {
    OptStrGetInverse(d, "gear_id", a.gearId);
    OptStrGetInverse(d, "device_name", a.deviceName);
  }

  lemma DatesInverse(d: map<string, Json>, a: Activity)
    requires ActivityValid(a) && HasIdentity(d, a)
    ensures DateGet(d, "start_date", true) == Success(a.startDate)
    ensures DateGet(d, "start_date_local", false) == Success(a.startDateLocal)
  {
    IsoFormatHasNoZ(a.startDate);
    ReplaceAllNoMatch(IsoFormat(a.startDate), "Z", "+00:00");
    IsoFormatRoundTrip(a.startDate);
    IsoFormatRoundTrip(a.startDateLocal);
  }

  /** Reading a dictionary that holds every entry `to_dict` writes for `a` gives back `a`. */
  lemma FromDictInverse(d: map<string, Json>, a: Activity)
    requires ActivityValid(a)
    requires HasIdentity(d, a) && HasMeasures(d, a) && HasGear(d, a) && HasSocial(d, a) && HasMedia(d, a)
    ensures FromDict(JObj(d)) == Success(a)
  {
    DatesInverse(d, a);
    IdentityInverse(d, a);
    MeasuresInverse(d, a);
    GearInverse(d, a);
  }

  /** `Activity.from_dict(a.to_dict())` reproduces every field of `a`. */
  lemma DictRoundTrip(a: Activity)
    requires ActivityValid(a)
    ensures FromDict(ToDict(a)) == Success(a)
  {
    ToDictHasAll(a);
    FromDictInverse(ToDict(a).fields, a);
  }

  // ---------------------------------------------------------------- session directories

  /**
   * The session directories of one athlete, by session key (the start date
   * as "%Y%m%dT%H%M%S"): the `info.json` each holds, or None for a
   * directory without one.
   */
  type SessionDirs = map<string, Option<Json>>

  /**
   * `save_activity`: the session directory of the start date is created if
   * needed and its `info.json` (over)written with `to_dict()`.
   */
  function SaveActivity(dirs: SessionDirs, a: Activity): (r: SessionDirs)
    requires ActivityValid(a)
    ensures SessionKey(a.startDate) in r && r[SessionKey(a.startDate)] == Some(ToDict(a))
    ensures forall k :: k != SessionKey(a.startDate) ==> (k in r <==> k in dirs) && (k in dirs ==> r[k] == dirs[k])
  {
    dirs[SessionKey(a.startDate) := Some(ToDict(a))]
  }

  /** `load_activity`: None without an `info.json`, else `from_dict` of it (which may raise). */
  function LoadActivity(info: Option<Json>): (r: Outcome<Option<Activity>>)
    ensures info.None? ==> r == Success(None)
    ensures info.Some? ==> (r.Success? <==> FromDict(info.value).Success?)
    ensures r.Success? && r.value.Some? ==> info.Some? && r.value.value == FromDict(info.value).value
  {
    match info
    case None => Success(None)
    case Some(data) =>
      var a :- FromDict(data);
      Success(Some(a))
  }

  /** `activity_exists`: the session directory of `start` holds an `info.json`. */
  predicate ActivityExists(dirs: SessionDirs, start: DateTime)
    requires Valid(start)
  {
    SessionKey(start) in dirs && dirs[SessionKey(start)].Some?
  }

  /**
   * After `save_activity(a)`, `activity_exists(a.start_date)` holds and
   * loading that session directory gives `a` back; whether any other session
   * key has an activity is unchanged.
   */
  lemma SaveThenLoad(dirs: SessionDirs, a: Activity, other: DateTime)
    requires ActivityValid(a) && Valid(other)
    ensures ActivityExists(SaveActivity(dirs, a), a.startDate)
    ensures LoadActivity(SaveActivity(dirs, a)[SessionKey(a.startDate)]) == Success(Some(a))
    ensures SessionKey(other) != SessionKey(a.startDate)
            ==> ActivityExists(SaveActivity(dirs, a), other) == ActivityExists(dirs, other)
  {
    DictRoundTrip(a);
  }

  /** How many of the listed session directories hold an `info.json`. */
  function InfoCount(infos: seq<Option<Json>>): nat
    decreases |infos|
  {
    if infos == [] then 0 else InfoCount(infos[..|infos| - 1]) + (if infos[|infos| - 1].Some? then 1 else 0)
  }

  /**
   * The activities of the listed session directories, in listing order, as
   * the loop of `load_activities` collects them; the first malformed
   * `info.json` raises.
   */
  function StoredActivities(infos: seq<Option<Json>>): (r: Outcome<seq<Activity>>)
    ensures r.Success? ==> |r.value| == InfoCount(infos)
    ensures r.Success? ==> forall i :: 0 <= i < |r.value| ==> ActivityValid(r.value[i])
    decreases |infos|
  {
    if infos == [] then Success([])
    else
      var init :- StoredActivities(infos[..|infos| - 1]);
      var last :- LoadActivity(infos[|infos| - 1]);
      Success(if last.Some? then init + [last.value] else init)
  }

  /** Once a prefix of the listing raises, the whole load raises the same error. */
  lemma {:induction false} StoredFailurePropagates(infos: seq<Option<Json>>, n: nat)
    requires n <= |infos| && StoredActivities(infos[..n]).Failure?
    ensures StoredActivities(infos) == StoredActivities(infos[..n])
    decreases |infos| - n
  {
    if n < |infos| {
      assert infos[..n + 1][..n] == infos[..n];
      StoredFailurePropagates(infos, n + 1);
    } else {
      assert infos[..n] == infos;
    }
  }

  predicate NewestFirst(x: Activity, y: Activity) { Timestamp(y.startDate) <= Timestamp(x.startDate) }

  predicate OldestFirst(x: Activity, y: Activity) { Timestamp(x.startDate) <= Timestamp(y.startDate) }

  lemma OrdersTotal()
    ensures Total(NewestFirst) && Total(OldestFirst)
  {}

  /**
   * `load_activities`: every `info.json` of the athlete, loaded in listing
   * order and then sorted by start date, newest first (stably, as Python's
   * `sort(reverse=True)`).
   */
  method LoadActivities(infos: seq<Option<Json>>) returns (r: Outcome<seq<Activity>>)
    ensures StoredActivities(infos).Failure? ==> r == StoredActivities(infos)
    ensures StoredActivities(infos).Success? ==> r == Success(SortBy(StoredActivities(infos).value, NewestFirst))
    ensures r.Success? ==> OrderedBy(r.value, NewestFirst)
    ensures r.Success? ==> multiset(r.value) == multiset(StoredActivities(infos).value)
  {
    var activities: seq<Activity> := [];
    var i := 0;
    while i < |infos|
      invariant 0 <= i <= |infos|
      invariant StoredActivities(infos[..i]) == Success(activities)
    {
      assert infos[..i + 1][..i] == infos[..i];
      var one := LoadActivity(infos[i]);
      if one.Failure? {
        StoredFailurePropagates(infos, i + 1);
        return Failure(one.error);
      }
      if one.value.Some? {
        activities := activities + [one.value.value];
      }
      i := i + 1;
    }
    assert infos[..i] == infos;
    OrdersTotal();
    SortByOrdered(activities, NewestFirst);
    r := Success(SortBy(activities, NewestFirst));
  }

  /** Sorting keeps every element, so it keeps a property every element has. */
  lemma SortKeepsValid(s: seq<Activity>, le: (Activity, Activity) -> bool)
    requires Total(le)
    requires forall i :: 0 <= i < |s| ==> ActivityValid(s[i])
    ensures forall i :: 0 <= i < |SortBy(s, le)| ==> ActivityValid(SortBy(s, le)[i])
  {
    SortByOrdered(s, le);
    var t := SortBy(s, le);
    forall i | 0 <= i < |t| ensures ActivityValid(t[i]) {
      assert t[i] in multiset(t);
      assert t[i] in multiset(s);
      var j :| 0 <= j < |s| && s[j] == t[i];
    }
  }

  // ---------------------------------------------------------------- sessions.tsv

  const SessionsColumns: seq<string> := [
    "datetime", "type", "sport", "name", "distance_m", "moving_time_s", "elapsed_time_s",
    "elevation_gain_m", "calories", "avg_hr", "max_hr", "avg_watts", "gear_id", "athletes",
    "kudos_count", "comment_count", "has_gps", "has_photos", "photo_count"]

  /** `str(x or "")` for an optional number: None and 0 both become "". */
  function OrEmpty(v: Option<int>): string { if IntTruthy(v) then IntToString(v.value) else "" }

  function StrOrEmpty(v: Option<string>): string { if v.Some? then v.value else "" }

  function BoolText(b: bool): string { if b then "true" else "false" }

  /** The cell `update_sessions_tsv` writes for `a` in column `col`. */
  function CellOf(a: Activity, col: string): string
    requires ActivityValid(a)
  {
    if col == "datetime" then SessionKey(a.startDate)
    else if col == "type" then a.activityType
    else if col == "sport" then a.sportType
    else if col == "name" then a.name
    else if col == "distance_m" then IntToString(a.distance)
    else if col == "moving_time_s" then IntToString(a.movingTime)
    else if col == "elapsed_time_s" then IntToString(a.elapsedTime)
    else if col == "elevation_gain_m" then OrEmpty(a.totalElevationGain)
    else if col == "calories" then OrEmpty(a.calories)
    else if col == "avg_hr" then OrEmpty(a.averageHeartrate)
    else if col == "max_hr" then OrEmpty(a.maxHeartrate)
    else if col == "avg_watts" then OrEmpty(a.averageWatts)
    else if col == "gear_id" then StrOrEmpty(a.gearId)
    else if col == "athletes" then IntToString(a.athleteCount)
    else if col == "kudos_count" then IntToString(a.kudosCount)
    else if col == "comment_count" then IntToString(a.commentCount)
    else if col == "has_gps" then BoolText(a.hasGps)
    else if col == "has_photos" then BoolText(a.hasPhotos)
    else if col == "photo_count" then IntToString(a.photoCount)
    else ""
  }

  /** The row dictionary of `a` over the columns `cols`. */
  function RowOver(a: Activity, cols: seq<string>): map<string, string>
    requires ActivityValid(a)
    decreases |cols|
  {
    if cols == [] then map[] else RowOver(a, cols[..|cols| - 1])[cols[|cols| - 1] := CellOf(a, cols[|cols| - 1])]
  }

  /** The row `update_sessions_tsv` writes for one activity. */
  function SessionRow(a: Activity): map<string, string>
    requires ActivityValid(a)
  {
    RowOver(a, SessionsColumns)
  }

  /** The row holds exactly the listed columns, each with the cell of `a`. */
  lemma {:induction false} RowOverCells(a: Activity, cols: seq<string>, c: string)
    requires ActivityValid(a)
    ensures RowOver(a, cols).Keys == set k | k in cols
    ensures c in cols ==> RowOver(a, cols)[c] == CellOf(a, c)
    decreases |cols|
  {
    if cols != [] {
      var n := |cols|;
      RowOverCells(a, cols[..n - 1], c);
      assert cols == cols[..n - 1] + [cols[n - 1]];
      assert forall k :: k in cols <==> k in cols[..n - 1] || k == cols[n - 1];
    }
  }

  /**
   * The row `update_sessions_tsv` writes has exactly the header's columns
   * (so `DictWriter` never rejects it), each holding the cell of `a`.
   */
  lemma SessionRowKeys(a: Activity)
    requires ActivityValid(a)
    ensures SessionRow(a).Keys == set k | k in SessionsColumns
  {
    RowOverCells(a, SessionsColumns, "");
  }

  lemma SessionRowCells(a: Activity, i: nat)
    requires ActivityValid(a) && i < |SessionsColumns|
    ensures SessionsColumns[i] in SessionRow(a)
    ensures SessionRow(a)[SessionsColumns[i]] == CellOf(a, SessionsColumns[i])
  {
    RowOverCells(a, SessionsColumns, SessionsColumns[i]);
  }

  /** `rows` holds, in order, the row of each of `acts`. */
  ghost predicate RowsOf(rows: seq<map<string, string>>, acts: seq<Activity>)
  {
    && |rows| == |acts|
    && (forall j :: 0 <= j < |acts| ==> ActivityValid(acts[j]))
    && (forall j :: 0 <= j < |acts| ==> rows[j] == SessionRow(acts[j]))
  }

  /** Sorting newest first and then oldest first orders the activities oldest first and keeps them all. */
  lemma ResortFacts(stored: seq<Activity>)
    requires forall i :: 0 <= i < |stored| ==> ActivityValid(stored[i])
    ensures var acts := SortBy(SortBy(stored, NewestFirst), OldestFirst);
            OrderedBy(acts, OldestFirst) && multiset(acts) == multiset(stored)
            && (forall i :: 0 <= i < |acts| ==> ActivityValid(acts[i]))
  {
    OrdersTotal();
    SortKeepsValid(stored, NewestFirst);
    SortKeepsValid(SortBy(stored, NewestFirst), OldestFirst);
    SortByOrdered(stored, NewestFirst);
    SortByOrdered(SortBy(stored, NewestFirst), OldestFirst);
  }

  /** The rows the writing loop of `update_sessions_tsv` produces for `acts`. */
  method WriteRows(acts: seq<Activity>) returns (rows: seq<map<string, string>>)
    requires forall i :: 0 <= i < |acts| ==> ActivityValid(acts[i])
    ensures RowsOf(rows, acts)
  {
    rows := [];
    var i := 0;
    while i < |acts|
      invariant 0 <= i <= |acts|
      invariant RowsOf(rows, acts[..i])
    {
      rows := rows + [SessionRow(acts[i])];
      i := i + 1;
    }
    assert acts[..i] == acts;
  }

  /**
   * `update_sessions_tsv`: every stored activity, re-sorted oldest first,
   * one row each under the fixed header.
   */
  method UpdateSessionsTsv(infos: seq<Option<Json>>) returns (r: Outcome<Table>)
    ensures r.Failure? <==> StoredActivities(infos).Failure?
    ensures r.Success? ==> r.value.fieldnames == SessionsColumns
    ensures r.Success? ==>
              var acts := SortBy(SortBy(StoredActivities(infos).value, NewestFirst), OldestFirst);
              OrderedBy(acts, OldestFirst) && multiset(acts) == multiset(StoredActivities(infos).value)
              && (forall i :: 0 <= i < |acts| ==> ActivityValid(acts[i]))
              && RowsOf(r.value.rows, acts)
  {
    var loaded := LoadActivities(infos);
    if loaded.Failure? {
      return Failure(loaded.error);
    }
    ResortFacts(StoredActivities(infos).value);
    var rows := WriteRows(SortBy(loaded.value, OldestFirst));
    r := Success(Table(SessionsColumns, rows));
  }

  /**
   * One row as `read_sessions_tsv` converts it. The text columns come from
   * `dict(row)` unconverted, so a column the header lacks is absent (None).
   */
  datatype Session = Session(
    datetime: Option<string>, activityType: Option<string>, sport: Option<string>, name: Option<string>,
    distanceM: int, movingTimeS: int, elapsedTimeS: int,
    elevationGainM: Option<int>, calories: Option<int>, avgHr: Option<int>, maxHr: Option<int>,
    avgWatts: Option<int>, gearId: Option<string>, athletes: int, kudosCount: int, commentCount: int,
    hasGps: bool, hasPhotos: bool, photoCount: int)

  /** `session.get(key)` for a column kept as text. */
  function TextCell(row: map<string, string>, key: string): Option<string>
  {
    if key in row then Some(row[key]) else None
  }

  /** `row[key]`: KeyError when the header has no such column. */
  function Cell(row: map<string, string>, key: string): Outcome<string>
  {
    if key in row then Success(row[key]) else Failure("'" + key + "'")
  }

  function ParsedInt(c: string): Outcome<int>
  {
    match ParseInt(c)
    case Some(n) => Success(n)
    case None => Failure("invalid literal for int(): '" + c + "'")
  }

  /** `int(row[key]) if row[key] else default`. */
  function IntCell(row: map<string, string>, key: string, default: int): (r: Outcome<int>)
    ensures key in row && row[key] == "" ==> r == Success(default)
    ensures key !in row ==> r.Failure?
  {
    var c :- Cell(row, key);
    if c == "" then Success(default) else ParsedInt(c)
  }

  /** `int(row[key]) if row[key] else None`. */
  function OptIntCell(row: map<string, string>, key: string): (r: Outcome<Option<int>>)
    ensures key in row && row[key] == "" ==> r == Success(None)
    ensures key !in row ==> r.Failure?
  {
    var c :- Cell(row, key);
    if c == "" then Success(None) else var n :- ParsedInt(c); Success(Some(n))
  }

  /** `row[key].lower() == "true"`. */
  function BoolCell(row: map<string, string>, key: string): (r: Outcome<bool>)
    ensures key !in row ==> r.Failure?
  {
    var c :- Cell(row, key);
    Success(Lower(c) == "true")
  }

  /** The three durations/distances, converted first. */
  function TimeCells(row: map<string, string>): Outcome<(int, int, int)>
  {
    var distance :- IntCell(row, "distance_m", 0);
    var moving :- IntCell(row, "moving_time_s", 0);
    var elapsed :- IntCell(row, "elapsed_time_s", 0);
    Success((distance, moving, elapsed))
  }

  /** The optional measures, None when empty. */
  function MeasureCells(row: map<string, string>): Outcome<(Option<int>, Option<int>, Option<int>, Option<int>, Option<int>)>
  {
    var elevation :- OptIntCell(row, "elevation_gain_m");
    var calories :- OptIntCell(row, "calories");
    var avgHr :- OptIntCell(row, "avg_hr");
    var maxHr :- OptIntCell(row, "max_hr");
    var avgWatts :- OptIntCell(row, "avg_watts");
    Success((elevation, calories, avgHr, maxHr, avgWatts))
  }

  /** The social counts; `athletes` defaults to 1. */
  function SocialCells(row: map<string, string>): Outcome<(int, int, int)>
  {
    var athletes :- IntCell(row, "athletes", 1);
    var kudos :- IntCell(row, "kudos_count", 0);
    var comments :- IntCell(row, "comment_count", 0);
    Success((athletes, kudos, comments))
  }

  function MediaCells(row: map<string, string>): Outcome<(bool, bool, int)>
  {
    var hasGps :- BoolCell(row, "has_gps");
    var hasPhotos :- BoolCell(row, "has_photos");
    var photoCount :- IntCell(row, "photo_count", 0);
    Success((hasGps, hasPhotos, photoCount))
  }

  /**
   * `read_sessions_tsv` on one row: the text columns are kept, empty numeric
   * cells read as 0 (`athletes` as 1) or, for the optional measures, None;
   * a numeric or flag column the header lacks raises.
   */
  function ReadRow(row: map<string, string>): (r: Outcome<Session>)
    ensures r.Success? && "athletes" in row && row["athletes"] == "" ==> r.value.athletes == 1
    ensures r.Success? && "kudos_count" in row && row["kudos_count"] == "" ==> r.value.kudosCount == 0
    ensures r.Success? && "photo_count" in row && row["photo_count"] == "" ==> r.value.photoCount == 0
    ensures r.Success? && "distance_m" in row && row["distance_m"] == "" ==> r.value.distanceM == 0
    ensures r.Success? && "calories" in row && row["calories"] == "" ==> r.value.calories.None?
  {
    var t :- TimeCells(row);
    var m :- MeasureCells(row);
    var s :- SocialCells(row);
    var p :- MediaCells(row);
    Success(Session(TextCell(row, "datetime"), TextCell(row, "type"), TextCell(row, "sport"), TextCell(row, "name"),
                    t.0, t.1, t.2, m.0, m.1, m.2, m.3, m.4, TextCell(row, "gear_id"),
                    s.0, s.1, s.2, p.0, p.1, p.2))
  }

  /** `read_sessions_tsv`: [] when the file is absent, else every row converted in order. */
  method ReadSessionsTsv(file: Option<Table>) returns (r: Outcome<seq<Session>>)
    ensures file.None? ==> r == Success([])
    ensures file.Some? ==> r == Traverse(file.value.rows, ReadRow)
  {
    if file.None? {
      return Success([]);
    }
    var rows := file.value.rows;
    var sessions: seq<Session> := [];
    var i := 0;
    while i < |rows|
      invariant 0 <= i <= |rows|
      invariant Traverse(rows[..i], ReadRow) == Success(sessions)
    {
      assert rows[..i + 1][..i] == rows[..i];
      var one := ReadRow(rows[i]);
      if one.Failure? {
        TraverseFailurePropagates(rows, i + 1, ReadRow);
        return Failure(one.error);
      }
      sessions := sessions + [one.value];
      i := i + 1;
    }
    assert rows[..i] == rows;
    r := Success(sessions);
  }

  // ---------------------------------------------------------------- the row round trip

  /** What reading back the row of `a` gives: booleans and texts exactly, 0 measures as None. */
  function Summary(a: Activity): Session
    requires ActivityValid(a)
  {
    Session(Some(SessionKey(a.startDate)), Some(a.activityType), Some(a.sportType), Some(a.name),
            a.distance, a.movingTime, a.elapsedTime,
            NonZero(a.totalElevationGain), NonZero(a.calories), NonZero(a.averageHeartrate),
            NonZero(a.maxHeartrate), NonZero(a.averageWatts), Some(StrOrEmpty(a.gearId)), a.athleteCount,
            a.kudosCount, a.commentCount, a.hasGps, a.hasPhotos, a.photoCount)
  }

  lemma IntCellInverse(row: map<string, string>, key: string, n: int, default: int)
    requires key in row && row[key] == IntToString(n)
    ensures IntCell(row, key, default) == Success(n)
  {
    IntToStringRoundTrip(n);
    assert ParseInt(row[key]).Some?;
  }

  lemma OptIntCellInverse(row: map<string, string>, key: string, v: Option<int>)
    requires key in row && row[key] == OrEmpty(v)
    ensures OptIntCell(row, key) == Success(NonZero(v))
  {
    if IntTruthy(v) { IntToStringRoundTrip(v.value); assert ParseInt(row[key]).Some?; }
  }

  /** "true" and "false" read back, through `lower()`, as the flag they were written from. */
  lemma BoolCellInverse(row: map<string, string>, key: string, b: bool)
    requires key in row && row[key] == BoolText(b)
    ensures BoolCell(row, key) == Success(b)
  {
    if b {
      assert Lower("true") == "true";
    } else {
      assert Lower("false")[0] == 'f';
    }
  }

  lemma TimeCellsInverse(a: Activity)
    requires ActivityValid(a)
    ensures TimeCells(SessionRow(a)) == Success((a.distance, a.movingTime, a.elapsedTime))
  {
    var row := SessionRow(a);
    SessionRowCells(a, 4);
    SessionRowCells(a, 5);
    SessionRowCells(a, 6);
    IntCellInverse(row, "distance_m", a.distance, 0);
    IntCellInverse(row, "moving_time_s", a.movingTime, 0);
    IntCellInverse(row, "elapsed_time_s", a.elapsedTime, 0);
  }

  lemma MeasureCellsInverse(a: Activity)
    requires ActivityValid(a)
    ensures MeasureCells(SessionRow(a)) == Success((NonZero(a.totalElevationGain), NonZero(a.calories),
                                                    NonZero(a.averageHeartrate), NonZero(a.maxHeartrate),
                                                    NonZero(a.averageWatts)))
  {
    var row := SessionRow(a);
    SessionRowCells(a, 7);
    SessionRowCells(a, 8);
    SessionRowCells(a, 9);
    SessionRowCells(a, 10);
    SessionRowCells(a, 11);
    OptIntCellInverse(row, "elevation_gain_m", a.totalElevationGain);
    OptIntCellInverse(row, "calories", a.calories);
    OptIntCellInverse(row, "avg_hr", a.averageHeartrate);
    OptIntCellInverse(row, "max_hr", a.maxHeartrate);
    OptIntCellInverse(row, "avg_watts", a.averageWatts);
  }

  lemma SocialCellsInverse(a: Activity)
    requires ActivityValid(a)
    ensures SocialCells(SessionRow(a)) == Success((a.athleteCount, a.kudosCount, a.commentCount))
  {
    var row := SessionRow(a);
    SessionRowCells(a, 13);
    SessionRowCells(a, 14);
    SessionRowCells(a, 15);
    IntCellInverse(row, "athletes", a.athleteCount, 1);
    IntCellInverse(row, "kudos_count", a.kudosCount, 0);
    IntCellInverse(row, "comment_count", a.commentCount, 0);
  }

  lemma MediaCellsInverse(a: Activity)
    requires ActivityValid(a)
    ensures MediaCells(SessionRow(a)) == Success((a.hasGps, a.hasPhotos, a.photoCount))
  {
    var row := SessionRow(a);
    SessionRowCells(a, 16);
    SessionRowCells(a, 17);
    SessionRowCells(a, 18);
    BoolCellInverse(row, "has_gps", a.hasGps);
    BoolCellInverse(row, "has_photos", a.hasPhotos);
    IntCellInverse(row, "photo_count", a.photoCount, 0);
  }

  lemma TextCellsInverse(a: Activity)
    requires ActivityValid(a)
    ensures TextCell(SessionRow(a), "datetime") == Some(SessionKey(a.startDate))
    ensures TextCell(SessionRow(a), "type") == Some(a.activityType)
    ensures TextCell(SessionRow(a), "sport") == Some(a.sportType)
    ensures TextCell(SessionRow(a), "name") == Some(a.name)
  {
    SessionRowCells(a, 0);
    SessionRowCells(a, 1);
    SessionRowCells(a, 2);
    SessionRowCells(a, 3);
  }

  lemma GearCellInverse(a: Activity)
    requires ActivityValid(a)
    ensures TextCell(SessionRow(a), "gear_id") == Some(StrOrEmpty(a.gearId))
  {
    SessionRowCells(a, 12);
  }

  /** `read_sessions_tsv` reads back from the row of `a` exactly `Summary(a)`. */
  lemma RowRoundTrip(a: Activity)
    requires ActivityValid(a)
    ensures ReadRow(SessionRow(a)) == Success(Summary(a))
  {
    TextCellsInverse(a);
    GearCellInverse(a);
    TimeCellsInverse(a);
    MeasureCellsInverse(a);
    SocialCellsInverse(a);
    MediaCellsInverse(a);
  }

  /** Reading the rows written for `acts` gives one summary per activity, in order. */
  lemma RowsRoundTrip(rows: seq<map<string, string>>, acts: seq<Activity>)
    requires RowsOf(rows, acts)
    ensures Traverse(rows, ReadRow).Success?
    ensures forall j :: 0 <= j < |acts| ==> Traverse(rows, ReadRow).value[j] == Summary(acts[j])
  {
    var expected := seq(|acts|, j requires 0 <= j < |acts| && ActivityValid(acts[j]) => Summary(acts[j]));
    forall j | 0 <= j < |rows| ensures ReadRow(rows[j]) == Success(expected[j]) {
      RowRoundTrip(acts[j]);
    }
    TraverseInverse(rows, expected, ReadRow);
  }
}
