/** The pure helpers of utils/helpers.js (identical copies live in index.js): the
    activity-type table, the error mapping of `getMember`, and `formatUserData`,
    which turns a raw presence into the record that clients receive. */
module Helpers {
  import opened Wrappers
  import opened Seqs
  import opened Strings
  import opened JsValue
  import opened Discord

  const UnknownUserErrorCode: int := 10013
  const CustomType: int := 4
  const NotFoundMessage: string := "USER_NOT_FOUND"
  const AlbumArtPrefix: string := "https://i.scdn.co/image/"
  const SpotifyScheme: string := "spotify:"

  const ActivityTypes: map<int, string> :=
    map[0 := "Playing", 1 := "Streaming", 2 := "Listening to", 3 := "Watching", 4 := "Custom", 5 := "Competing in"]

  /** `ACTIVITY_TYPES[type] || 'Unknown'`. */
  function ActivityTypeName(t: int): (r: string)
    ensures r == "Unknown" <==> t < 0 || t > 5
    ensures 0 <= t <= 5 ==> r == ActivityTypes[t]
  {
    if t in ActivityTypes && ActivityTypes[t] != "" then ActivityTypes[t] else "Unknown"
  }

  // ---------------------------------------------------------------------------
  // getMember's error mapping.

  predicate IsUnknownUser(e: Error) {
    e.code == Some(UnknownUserErrorCode) || e.status == Some(404)
  }

  /** The `catch` of `getMember`: an unknown-user error becomes `new Error('USER_NOT_FOUND')`,
      any other error is rethrown as it is. */
  function MapMemberError(e: Error): (r: Error)
    ensures IsUnknownUser(e) ==> r == Error(NotFoundMessage, None, None)
    ensures !IsUnknownUser(e) ==> r == e
  {
    if IsUnknownUser(e) then Error(NotFoundMessage, None, None) else e
  }

  /** `guild.members.cache.get(userId) || await guild.members.fetch(userId)`, where
      `fetched` is what the fetch would produce. */
  function GetMember(cache: map<string, Member>, userId: string, fetched: Result<Member, Error>): (r: Result<Member, Error>)
    ensures userId in cache ==> r == Success(cache[userId])
  {
    if userId in cache then Success(cache[userId])
    else match fetched
      case Success(m) => Success(m)
      case Failure(e) => Failure(MapMemberError(e))
  }

  /** The callers test `error.message === 'USER_NOT_FOUND'`: that holds exactly when the
      member is neither cached nor fetchable and the fetch failed with an unknown-user
      error (or with an error that already carries that message). */
  lemma GetMemberNotFound(cache: map<string, Member>, userId: string, fetched: Result<Member, Error>)
    ensures (GetMember(cache, userId, fetched).Failure? && GetMember(cache, userId, fetched).error.message == NotFoundMessage)
      <==> userId !in cache && fetched.Failure? && (IsUnknownUser(fetched.error) || fetched.error.message == NotFoundMessage)
  {
  }

  /** A cached member never yields an error, whatever the fetch would do. */
  lemma GetMemberCacheWins(cache: map<string, Member>, userId: string, f1: Result<Member, Error>, f2: Result<Member, Error>)
    requires userId in cache
    ensures GetMember(cache, userId, f1) == GetMember(cache, userId, f2)
    ensures GetMember(cache, userId, f1).Success?
  {
  }

  // ---------------------------------------------------------------------------
  // formatUserData.

  datatype CustomEmoji = CustomEmoji(name: Option<string>, id: Option<string>, animated: bool)
  datatype CustomStatus = CustomStatus(emoji: Option<CustomEmoji>, state: Option<string>)

  /** The four fields a Spotify activity gains. */
  datatype SpotifyInfo = SpotifyInfo(artist: Option<string>, song: Option<string>, album: Option<string>, albumArt: Option<string>)

  /** One element of `userData.activities`; `spotify` holds the extra keys, `None` when absent. */
  datatype ActivityView = ActivityView(
    name: string,
    activityType: int,
    typeName: string,
    details: Option<string>,
    state: Option<string>,
    timestamps: Option<Timestamps>,
    applicationId: Option<string>,
    url: Option<string>,
    spotify: Option<SpotifyInfo>)

  /** The record `formatUserData` returns and the cache stores. */
  datatype UserData = UserData(
    username: string,
    displayName: Option<string>,
    tag: string,
    id: string,
    status: string,
    avatarUrl: string,
    customStatus: Option<CustomStatus>,
    activities: seq<ActivityView>,
    createdAt: int,
    flags: seq<string>,
    premiumSince: Option<int>)

  /** A string that is present and not empty is truthy. */
  predicate Present(o: Option<string>) {
    o.Some? && o.value != ""
  }

  /** `x || null` on an optional string. */
  function OrNull(o: Option<string>): (r: Option<string>)
    ensures r.Some? <==> Present(o)
    ensures r.Some? ==> r == o
  {
    if Present(o) then o else None
  }

  predicate IsCustom(a: Activity) {
    a.activityType == CustomType
  }

  predicate NonCustom(a: Activity) {
    a.activityType != CustomType
  }

  predicate IsSpotify(a: Activity) {
    a.name == "Spotify" && a.activityType == 2
  }

  /** `largeImage ? \`https://i.scdn.co/image/${largeImage.replace('spotify:', '')}\` : null`. */
  function AlbumArt(assets: Option<Assets>): (r: Option<string>)
    ensures r.Some? <==> assets.Some? && Present(assets.value.largeImage)
    ensures r.Some? ==> StartsWith(r.value, AlbumArtPrefix)
  {
    if assets.Some? && Present(assets.value.largeImage) then
      Some(AlbumArtPrefix + ReplaceFirst(assets.value.largeImage.value, SpotifyScheme, ""))
    else None
  }

  function SpotifyOf(a: Activity): SpotifyInfo {
    SpotifyInfo(a.state, a.details,
      if a.assets.Some? then OrNull(a.assets.value.largeText) else None,
      AlbumArt(a.assets))
  }

  /** The `.map` callback: the base projection, plus the Spotify keys for a Spotify activity. */
  function View(a: Activity): ActivityView {
    ActivityView(a.name, a.activityType, ActivityTypeName(a.activityType),
      OrNull(a.details), OrNull(a.state), a.timestamps, OrNull(a.applicationId), OrNull(a.url),
      if IsSpotify(a) then Some(SpotifyOf(a)) else None)
  }

  /** The `customStatus` object built from a type-4 activity; `animated || false`. */
  function CustomOf(a: Activity): CustomStatus {
    CustomStatus(
      if a.emoji.Some? then Some(CustomEmoji(a.emoji.value.name, a.emoji.value.id, a.emoji.value.animated == Some(true)))
      else None,
      a.state)
  }

  /** `activities.filter(a => a.type !== 4).map(...)`. */
  function Projected(acts: seq<Activity>): seq<ActivityView> {
    Map(Filter(acts, NonCustom), View)
  }

  function FormatUserData(user: RawUser, member: Member, presence: Option<RawPresence>): (r: UserData)
    ensures r.id == user.id && r.username == user.username && r.displayName == user.globalName
    ensures r.premiumSince == member.premiumSinceTimestamp
  {
    var status := if presence.Some? && Present(presence.value.status) then presence.value.status.value else "offline";
    var hasActivities := presence.Some? && |presence.value.activities| > 0;
    var custom := if hasActivities then Find(presence.value.activities, IsCustom) else None;
    UserData(
      user.username, user.globalName, user.tag, user.id, status, user.avatarUrl,
      if custom.Some? then Some(CustomOf(custom.value)) else None,
      if hasActivities then Projected(presence.value.activities) else [],
      user.createdTimestamp,
      if user.flags.Some? then user.flags.value else [],
      member.premiumSinceTimestamp)
  }

  function ActivitiesOf(presence: Option<RawPresence>): seq<Activity> {
    if presence.Some? then presence.value.activities else []
  }

  // ---------------------------------------------------------------------------
  // What formatUserData promises.

  /** `presence?.status || 'offline'`. */
  lemma FormatStatus(user: RawUser, member: Member, presence: Option<RawPresence>)
    ensures presence.Some? && Present(presence.value.status) ==>
      FormatUserData(user, member, presence).status == presence.value.status.value
    ensures presence.None? || !Present(presence.value.status) ==>
      FormatUserData(user, member, presence).status == "offline"
  {
  }

  /** The projection of a concatenation is the concatenation of the projections:
      the output keeps the input's order. */
  lemma ProjectedAppend(xs: seq<Activity>, ys: seq<Activity>)
    ensures Projected(xs + ys) == Projected(xs) + Projected(ys)
  {
    FilterAppend(xs, ys, NonCustom);
  }

  /** The output activities are exactly the projections of the input's non-custom
      activities, and none of them has type 4. */
  lemma FormatActivities(user: RawUser, member: Member, presence: Option<RawPresence>)
    ensures var out := FormatUserData(user, member, presence).activities;
      && (forall i :: 0 <= i < |out| ==> out[i].activityType != CustomType)
      && (forall a :: a in ActivitiesOf(presence) && NonCustom(a) ==> View(a) in out)
      && (forall v :: v in out ==> exists a :: a in ActivitiesOf(presence) && NonCustom(a) && v == View(a))
      && out == Projected(ActivitiesOf(presence))
  {
    var out := FormatUserData(user, member, presence).activities;
    var kept := Filter(ActivitiesOf(presence), NonCustom);
    assert out == Map(kept, View);
    forall a | a in ActivitiesOf(presence) && NonCustom(a) ensures View(a) in out {
      var i :| 0 <= i < |kept| && kept[i] == a;
      assert out[i] == View(a);
    }
    forall v | v in out ensures exists a :: a in ActivitiesOf(presence) && NonCustom(a) && v == View(a) {
      var i :| 0 <= i < |out| && out[i] == v;
      assert kept[i] in kept;
    }
  }

  /** `customStatus` is built from the first type-4 activity and is `null` when there is none. */
  lemma FormatCustomStatus(user: RawUser, member: Member, presence: Option<RawPresence>)
    ensures var cs := FormatUserData(user, member, presence).customStatus;
      var acts := ActivitiesOf(presence);
      && (cs.Some? <==> exists i :: 0 <= i < |acts| && IsCustom(acts[i]))
      && (cs.Some? ==> exists i :: 0 <= i < |acts| && IsCustom(acts[i]) && cs.value == CustomOf(acts[i])
                          && forall j :: 0 <= j < i ==> !IsCustom(acts[j]))
  {
    var acts := ActivitiesOf(presence);
    match FindIndex(acts, IsCustom)
    case None =>
    case Some(i) =>
      assert Find(acts, IsCustom) == Some(acts[i]);
  }

  /** An emoji without its `animated` flag reports `animated: false`. */
  lemma CustomEmojiAnimatedDefault(a: Activity)
    requires a.emoji.Some? && a.emoji.value.animated != Some(true)
    ensures CustomOf(a).emoji == Some(CustomEmoji(a.emoji.value.name, a.emoji.value.id, false))
  {
  }

  /** Spotify enrichment happens exactly for activities named "Spotify" of type 2; the
      artist and song are the raw state and details, not their `|| null` forms. */
  lemma SpotifyEnrichment(a: Activity)
    ensures View(a).spotify.Some? <==> a.name == "Spotify" && a.activityType == 2
    ensures View(a).spotify.Some? ==> View(a).spotify.value.artist == a.state && View(a).spotify.value.song == a.details
  {
  }

  /** The album art of a `spotify:<hash>` image is the CDN prefix followed by the hash. */
  lemma AlbumArtOfSpotifyImage(text: Option<string>, hash: string)
    ensures AlbumArt(Some(Assets(text, Some(SpotifyScheme + hash)))) == Some(AlbumArtPrefix + hash)
  {
    ReplaceLeadingPattern(SpotifyScheme, hash);
  }

  /** `|| null` turns an empty string into `null`, so an empty `details` reads as missing. */
  lemma EmptyDetailsBecomeNull(a: Activity)
    requires a.details == Some("")
    ensures View(a).details == None
  {
  }
}
