/** The upstream platform's data as the core receives it (discord.js presences, users
    and guild members), the encoding of an activity as the plain object that
    `deepEqual` walks, and the answers the upstream gives during one handler step. */
module Discord {
  import opened Wrappers
  import opened JsValue
  import opened Seqs

  /** The start and end of an activity, as epoch milliseconds; discord.js holds them
      as `Date` objects. */
  datatype Timestamps = Timestamps(start: Option<int>, end: Option<int>)
  datatype Assets = Assets(largeText: Option<string>, largeImage: Option<string>)
  datatype Emoji = Emoji(name: Option<string>, id: Option<string>, animated: Option<bool>)

  /** One activity of a presence. Type 4 is "Custom"; `createdTimestamp` is a field
      the formatter never reads but `deepEqual` still compares. */
  datatype Activity = Activity(
    name: string,
    activityType: int,
    url: Option<string>,
    details: Option<string>,
    state: Option<string>,
    applicationId: Option<string>,
    timestamps: Option<Timestamps>,
    assets: Option<Assets>,
    emoji: Option<Emoji>,
    createdTimestamp: int)

  /** A presence; `status` is `None` when the upstream leaves it undefined. */
  datatype RawPresence = RawPresence(userId: string, guildId: string, status: Option<string>, activities: seq<Activity>)

  /** A user; `avatarUrl` stands for the result of `displayAvatarURL({dynamic: true, size: 512})`. */
  datatype RawUser = RawUser(
    id: string,
    username: string,
    globalName: Option<string>,
    tag: string,
    avatar: Option<string>,
    avatarUrl: string,
    createdTimestamp: int,
    flags: Option<seq<string>>)

  datatype Member = Member(user: RawUser, premiumSinceTimestamp: Option<int>)

  /** An error as thrown by the upstream client or by the core itself. */
  datatype Error = Error(message: string, code: Option<int>, status: Option<int>)

  /** The guild handle that `getGuild` memoises. Its member and presence caches are live
      views of the upstream, so they are part of `Upstream`, not of the handle. */
  datatype Guild = Guild(id: string)

  /** What the upstream answers during one atomic handler step: whether the client
      already holds the guild, the outcome of fetching it, the guild's member and
      presence caches, and the outcome of fetching the member the step is about. */
  datatype Upstream = Upstream(
    clientGuild: Option<Guild>,
    guildFetch: Result<Guild, Error>,
    members: map<string, Member>,
    memberFetch: Result<Member, Error>,
    presences: map<string, RawPresence>)

  // ---------------------------------------------------------------------------
  // The plain-object view of an activity that deepEqual compares.

  function EncStr(o: Option<string>): Value {
    if o.Some? then Str(o.value) else Null
  }

  function EncBool(o: Option<bool>): Value {
    if o.Some? then Bool(o.value) else Null
  }

  const TimestampsKeys: seq<string> := ["start", "end"]
  const AssetsKeys: seq<string> := ["largeText", "largeImage"]
  const EmojiKeys: seq<string> := ["name", "id", "animated"]
  const ActivityKeys: seq<string> :=
    ["name", "type", "url", "details", "state", "applicationId", "timestamps", "assets", "emoji", "createdTimestamp"]

  /** A `Date` walks as an object without own enumerable keys, so deepEqual finds
      any two Dates equal: only whether an instant is set is visible. */
  function EncDate(o: Option<int>): Value {
    if o.Some? then Record([]) else Null
  }

  function EncTimestamps(o: Option<Timestamps>): Value {
    match o
    case None => Null
    case Some(t) => Record(Zip(TimestampsKeys, [EncDate(t.start), EncDate(t.end)]))
  }

  // ---------------------------------------------------------------------------
  // What deepEqual can tell apart: the activity with every set instant replaced by 0.

  function Blur(o: Option<int>): Option<int> {
    if o.Some? then Some(0) else None
  }

  function UndatedStamps(o: Option<Timestamps>): Option<Timestamps> {
    if o.Some? then Some(Timestamps(Blur(o.value.start), Blur(o.value.end))) else None
  }

  function Undated(a: Activity): Activity {
    a.(timestamps := UndatedStamps(a.timestamps))
  }

  function UndatedFound(o: Option<Activity>): Option<Activity> {
    if o.Some? then Some(Undated(o.value)) else None
  }

  function UndatedAll(xs: seq<Activity>): seq<Activity> {
    Map(xs, Undated)
  }

  /** Undating keeps every field but the instants, and what it keeps is all deepEqual sees. */
  lemma UndatedKeepsFields(a: Activity, b: Activity)
    ensures Undated(a) == Undated(b) <==>
      a.(timestamps := None) == b.(timestamps := None) && UndatedStamps(a.timestamps) == UndatedStamps(b.timestamps)
  {
    if a.(timestamps := None) == b.(timestamps := None) && UndatedStamps(a.timestamps) == UndatedStamps(b.timestamps) {
      assert Undated(a) == Undated(a).(timestamps := None).(timestamps := UndatedStamps(a.timestamps));
    }
    if Undated(a) == Undated(b) {
      assert a.(timestamps := None) == Undated(a).(timestamps := None);
    }
  }

  function EncAssets(o: Option<Assets>): Value {
    match o
    case None => Null
    case Some(a) => Record(Zip(AssetsKeys, [EncStr(a.largeText), EncStr(a.largeImage)]))
  }

  function EncEmoji(o: Option<Emoji>): Value {
    match o
    case None => Null
    case Some(e) => Record(Zip(EmojiKeys, [EncStr(e.name), EncStr(e.id), EncBool(e.animated)]))
  }

  /** The values of an activity's plain object, in the order of `ActivityKeys`. */
  function ActivityValues(a: Activity): (vs: seq<Value>)
    ensures |vs| == |ActivityKeys|
  {
    [Str(a.name), Num(a.activityType), EncStr(a.url), EncStr(a.details), EncStr(a.state),
     EncStr(a.applicationId), EncTimestamps(a.timestamps), EncAssets(a.assets),
     EncEmoji(a.emoji), Num(a.createdTimestamp)]
  }

  function EncActivity(a: Activity): Value {
    Record(Zip(ActivityKeys, ActivityValues(a)))
  }

  /** `array.find(...)` of activities: `undefined` when nothing is found. */
  function EncFound(o: Option<Activity>): Value {
    if o.Some? then EncActivity(o.value) else Undefined
  }

  function EncActivities(acts: seq<Activity>): Value {
    List(seq(|acts|, i requires 0 <= i < |acts| => EncActivity(acts[i])))
  }

  // ---------------------------------------------------------------------------
  // deepEqual on these encodings is exactly equality of the activities.

  lemma EncStrEqual(x: Option<string>, y: Option<string>)
    ensures DeepEqual(EncStr(x), EncStr(y)) <==> x == y
  {
  }

  lemma EncBoolEqual(x: Option<bool>, y: Option<bool>)
    ensures DeepEqual(EncBool(x), EncBool(y)) <==> x == y
  {
  }

  lemma EncDateEqual(x: Option<int>, y: Option<int>)
    ensures DeepEqual(EncDate(x), EncDate(y)) <==> Blur(x) == Blur(y)
  {
  }

  /** Two timestamp objects are deepEqual exactly when they set the same instants,
      whatever those instants are. */
  lemma EncTimestampsEqual(x: Option<Timestamps>, y: Option<Timestamps>)
    ensures DeepEqual(EncTimestamps(x), EncTimestamps(y)) <==> UndatedStamps(x) == UndatedStamps(y)
  {
    if x.Some? && y.Some? {
      var t, u := x.value, y.value;
      var xs, ys := [EncDate(t.start), EncDate(t.end)], [EncDate(u.start), EncDate(u.end)];
      ZipDeepEqual(TimestampsKeys, xs, ys);
      EncDateEqual(t.start, u.start);
      EncDateEqual(t.end, u.end);
      assert (forall i :: 0 <= i < 2 ==> DeepEqual(xs[i], ys[i])) <==> DeepEqual(xs[0], ys[0]) && DeepEqual(xs[1], ys[1]);
    }
  }

  lemma EncAssetsEqual(x: Option<Assets>, y: Option<Assets>)
    ensures DeepEqual(EncAssets(x), EncAssets(y)) <==> x == y
  {
    if x.Some? && y.Some? {
      var a, b := x.value, y.value;
      var xs, ys := [EncStr(a.largeText), EncStr(a.largeImage)], [EncStr(b.largeText), EncStr(b.largeImage)];
      ZipDeepEqual(AssetsKeys, xs, ys);
      EncStrEqual(a.largeText, b.largeText);
      EncStrEqual(a.largeImage, b.largeImage);
      assert (forall i :: 0 <= i < 2 ==> DeepEqual(xs[i], ys[i])) <==> DeepEqual(xs[0], ys[0]) && DeepEqual(xs[1], ys[1]);
    }
  }

  lemma EncEmojiEqual(x: Option<Emoji>, y: Option<Emoji>)
    ensures DeepEqual(EncEmoji(x), EncEmoji(y)) <==> x == y
  {
    if x.Some? && y.Some? {
      var e, f := x.value, y.value;
      var xs := [EncStr(e.name), EncStr(e.id), EncBool(e.animated)];
      var ys := [EncStr(f.name), EncStr(f.id), EncBool(f.animated)];
      assert EmojiKeys[0] != EmojiKeys[1] && EmojiKeys[0] != EmojiKeys[2] && EmojiKeys[1] != EmojiKeys[2] by {
        assert "name"[0] != "id"[0] && "name"[0] != "animated"[0] && "id"[0] != "animated"[0];
      }
      ZipDeepEqual(EmojiKeys, xs, ys);
      EncStrEqual(e.name, f.name);
      EncStrEqual(e.id, f.id);
      EncBoolEqual(e.animated, f.animated);
      if forall i :: 0 <= i < 3 ==> DeepEqual(xs[i], ys[i]) {
        assert DeepEqual(xs[0], ys[0]) && DeepEqual(xs[1], ys[1]) && DeepEqual(xs[2], ys[2]);
      }
      if e == f {
        forall i | 0 <= i < 3 ensures DeepEqual(xs[i], ys[i]) {
          if i == 0 {} else if i == 1 {} else {}
        }
      }
    }
  }

  /** The ten keys of an activity's plain object are pairwise distinct. */
  lemma ActivityKeysDistinct()
    ensures forall i, j :: 0 <= i < j < |ActivityKeys| ==> ActivityKeys[i] != ActivityKeys[j]
  {
    // Every pair differs in its first character or its length.
    assert "name"[0] != "type"[0];
    assert "state"[0] != "emoji"[0];
  }

  /** The name, the type and the creation time compare as plain primitives. */
  lemma ScalarValuesEqual(a: Activity, b: Activity)
    ensures DeepEqual(ActivityValues(a)[0], ActivityValues(b)[0]) <==> a.name == b.name
    ensures DeepEqual(ActivityValues(a)[1], ActivityValues(b)[1]) <==> a.activityType == b.activityType
    ensures DeepEqual(ActivityValues(a)[9], ActivityValues(b)[9]) <==> a.createdTimestamp == b.createdTimestamp
  {
  }

  /** The optional strings compare as present-and-equal or both null. */
  lemma OptionalValuesEqual(a: Activity, b: Activity)
    ensures DeepEqual(ActivityValues(a)[2], ActivityValues(b)[2]) <==> a.url == b.url
    ensures DeepEqual(ActivityValues(a)[3], ActivityValues(b)[3]) <==> a.details == b.details
    ensures DeepEqual(ActivityValues(a)[4], ActivityValues(b)[4]) <==> a.state == b.state
    ensures DeepEqual(ActivityValues(a)[5], ActivityValues(b)[5]) <==> a.applicationId == b.applicationId
  {
    EncStrEqual(a.url, b.url);
    EncStrEqual(a.details, b.details);
    EncStrEqual(a.state, b.state);
    EncStrEqual(a.applicationId, b.applicationId);
  }

  /** The nested objects compare field by field. */
  lemma NestedValuesEqual(a: Activity, b: Activity)
    ensures DeepEqual(ActivityValues(a)[6], ActivityValues(b)[6]) <==>
      UndatedStamps(a.timestamps) == UndatedStamps(b.timestamps)
    ensures DeepEqual(ActivityValues(a)[7], ActivityValues(b)[7]) <==> a.assets == b.assets
    ensures DeepEqual(ActivityValues(a)[8], ActivityValues(b)[8]) <==> a.emoji == b.emoji
  {
    EncTimestampsEqual(a.timestamps, b.timestamps);
    EncAssetsEqual(a.assets, b.assets);
    EncEmojiEqual(a.emoji, b.emoji);
  }

  /** Position by position, deepEqual on the values of two activities' plain objects
      holds at every position exactly when the activities agree up to their instants. */
  lemma ActivityValuesEqual(a: Activity, b: Activity)
    ensures (forall i :: 0 <= i < |ActivityKeys| ==> DeepEqual(ActivityValues(a)[i], ActivityValues(b)[i])) <==>
      Undated(a) == Undated(b)
  {
    ScalarValuesEqual(a, b);
    OptionalValuesEqual(a, b);
    NestedValuesEqual(a, b);
    UndatedKeepsFields(a, b);
    if Undated(a) == Undated(b) {
      forall i | 0 <= i < |ActivityKeys| ensures DeepEqual(ActivityValues(a)[i], ActivityValues(b)[i]) {
        if i == 0 {} else if i == 1 {} else if i == 2 {} else if i == 3 {} else if i == 4 {}
        else if i == 5 {} else if i == 6 {} else if i == 7 {} else if i == 8 {} else {}
      }
    }
  }

  /** Two activity objects are deepEqual exactly when the activities agree in every
      field, the instants of their timestamps aside. */
  lemma EncActivityEqual(a: Activity, b: Activity)
    ensures DeepEqual(EncActivity(a), EncActivity(b)) <==> Undated(a) == Undated(b)
  {
    ActivityKeysDistinct();
    ZipDeepEqual(ActivityKeys, ActivityValues(a), ActivityValues(b));
    ActivityValuesEqual(a, b);
  }

  /** deepEqual on two `find` results holds exactly when both are undefined or both are
      activities agreeing up to their instants. */
  lemma EncFoundEqual(x: Option<Activity>, y: Option<Activity>)
    ensures DeepEqual(EncFound(x), EncFound(y)) <==> UndatedFound(x) == UndatedFound(y)
  {
    if x.Some? && y.Some? {
      EncActivityEqual(x.value, y.value);
    }
  }

  /** deepEqual on two activity arrays holds exactly when they have the same length and
      agree position by position up to their instants. */
  lemma EncActivitiesEqual(xs: seq<Activity>, ys: seq<Activity>)
    ensures DeepEqual(EncActivities(xs), EncActivities(ys)) <==> UndatedAll(xs) == UndatedAll(ys)
  {
    if |xs| == |ys| {
      forall i | 0 <= i < |xs|
        ensures DeepEqual(EncActivities(xs).items[i], EncActivities(ys).items[i]) <==> Undated(xs[i]) == Undated(ys[i])
      {
        EncActivityEqual(xs[i], ys[i]);
      }
      if DeepEqual(EncActivities(xs), EncActivities(ys)) {
        assert forall i :: 0 <= i < |xs| ==> UndatedAll(xs)[i] == UndatedAll(ys)[i];
      }
      if UndatedAll(xs) == UndatedAll(ys) {
        assert forall i :: 0 <= i < |xs| ==> Undated(xs[i]) == UndatedAll(xs)[i];
      }
    } else {
      assert |UndatedAll(xs)| != |UndatedAll(ys)|;
    }
  }
}
