/** The server that wires the pieces together (websocket/index.js:44-219 with the
    handlers of websocket/handlers.js, the inline copy in index.js:153-566, and the
    presence handlers of discord/presenceHandlers.js): one opt-out set, one user cache,
    one subscription registry, one debounce map, the memoised guild and the log of what
    every socket has been sent.

    Every handler runs as one atomic step. The upstream platform is an `Upstream`
    argument: what it answers during that step. `World` is the whole state as a value
    and each `...Step` function the specification of one handler; the class `Server`
    holds the same state in the objects of the other modules and its methods are proved
    against those functions. */
module Server {
  import opened Wrappers
  import opened JsValue
  import opened Discord
  import opened Helpers
  import opened UserCache
  import opened WsUtils
  import opened Debounce
  import opened PresenceHandlers
  import opened Registry
  import opened FanOut
  import opened OptOut
  import Routes

  datatype World = World(
    optedOut: set<string>,
    cache: map<string, CacheEntry>,
    table: Table,
    pending: map<string, Timer>,
    guildMemo: Option<Guild>,
    outbox: seq<Emission>)

  // ---------------------------------------------------------------------------
  // The upstream lookups.

  /** What `getGuild` returns and what `guildCache` holds afterwards. */
  datatype GuildStep = GuildStep(result: Result<Guild, Error>, memo: Option<Guild>)

  /** The memo first, then the client's guild cache, then a fetch; a guild found either
      way is memoised, a failed fetch memoises nothing. */
  function GuildLookup(memo: Option<Guild>, up: Upstream): (r: GuildStep)
    ensures memo.Some? ==> r == GuildStep(Success(memo.value), memo)
    ensures r.result.Success? ==> r.memo == Some(r.result.value)
    ensures r.result.Failure? <==> memo.None? && up.clientGuild.None? && up.guildFetch.Failure?
    ensures r.result.Failure? ==> r.memo == memo && r.result.error == up.guildFetch.error
  {
    if memo.Some? then GuildStep(Success(memo.value), memo)
    else if up.clientGuild.Some? then GuildStep(Success(up.clientGuild.value), up.clientGuild)
    else match up.guildFetch
      case Success(g) => GuildStep(Success(g), Some(g))
      case Failure(e) => GuildStep(Failure(e), memo)
  }

  /** Once a guild has been found, later lookups return it without consulting the
      upstream again. */
  lemma GuildMemoised(memo: Option<Guild>, up1: Upstream, up2: Upstream)
    ensures var first := GuildLookup(memo, up1);
      first.result.Success? ==> GuildLookup(first.memo, up2) == first
  {
  }

  datatype MemberStep = MemberStep(result: Result<Member, Error>, memo: Option<Guild>)

  /** `getMember(await getGuild(), userId)`. */
  function LookupMember(memo: Option<Guild>, up: Upstream, userId: string): MemberStep {
    var g := GuildLookup(memo, up);
    match g.result
    case Failure(e) => MemberStep(Failure(e), g.memo)
    case Success(_) => MemberStep(GetMember(up.members, userId, up.memberFetch), g.memo)
  }

  /** `guild.presences.cache.get(userId)`. */
  function PresenceOf(up: Upstream, userId: string): Option<RawPresence> {
    if userId in up.presences then Some(up.presences[userId]) else None
  }

  datatype FetchStep = FetchStep(data: Result<UserData, Error>, memo: Option<Guild>)

  /** The miss path of the sends and of the route: look the member up and format it with
      its presence. */
  function FetchUserData(memo: Option<Guild>, up: Upstream, userId: string): FetchStep {
    var m := LookupMember(memo, up, userId);
    match m.result
    case Failure(e) => FetchStep(Failure(e), m.memo)
    case Success(member) => FetchStep(Success(FormatUserData(member.user, member, PresenceOf(up, userId))), m.memo)
  }

  /** A lookup that succeeded once succeeds again against the same upstream, with the same
      member, and leaves the memo as it found it. */
  lemma LookupRepeats(memo: Option<Guild>, up: Upstream, userId: string)
    ensures var first := LookupMember(memo, up, userId);
      first.result.Success? ==>
        && LookupMember(first.memo, up, userId) == first
        && FetchUserData(first.memo, up, userId) ==
             FetchStep(Success(FormatUserData(first.result.value.user, first.result.value, PresenceOf(up, userId))), first.memo)
  {
  }

  // ---------------------------------------------------------------------------
  // The two sends.

  const UserFetchMessage: string := "Failed to fetch user data"
  const ActivityFetchMessage: string := "Failed to fetch activity data"

  /** The `catch` of a send with a socket: an unknown member, or a generic fetch error
      under `fallback`; both name the user. */
  function SendError(userId: string, e: Error, fallback: string): (r: ErrorPayload)
    ensures r.userId == Some(Str(userId)) && r.validTypes == None
    ensures r.code == "USER_NOT_FOUND" <==> e.message == NotFoundMessage
    ensures r.code != "USER_NOT_FOUND" ==> r == ErrorPayload(fallback, "FETCH_ERROR", Some(Str(userId)), None)
  {
    if e.message == NotFoundMessage then ErrorPayload("User not found in this guild", "USER_NOT_FOUND", Some(Str(userId)), None)
    else ErrorPayload(fallback, "FETCH_ERROR", Some(Str(userId)), None)
  }

  /** Errors go to the requesting socket only; without one they are just logged. */
  function Failed(socket: Option<SocketId>, userId: string, e: Error, fallback: string): (r: seq<Emission>)
    ensures socket.None? ==> r == []
    ensures socket.Some? ==> r == [Emission(socket.value, ErrorEvent(SendError(userId, e, fallback)))]
  {
    if socket.Some? then [Emission(socket.value, ErrorEvent(SendError(userId, e, fallback)))] else []
  }

  /** `emitToSubscribedClients`: nothing for an opted-out user, otherwise the user-room
      fan-out (with the activity-filter record skipped, see `FanOut.UserFanOut`). */
  function Pushed(optedOut: set<string>, t: Table, userId: string, d: UserData, updateType: Option<string>): seq<Emission> {
    if userId in optedOut then [] else UserFanOut(Members(t.rooms, UserRoom(userId)), t.filters, d, updateType)
  }

  /** The bare record to the requesting socket, or a push. */
  function UserDelivery(w: World, userId: string, socket: Option<SocketId>, d: UserData, updateType: Option<string>): seq<Emission> {
    if socket.Some? then [Emission(socket.value, UserUpdateEvent(d))] else Pushed(w.optedOut, w.table, userId, d, updateType)
  }

  /** `sendUserData(userId, socket, updateType)` at time `now`: a current cache entry is
      served as it is; otherwise the member is looked up and formatted, the result cached
      under the time the call started and delivered. */
  function SendUserStep(w: World, userId: string, socket: Option<SocketId>, updateType: Option<string>, now: int, up: Upstream): World {
    var key := UserCacheKey(userId);
    var cached := Get(w.cache, key);
    if IsHit(cached, now) then w.(outbox := w.outbox + UserDelivery(w, userId, socket, cached.value.data, updateType))
    else
      var f := FetchUserData(w.guildMemo, up, userId);
      match f.data
      case Success(d) =>
        w.(cache := w.cache[key := CacheEntry(d, now)], guildMemo := f.memo,
           outbox := w.outbox + UserDelivery(w, userId, socket, d, updateType))
      case Failure(e) =>
        w.(guildMemo := f.memo, outbox := w.outbox + Failed(socket, userId, e, UserFetchMessage))
  }

  /** What `activityName.toLowerCase` throws when the name is truthy but not a string. */
  const NotAFunction: Error := Error("activityName.toLowerCase is not a function", None, None)

  /** The selection of `sendActivityData` on its defaulted arguments: a truthy name selects
      by name ignoring case; the filter callback calls `activityName.toLowerCase`, so a
      name that is not a string throws, but only once the callback runs, that is when
      there is an activity to test. Otherwise the type selects by strict equality, which
      `null` never meets. */
  function Selected(acts: seq<ActivityView>, activityName: Value, activityType: Value): (r: Option<seq<ActivityView>>)
    requires activityType != Undefined
    ensures r.None? <==> Truthy(activityName) && !activityName.Str? && |acts| > 0
    ensures Truthy(activityName) && !activityName.Str? && acts == [] ==> r == Some([])
    ensures activityName.Str? && activityName.s != "" ==> r == Some(FilterActivitiesByName(acts, activityName.s))
    ensures !Truthy(activityName) ==> r == Some(FilterActivitiesByType(acts, activityType))
  {
    if Truthy(activityName) then
      (if activityName.Str? then Some(FilterActivitiesByName(acts, activityName.s))
       else if acts == [] then Some([])
       else None)
    else Some(FilterActivitiesByType(acts, activityType))
  }

  /** `sendActivityData(userId, socket, activityName, activityType)`: the same read path
      as `sendUserData` but nothing is written to the cache; the selected activities go to
      the socket, or to every member of the selector's activity room. */
  function SendActivityStep(w: World, userId: string, socket: Option<SocketId>, activityName: Value, activityType: Value,
                            now: int, up: Upstream): World {
    var name := DefaultNull(activityName);
    var ty := DefaultNull(activityType);
    var cached := Get(w.cache, UserCacheKey(userId));
    var f := if IsHit(cached, now) then FetchStep(Success(cached.value.data), w.guildMemo) else FetchUserData(w.guildMemo, up, userId);
    match f.data
    case Failure(e) => w.(guildMemo := f.memo, outbox := w.outbox + Failed(socket, userId, e, ActivityFetchMessage))
    case Success(d) =>
      match Selected(d.activities, name, ty)
      case None => w.(guildMemo := f.memo, outbox := w.outbox + Failed(socket, userId, NotAFunction, ActivityFetchMessage))
      case Some(acts) =>
        var ad := CreateActivityData(d, acts, now);
        w.(guildMemo := f.memo, outbox := w.outbox +
          (if socket.Some? then [Emission(socket.value, ActivityUpdateEvent(ad))]
           else ActivityPushed(w.optedOut, w.table, userId, name, ty, ad)))
  }

  /** `emitToActivitySubscribers` as written: every member of the selector's room, with
      no opt-out check. */
  function ActivityPushedAsWritten(t: Table, userId: string, name: Value, ty: Value, ad: ActivityData): seq<Emission> {
    ActivityFanOut(Members(t.rooms, PushRoom(userId, name, ty)), ad)
  }

  /** The activity push with the guard `emitToSubscribedClients` opens with: nothing for
      an opted-out user, otherwise every member of the selector's room. */
  function ActivityPushed(optedOut: set<string>, t: Table, userId: string, name: Value, ty: Value, ad: ActivityData): seq<Emission> {
    if userId in optedOut then [] else ActivityPushedAsWritten(t, userId, name, ty, ad)
  }

  /** Both sends touch only the cache (the user send only), the guild memo and the
      outbox: the registry, the timers and the opt-out set stay as they were. */
  lemma SendsTouchLittle(w: World, userId: string, socket: Option<SocketId>, updateType: Option<string>,
                         n: Value, t: Value, now: int, up: Upstream)
    ensures var w2 := SendUserStep(w, userId, socket, updateType, now, up);
      w2.table == w.table && w2.pending == w.pending && w2.optedOut == w.optedOut
    ensures var w2 := SendActivityStep(w, userId, socket, n, t, now, up);
      w2.table == w.table && w2.pending == w.pending && w2.optedOut == w.optedOut && w2.cache == w.cache
  {
  }

  /** A current entry is served without consulting the upstream, and the cache is left as
      it is; on a miss the cache holds the new data stamped `now` exactly when the lookup
      succeeded, and it is what the socket receives. */
  lemma SendUserCaching(w: World, userId: string, socket: Option<SocketId>, updateType: Option<string>, now: int,
                        up1: Upstream, up2: Upstream)
    ensures var key := UserCacheKey(userId);
      IsHit(Get(w.cache, key), now) ==>
        && SendUserStep(w, userId, socket, updateType, now, up1) == SendUserStep(w, userId, socket, updateType, now, up2)
        && SendUserStep(w, userId, socket, updateType, now, up1).cache == w.cache
    ensures var key := UserCacheKey(userId);
      var f := FetchUserData(w.guildMemo, up1, userId);
      var w2 := SendUserStep(w, userId, socket, updateType, now, up1);
      && (!IsHit(Get(w.cache, key), now) && f.data.Success? ==>
            w2.cache == w.cache[key := CacheEntry(f.data.value, now)]
            && (socket.Some? ==> w2.outbox == w.outbox + [Emission(socket.value, UserUpdateEvent(f.data.value))]))
      && (!IsHit(Get(w.cache, key), now) && f.data.Failure? ==>
            w2.cache == w.cache && w2.outbox == w.outbox + Failed(socket, userId, f.data.error, UserFetchMessage))
  {
  }

  /** An opted-out user's data is never pushed, whatever the cache and the upstream hold;
      a push whose lookup fails is dropped without any event. */
  lemma OptedOutNeverPushed(w: World, userId: string, updateType: Option<string>, now: int, up: Upstream)
    requires userId in w.optedOut
    ensures SendUserStep(w, userId, None, updateType, now, up).outbox == w.outbox
  {
  }

  lemma FailedPushIsSilent(w: World, userId: string, updateType: Option<string>, now: int, up: Upstream)
    requires !IsHit(Get(w.cache, UserCacheKey(userId)), now) && FetchUserData(w.guildMemo, up, userId).data.Failure?
    ensures SendUserStep(w, userId, None, updateType, now, up).outbox == w.outbox
  {
  }

  /** The push as written reaches every subscriber of the room even when the user has
      opted out; the guarded push sends that user's activity to nobody. */
  lemma ActivityPushIgnoresOptOut(t: Table, userId: string, n: Value, ty: Value, ad: ActivityData, s: SocketId)
    requires s in Members(t.rooms, PushRoom(userId, n, ty))
    ensures Emission(s, ActivityUpdateEvent(ad)) in ActivityPushedAsWritten(t, userId, n, ty, ad)
    ensures ActivityPushed({userId}, t, userId, n, ty, ad) == []
  {
    var members := Members(t.rooms, PushRoom(userId, n, ty));
    var i :| 0 <= i < |members| && members[i] == s;
    assert ActivityPushedAsWritten(t, userId, n, ty, ad)[i] == Emission(s, ActivityUpdateEvent(ad));
  }

  /** The guarded push differs from the push as written only for opted-out users. */
  lemma ActivityPushGuard(o: set<string>, t: Table, userId: string, n: Value, ty: Value, ad: ActivityData)
    ensures userId in o ==> ActivityPushed(o, t, userId, n, ty, ad) == []
    ensures userId !in o ==> ActivityPushed(o, t, userId, n, ty, ad) == ActivityPushedAsWritten(t, userId, n, ty, ad)
  {
  }

  /** An opted-out user's activity is never pushed, whatever the cache and the upstream
      hold. */
  lemma OptedOutActivityNeverPushed(w: World, userId: string, n: Value, t: Value, now: int, up: Upstream)
    requires userId in w.optedOut
    ensures SendActivityStep(w, userId, None, n, t, now, up).outbox == w.outbox
  {
  }

  /** The direct answer of the activity path has no opt-out check: what it sends its
      socket does not depend on the opt-out set. */
  lemma ActivityAnswerIgnoresOptOut(w: World, o: set<string>, userId: string, s: SocketId, n: Value, t: Value,
                                    now: int, up: Upstream)
    ensures SendActivityStep(w.(optedOut := o), userId, Some(s), n, t, now, up).outbox ==
            SendActivityStep(w, userId, Some(s), n, t, now, up).outbox
  {
  }

  /** A direct activity send answered from the cache emits one `activityUpdate` to the
      requesting socket, for the requested user, carrying the activities the selector
      picks: by name ignoring case for a non-empty string name, by type for a falsy name. */
  lemma DirectActivitySendCarriesSelection(w: World, userId: string, s: SocketId, n: Value, t: Value, now: int, up: Upstream)
    requires IsHit(Get(w.cache, UserCacheKey(userId)), now)
    requires (n.Str? && n.s != "") || !Truthy(n)
    ensures var d := Get(w.cache, UserCacheKey(userId)).value.data;
      var out := SendActivityStep(w, userId, Some(s), n, t, now, up).outbox;
      && |out| == |w.outbox| + 1 && out[..|w.outbox|] == w.outbox
      && out[|w.outbox|].to == s && out[|w.outbox|].event.ActivityUpdateEvent?
      && out[|w.outbox|].event.activity.userId == d.id
      && out[|w.outbox|].event.activity.status == d.status
      && (Truthy(n) ==> out[|w.outbox|].event.activity.activities == FilterActivitiesByName(d.activities, n.s))
      && (!Truthy(n) ==> out[|w.outbox|].event.activity.activities == FilterActivitiesByType(d.activities, DefaultNull(t)))
  {
    var d := Get(w.cache, UserCacheKey(userId)).value.data;
    var name := DefaultNull(n);
    var ty := DefaultNull(t);
    var acts := Selected(d.activities, name, ty);
    assert acts.Some?;
    var ad := CreateActivityData(d, acts.value, now);
    assert SendActivityStep(w, userId, Some(s), n, t, now, up).outbox == w.outbox + [Emission(s, ActivityUpdateEvent(ad))];
  }

  /** A send with a socket answers that socket with exactly one event and nobody else. */
  lemma {:induction false} DirectSendsAnswerOnce(w: World, userId: string, s: SocketId, updateType: Option<string>,
                                                 n: Value, t: Value, now: int, up: Upstream)
    ensures var w2 := SendUserStep(w, userId, Some(s), updateType, now, up);
      |w2.outbox| == |w.outbox| + 1 && w2.outbox[..|w.outbox|] == w.outbox && w2.outbox[|w.outbox|].to == s
    ensures var w2 := SendActivityStep(w, userId, Some(s), n, t, now, up);
      |w2.outbox| == |w.outbox| + 1 && w2.outbox[..|w.outbox|] == w.outbox && w2.outbox[|w.outbox|].to == s
  {
    var ws := SendUserStep(w, userId, Some(s), updateType, now, up);
    var wa := SendActivityStep(w, userId, Some(s), n, t, now, up);
    assert exists e :: ws.outbox == w.outbox + [Emission(s, e)];
    assert exists e :: wa.outbox == w.outbox + [Emission(s, e)];
  }

  // ---------------------------------------------------------------------------
  // The socket handlers.

  /** `subscribe`: the checks, the member lookup, the commit and the initial send to the
      requesting socket. Every refusal is one error to that socket and changes nothing. */
  function SubscribeStep(v: Variant, w: World, s: SocketId, d: SubscribeData, now: int, up: Upstream): World {
    match SubscribePrecheck(v, d, w.optedOut)
    case Failure(e) => w.(outbox := w.outbox + [Emission(s, ErrorEvent(e))])
    case Success(sub) =>
      var m := LookupMember(w.guildMemo, up, sub.userId);
      match m.result
      case Failure(e) => w.(guildMemo := m.memo, outbox := w.outbox + [Emission(s, ErrorEvent(LookupError(sub.userId, e)))])
      case Success(_) =>
        SendUserStep(w.(guildMemo := m.memo, table := WithUser(w.table, s, sub.userId, sub.updateTypes)),
          sub.userId, Some(s), None, now, up)
  }

  /** `subscribeActivity`: the checks (no opt-out among them), the commit and the initial
      send, with the selector passed on as given. */
  function SubscribeActivityStep(v: Variant, w: World, s: SocketId, req: ActivityRequest, now: int, up: Upstream): World {
    match ActivityPrecheck(v, req)
    case Failure(e) => w.(outbox := w.outbox + [Emission(s, ErrorEvent(e))])
    case Success(_) =>
      var userId := if req.userId.Str? then req.userId.s else "";
      SendActivityStep(w.(table := WithActivity(w.table, s, req)), userId, Some(s), req.activityName, req.activityType, now, up)
  }

  function UnsubscribeStep(w: World, s: SocketId): World {
    w.(table := Unsubscribed(w.table, s))
  }

  function DisconnectStep(w: World, s: SocketId): World {
    w.(table := Disconnected(w.table, s))
  }

  /** A subscribe answers the requesting socket with exactly one event, and only that
      socket; a refused one (bad format, opted out, bad update types, unknown member)
      leaves the registry and the cache as they were. */
  lemma SubscribeAnswersOnce(v: Variant, w: World, s: SocketId, d: SubscribeData, now: int, up: Upstream)
    ensures var w2 := SubscribeStep(v, w, s, d, now, up);
      |w2.outbox| == |w.outbox| + 1 && w2.outbox[..|w.outbox|] == w.outbox && w2.outbox[|w.outbox|].to == s
    ensures var w2 := SubscribeStep(v, w, s, d, now, up);
      var pre := SubscribePrecheck(v, d, w.optedOut);
      (pre.Failure? || LookupMember(w.guildMemo, up, pre.value.userId).result.Failure?) ==>
        w2.table == w.table && w2.cache == w.cache && w2.optedOut == w.optedOut && w2.pending == w.pending
  {
    match SubscribePrecheck(v, d, w.optedOut)
    case Failure(_) =>
    case Success(sub) =>
      var m := LookupMember(w.guildMemo, up, sub.userId);
      if m.result.Success? {
        DirectSendsAnswerOnce(w.(guildMemo := m.memo, table := WithUser(w.table, s, sub.userId, sub.updateTypes)),
          sub.userId, s, None, Null, Null, now, up);
      }
  }

  /** Subscribing to an opted-out user is answered `USER_OPTED_OUT` and joins no room. */
  lemma OptedOutSubscribeRefused(v: Variant, w: World, s: SocketId, d: SubscribeData, now: int, up: Upstream)
    requires var c := ValidateSubscriptionData(d); Accepted(c) && c.userId.s in w.optedOut
    ensures var w2 := SubscribeStep(v, w, s, d, now, up);
      && w2.table == w.table
      && w2.outbox == w.outbox + [Emission(s, ErrorEvent(OptedOutError(ValidateSubscriptionData(d).userId)))]
  {
    SubscribeCheckOrder(v, d, w.optedOut);
  }

  /** A subscribe that passes its checks and finds the member commits the subscription and
      sends the requesting socket the user's current data: the cached record when it is
      current, otherwise the record formatted from the member just found, which is also
      cached. */
  lemma SubscribeDelivers(v: Variant, w: World, s: SocketId, d: SubscribeData, now: int, up: Upstream)
    requires SubscribePrecheck(v, d, w.optedOut).Success?
    requires LookupMember(w.guildMemo, up, SubscribePrecheck(v, d, w.optedOut).value.userId).result.Success?
    ensures var sub := SubscribePrecheck(v, d, w.optedOut).value;
      var m := LookupMember(w.guildMemo, up, sub.userId);
      var member := m.result.value;
      var current := FormatUserData(member.user, member, PresenceOf(up, sub.userId));
      var key := UserCacheKey(sub.userId);
      var w2 := SubscribeStep(v, w, s, d, now, up);
      && w2.table == WithUser(w.table, s, sub.userId, sub.updateTypes)
      && s in Members(w2.table.rooms, UserRoom(sub.userId))
      && (IsHit(Get(w.cache, key), now) ==>
            w2.outbox == w.outbox + [Emission(s, UserUpdateEvent(w.cache[key].data))] && w2.cache == w.cache)
      && (!IsHit(Get(w.cache, key), now) ==>
            w2.outbox == w.outbox + [Emission(s, UserUpdateEvent(current))] && w2.cache == w.cache[key := CacheEntry(current, now)])
  {
    var sub := SubscribePrecheck(v, d, w.optedOut).value;
    LookupRepeats(w.guildMemo, up, sub.userId);
    SubscribeOverwrites(w.table, s, sub.userId, sub.updateTypes);
  }

  /** `subscribeActivity` answers the requesting socket with exactly one event; a refused
      one changes nothing else, and an accepted one never writes the cache. */
  lemma SubscribeActivityAnswersOnce(v: Variant, w: World, s: SocketId, req: ActivityRequest, now: int, up: Upstream)
    ensures var w2 := SubscribeActivityStep(v, w, s, req, now, up);
      |w2.outbox| == |w.outbox| + 1 && w2.outbox[..|w.outbox|] == w.outbox && w2.outbox[|w.outbox|].to == s
    ensures var w2 := SubscribeActivityStep(v, w, s, req, now, up);
      && w2.cache == w.cache && w2.pending == w.pending
      && (ActivityPrecheck(v, req).Failure? ==> w2.table == w.table)
      && (ActivityPrecheck(v, req).Success? ==> w2.table == WithActivity(w.table, s, req))
  {
    if ActivityPrecheck(v, req).Success? {
      var userId := if req.userId.Str? then req.userId.s else "";
      var w1 := w.(table := WithActivity(w.table, s, req));
      DirectSendsAnswerOnce(w1, userId, s, None, req.activityName, req.activityType, now, up);
      SendsTouchLittle(w1, userId, Some(s), None, req.activityName, req.activityType, now, up);
    }
  }

  // ---------------------------------------------------------------------------
  // The upstream events and the timers.

  /** `presenceUpdate`: for a presence of the configured guild, drop the user's cache
      entry and schedule the detected sends; nothing is sent. */
  function PresenceUpdateStep(w: World, guildId: string, prior: Option<RawPresence>, next: Option<RawPresence>, now: int): World {
    if !Relevant(guildId, next) then w
    else w.(cache := w.cache - {UserCacheKey(next.value.userId)}, pending := ScheduleAll(w.pending, PresenceJobs(guildId, prior, next), now))
  }

  /** `userUpdate`: always drop the entry and schedule the profile sends. */
  function UserUpdateStep(w: World, prior: RawUser, next: RawUser, now: int): World {
    w.(cache := w.cache - {UserCacheKey(next.id)}, pending := ScheduleAll(w.pending, ProfileJobs(prior, next), now))
  }

  /** The timer of `key` at time `now`: when due, its key is removed and its send runs as a
      push. */
  function TimerStep(w: World, key: string, now: int, up: Upstream): World {
    var f := Fired(w.pending, key, now);
    var w1 := w.(pending := f.pending);
    match f.ran
    case None => w1
    case Some(SendUser(u, t)) => SendUserStep(w1, u, None, t, now, up)
    case Some(SendActivity(u, n, t)) => SendActivityStep(w1, u, None, n, t, now, up)
  }

  function SweepStep(w: World, now: int): World {
    w.(cache := Swept(w.cache, now))
  }

  /** An upstream event sends nothing by itself: it invalidates the user's cache entry (and
      only that one) and arms one timer per detected send. */
  lemma PresenceUpdateOnlySchedules(w: World, guildId: string, prior: Option<RawPresence>, next: Option<RawPresence>, now: int)
    ensures var w2 := PresenceUpdateStep(w, guildId, prior, next, now);
      && w2.outbox == w.outbox && w2.table == w.table && w2.optedOut == w.optedOut
      && (!Relevant(guildId, next) ==> w2 == w)
      && (Relevant(guildId, next) ==>
            && UserCacheKey(next.value.userId) !in w2.cache
            && (forall k :: k != UserCacheKey(next.value.userId) ==> (k in w2.cache <==> k in w.cache))
            && w2.pending.Keys == w.pending.Keys + KeysOf(PresenceJobs(guildId, prior, next)))
  {
    if Relevant(guildId, next) {
      ScheduleAllKeys(w.pending, PresenceJobs(guildId, prior, next), now);
    }
  }

  /** Within `DEBOUNCE_DELAY` of a presence update none of the timers it armed fires: the
      world stays exactly as the update left it, so no socket hears of the change yet. */
  lemma DebounceHoldsOffSends(w: World, guildId: string, prior: Option<RawPresence>, next: Option<RawPresence>, now: int,
                              i: nat, t: int, up: Upstream)
    requires Relevant(guildId, next) && i < |PresenceJobs(guildId, prior, next)| && t < now + DebounceDelay
    ensures var w2 := PresenceUpdateStep(w, guildId, prior, next, now);
      TimerStep(w2, JobKey(PresenceJobs(guildId, prior, next)[i]), t, up) == w2
  {
    ScheduleAllArms(w.pending, PresenceJobs(guildId, prior, next), now, i);
  }

  /** From `DEBOUNCE_DELAY` on, the timer of a scheduled key runs a send of that key and
      forgets the key. */
  lemma DebouncedSendRuns(w: World, guildId: string, prior: Option<RawPresence>, next: Option<RawPresence>, now: int,
                          i: nat, t: int, up: Upstream)
    requires Relevant(guildId, next) && i < |PresenceJobs(guildId, prior, next)| && now + DebounceDelay <= t
    ensures var w2 := PresenceUpdateStep(w, guildId, prior, next, now);
      var key := JobKey(PresenceJobs(guildId, prior, next)[i]);
      var f := Fired(w2.pending, key, t);
      f.ran.Some? && JobKey(f.ran.value) == key && key !in TimerStep(w2, key, t, up).pending
  {
    var jobs := PresenceJobs(guildId, prior, next);
    ScheduleAllArms(w.pending, jobs, now, i);
    var w2 := PresenceUpdateStep(w, guildId, prior, next, now);
    var key := JobKey(jobs[i]);
    var w1 := w2.(pending := w2.pending - {key});
    SendsTouchLittle(w1, "", None, None, Null, Null, t, up);
    match w2.pending[key].job
    case SendUser(u, ty) => SendsTouchLittle(w1, u, None, ty, Null, Null, t, up);
    case SendActivity(u, n, ty) => SendsTouchLittle(w1, u, None, None, n, ty, t, up);
  }

  /** Every handler keeps the registry consistent: both maps on the same sockets, stored
      values non-empty, rooms without repeats. */
  lemma SubscribeKeepsTableConsistent(v: Variant, w: World, s: SocketId, d: SubscribeData, now: int, up: Upstream)
    requires Consistent(w.table)
    ensures Consistent(SubscribeStep(v, w, s, d, now, up).table)
  {
    var pre := SubscribePrecheck(v, d, w.optedOut);
    if pre.Success? {
      var sub := pre.value;
      var m := LookupMember(w.guildMemo, up, sub.userId);
      if m.result.Success? {
        WithUserConsistent(w.table, s, sub.userId, sub.updateTypes);
        SendsTouchLittle(w.(guildMemo := m.memo, table := WithUser(w.table, s, sub.userId, sub.updateTypes)),
          sub.userId, Some(s), None, Null, Null, now, up);
      }
    }
  }

  lemma SubscribeActivityKeepsTableConsistent(v: Variant, w: World, s: SocketId, req: ActivityRequest, now: int, up: Upstream)
    requires Consistent(w.table)
    ensures Consistent(SubscribeActivityStep(v, w, s, req, now, up).table)
  {
    if ActivityPrecheck(v, req).Success? {
      WithActivityConsistent(w.table, s, req);
      var userId := if req.userId.Str? then req.userId.s else "";
      SendsTouchLittle(w.(table := WithActivity(w.table, s, req)), userId, Some(s), None, req.activityName, req.activityType, now, up);
    }
  }

  lemma OtherHandlersKeepTableConsistent(w: World, s: SocketId, guildId: string, prior: Option<RawPresence>,
                                         next: Option<RawPresence>, pu: RawUser, nu: RawUser, key: string, now: int, up: Upstream)
    requires Consistent(w.table)
    ensures Consistent(UnsubscribeStep(w, s).table)
    ensures Consistent(DisconnectStep(w, s).table)
    ensures Consistent(PresenceUpdateStep(w, guildId, prior, next, now).table)
    ensures Consistent(UserUpdateStep(w, pu, nu, now).table)
    ensures Consistent(TimerStep(w, key, now, up).table)
    ensures Consistent(SweepStep(w, now).table)
  {
    UnsubscribedConsistent(w.table, s);
    DisconnectedConsistent(w.table, s);
    var f := Fired(w.pending, key, now);
    match f.ran {
      case None =>
      case Some(SendUser(u, t)) => SendsTouchLittle(w.(pending := f.pending), u, None, t, Null, Null, now, up);
      case Some(SendActivity(u, n, t)) => SendsTouchLittle(w.(pending := f.pending), u, None, None, n, t, now, up);
    }
  }

  // ---------------------------------------------------------------------------
  // The HTTP route on the same cache.

  datatype RouteStep = RouteStep(world: World, response: Routes.Response)

  /** `GET /user/:userId`: the route's gates, then the shared cache read-through. */
  function GetUserStep(w: World, userId: string, ready: bool, now: int, up: Upstream): RouteStep {
    var key := UserCacheKey(userId);
    var cached := Get(w.cache, key);
    var f := FetchUserData(w.guildMemo, up, userId);
    var served := Routes.GetUser(userId, w.optedOut, ready, cached, now, f.data);
    var looked := Routes.Gate(userId, w.optedOut, ready).None? && !IsHit(cached, now);
    RouteStep(
      w.(cache := if served.write.Some? then w.cache[key := served.write.value] else w.cache,
         guildMemo := if looked then f.memo else w.guildMemo),
      served.response)
  }

  /** Pull and push share the cache: after the route has fetched a user, a send within the
      TTL serves the same record from the cache, whatever the upstream answers then. */
  lemma PullThenPushShareCache(w: World, userId: string, ready: bool, now: int, up: Upstream,
                               s: SocketId, updateType: Option<string>, later: int, up2: Upstream)
    requires Routes.Gate(userId, w.optedOut, ready).None? && !IsHit(Get(w.cache, UserCacheKey(userId)), now)
    requires FetchUserData(w.guildMemo, up, userId).data.Success?
    requires now <= later < now + CacheTtl
    ensures var r := GetUserStep(w, userId, ready, now, up);
      var d := FetchUserData(w.guildMemo, up, userId).data.value;
      && r.response == Routes.Response(200, Routes.UserBody(d))
      && SendUserStep(r.world, userId, Some(s), updateType, later, up2).outbox == r.world.outbox + [Emission(s, UserUpdateEvent(d))]
  {
    Routes.GetUserOutcomes(userId, w.optedOut, ready, Get(w.cache, UserCacheKey(userId)), now, FetchUserData(w.guildMemo, up, userId).data);
  }

  // ---------------------------------------------------------------------------
  // The same state held in objects.

  class Server {
    const variant: Variant
    const guildId: string
    const opt: OptOut.OptOutStore
    const cache: UserCache.Cache
    const reg: Registry
    const deb: Debounce.Debouncer
    var guildMemo: Option<Guild>
    var outbox: seq<Emission>

    function State(): World
      reads this, opt, cache, reg, deb
    {
      World(opt.members, cache.entries, reg.Snapshot(), deb.pending, guildMemo, outbox)
    }

    predicate Valid()
      reads reg
    {
      reg.Valid()
    }

    constructor (v: Variant, g: string, optOutFile: Option<seq<string>>)
      ensures Valid() && variant == v && guildId == g
      ensures State() == World(Loaded(optOutFile), map[], Table(map[], map[], map[]), map[], None, [])
    {
      variant := v;
      guildId := g;
      opt := new OptOut.OptOutStore(optOutFile);
      cache := new UserCache.Cache();
      reg := new Registry();
      deb := new Debounce.Debouncer();
      guildMemo := None;
      outbox := [];
    }

    /** `getGuild`. */
    method GetGuild(up: Upstream) returns (r: Result<Guild, Error>)
      modifies this
      ensures GuildLookup(old(guildMemo), up) == GuildStep(r, guildMemo)
      ensures outbox == old(outbox)
    {
      if guildMemo.Some? {
        r := Success(guildMemo.value);
      } else if up.clientGuild.Some? {
        r := Success(up.clientGuild.value);
        guildMemo := up.clientGuild;
      } else {
        r := up.guildFetch;
        if r.Success? {
          guildMemo := Some(r.value);
        }
      }
    }

    method GetMemberOf(userId: string, up: Upstream) returns (r: Result<Member, Error>)
      modifies this
      ensures LookupMember(old(guildMemo), up, userId) == MemberStep(r, guildMemo)
      ensures outbox == old(outbox)
    {
      var g := GetGuild(up);
      if g.Failure? {
        r := Failure(g.error);
      } else {
        r := GetMember(up.members, userId, up.memberFetch);
      }
    }

    method Emit(e: Emission)
      modifies this
      ensures outbox == old(outbox) + [e] && guildMemo == old(guildMemo)
    {
      outbox := outbox + [e];
    }

    /** `emitToSubscribedClients`: walk the user's room in order. */
    method EmitToSubscribedClients(userId: string, d: UserData, updateType: Option<string>)
      modifies this
      ensures outbox == old(outbox) + Pushed(opt.members, reg.Snapshot(), userId, d, updateType)
      ensures guildMemo == old(guildMemo)
    {
      if userId in opt.members {
        return;
      }
      var members := Members(reg.rooms, UserRoom(userId));
      var filters := reg.filters;
      var i := 0;
      while i < |members|
        invariant 0 <= i <= |members|
        invariant outbox == old(outbox) + UserFanOut(members[..i], filters, d, updateType)
        invariant guildMemo == old(guildMemo)
      {
        var s := members[i];
        FanOutPrefixStep(members, i, filters, d, updateType);
        if s in filters && filters[s].UpdateTypes? && ShouldUpdateClient(filters[s].types, updateType) {
          outbox := outbox + [Emission(s, TaggedUserUpdate(CreateUserUpdateData(d, updateType)))];
        } else {
          assert Deliver(filters, s, d, updateType) == [];
        }
        i := i + 1;
      }
      assert members[..|members|] == members;
    }

    /** `emitToActivitySubscribers`, with the opt-out guard of `emitToSubscribedClients`:
        every member of the selector's room. */
    method EmitToActivitySubscribers(userId: string, name: Value, ty: Value, ad: ActivityData)
      modifies this
      ensures outbox == old(outbox) + ActivityPushed(opt.members, reg.Snapshot(), userId, name, ty, ad)
      ensures guildMemo == old(guildMemo)
    {
      if userId in opt.members {
        return;
      }
      var members := Members(reg.rooms, PushRoom(userId, name, ty));
      var i := 0;
      while i < |members|
        invariant 0 <= i <= |members|
        invariant outbox == old(outbox) + ActivityFanOut(members[..i], ad)
        invariant guildMemo == old(guildMemo)
      {
        assert ActivityFanOut(members[..i + 1], ad) == ActivityFanOut(members[..i], ad) + [Emission(members[i], ActivityUpdateEvent(ad))];
        outbox := outbox + [Emission(members[i], ActivityUpdateEvent(ad))];
        i := i + 1;
      }
      assert members[..|members|] == members;
    }

    method DeliverUser(userId: string, socket: Option<SocketId>, d: UserData, updateType: Option<string>)
      modifies this
      ensures outbox == old(outbox) + UserDelivery(old(State()), userId, socket, d, updateType)
      ensures guildMemo == old(guildMemo)
    {
      if socket.Some? {
        Emit(Emission(socket.value, UserUpdateEvent(d)));
      } else {
        EmitToSubscribedClients(userId, d, updateType);
      }
    }

    method Fail(socket: Option<SocketId>, userId: string, e: Error, fallback: string)
      modifies this
      ensures outbox == old(outbox) + Failed(socket, userId, e, fallback)
      ensures guildMemo == old(guildMemo)
    {
      if socket.Some? {
        Emit(Emission(socket.value, ErrorEvent(SendError(userId, e, fallback))));
      }
    }

    /** `sendUserData`. */
    method SendUserData(userId: string, socket: Option<SocketId>, updateType: Option<string>, now: int, up: Upstream)
      modifies this, cache
      ensures State() == SendUserStep(old(State()), userId, socket, updateType, now, up)
    {
      var key := UserCacheKey(userId);
      var cached := cache.Lookup(key);
      if IsHit(cached, now) {
        DeliverUser(userId, socket, cached.value.data, updateType);
        return;
      }
      var m := GetMemberOf(userId, up);
      match m
      case Failure(e) =>
        Fail(socket, userId, e, UserFetchMessage);
      case Success(member) =>
        var d := FormatUserData(member.user, member, PresenceOf(up, userId));
        cache.Put(key, CacheEntry(d, now));
        DeliverUser(userId, socket, d, updateType);
    }

    /** `sendActivityData`. */
    method SendActivityData(userId: string, socket: Option<SocketId>, activityName: Value, activityType: Value, now: int, up: Upstream)
      modifies this
      ensures State() == SendActivityStep(old(State()), userId, socket, activityName, activityType, now, up)
    {
      var name := DefaultNull(activityName);
      var ty := DefaultNull(activityType);
      var cached := cache.Lookup(UserCacheKey(userId));
      var d: UserData;
      if IsHit(cached, now) {
        d := cached.value.data;
      } else {
        var m := GetMemberOf(userId, up);
        if m.Failure? {
          Fail(socket, userId, m.error, ActivityFetchMessage);
          return;
        }
        d := FormatUserData(m.value.user, m.value, PresenceOf(up, userId));
      }
      var selected := Selected(d.activities, name, ty);
      if selected.None? {
        Fail(socket, userId, NotAFunction, ActivityFetchMessage);
        return;
      }
      var ad := CreateActivityData(d, selected.value, now);
      if socket.Some? {
        Emit(Emission(socket.value, ActivityUpdateEvent(ad)));
      } else {
        EmitToActivitySubscribers(userId, name, ty, ad);
      }
    }

    /** `subscribe`. */
    method OnSubscribe(s: SocketId, d: SubscribeData, now: int, up: Upstream)
      requires Valid()
      modifies this, cache, reg
      ensures Valid()
      ensures State() == SubscribeStep(variant, old(State()), s, d, now, up)
    {
      var pre := SubscribePrecheck(variant, d, opt.members);
      if pre.Failure? {
        Emit(Emission(s, ErrorEvent(pre.error)));
        return;
      }
      var sub := pre.value;
      var m := GetMemberOf(sub.userId, up);
      if m.Failure? {
        Emit(Emission(s, ErrorEvent(LookupError(sub.userId, m.error))));
        return;
      }
      reg.CommitUser(s, sub.userId, sub.updateTypes);
      SendUserData(sub.userId, Some(s), None, now, up);
    }

    /** `subscribeActivity`. */
    method OnSubscribeActivity(s: SocketId, req: ActivityRequest, now: int, up: Upstream)
      requires Valid()
      modifies this, reg
      ensures Valid()
      ensures State() == SubscribeActivityStep(variant, old(State()), s, req, now, up)
    {
      var pre := ActivityPrecheck(variant, req);
      if pre.Failure? {
        Emit(Emission(s, ErrorEvent(pre.error)));
        return;
      }
      reg.CommitActivity(s, req);
      var userId := if req.userId.Str? then req.userId.s else "";
      SendActivityData(userId, Some(s), req.activityName, req.activityType, now, up);
    }

    method OnUnsubscribe(s: SocketId)
      requires Valid()
      modifies reg
      ensures Valid()
      ensures State() == UnsubscribeStep(old(State()), s)
    {
      reg.Unsubscribe(s);
    }

    method OnDisconnect(s: SocketId)
      requires Valid()
      modifies reg
      ensures Valid()
      ensures State() == DisconnectStep(old(State()), s)
    {
      reg.Disconnect(s);
    }

    /** The `debounced...` calls of one upstream event, in order. */
    method ScheduleJobs(jobs: seq<Job>, now: int)
      modifies deb
      ensures deb.pending == ScheduleAll(old(deb.pending), jobs, now)
    {
      var i := 0;
      while i < |jobs|
        invariant 0 <= i <= |jobs|
        invariant deb.pending == ScheduleAll(old(deb.pending), jobs[..i], now)
      {
        assert jobs[..i + 1][..i] == jobs[..i];
        deb.Schedule(jobs[i], now);
        i := i + 1;
      }
      assert jobs[..|jobs|] == jobs;
    }

    /** `presenceUpdate`. */
    method OnPresenceUpdate(prior: Option<RawPresence>, next: Option<RawPresence>, now: int)
      modifies cache, deb
      ensures State() == PresenceUpdateStep(old(State()), guildId, prior, next, now)
    {
      if !Relevant(guildId, next) {
        return;
      }
      cache.Delete(UserCacheKey(next.value.userId));
      ScheduleJobs(PresenceJobs(guildId, prior, next), now);
    }

    /** `userUpdate`. */
    method OnUserUpdate(prior: RawUser, next: RawUser, now: int)
      modifies cache, deb
      ensures State() == UserUpdateStep(old(State()), prior, next, now)
    {
      cache.Delete(UserCacheKey(next.id));
      ScheduleJobs(ProfileJobs(prior, next), now);
    }

    /** The callback of the timer of `key`. */
    method OnTimer(key: string, now: int, up: Upstream)
      modifies this, cache, deb
      ensures State() == TimerStep(old(State()), key, now, up)
    {
      var ran := deb.Fire(key, now);
      match ran
      case None =>
      case Some(SendUser(u, t)) =>
        SendUserData(u, None, t, now, up);
      case Some(SendActivity(u, n, t)) =>
        SendActivityData(u, None, n, t, now, up);
    }

    /** The sweeper interval. */
    method OnSweep(now: int)
      modifies cache
      ensures State() == SweepStep(old(State()), now)
    {
      cache.Sweep(now);
    }

    /** `GET /user/:userId` with `ready` standing for `client.isReady()`. */
    method GetUserRoute(userId: string, ready: bool, now: int, up: Upstream) returns (response: Routes.Response)
      modifies this, cache
      ensures GetUserStep(old(State()), userId, ready, now, up) == RouteStep(State(), response)
    {
      var gate := Routes.Gate(userId, opt.members, ready);
      if gate.Some? {
        response := gate.value;
        return;
      }
      var key := UserCacheKey(userId);
      var cached := cache.Lookup(key);
      if IsHit(cached, now) {
        response := Routes.Response(200, Routes.UserBody(cached.value.data));
        return;
      }
      var m := GetMemberOf(userId, up);
      match m
      case Failure(e) =>
        response := Routes.FailureResponse(e);
      case Success(member) =>
        var d := FormatUserData(member.user, member, PresenceOf(up, userId));
        cache.Put(key, CacheEntry(d, now));
        response := Routes.Response(200, Routes.UserBody(d));
    }
  }
}
