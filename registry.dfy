/** The subscription registry of websocket/handlers.js and its inline copy in
    index.js:153-304: `clientSubscriptions` (socket to user id or activity key),
    `clientUpdateFilters` (socket to update types or activity selector) and room
    membership, with the validation chains that guard every change. */
module Registry {
  import opened Wrappers
  import opened Seqs
  import opened JsValue
  import opened Discord
  import opened Helpers
  import opened WsUtils

  type SocketId = string

  /** Which copy of the handlers: index.js (wired up) or websocket/handlers.js. */
  datatype Variant = EntryPoint | Refactored

  /** What `clientUpdateFilters` holds for a socket: the update types of a user
      subscription, or the `{userId, activityName, activityType, type: 'activity'}`
      record of an activity subscription. */
  datatype ClientFilter =
    | UpdateTypes(types: seq<Value>)
    | ActivityFilter(userId: Value, activityName: Value, activityType: Value)

  function UserRoom(userId: string): string {
    "user:" + userId
  }

  function ActivityRoom(key: string): string {
    "activity:" + key
  }

  // ---------------------------------------------------------------------------
  // Rooms: each room lists its sockets in the order they joined.

  function Members(rooms: map<string, seq<SocketId>>, room: string): seq<SocketId> {
    if room in rooms then rooms[room] else []
  }

  /** `socket.join(room)`: a socket already in the room stays where it is. */
  function Joined(rooms: map<string, seq<SocketId>>, room: string, s: SocketId): (r: map<string, seq<SocketId>>)
    ensures forall x :: x in Members(r, room) <==> x in Members(rooms, room) || x == s
    ensures forall q :: q != room ==> Members(r, q) == Members(rooms, q)
    ensures forall q :: q in r <==> q in rooms || q == room
    ensures NoDup(Members(rooms, room)) ==> NoDup(Members(r, room))
  {
    if s in Members(rooms, room) then rooms else rooms[room := Members(rooms, room) + [s]]
  }

  /** `xs` without `s`, the rest in order. */
  function Without(xs: seq<SocketId>, s: SocketId): (r: seq<SocketId>)
    ensures forall x :: x in r <==> x in xs && x != s
    ensures NoDup(xs) ==> NoDup(r)
    decreases |xs|
  {
    if xs == [] then []
    else if xs[0] == s then Without(xs[1..], s)
    else
      var rest := Without(xs[1..], s);
      assert NoDup(xs) ==> xs[0] !in xs[1..];
      [xs[0]] + rest
  }

  /** `socket.leave(room)`. */
  function Left(rooms: map<string, seq<SocketId>>, room: string, s: SocketId): (r: map<string, seq<SocketId>>)
    ensures forall x :: x in Members(r, room) <==> x in Members(rooms, room) && x != s
    ensures forall q :: q != room ==> Members(r, q) == Members(rooms, q)
    ensures r.Keys == rooms.Keys
    ensures NoDup(Members(rooms, room)) ==> NoDup(Members(r, room))
  {
    if room in rooms then rooms[room := Without(rooms[room], s)] else rooms
  }

  /** What the transport does on disconnect: the socket leaves every room. */
  function LeftAll(rooms: map<string, seq<SocketId>>, s: SocketId): (r: map<string, seq<SocketId>>)
    ensures forall q :: s !in Members(r, q)
    ensures forall q, x :: x != s ==> (x in Members(r, q) <==> x in Members(rooms, q))
    ensures r.Keys == rooms.Keys
  {
    map q | q in rooms :: Without(rooms[q], s)
  }

  // ---------------------------------------------------------------------------
  // The registry state and its four changes.

  datatype Table = Table(
    subs: map<SocketId, string>,
    filters: map<SocketId, ClientFilter>,
    rooms: map<string, seq<SocketId>>)

  /** Both maps have the same sockets, every stored id or key is non-empty, and no
      socket is listed twice in a room. */
  predicate Consistent(t: Table) {
    && t.subs.Keys == t.filters.Keys
    && (forall s :: s in t.subs ==> t.subs[s] != "")
    && (forall q :: q in t.rooms ==> NoDup(t.rooms[q]))
  }

  /** A successful `subscribe`: both entries are overwritten and the socket joins the
      user's room; it stays in any room it joined before. */
  function WithUser(t: Table, s: SocketId, userId: string, types: seq<Value>): Table {
    Table(t.subs[s := userId], t.filters[s := UpdateTypes(types)], Joined(t.rooms, UserRoom(userId), s))
  }

  /** A validated `subscribeActivity`: the subscription key is stored in place of a user
      id, the raw selector becomes the filter, and the socket joins the key's room. */
  function WithActivity(t: Table, s: SocketId, req: ActivityRequest): Table {
    var key := CreateSubscriptionKey(req.userId, req.activityName, req.activityType);
    Table(t.subs[s := key], t.filters[s := ActivityFilter(req.userId, req.activityName, req.activityType)],
      Joined(t.rooms, ActivityRoom(key), s))
  }

  /** `if (userId)` on the stored value: a missing entry (and an empty string) is falsy. */
  predicate Subscribed(t: Table, s: SocketId) {
    s in t.subs && t.subs[s] != ""
  }

  /** `unsubscribe`: leave `user:<stored value>` and delete both entries. */
  function Unsubscribed(t: Table, s: SocketId): Table {
    if Subscribed(t, s) then Table(t.subs - {s}, t.filters - {s}, Left(t.rooms, UserRoom(t.subs[s]), s))
    else t
  }

  /** `disconnect`: delete both entries when subscribed; the socket leaves every room. */
  function Disconnected(t: Table, s: SocketId): Table {
    if Subscribed(t, s) then Table(t.subs - {s}, t.filters - {s}, LeftAll(t.rooms, s))
    else t.(rooms := LeftAll(t.rooms, s))
  }

  lemma JoinKeepsRoomsDistinct(rooms: map<string, seq<SocketId>>, room: string, s: SocketId)
    requires forall q :: q in rooms ==> NoDup(rooms[q])
    ensures forall q :: q in Joined(rooms, room, s) ==> NoDup(Joined(rooms, room, s)[q])
  {
    var r := Joined(rooms, room, s);
    forall q | q in r ensures NoDup(r[q]) {
      assert r[q] == Members(r, q);
      if q != room { assert Members(rooms, q) == rooms[q]; }
    }
  }

  lemma LeaveKeepsRoomsDistinct(rooms: map<string, seq<SocketId>>, room: string, s: SocketId)
    requires forall q :: q in rooms ==> NoDup(rooms[q])
    ensures forall q :: q in Left(rooms, room, s) ==> NoDup(Left(rooms, room, s)[q])
  {
    var r := Left(rooms, room, s);
    forall q | q in r ensures NoDup(r[q]) {
      assert r[q] == Members(r, q) && rooms[q] == Members(rooms, q);
    }
  }

  /** Each of the four changes keeps the two maps on the same sockets, the stored values
      non-empty and the rooms duplicate-free. */
  lemma WithUserConsistent(t: Table, s: SocketId, userId: string, types: seq<Value>)
    requires Consistent(t) && userId != ""
    ensures Consistent(WithUser(t, s, userId, types))
  {
    JoinKeepsRoomsDistinct(t.rooms, UserRoom(userId), s);
  }

  lemma WithActivityConsistent(t: Table, s: SocketId, req: ActivityRequest)
    requires Consistent(t)
    ensures Consistent(WithActivity(t, s, req))
  {
    JoinKeepsRoomsDistinct(t.rooms, ActivityRoom(CreateSubscriptionKey(req.userId, req.activityName, req.activityType)), s);
  }

  lemma UnsubscribedConsistent(t: Table, s: SocketId)
    requires Consistent(t)
    ensures Consistent(Unsubscribed(t, s))
  {
    if Subscribed(t, s) {
      LeaveKeepsRoomsDistinct(t.rooms, UserRoom(t.subs[s]), s);
    }
  }

  lemma DisconnectedConsistent(t: Table, s: SocketId)
    requires Consistent(t)
    ensures Consistent(Disconnected(t, s))
  {
  }

  /** A user subscription overwrites both entries and joins `user:<id>` without leaving
      any room the socket was in. */
  lemma SubscribeOverwrites(t: Table, s: SocketId, userId: string, types: seq<Value>)
    ensures var t2 := WithUser(t, s, userId, types);
      && t2.subs[s] == userId && t2.filters[s] == UpdateTypes(types)
      && s in Members(t2.rooms, UserRoom(userId))
      && (forall q, x :: x in Members(t.rooms, q) ==> x in Members(t2.rooms, q))
      && (forall o :: o != s ==> (o in t2.subs <==> o in t.subs) && (o in t.subs ==> t2.subs[o] == t.subs[o]))
  {
  }

  /** A second `unsubscribe` changes nothing. */
  lemma UnsubscribeIdempotent(t: Table, s: SocketId)
    ensures Unsubscribed(Unsubscribed(t, s), s) == Unsubscribed(t, s)
  {
  }

  /** After `unsubscribe` the socket has no entries and is out of its user's room; the
      other sockets keep theirs. */
  lemma UnsubscribeForgets(t: Table, s: SocketId)
    requires Subscribed(t, s)
    ensures var t2 := Unsubscribed(t, s);
      && s !in t2.subs && s !in t2.filters
      && s !in Members(t2.rooms, UserRoom(t.subs[s]))
      && (forall o :: o != s && o in t.subs ==> o in t2.subs && t2.subs[o] == t.subs[o])
  {
  }

  /** `unsubscribe` only leaves `user:<stored value>`: after an activity subscription the
      stored value is the key, so the socket stays in `activity:<key>`. */
  lemma UnsubscribeKeepsActivityRoom(t: Table, s: SocketId, req: ActivityRequest)
    requires ValidId(req.userId)
    ensures var key := CreateSubscriptionKey(req.userId, req.activityName, req.activityType);
      s in Members(Unsubscribed(WithActivity(t, s, req), s).rooms, ActivityRoom(key))
  {
    var key := CreateSubscriptionKey(req.userId, req.activityName, req.activityType);
    var t1 := WithActivity(t, s, req);
    assert t1.subs[s] == key && key != "";
    assert UserRoom(key)[0] == 'u' && ActivityRoom(key)[0] == 'a';
  }

  /** Subscribing to a second user leaves the socket in the first user's room as well. */
  lemma ResubscribeKeepsOldRoom(t: Table, s: SocketId, u1: string, ts1: seq<Value>, u2: string, ts2: seq<Value>)
    ensures s in Members(WithUser(WithUser(t, s, u1, ts1), s, u2, ts2).rooms, UserRoom(u1))
  {
  }

  /** After `disconnect` the socket is in no map and no room; other sockets keep their
      entries and rooms. */
  lemma DisconnectForgets(t: Table, s: SocketId)
    requires Consistent(t)
    ensures var t2 := Disconnected(t, s);
      && s !in t2.subs && s !in t2.filters
      && (forall q :: s !in Members(t2.rooms, q))
      && (forall o :: o != s && o in t.subs ==> o in t2.subs && t2.subs[o] == t.subs[o] && t2.filters[o] == t.filters[o])
      && (forall q, x :: x != s ==> (x in Members(t2.rooms, q) <==> x in Members(t.rooms, q)))
  {
  }

  // ---------------------------------------------------------------------------
  // The validation chains.

  datatype UserSubscription = UserSubscription(userId: string, updateTypes: seq<Value>)

  const FormatMessage: string := "Invalid subscription data format"
  const OptedOutMessage: string := "This user has opted out of API exposure."

  function FormatError(): ErrorPayload {
    FormatErrorResponse(FormatMessage, "INVALID_FORMAT", None, None)
  }

  function OptedOutError(userId: Value): ErrorPayload {
    FormatErrorResponse(OptedOutMessage, "USER_OPTED_OUT", Some(userId), None)
  }

  function UpdateTypesError(c: UpdateTypesCheck): ErrorPayload {
    FormatErrorResponse(InvalidTypesMessage(c), "INVALID_UPDATE_TYPES", None, Some(c.validTypes))
  }

  /** The checks of `subscribe` before the upstream lookup: format, opt-out, update
      types. index.js reports a malformed id with its own message and the id;
      handlers.js folds it into the format error. */
  function SubscribePrecheck(v: Variant, d: SubscribeData, optedOut: set<string>): (r: Result<UserSubscription, ErrorPayload>)
    ensures r.Success? ==> ValidateUserId(r.value.userId) && ValidateUpdateTypes(r.value.updateTypes).valid
  {
    var c := ValidateSubscriptionData(d);
    if c.Unusable? then Failure(FormatError())
    else if !c.valid then
      (match v
       case EntryPoint => Failure(FormatErrorResponse(InvalidUserIdMessage, "INVALID_FORMAT", Some(c.userId), None))
       case Refactored => Failure(FormatError()))
    else if c.userId.s in optedOut then Failure(OptedOutError(c.userId))
    else
      var ut := ValidateUpdateTypes(c.updateTypes);
      if !ut.valid then Failure(UpdateTypesError(ut))
      else Success(UserSubscription(c.userId.s, c.updateTypes))
  }

  /** The chain in order: each error is reported exactly when the checks before it pass
      and its own fails; past all three the payload's id and types are the request's. */
  lemma SubscribeCheckOrder(v: Variant, d: SubscribeData, optedOut: set<string>)
    ensures var c := ValidateSubscriptionData(d);
      var r := SubscribePrecheck(v, d, optedOut);
      && (r.Failure? && r.error.code == "USER_OPTED_OUT" <==> Accepted(c) && c.userId.s in optedOut)
      && (r.Failure? && r.error.code == "USER_OPTED_OUT" ==> r.error == OptedOutError(c.userId))
      && (r.Failure? && r.error.code == "INVALID_UPDATE_TYPES" <==>
            Accepted(c) && c.userId.s !in optedOut && !ValidateUpdateTypes(c.updateTypes).valid)
      && (r.Success? <==>
            Accepted(c) && c.userId.s !in optedOut && ValidateUpdateTypes(c.updateTypes).valid)
      && (r.Success? ==> r.value == UserSubscription(c.userId.s, c.updateTypes))
      && (r.Failure? && r.error.code == "INVALID_FORMAT" <==> !Accepted(c))
  {
  }

  /** The two copies differ only in how a malformed id is reported. */
  lemma SubscribeVariantsAgree(d: SubscribeData, optedOut: set<string>)
    ensures var c := ValidateSubscriptionData(d);
      && (c.SubscriptionCheck? && !c.valid ==>
            SubscribePrecheck(EntryPoint, d, optedOut) ==
              Failure(ErrorPayload(InvalidUserIdMessage, "INVALID_FORMAT", Some(c.userId), None))
            && SubscribePrecheck(Refactored, d, optedOut) == Failure(FormatError()))
      && (!(c.SubscriptionCheck? && !c.valid) ==>
            SubscribePrecheck(EntryPoint, d, optedOut) == SubscribePrecheck(Refactored, d, optedOut))
  {
  }

  /** The `catch` of `subscribe`: the upstream error's message picks the code, and the
      id is always included. */
  function LookupError(userId: string, e: Error): (r: ErrorPayload)
    ensures r.userId == Some(Str(userId))
    ensures r.code == "USER_NOT_FOUND" <==> e.message == NotFoundMessage
    ensures r.code != "USER_NOT_FOUND" ==> r.code == "VALIDATION_ERROR"
  {
    if e.message == NotFoundMessage
    then FormatErrorResponse("User not found in this guild", "USER_NOT_FOUND", Some(Str(userId)), None)
    else FormatErrorResponse("Failed to validate user", "VALIDATION_ERROR", Some(Str(userId)), None)
  }

  /** The checks of `subscribeActivity`. index.js reports a bad id with the id and a
      missing selector as its own code; handlers.js reports either as `INVALID_FORMAT`
      with the validator's message and `data.userId`. Neither consults the opt-out set. */
  function ActivityPrecheck(v: Variant, req: ActivityRequest): (r: Result<ActivityRequest, ErrorPayload>)
    ensures r.Success? ==> r.value == req
  {
    match v
    case EntryPoint =>
      if !Truthy(req.userId) || !ValidId(req.userId) then
        Failure(FormatErrorResponse(InvalidUserIdMessage, "INVALID_FORMAT", Some(req.userId), None))
      else if !Truthy(req.activityName) && req.activityType.Undefined? then
        Failure(FormatErrorResponse(MissingSelectorMessage, "INVALID_ACTIVITY_FILTER", None, None))
      else Success(req)
    case Refactored =>
      match ValidateActivitySubscription(req)
      case Invalid(m) => Failure(FormatErrorResponse(m, "INVALID_FORMAT", Some(req.userId), None))
      case Valid => Success(req)
  }

  /** Both copies accept the same requests, those with a valid id and a selector; they
      report a missing selector under different codes. */
  lemma ActivityCheckOutcome(req: ActivityRequest)
    ensures ActivityPrecheck(EntryPoint, req).Success? <==> ValidId(req.userId) && HasSelector(req)
    ensures ActivityPrecheck(Refactored, req).Success? <==> ValidId(req.userId) && HasSelector(req)
    ensures ValidId(req.userId) && !HasSelector(req) ==>
      ActivityPrecheck(EntryPoint, req) == Failure(ErrorPayload(MissingSelectorMessage, "INVALID_ACTIVITY_FILTER", None, None))
      && ActivityPrecheck(Refactored, req) == Failure(ErrorPayload(MissingSelectorMessage, "INVALID_FORMAT", Some(req.userId), None))
    ensures !ValidId(req.userId) ==>
      ActivityPrecheck(EntryPoint, req) == ActivityPrecheck(Refactored, req)
      && ActivityPrecheck(EntryPoint, req) == Failure(ErrorPayload(InvalidUserIdMessage, "INVALID_FORMAT", Some(req.userId), None))
  {
  }

  /** index.js builds the key inline, without the `= null` defaults; on every request that
      passes its checks this is the same key as `createSubscriptionKey`. */
  function EntryActivityKey(req: ActivityRequest): string {
    ToJsString(req.userId) + ":" +
      (if Truthy(req.activityName) then ToJsString(req.activityName) else "type:" + ToJsString(req.activityType))
  }

  lemma EntryActivityKeyAgrees(req: ActivityRequest)
    requires ActivityPrecheck(EntryPoint, req).Success?
    ensures EntryActivityKey(req) == CreateSubscriptionKey(req.userId, req.activityName, req.activityType)
  {
  }

  // ---------------------------------------------------------------------------
  // The two maps and the rooms as mutable state.

  class Registry {
    var subs: map<SocketId, string>
    var filters: map<SocketId, ClientFilter>
    var rooms: map<string, seq<SocketId>>

    function Snapshot(): Table
      reads this
    {
      Table(subs, filters, rooms)
    }

    predicate Valid()
      reads this
    {
      Consistent(Snapshot())
    }

    constructor ()
      ensures Valid()
      ensures Snapshot() == Table(map[], map[], map[])
    {
      subs := map[];
      filters := map[];
      rooms := map[];
    }

    /** `socket.join(room)`. */
    method JoinRoom(room: string, s: SocketId)
      modifies this
      ensures rooms == Joined(old(rooms), room, s)
      ensures subs == old(subs) && filters == old(filters)
    {
      var members := if room in rooms then rooms[room] else [];
      if s !in members {
        rooms := rooms[room := members + [s]];
      }
    }

    /** The commit of a successful `subscribe` (handlers.js:60-62, index.js:203-205). */
    method CommitUser(s: SocketId, userId: string, types: seq<Value>)
      requires Valid() && userId != ""
      modifies this
      ensures Valid()
      ensures Snapshot() == WithUser(old(Snapshot()), s, userId, types)
    {
      WithUserConsistent(Snapshot(), s, userId, types);
      subs := subs[s := userId];
      filters := filters[s := UpdateTypes(types)];
      JoinRoom(UserRoom(userId), s);
    }

    /** The commit of a validated `subscribeActivity` (handlers.js:99-108, index.js:248-257). */
    method CommitActivity(s: SocketId, req: ActivityRequest)
      requires Valid()
      modifies this
      ensures Valid()
      ensures Snapshot() == WithActivity(old(Snapshot()), s, req)
    {
      WithActivityConsistent(Snapshot(), s, req);
      var key := CreateSubscriptionKey(req.userId, req.activityName, req.activityType);
      subs := subs[s := key];
      filters := filters[s := ActivityFilter(req.userId, req.activityName, req.activityType)];
      JoinRoom(ActivityRoom(key), s);
    }

    /** `unsubscribe` (handlers.js:130-138, index.js:279-287). */
    method Unsubscribe(s: SocketId)
      requires Valid()
      modifies this
      ensures Valid()
      ensures Snapshot() == Unsubscribed(old(Snapshot()), s)
    {
      UnsubscribedConsistent(Snapshot(), s);
      if s in subs && subs[s] != "" {
        rooms := Left(rooms, UserRoom(subs[s]), s);
        subs := subs - {s};
        filters := filters - {s};
      }
    }

    /** `disconnect` (handlers.js:140-153, index.js:289-304), with the transport's removal
        of the socket from its rooms. */
    method Disconnect(s: SocketId)
      requires Valid()
      modifies this
      ensures Valid()
      ensures Snapshot() == Disconnected(old(Snapshot()), s)
    {
      DisconnectedConsistent(Snapshot(), s);
      if s in subs && subs[s] != "" {
        subs := subs - {s};
        filters := filters - {s};
      }
      rooms := LeftAll(rooms, s);
    }
  }
}
