/** The two push paths of websocket/index.js:160-191 (copies in index.js:388-405 and
    index.js:470-482): the user-update fan-out to `user:<id>`, filtered by each member's
    update types, and the activity fan-out to `activity:<key>`, unfiltered. What a socket
    receives is an `Emission` in an output log. */
module FanOut {
  import opened Wrappers
  import opened Seqs
  import opened JsValue
  import opened Helpers
  import opened WsUtils
  import opened Registry

  /** The events a socket receives: `userUpdate` with the bare record (direct sends),
      `userUpdate` with the `updateType` tag (pushes), `activityUpdate` and `error`. */
  datatype Event =
    | UserUpdateEvent(data: UserData)
    | TaggedUserUpdate(update: UserUpdate)
    | ActivityUpdateEvent(activity: ActivityData)
    | ErrorEvent(error: ErrorPayload)

  datatype Emission = Emission(to: SocketId, event: Event)

  function Targets(es: seq<Emission>): (r: seq<SocketId>)
    ensures |r| == |es|
    ensures forall i :: 0 <= i < |es| ==> r[i] == es[i].to
  {
    seq(|es|, i requires 0 <= i < |es| => es[i].to)
  }

  // ---------------------------------------------------------------------------
  // The user-update fan-out.

  /** A member receives a push when it has update types and `shouldUpdateClient` holds. */
  predicate Wants(filters: map<SocketId, ClientFilter>, s: SocketId, updateType: Option<string>) {
    s in filters && filters[s].UpdateTypes? && ShouldUpdateClient(filters[s].types, updateType)
  }

  function Recipients(members: seq<SocketId>, filters: map<SocketId, ClientFilter>, updateType: Option<string>): (r: seq<SocketId>)
    ensures forall s :: s in r <==> s in members && Wants(filters, s, updateType)
    ensures IsSubsequence(r, members)
  {
    Filter(members, (s: SocketId) => Wants(filters, s, updateType))
  }

  /** What one member receives. */
  function Deliver(filters: map<SocketId, ClientFilter>, s: SocketId, data: UserData, updateType: Option<string>): seq<Emission> {
    if Wants(filters, s, updateType) then [Emission(s, TaggedUserUpdate(CreateUserUpdateData(data, updateType)))] else []
  }

  /** `room.forEach(...)` over the members of `user:<id>`, skipping a member whose filter
      is not a list of update types. */
  function UserFanOut(members: seq<SocketId>, filters: map<SocketId, ClientFilter>, data: UserData, updateType: Option<string>): (r: seq<Emission>)
    ensures forall e :: e in r ==> e.event == TaggedUserUpdate(CreateUserUpdateData(data, updateType))
    ensures forall e :: e in r ==> e.to in members && Wants(filters, e.to, updateType)
    decreases |members|
  {
    if members == [] then []
    else Deliver(filters, members[0], data, updateType) + UserFanOut(members[1..], filters, data, updateType)
  }

  /** The pushes go to exactly the members that want the update, once each, in room order. */
  lemma {:induction false} UserFanOutRecipients(members: seq<SocketId>, filters: map<SocketId, ClientFilter>, data: UserData, updateType: Option<string>)
    ensures Targets(UserFanOut(members, filters, data, updateType)) == Recipients(members, filters, updateType)
    decreases |members|
  {
    if members != [] {
      var m := members[0];
      UserFanOutRecipients(members[1..], filters, data, updateType);
      var d := Deliver(filters, m, data, updateType);
      var rest := UserFanOut(members[1..], filters, data, updateType);
      assert UserFanOut(members, filters, data, updateType) == d + rest;
      TargetsAppend(d, rest);
      assert Targets(d) == if Wants(filters, m, updateType) then [m] else [];
      assert Recipients(members, filters, updateType) ==
        (if Wants(filters, m, updateType) then [m] else []) + Recipients(members[1..], filters, updateType);
    }
  }

  lemma TargetsAppend(a: seq<Emission>, b: seq<Emission>)
    ensures Targets(a + b) == Targets(a) + Targets(b)
  {
  }

  /** Delivering to one more member appends that member's emission: the loop's step. */
  lemma {:induction false} UserFanOutSnoc(members: seq<SocketId>, s: SocketId, filters: map<SocketId, ClientFilter>, data: UserData, updateType: Option<string>)
    ensures UserFanOut(members + [s], filters, data, updateType) ==
      UserFanOut(members, filters, data, updateType) + Deliver(filters, s, data, updateType)
    decreases |members|
  {
    if members == [] {
      assert ([] + [s])[1..] == [];
    } else {
      assert (members + [s])[0] == members[0];
      assert (members + [s])[1..] == members[1..] + [s];
      UserFanOutSnoc(members[1..], s, filters, data, updateType);
    }
  }

  /** The same step on prefixes of one room. */
  lemma FanOutPrefixStep(members: seq<SocketId>, i: nat, filters: map<SocketId, ClientFilter>, data: UserData, updateType: Option<string>)
    requires i < |members|
    ensures UserFanOut(members[..i + 1], filters, data, updateType) ==
      UserFanOut(members[..i], filters, data, updateType) + Deliver(filters, members[i], data, updateType)
  {
    assert members[..i + 1] == members[..i] + [members[i]];
    UserFanOutSnoc(members[..i], members[i], filters, data, updateType);
  }

  /** An `'all'` subscriber gets every push, tagged `'all'` when the update has no type. */
  lemma AllSubscriberGetsUntaggedPush(members: seq<SocketId>, filters: map<SocketId, ClientFilter>, s: SocketId, data: UserData)
    requires s in members && s in filters && filters[s] == UpdateTypes([Str("all")])
    ensures Emission(s, TaggedUserUpdate(UserUpdate(data, "all"))) in UserFanOut(members, filters, data, None)
  {
    UserFanOutRecipients(members, filters, data, None);
    var r := UserFanOut(members, filters, data, None);
    assert s in Recipients(members, filters, None);
    var i :| 0 <= i < |r| && Targets(r)[i] == s;
    assert r[i] in r;
  }

  // ---------------------------------------------------------------------------
  // The fan-out as written: `updateFilters.includes` on an activity filter record.

  predicate HasRecordFilter(filters: map<SocketId, ClientFilter>, s: SocketId) {
    s in filters && filters[s].ActivityFilter?
  }

  /** The emissions made, and whether the loop threw. */
  datatype Outcome = Outcome(emitted: seq<Emission>, threw: bool)

  /** The record has no `includes`, so the call throws a TypeError, which leaves the
      `forEach` and reaches the `catch` of the send that only logs. */
  function UserFanOutAsWritten(members: seq<SocketId>, filters: map<SocketId, ClientFilter>, data: UserData, updateType: Option<string>): Outcome
    decreases |members|
  {
    if members == [] then Outcome([], false)
    else if HasRecordFilter(filters, members[0]) then Outcome([], true)
    else
      var rest := UserFanOutAsWritten(members[1..], filters, data, updateType);
      Outcome(Deliver(filters, members[0], data, updateType) + rest.emitted, rest.threw)
  }

  /** The position of the first member with an activity filter, or the room size. */
  function FirstRecord(members: seq<SocketId>, filters: map<SocketId, ClientFilter>): (k: nat)
    ensures k <= |members|
    ensures forall i :: 0 <= i < k ==> !HasRecordFilter(filters, members[i])
    ensures k < |members| ==> HasRecordFilter(filters, members[k])
    decreases |members|
  {
    if members == [] || HasRecordFilter(filters, members[0]) then 0
    else 1 + FirstRecord(members[1..], filters)
  }

  /** As written, the loop delivers exactly like the corrected fan-out up to the first
      member with an activity filter, then throws; members after it get nothing. */
  lemma {:induction false} AsWrittenStopsAtFirstRecord(members: seq<SocketId>, filters: map<SocketId, ClientFilter>, data: UserData, updateType: Option<string>)
    ensures var k := FirstRecord(members, filters);
      UserFanOutAsWritten(members, filters, data, updateType) ==
        Outcome(UserFanOut(members[..k], filters, data, updateType), k < |members|)
    decreases |members|
  {
    if members != [] && !HasRecordFilter(filters, members[0]) {
      AsWrittenStopsAtFirstRecord(members[1..], filters, data, updateType);
      var k := FirstRecord(members, filters);
      assert members[..k][0] == members[0];
      assert members[..k][1..] == members[1..][..k - 1];
    }
  }

  /** Without activity filters in the room the two fan-outs coincide. */
  lemma AsWrittenAgreesWithoutRecords(members: seq<SocketId>, filters: map<SocketId, ClientFilter>, data: UserData, updateType: Option<string>)
    requires forall i :: 0 <= i < |members| ==> !HasRecordFilter(filters, members[i])
    ensures UserFanOutAsWritten(members, filters, data, updateType) == Outcome(UserFanOut(members, filters, data, updateType), false)
  {
    AsWrittenStopsAtFirstRecord(members, filters, data, updateType);
    assert members[..|members|] == members;
  }

  /** A reachable state where the throw hides an update: socket `a` subscribes to user
      `u`, then to one of `u`'s activities (its filter becomes the record, and it stays in
      `user:u`), and socket `b` subscribes to `u` with `'all'`. As written, `b` misses the
      push; the corrected fan-out reaches it. */
  lemma RecordFilterHidesLaterSubscribers(u: string, data: UserData)
    ensures var req := ActivityRequest(Str(u), Str("Spotify"), Undefined);
      var t1 := WithUser(Table(map[], map[], map[]), "a", u, [Str("all")]);
      var t := WithUser(WithActivity(t1, "a", req), "b", u, [Str("all")]);
      var room := Members(t.rooms, UserRoom(u));
      && room == ["a", "b"]
      && UserFanOutAsWritten(room, t.filters, data, None) == Outcome([], true)
      && UserFanOut(room, t.filters, data, None) == [Emission("b", TaggedUserUpdate(UserUpdate(data, "all")))]
  {
    var req := ActivityRequest(Str(u), Str("Spotify"), Undefined);
    var key := CreateSubscriptionKey(req.userId, req.activityName, req.activityType);
    assert UserRoom(u)[0] == 'u' && ActivityRoom(key)[0] == 'a';
    var t1 := WithUser(Table(map[], map[], map[]), "a", u, [Str("all")]);
    assert Members(t1.rooms, UserRoom(u)) == ["a"];
    var t2 := WithActivity(t1, "a", req);
    assert Members(t2.rooms, UserRoom(u)) == ["a"];
    var t := WithUser(t2, "b", u, [Str("all")]);
    assert "b" !in Members(t2.rooms, UserRoom(u));
    assert Members(t.rooms, UserRoom(u)) == ["a", "b"];
    var room := ["a", "b"];
    assert room[1..] == ["b"] && room[1..][1..] == [];
    assert Wants(t.filters, "b", None);
  }

  // ---------------------------------------------------------------------------
  // The activity fan-out.

  /** Every member of `activity:<key>` receives the record: no filter, no opt-out check. */
  function ActivityFanOut(members: seq<SocketId>, d: ActivityData): (r: seq<Emission>)
    ensures |r| == |members|
    ensures forall i :: 0 <= i < |r| ==> r[i] == Emission(members[i], ActivityUpdateEvent(d))
  {
    seq(|members|, i requires 0 <= i < |members| => Emission(members[i], ActivityUpdateEvent(d)))
  }

  /** The room an activity push targets: `${userId}:${activityName || `type:${activityType}`}`
      with the `= null` defaults, i.e. the subscription key. */
  function PushRoom(userId: string, activityName: Value, activityType: Value): string {
    ActivityRoom(CreateSubscriptionKey(Str(userId), activityName, activityType))
  }

  /** The pushes the change detector issues reach the rooms subscribers join: a name
      subscription without a type meets the name push, and a type subscription without a
      name meets the type push. */
  lemma PushesMeetSubscriptions(u: string, n: string, t: int)
    requires n != ""
    ensures PushRoom(u, Str(n), Null) == ActivityRoom(CreateSubscriptionKey(Str(u), Str(n), Undefined))
    ensures PushRoom(u, Null, Num(t)) == ActivityRoom(CreateSubscriptionKey(Str(u), Undefined, Num(t)))
  {
  }

  /** The room key keeps the name's case although the data filter ignores it: a client
      that subscribes to "spotify" never meets the push for "Spotify". */
  lemma PushRoomIsCaseSensitive(u: string)
    ensures PushRoom(u, Str("Spotify"), Null) != ActivityRoom(CreateSubscriptionKey(Str(u), Str("spotify"), Undefined))
  {
    var a := PushRoom(u, Str("Spotify"), Null);
    var b := ActivityRoom(CreateSubscriptionKey(Str(u), Str("spotify"), Undefined));
    assert a == "activity:" + u + ":" + "Spotify";
    assert b == "activity:" + u + ":" + "spotify";
    assert a[|"activity:" + u + ":"|] != b[|"activity:" + u + ":"|];
  }
}
