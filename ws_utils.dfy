/** websocket/utils.js: the validators, key builders, cache test, activity filters and
    fan-out helpers. The clock read of `isCacheExpired` and `createActivityData` is
    the parameter `now`. */
module WsUtils {
  import opened Wrappers
  import opened Seqs
  import opened Strings
  import opened JsValue
  import opened Helpers
  import opened UserCache

  // ---------------------------------------------------------------------------
  // validateUserId: /^\d{17,19}$/

  predicate IsDigit(c: char) {
    '0' <= c <= '9'
  }

  predicate AllDigits(s: string) {
    forall i :: 0 <= i < |s| ==> IsDigit(s[i])
  }

  /** The length of the run of digits at the front of `s`, as `\d{...}` consumes it. */
  function LeadingDigits(s: string): (n: nat)
    ensures n <= |s|
    ensures forall i :: 0 <= i < n ==> IsDigit(s[i])
    ensures n < |s| ==> !IsDigit(s[n])
  {
    if s == [] || !IsDigit(s[0]) then 0 else 1 + LeadingDigits(s[1..])
  }

  /** The regular expression anchored at both ends: 17 to 19 digits and then the end of
      the input (`$` without the `m` flag matches only there). */
  function ValidateUserId(s: string): (r: bool)
    ensures r <==> 17 <= |s| <= 19 && AllDigits(s)
  {
    var n := LeadingDigits(s);
    17 <= n <= 19 && n == |s|
  }

  /** The test applied to the `userId` a client sends. Only strings are considered;
      `RegExp.prototype.test` would first convert other values to strings. */
  predicate ValidId(v: Value) {
    v.Str? && ValidateUserId(v.s)
  }

  /** A valid id is never empty, so `!userId` is always false for it. */
  lemma ValidIdTruthy(v: Value)
    requires ValidId(v)
    ensures Truthy(v)
  {
  }

  // ---------------------------------------------------------------------------
  // validateSubscriptionData

  /** The `subscribe` payload: a bare string, an object (its `updateTypes` is `None` when
      falsy or absent), or anything else. */
  datatype SubscribeData =
    | TextData(text: string)
    | ObjectData(userId: Value, updateTypes: Option<seq<Value>>)
    | OtherData

  /** The validator's result; `Unusable` is the bare `{ valid: false }`. */
  datatype SubscriptionCheck =
    | SubscriptionCheck(userId: Value, updateTypes: seq<Value>, valid: bool)
    | Unusable

  predicate Accepted(c: SubscriptionCheck) {
    c.SubscriptionCheck? && c.valid
  }

  function ValidateSubscriptionData(d: SubscribeData): (r: SubscriptionCheck)
    ensures r.SubscriptionCheck? <==> d.TextData? || (d.ObjectData? && Truthy(d.userId))
    ensures r.SubscriptionCheck? ==> r.valid == ValidId(r.userId)
    ensures d.TextData? ==> r.userId == Str(d.text) && r.updateTypes == [Str("all")]
    ensures r.SubscriptionCheck? && d.ObjectData? ==>
      r.userId == d.userId && r.updateTypes == (if d.updateTypes.Some? then d.updateTypes.value else [Str("all")])
  {
    match d
    case TextData(s) => SubscriptionCheck(Str(s), [Str("all")], ValidId(Str(s)))
    case ObjectData(u, ts) =>
      if Truthy(u) then SubscriptionCheck(u, if ts.Some? then ts.value else [Str("all")], ValidId(u))
      else Unusable
    case OtherData => Unusable
  }

  // ---------------------------------------------------------------------------
  // validateUpdateTypes

  const ValidUpdateTypes: seq<string> :=
    ["all", "status", "avatar", "username", "activities", "customStatus", "displayName"]

  predicate IsValidUpdateType(v: Value) {
    v.Str? && v.s in ValidUpdateTypes
  }

  predicate IsInvalidUpdateType(v: Value) {
    !IsValidUpdateType(v)
  }

  datatype UpdateTypesCheck = UpdateTypesCheck(valid: bool, invalidTypes: seq<Value>, validTypes: seq<string>)

  function ValidateUpdateTypes(ts: seq<Value>): (r: UpdateTypesCheck)
    ensures r.valid <==> forall i :: 0 <= i < |ts| ==> IsValidUpdateType(ts[i])
    ensures forall x :: x in r.invalidTypes <==> x in ts && !IsValidUpdateType(x)
    ensures IsSubsequence(r.invalidTypes, ts)
    ensures r.validTypes == ValidUpdateTypes
  {
    var bad := Filter(ts, IsInvalidUpdateType);
    assert bad != [] ==> bad[0] in bad;
    assert forall i :: 0 <= i < |ts| && IsInvalidUpdateType(ts[i]) ==> ts[i] in bad;
    UpdateTypesCheck(|bad| == 0, bad, ValidUpdateTypes)
  }

  /** The offending types are listed in the order the client gave them. */
  lemma InvalidTypesInOrder(xs: seq<Value>, ys: seq<Value>)
    ensures ValidateUpdateTypes(xs + ys).invalidTypes ==
            ValidateUpdateTypes(xs).invalidTypes + ValidateUpdateTypes(ys).invalidTypes
  {
    FilterAppend(xs, ys, IsInvalidUpdateType);
  }

  /** An empty filter list passes, and so does `['all']`. */
  lemma DefaultTypesValid()
    ensures ValidateUpdateTypes([]).valid
    ensures ValidateUpdateTypes([Str("all")]).valid
  {
  }

  /** `Invalid update types: ${invalidTypes.join(', ')}`. */
  function InvalidTypesMessage(c: UpdateTypesCheck): string {
    "Invalid update types: " + ArrayJoin(c.invalidTypes, ", ")
  }

  // ---------------------------------------------------------------------------
  // validateActivitySubscription

  datatype ActivityRequest = ActivityRequest(userId: Value, activityName: Value, activityType: Value)

  datatype Verdict = Valid | Invalid(error: string)

  const InvalidUserIdMessage: string := "Invalid user ID format"
  const MissingSelectorMessage: string := "Either activityName or activityType must be specified"

  /** A selector is given when the name is truthy or the type is not `undefined`. */
  predicate HasSelector(d: ActivityRequest) {
    Truthy(d.activityName) || !d.activityType.Undefined?
  }

  function ValidateActivitySubscription(d: ActivityRequest): (r: Verdict)
    ensures r == Invalid(InvalidUserIdMessage) <==> !ValidId(d.userId)
    ensures r == Invalid(MissingSelectorMessage) <==> ValidId(d.userId) && !HasSelector(d)
    ensures r == Valid <==> ValidId(d.userId) && HasSelector(d)
  {
    if !Truthy(d.userId) || !ValidId(d.userId) then Invalid(InvalidUserIdMessage)
    else if !Truthy(d.activityName) && d.activityType.Undefined? then Invalid(MissingSelectorMessage)
    else Valid
  }

  /** `activityType: null` is a selector; an empty name without a type is not. The user
      id is checked first, so a bad id hides a missing selector. */
  lemma ActivitySelectorEdges(u: Value)
    requires ValidId(u)
    ensures ValidateActivitySubscription(ActivityRequest(u, Undefined, Null)) == Valid
    ensures ValidateActivitySubscription(ActivityRequest(u, Str(""), Undefined)) == Invalid(MissingSelectorMessage)
    ensures ValidateActivitySubscription(ActivityRequest(Str("42"), Undefined, Undefined)) == Invalid(InvalidUserIdMessage)
  {
  }

  // ---------------------------------------------------------------------------
  // createSubscriptionKey and createCacheKey

  /** `${activityName || `type:${activityType}`}` after `= null` defaults. */
  function Selector(activityName: Value, activityType: Value): string {
    var name := DefaultNull(activityName);
    if Truthy(name) then ToJsString(name) else "type:" + ToJsString(DefaultNull(activityType))
  }

  function CreateSubscriptionKey(userId: Value, activityName: Value, activityType: Value): string {
    ToJsString(userId) + ":" + Selector(activityName, activityType)
  }

  /** A truthy name decides the key on its own; the type is then ignored. */
  lemma NameTakesPrecedence(u: Value, name: Value, t1: Value, t2: Value)
    requires Truthy(name)
    ensures CreateSubscriptionKey(u, name, t1) == CreateSubscriptionKey(u, name, t2)
  {
  }

  /** A name that looks like a type selector shares the key of that type, and a missing
      type reads as `null`. */
  lemma SubscriptionKeyCollisions(u: Value)
    ensures CreateSubscriptionKey(u, Str("type:2"), Undefined) == CreateSubscriptionKey(u, Null, Num(2))
    ensures CreateSubscriptionKey(u, Undefined, Undefined) == CreateSubscriptionKey(u, Str(""), Null)
  {
    assert IntToString(2) == "2";
  }

  predicate ColonFree(s: string) {
    forall i :: 0 <= i < |s| ==> s[i] != ':'
  }

  /** In `a:x` with a colon-free `a`, the first colon sits right after `a`. */
  lemma FirstColon(a: string, x: string)
    requires ColonFree(a)
    ensures IndexOf(a + ":" + x, ":") == Some(|a|)
  {
    var s := a + ":" + x;
    assert OccursAt(s, ":", |a|) by { assert s[|a|..|a| + 1] == [s[|a|]]; }
    forall j | 0 <= j < |a| ensures !OccursAt(s, ":", j) {
      assert s[j..j + 1] == [a[j]];
    }
  }

  /** The part before the first colon identifies a colon-free prefix. */
  lemma ColonFreePrefix(a: string, b: string, x: string, y: string)
    requires ColonFree(a) && ColonFree(b)
    requires a + ":" + x == b + ":" + y
    ensures a == b && x == y
  {
    FirstColon(a, x);
    FirstColon(b, y);
    var s := a + ":" + x;
    assert a == s[..|a|] && x == s[|a| + 1..];
    assert b == s[..|b|] && y == s[|b| + 1..];
  }

  /** Valid user ids contain no colon, so subscription keys of different users never meet. */
  lemma SubscriptionKeysSeparateUsers(u1: Value, u2: Value, n1: Value, t1: Value, n2: Value, t2: Value)
    requires ValidId(u1) && ValidId(u2) && u1 != u2
    ensures CreateSubscriptionKey(u1, n1, t1) != CreateSubscriptionKey(u2, n2, t2)
  {
    if CreateSubscriptionKey(u1, n1, t1) == CreateSubscriptionKey(u2, n2, t2) {
      ColonFreePrefix(u1.s, u2.s, Selector(n1, t1), Selector(n2, t2));
    }
  }

  /** `${prefix}:${userId}`, with `prefix = 'user'` by default. */
  function CreateCacheKey(userId: string, prefix: string): string {
    prefix + ":" + userId
  }

  function UserCacheKey(userId: string): string {
    CreateCacheKey(userId, "user")
  }

  /** Different users have different cache keys. */
  lemma CacheKeyInjective(a: string, b: string, prefix: string)
    requires CreateCacheKey(a, prefix) == CreateCacheKey(b, prefix)
    ensures a == b
  {
    var k := CreateCacheKey(a, prefix);
    assert a == k[|prefix| + 1..];
    assert b == CreateCacheKey(b, prefix)[|prefix| + 1..];
  }

  // ---------------------------------------------------------------------------
  // isCacheExpired

  /** A missing entry is expired; otherwise it is expired when strictly older than `ttl`. */
  function IsCacheExpired(cached: Option<CacheEntry>, ttl: int, now: int): (r: bool)
    ensures cached.None? ==> r
    ensures cached.Some? ==> (r <==> now - cached.value.timestamp > ttl)
  {
    if cached.None? then true else now - cached.value.timestamp > ttl
  }

  /** With the cache's own TTL, an entry is unexpired exactly when the sweep keeps it, and a
      read hit is unexpired; the converse fails only at age exactly `CACHE_TTL`. */
  lemma ExpiryAgreesWithSweep(cached: Option<CacheEntry>, now: int)
    ensures cached.Some? ==> (IsCacheExpired(cached, CacheTtl, now) <==> IsStale(cached.value, now))
    ensures IsHit(cached, now) ==> !IsCacheExpired(cached, CacheTtl, now)
    ensures !IsCacheExpired(cached, CacheTtl, now) && !IsHit(cached, now) ==> now - cached.value.timestamp == CacheTtl
  {
  }

  // ---------------------------------------------------------------------------
  // filterActivitiesByName and filterActivitiesByType

  function FilterActivitiesByName(acts: seq<ActivityView>, activityName: string): (r: seq<ActivityView>)
    ensures forall v :: v in r <==> v in acts && Lower(v.name) == Lower(activityName)
    ensures IsSubsequence(r, acts)
  {
    Filter(acts, (v: ActivityView) => Lower(v.name) == Lower(activityName))
  }

  /** The name filter ignores the case of the requested name. */
  lemma NameFilterIgnoresCase(acts: seq<ActivityView>, activityName: string)
    ensures FilterActivitiesByName(acts, activityName) == FilterActivitiesByName(acts, Lower(activityName))
  {
    LowerIdempotent(activityName);
    assert ((v: ActivityView) => Lower(v.name) == Lower(activityName)) ==
           ((v: ActivityView) => Lower(v.name) == Lower(Lower(activityName)));
  }

  /** `activity.type === activityType`: only the number itself selects. */
  function FilterActivitiesByType(acts: seq<ActivityView>, activityType: Value): (r: seq<ActivityView>)
    ensures forall v :: v in r <==> v in acts && Num(v.activityType) == activityType
    ensures IsSubsequence(r, acts)
  {
    Filter(acts, (v: ActivityView) => Num(v.activityType) == activityType)
  }

  /** Strict equality: a type given as a string, or as `null`, selects nothing. */
  lemma TypeFilterIsStrict(acts: seq<ActivityView>, activityType: Value)
    requires !activityType.Num?
    ensures FilterActivitiesByType(acts, activityType) == []
  {
  }

  // ---------------------------------------------------------------------------
  // createActivityData, shouldUpdateClient, createUserUpdateData, formatErrorResponse

  datatype ActivityData = ActivityData(
    userId: string,
    username: string,
    displayName: Option<string>,
    status: string,
    activities: seq<ActivityView>,
    timestamp: int)

  function CreateActivityData(userData: UserData, filtered: seq<ActivityView>, now: int): (r: ActivityData)
    ensures r.userId == userData.id && r.status == userData.status && r.activities == filtered
  {
    ActivityData(userData.id, userData.username, userData.displayName, userData.status, filtered, now)
  }

  /** `updateFilters.includes('all') || (updateType && updateFilters.includes(updateType))`. */
  predicate ShouldUpdateClient(filters: seq<Value>, updateType: Option<string>) {
    Str("all") in filters || (Present(updateType) && Str(updateType.value) in filters)
  }

  /** An `'all'` subscriber receives every update, an untyped update reaches only `'all'`
      subscribers, and a typed one reaches the subscribers that list that type. */
  lemma ShouldUpdateClientCases(filters: seq<Value>, t: string)
    ensures Str("all") in filters ==> ShouldUpdateClient(filters, Some(t)) && ShouldUpdateClient(filters, None)
    ensures ShouldUpdateClient(filters, None) <==> Str("all") in filters
    ensures t != "" ==> (ShouldUpdateClient(filters, Some(t)) <==> Str("all") in filters || Str(t) in filters)
  {
  }

  /** `updateType || 'all'`. */
  function UpdateTag(updateType: Option<string>): (r: string)
    ensures r != ""
    ensures Present(updateType) ==> r == updateType.value
  {
    if Present(updateType) then updateType.value else "all"
  }

  /** `{...userData, updateType: updateType || 'all'}`. */
  datatype UserUpdate = UserUpdate(data: UserData, updateType: string)

  function CreateUserUpdateData(userData: UserData, updateType: Option<string>): (r: UserUpdate)
    ensures r.data == userData
    ensures r.updateType == "all" <==> !Present(updateType) || updateType.value == "all"
  {
    UserUpdate(userData, UpdateTag(updateType))
  }

  /** `{message, code, ...additionalData}`; the optional keys are the ones callers add. */
  datatype ErrorPayload = ErrorPayload(message: string, code: string, userId: Option<Value>, validTypes: Option<seq<string>>)

  function FormatErrorResponse(message: string, code: string, userId: Option<Value>, validTypes: Option<seq<string>>): (r: ErrorPayload)
    ensures r.message == message && r.code == code
  {
    ErrorPayload(message, code, userId, validTypes)
  }
}
