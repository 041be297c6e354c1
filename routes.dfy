/** The `/user/:userId` handler of routes/index.js:70-132 (gates, cache read-through and
    error mapping) and the memo of the `/health` handler (routes/index.js:134-166). The
    health figures themselves are an input; only the 30-second memo is modelled. */
module Routes {
  import opened Wrappers
  import opened Discord
  import opened Helpers
  import opened UserCache
  import opened WsUtils

  datatype Body = UserBody(data: UserData) | ErrorBody(error: string, details: string)

  datatype Response = Response(status: int, body: Body)

  /** The three checks made before anything is read, in order. */
  function Gate(userId: string, optedOut: set<string>, ready: bool): (r: Option<Response>)
    ensures r.None? <==> ValidateUserId(userId) && userId !in optedOut && ready
  {
    if !ValidateUserId(userId) then
      Some(Response(400, ErrorBody("Invalid user ID format", "User ID must be a valid Discord snowflake (17-19 digits)")))
    else if userId in optedOut then
      Some(Response(403, ErrorBody("User has opted out of API exposure",
        "This user has chosen not to share their presence/activity via the API.")))
    else if !ready then
      Some(Response(503, ErrorBody("Bot is not ready yet", "Please wait for the bot to connect to Discord")))
    else None
  }

  /** An invalid id is refused first, then an opted-out user, then an unready bot. */
  lemma GateOrder(userId: string, optedOut: set<string>, ready: bool)
    ensures !ValidateUserId(userId) ==> Gate(userId, optedOut, ready).value.status == 400
    ensures ValidateUserId(userId) && userId in optedOut ==> Gate(userId, optedOut, ready).value.status == 403
    ensures ValidateUserId(userId) && userId !in optedOut && !ready ==> Gate(userId, optedOut, ready).value.status == 503
  {
  }

  /** The `catch`: an unknown member is 404, anything else 500 with the error's message. */
  function FailureResponse(e: Error): (r: Response)
    ensures r.status == 404 <==> e.message == NotFoundMessage
    ensures r.status != 404 ==> r.status == 500 && r.body == ErrorBody("User not found or error occurred", e.message)
  {
    if e.message == NotFoundMessage then
      Response(404, ErrorBody("Member not found in this guild", "User may not be a member of the specified guild"))
    else Response(500, ErrorBody("User not found or error occurred", e.message))
  }

  /** The response and the cache entry written, if any. */
  datatype Served = Served(response: Response, write: Option<CacheEntry>)

  /** The handler after its gates, with `cached` read at `now` and `fetched` the outcome of
      the upstream lookup and formatting (consulted only on a miss). */
  function Lookup(cached: Option<CacheEntry>, now: int, fetched: Result<UserData, Error>): Served {
    if IsHit(cached, now) then Served(Response(200, UserBody(cached.value.data)), None)
    else match fetched
      case Success(d) => Served(Response(200, UserBody(d)), Some(CacheEntry(d, now)))
      case Failure(e) => Served(FailureResponse(e), None)
  }

  function GetUser(userId: string, optedOut: set<string>, ready: bool, cached: Option<CacheEntry>, now: int,
                   fetched: Result<UserData, Error>): Served {
    match Gate(userId, optedOut, ready)
    case Some(refused) => Served(refused, None)
    case None => Lookup(cached, now, fetched)
  }

  /** A refused request reads nothing and writes nothing; a hit is served from the cache
      whatever the upstream would say; a miss stores the data it returns, stamped with the
      time of the request; a failure writes nothing. */
  lemma GetUserOutcomes(userId: string, optedOut: set<string>, ready: bool, cached: Option<CacheEntry>, now: int,
                        fetched: Result<UserData, Error>)
    ensures var r := GetUser(userId, optedOut, ready, cached, now, fetched);
      && (Gate(userId, optedOut, ready).Some? ==> r == Served(Gate(userId, optedOut, ready).value, None))
      && (Gate(userId, optedOut, ready).None? && IsHit(cached, now) ==>
            r == Served(Response(200, UserBody(cached.value.data)), None))
      && (Gate(userId, optedOut, ready).None? && !IsHit(cached, now) && fetched.Success? ==>
            r.response == Response(200, UserBody(fetched.value)) && r.write == Some(CacheEntry(fetched.value, now)))
      && (fetched.Failure? ==> r.write == None)
      && (r.write.Some? ==> r.response == Response(200, UserBody(r.write.value.data)) && r.write.value.timestamp == now)
  {
  }

  /** A hit does not depend on the upstream at all. */
  lemma HitIgnoresUpstream(cached: Option<CacheEntry>, now: int, f1: Result<UserData, Error>, f2: Result<UserData, Error>)
    requires IsHit(cached, now)
    ensures Lookup(cached, now, f1) == Lookup(cached, now, f2)
  {
  }

  // ---------------------------------------------------------------------------
  // The health memo.

  const HealthTtl: int := 30000

  /** The figures the health handler reports, computed outside the model. */
  datatype HealthData = HealthData(botStatus: string, guilds: nat, users: nat, ping: int)

  datatype HealthState = HealthState(memo: Option<HealthData>, stamp: int)

  predicate Fresh(h: HealthState, now: int) {
    h.memo.Some? && now - h.stamp < HealthTtl
  }

  /** What a health request at `now` serves and leaves behind, `computed` being what it
      would compute on a miss. */
  datatype HealthStep = HealthStep(served: HealthData, after: HealthState)

  function Health(h: HealthState, now: int, computed: HealthData): (r: HealthStep)
    ensures Fresh(h, now) ==> r == HealthStep(h.memo.value, h)
    ensures !Fresh(h, now) ==> r == HealthStep(computed, HealthState(Some(computed), now))
  {
    if Fresh(h, now) then HealthStep(h.memo.value, h) else HealthStep(computed, HealthState(Some(computed), now))
  }

  /** A request less than 30 s after a recomputation gets the recomputed object, whatever
      it would compute itself; from 30 s on it gets a new one. */
  lemma HealthMemoWindow(h: HealthState, t1: int, c1: HealthData, t2: int, c2: HealthData)
    requires !Fresh(h, t1) && t1 <= t2
    ensures var s := Health(Health(h, t1, c1).after, t2, c2);
      && (t2 < t1 + HealthTtl ==> s.served == c1 && s.after == HealthState(Some(c1), t1))
      && (t2 >= t1 + HealthTtl ==> s.served == c2 && s.after == HealthState(Some(c2), t2))
  {
  }

  /** The closure's two variables. */
  class HealthMemo {
    var memo: Option<HealthData>
    var stamp: int

    constructor ()
      ensures memo == None && stamp == 0
    {
      memo := None;
      stamp := 0;
    }

    method Serve(now: int, computed: HealthData) returns (served: HealthData)
      modifies this
      ensures Health(old(HealthState(memo, stamp)), now, computed) == HealthStep(served, HealthState(memo, stamp))
    {
      if memo.Some? && now - stamp < HealthTtl {
        served := memo.value;
      } else {
        served := computed;
        memo := Some(computed);
        stamp := now;
      }
    }
  }
}
