/** The debounce coordinator of websocket/index.js:193-219 (copy in index.js:537-566):
    one pending timer per key in `updateDebounceMap`; scheduling a key again cancels its
    timer and arms a new one `DEBOUNCE_DELAY` later; a timer that fires runs its send and
    removes its key. Time is explicit: `now` is the clock and `Fire` the timer callback. */
module Debounce {
  import opened Wrappers
  import opened JsValue
  import opened Helpers
  import opened WsUtils

  const DebounceDelay: int := 1000

  /** The send a timer runs: `sendUserData(userId, null, updateType)` or
      `sendActivityData(userId, null, activityName, activityType)`. */
  datatype Job =
    | SendUser(userId: string, updateType: Option<string>)
    | SendActivity(userId: string, activityName: Value, activityType: Value)

  /** `${userId}:${updateType || 'all'}`. */
  function UserKey(userId: string, updateType: Option<string>): string {
    userId + ":" + UpdateTag(updateType)
  }

  /** `activity:${userId}:${activityName || `type:${activityType}`}`. */
  function ActivityKey(userId: string, activityName: Value, activityType: Value): string {
    "activity:" + userId + ":" + Selector(activityName, activityType)
  }

  function JobKey(j: Job): string {
    match j
    case SendUser(u, t) => UserKey(u, t)
    case SendActivity(u, n, t) => ActivityKey(u, n, t)
  }

  datatype Timer = Timer(deadline: int, job: Job)

  /** The timer map after `debounced...(job)` at time `now`: the key's old timer, if any,
      is replaced by one that runs `job` at `now + DEBOUNCE_DELAY`; other keys are kept. */
  function Scheduled(p: map<string, Timer>, job: Job, now: int): (r: map<string, Timer>)
    ensures r.Keys == p.Keys + {JobKey(job)}
    ensures r[JobKey(job)] == Timer(now + DebounceDelay, job)
    ensures forall k :: k in p && k != JobKey(job) ==> r[k] == p[k]
  {
    p[JobKey(job) := Timer(now + DebounceDelay, job)]
  }

  predicate Due(p: map<string, Timer>, key: string, now: int) {
    key in p && p[key].deadline <= now
  }

  /** What the timer of `key` does at time `now`: the job it runs and the map afterwards.
      A key without a timer, or whose timer is not yet due, does nothing. */
  datatype Firing = Firing(ran: Option<Job>, pending: map<string, Timer>)

  function Fired(p: map<string, Timer>, key: string, now: int): (r: Firing)
    ensures r.ran.Some? <==> Due(p, key, now)
    ensures Due(p, key, now) ==> r.ran == Some(p[key].job) && r.pending == p - {key}
    ensures !Due(p, key, now) ==> r.pending == p
  {
    if Due(p, key, now) then Firing(Some(p[key].job), p - {key}) else Firing(None, p)
  }

  /** The map after scheduling every job of `jobs`, in order, at time `now`. */
  function ScheduleAll(p: map<string, Timer>, jobs: seq<Job>, now: int): (r: map<string, Timer>)
    decreases |jobs|
  {
    if jobs == [] then p else Scheduled(ScheduleAll(p, jobs[..|jobs| - 1], now), jobs[|jobs| - 1], now)
  }

  function KeysOf(jobs: seq<Job>): set<string> {
    set i | 0 <= i < |jobs| :: JobKey(jobs[i])
  }

  lemma KeysOfSnoc(jobs: seq<Job>)
    requires jobs != []
    ensures KeysOf(jobs) == KeysOf(jobs[..|jobs| - 1]) + {JobKey(jobs[|jobs| - 1])}
  {
    var init := jobs[..|jobs| - 1];
    forall k | k in KeysOf(jobs) ensures k in KeysOf(init) + {JobKey(jobs[|jobs| - 1])} {
      var i :| 0 <= i < |jobs| && JobKey(jobs[i]) == k;
      if i < |init| { assert JobKey(init[i]) == k; }
    }
    forall k | k in KeysOf(init) ensures k in KeysOf(jobs) {
      var i :| 0 <= i < |init| && JobKey(init[i]) == k;
      assert JobKey(jobs[i]) == k;
    }
  }

  /** After a batch the pending keys are the old ones plus the keys of the batch. */
  lemma {:induction false} ScheduleAllKeys(p: map<string, Timer>, jobs: seq<Job>, now: int)
    ensures ScheduleAll(p, jobs, now).Keys == p.Keys + KeysOf(jobs)
    decreases |jobs|
  {
    if jobs != [] {
      ScheduleAllKeys(p, jobs[..|jobs| - 1], now);
      KeysOfSnoc(jobs);
    }
  }

  /** The timer of each key of the batch runs the last job scheduled under that key, at
      `now + DEBOUNCE_DELAY`. */
  lemma {:induction false} ScheduleAllLastWins(p: map<string, Timer>, jobs: seq<Job>, now: int, i: nat)
    requires i < |jobs|
    requires forall j :: i < j < |jobs| ==> JobKey(jobs[j]) != JobKey(jobs[i])
    ensures JobKey(jobs[i]) in ScheduleAll(p, jobs, now)
    ensures ScheduleAll(p, jobs, now)[JobKey(jobs[i])] == Timer(now + DebounceDelay, jobs[i])
    decreases |jobs|
  {
    var init := jobs[..|jobs| - 1];
    if i < |init| {
      ScheduleAllLastWins(p, init, now, i);
      assert jobs[i] == init[i];
    }
  }

  /** Every key of the batch has a timer due `DEBOUNCE_DELAY` after the batch, running a
      job of that key. */
  lemma {:induction false} ScheduleAllArms(p: map<string, Timer>, jobs: seq<Job>, now: int, i: nat)
    requires i < |jobs|
    ensures JobKey(jobs[i]) in ScheduleAll(p, jobs, now)
    ensures ScheduleAll(p, jobs, now)[JobKey(jobs[i])].deadline == now + DebounceDelay
    ensures JobKey(ScheduleAll(p, jobs, now)[JobKey(jobs[i])].job) == JobKey(jobs[i])
    decreases |jobs|
  {
    var init := jobs[..|jobs| - 1];
    var last := jobs[|jobs| - 1];
    var q := ScheduleAll(p, init, now);
    assert ScheduleAll(p, jobs, now) == Scheduled(q, last, now);
    if JobKey(last) != JobKey(jobs[i]) {
      assert i < |init| && jobs[i] == init[i];
      ScheduleAllArms(p, init, now, i);
      assert Scheduled(q, last, now)[JobKey(jobs[i])] == q[JobKey(jobs[i])];
    }
  }

  /** Keys outside the batch keep their timers. */
  lemma {:induction false} ScheduleAllKeepsOthers(p: map<string, Timer>, jobs: seq<Job>, now: int, k: string)
    requires k in p && forall i :: 0 <= i < |jobs| ==> JobKey(jobs[i]) != k
    ensures k in ScheduleAll(p, jobs, now) && ScheduleAll(p, jobs, now)[k] == p[k]
    decreases |jobs|
  {
    if jobs != [] {
      ScheduleAllKeepsOthers(p, jobs[..|jobs| - 1], now, k);
    }
  }

  // ---------------------------------------------------------------------------
  // Keys.

  /** A null update type and `'all'` share a key, so the later of the two wins. */
  lemma NullAndAllShareKey(u: string)
    ensures UserKey(u, None) == UserKey(u, Some("all"))
    ensures JobKey(SendUser(u, None)) == JobKey(SendUser(u, Some("all")))
  {
  }

  /** For one user, two user keys meet exactly when their `updateType || 'all'` tags do. */
  lemma UserKeyByTag(u: string, t1: Option<string>, t2: Option<string>)
    ensures UserKey(u, t1) == UserKey(u, t2) <==> UpdateTag(t1) == UpdateTag(t2)
  {
    if UserKey(u, t1) == UserKey(u, t2) {
      assert UpdateTag(t1) == UserKey(u, t1)[|u| + 1..];
      assert UpdateTag(t2) == UserKey(u, t2)[|u| + 1..];
    }
  }

  /** Activity keys start with `activity:`, and a user key of a numeric id starts with a
      digit or a colon, so the two families never collide. */
  lemma UserAndActivityKeysDisjoint(u1: string, t: Option<string>, u2: string, n: Value, ty: Value)
    requires AllDigits(u1)
    ensures UserKey(u1, t) != ActivityKey(u2, n, ty)
  {
    assert ActivityKey(u2, n, ty)[0] == 'a';
    if u1 == [] {
      assert UserKey(u1, t)[0] == ':';
    } else {
      assert UserKey(u1, t)[0] == u1[0];
    }
  }

  // ---------------------------------------------------------------------------
  // Cancel and re-arm.

  /** Scheduling the same key twice leaves one timer, the second one. */
  lemma RescheduleReplaces(p: map<string, Timer>, j1: Job, t1: int, j2: Job, t2: int)
    requires JobKey(j1) == JobKey(j2)
    ensures Scheduled(Scheduled(p, j1, t1), j2, t2) == Scheduled(p, j2, t2)
  {
  }

  /** A timer armed at `now` does not fire before `now + DEBOUNCE_DELAY`. */
  lemma NotBeforeDelay(p: map<string, Timer>, job: Job, now: int, t: int)
    requires t < now + DebounceDelay
    ensures Fired(Scheduled(p, job, now), JobKey(job), t).ran == None
  {
  }

  /** Once due, the timer runs its job once; its key is gone, so the next firing does nothing. */
  lemma FiresOnce(p: map<string, Timer>, job: Job, now: int, t: int, t2: int)
    requires now + DebounceDelay <= t
    ensures Fired(Scheduled(p, job, now), JobKey(job), t).ran == Some(job)
    ensures JobKey(job) !in Fired(Scheduled(p, job, now), JobKey(job), t).pending
    ensures Fired(Fired(Scheduled(p, job, now), JobKey(job), t).pending, JobKey(job), t2).ran == None
  {
  }

  /** One arming of a timer: the job and the time of the call. */
  datatype Arm = Arm(job: Job, at: int)

  function Burst(p: map<string, Timer>, arms: seq<Arm>): (r: map<string, Timer>)
    decreases |arms|
  {
    if arms == [] then p else Scheduled(Burst(p, arms[..|arms| - 1]), arms[|arms| - 1].job, arms[|arms| - 1].at)
  }

  /** A burst of calls under one key leaves a single timer that runs the last call's job
      `DEBOUNCE_DELAY` after the last call. */
  lemma {:induction false} BurstCoalesces(p: map<string, Timer>, arms: seq<Arm>, key: string)
    requires |arms| > 0
    requires forall i :: 0 <= i < |arms| ==> JobKey(arms[i].job) == key
    ensures key in Burst(p, arms)
    ensures Burst(p, arms)[key] == Timer(arms[|arms| - 1].at + DebounceDelay, arms[|arms| - 1].job)
    ensures forall k :: k != key ==> (k in Burst(p, arms) <==> k in p) && (k in p ==> Burst(p, arms)[k] == p[k])
    decreases |arms|
  {
    var init := arms[..|arms| - 1];
    if |init| > 0 {
      BurstCoalesces(p, init, key);
    }
  }

  /** After a burst of calls under one key, a firing before the last call's deadline runs
      nothing, and one at or after it runs exactly the last job. `BurstHoldsOff` states
      what happens to firings between the calls. */
  lemma {:induction false} BurstFiresLastOnly(p: map<string, Timer>, arms: seq<Arm>, key: string, t: int)
    requires |arms| > 0
    requires forall i :: 0 <= i < |arms| ==> JobKey(arms[i].job) == key
    ensures t < arms[|arms| - 1].at + DebounceDelay ==> Fired(Burst(p, arms), key, t).ran == None
    ensures t >= arms[|arms| - 1].at + DebounceDelay ==> Fired(Burst(p, arms), key, t).ran == Some(arms[|arms| - 1].job)
  {
    BurstCoalesces(p, arms, key);
  }

  /** Calls less than `DEBOUNCE_DELAY` apart hold the timer off: a firing of the key
      after call `k` and before call `k + 1` runs nothing and leaves the timers as they
      were, so the burst carries on as if the firing had not happened. */
  lemma BurstHoldsOff(p: map<string, Timer>, arms: seq<Arm>, key: string, k: nat, t: int)
    requires forall i :: 0 <= i < |arms| ==> JobKey(arms[i].job) == key
    requires forall i :: 0 <= i < |arms| - 1 ==> arms[i + 1].at - arms[i].at < DebounceDelay
    requires k + 1 < |arms| && t < arms[k + 1].at
    ensures Fired(Burst(p, arms[..k + 1]), key, t) == Firing(None, Burst(p, arms[..k + 1]))
  {
    var prefix := arms[..k + 1];
    assert forall i :: 0 <= i < |prefix| ==> prefix[i] == arms[i];
    BurstCoalesces(p, prefix, key);
    assert prefix[|prefix| - 1] == arms[k];
  }

  // ---------------------------------------------------------------------------
  // A burst as a trace: calls interleaved with firings of the burst's key.

  datatype Event = Call(arm: Arm) | Tick(at: int)

  /** The timers after a trace and the jobs its firings ran, in order. */
  datatype Trace = Trace(pending: map<string, Timer>, ran: seq<Job>)

  function Replay(p: map<string, Timer>, evs: seq<Event>, key: string): Trace
    decreases |evs|
  {
    if evs == [] then Trace(p, [])
    else
      var r := Replay(p, evs[..|evs| - 1], key);
      match evs[|evs| - 1]
      case Call(a) => Trace(Scheduled(r.pending, a.job, a.at), r.ran)
      case Tick(t) =>
        var f := Fired(r.pending, key, t);
        Trace(f.pending, r.ran + (if f.ran.Some? then [f.ran.value] else []))
  }

  /** The calls of a trace, in order. */
  function Calls(evs: seq<Event>): (r: seq<Arm>)
    ensures |r| <= |evs|
    decreases |evs|
  {
    if evs == [] then []
    else Calls(evs[..|evs| - 1]) + (if evs[|evs| - 1].Call? then [evs[|evs| - 1].arm] else [])
  }

  /** Every call of the trace is under `key`. */
  predicate OneKey(evs: seq<Event>, key: string) {
    forall i :: 0 <= i < |evs| && evs[i].Call? ==> JobKey(evs[i].arm.job) == key
  }

  /** A firing at `t` after the events `before` comes before the deadline of the latest
      call among them. */
  predicate BeforeDeadline(before: seq<Event>, t: int) {
    var cs := Calls(before);
    cs != [] && t < cs[|cs| - 1].at + DebounceDelay
  }

  predicate EarlyTicks(evs: seq<Event>) {
    forall i :: 0 <= i < |evs| && evs[i].Tick? ==> BeforeDeadline(evs[..i], evs[i].at)
  }

  lemma {:induction false} CallsKeys(evs: seq<Event>, key: string)
    requires OneKey(evs, key)
    ensures forall i :: 0 <= i < |Calls(evs)| ==> JobKey(Calls(evs)[i].job) == key
    decreases |evs|
  {
    if evs != [] {
      var init := evs[..|evs| - 1];
      assert forall i :: 0 <= i < |init| ==> init[i] == evs[i];
      CallsKeys(init, key);
    }
  }

  /** The conditions on a trace hold of its prefix without the last event. */
  lemma TracePrefix(evs: seq<Event>, key: string)
    requires evs != [] && OneKey(evs, key) && EarlyTicks(evs)
    ensures OneKey(evs[..|evs| - 1], key) && EarlyTicks(evs[..|evs| - 1])
    ensures evs[|evs| - 1].Tick? ==> BeforeDeadline(evs[..|evs| - 1], evs[|evs| - 1].at)
  {
    var init := evs[..|evs| - 1];
    assert forall i :: 0 <= i < |init| ==> init[i] == evs[i] && init[..i] == evs[..i];
  }

  /** Every firing of a trace before the deadline of the latest call runs nothing: the
      firings leave the timers exactly as the calls alone arm them. */
  lemma {:induction false} TraceHoldsOff(p: map<string, Timer>, evs: seq<Event>, key: string)
    requires OneKey(evs, key) && EarlyTicks(evs)
    ensures Replay(p, evs, key).ran == []
    ensures Replay(p, evs, key).pending == Burst(p, Calls(evs))
    decreases |evs|
  {
    if evs != [] {
      var n := |evs| - 1;
      var init := evs[..n];
      TracePrefix(evs, key);
      TraceHoldsOff(p, init, key);
      var cs := Calls(init);
      match evs[n]
      case Call(a) =>
        assert Calls(evs) == cs + [a];
        assert (cs + [a])[..|cs|] == cs;
      case Tick(t) =>
        assert Calls(evs) == cs;
        CallsKeys(init, key);
        BurstCoalesces(p, cs, key);
    }
  }

  /** After such a trace, the first firing at or past the last call's deadline runs the
      last call's job, and only it. */
  lemma TraceRunsLastJob(p: map<string, Timer>, evs: seq<Event>, key: string, t: int)
    requires OneKey(evs, key) && EarlyTicks(evs)
    requires Calls(evs) != [] && t >= Calls(evs)[|Calls(evs)| - 1].at + DebounceDelay
    ensures Replay(p, evs + [Tick(t)], key).ran == [Calls(evs)[|Calls(evs)| - 1].job]
    ensures key !in Replay(p, evs + [Tick(t)], key).pending
  {
    TraceHoldsOff(p, evs, key);
    CallsKeys(evs, key);
    BurstCoalesces(p, Calls(evs), key);
    assert (evs + [Tick(t)])[..|evs|] == evs;
  }

  /** `updateDebounceMap` with its two operations. */
  class Debouncer {
    var pending: map<string, Timer>

    constructor ()
      ensures pending == map[]
    {
      pending := map[];
    }

    /** `debouncedSendUserData` / `debouncedSendActivityData`. */
    method Schedule(job: Job, now: int)
      modifies this
      ensures pending == Scheduled(old(pending), job, now)
    {
      pending := pending[JobKey(job) := Timer(now + DebounceDelay, job)];
    }

    /** The timer callback of `key` at time `now`. */
    method Fire(key: string, now: int) returns (ran: Option<Job>)
      modifies this
      ensures Fired(old(pending), key, now) == Firing(ran, pending)
    {
      if key in pending && pending[key].deadline <= now {
        ran := Some(pending[key].job);
        pending := pending - {key};
      } else {
        ran := None;
      }
    }
  }
}
