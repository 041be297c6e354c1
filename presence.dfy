/** The change detector of discord/presenceHandlers.js: from the prior and next presence (or
    user) it computes the debounced sends to issue, in the order the handler issues them.
    Comparisons go through `deepEqual` on the plain-object encodings of the activities,
    exactly as the handler does; the lemmas of `Discord` turn those into equalities of
    the activities up to their timestamp instants (`Undated`), which deepEqual cannot see. */
module PresenceHandlers {
  import opened Wrappers
  import opened Seqs
  import opened JsValue
  import opened Discord
  import opened Helpers
  import opened Debounce

  function NameOf(a: Activity): string {
    a.name
  }

  function TypeOf(a: Activity): int {
    a.activityType
  }

  function HasName(n: string): Activity -> bool {
    (a: Activity) => a.name == n
  }

  function HasType(t: int): Activity -> bool {
    (a: Activity) => a.activityType == t
  }

  /** `oldPresence?.status`. */
  function OldStatus(prior: Option<RawPresence>): Option<string> {
    if prior.Some? then prior.value.status else None
  }

  /** The user-data sends for a list of change names: one per change, in order. */
  function ChangeJobs(userId: string, changes: seq<string>): (r: seq<Job>)
    ensures |r| == |changes|
    ensures forall i :: 0 <= i < |r| ==> r[i] == SendUser(userId, Some(changes[i]))
  {
    seq(|changes|, i requires 0 <= i < |changes| => SendUser(userId, Some(changes[i])))
  }

  /** `changes.forEach(...)` when something changed, otherwise one call with `fallback`. */
  function UserJobs(userId: string, changes: seq<string>, fallback: Option<string>): seq<Job> {
    if |changes| > 0 then ChangeJobs(userId, changes) else [SendUser(userId, fallback)]
  }

  // ---------------------------------------------------------------------------
  // presenceUpdate

  /** The `changes` array of presenceHandlers.js:8-29. */
  function PresenceChanges(prior: Option<RawPresence>, next: RawPresence): seq<string> {
    var oa := ActivitiesOf(prior);
    var na := next.activities;
    (if OldStatus(prior) != next.status then ["status"] else [])
    + (if !DeepEqual(EncFound(Find(oa, IsCustom)), EncFound(Find(na, IsCustom))) then ["customStatus"] else [])
    + (if !DeepEqual(EncActivities(Filter(oa, NonCustom)), EncActivities(Filter(na, NonCustom))) then ["activities"] else [])
  }

  /** The name loop: one activity send per name (other than "Spotify") whose first
      matching activity differs between the two lists. */
  function NameJobs(userId: string, names: seq<string>, olds: seq<Activity>, news: seq<Activity>): (r: seq<Job>)
    ensures forall j :: j in r ==> j.SendActivity? && j.activityName.Str? && j.activityType == Null
    decreases |names|
  {
    if names == [] then []
    else
      var n := names[0];
      (if n != "Spotify" && !DeepEqual(EncFound(Find(olds, HasName(n))), EncFound(Find(news, HasName(n))))
       then [SendActivity(userId, Str(n), Null)] else [])
      + NameJobs(userId, names[1..], olds, news)
  }

  /** The type loop: one activity send per type whose filtered lists differ. */
  function TypeJobs(userId: string, types: seq<int>, olds: seq<Activity>, news: seq<Activity>): (r: seq<Job>)
    ensures forall j :: j in r ==> j.SendActivity? && j.activityName == Null && j.activityType.Num?
    decreases |types|
  {
    if types == [] then []
    else
      var t := types[0];
      (if !DeepEqual(EncActivities(Filter(olds, HasType(t))), EncActivities(Filter(news, HasType(t))))
       then [SendActivity(userId, Null, Num(t))] else [])
      + TypeJobs(userId, types[1..], olds, news)
  }

  /** The Spotify check that precedes the name loop. */
  function SpotifyJob(userId: string, olds: seq<Activity>, news: seq<Activity>): seq<Job> {
    if !DeepEqual(EncFound(Find(olds, HasName("Spotify"))), EncFound(Find(news, HasName("Spotify"))))
    then [SendActivity(userId, Str("Spotify"), Null)] else []
  }

  /** presenceHandlers.js:39-79, entered only when the full activity lists differ. */
  function ActivityJobs(userId: string, oa: seq<Activity>, na: seq<Activity>): seq<Job> {
    if DeepEqual(EncActivities(oa), EncActivities(na)) then []
    else
      var olds := Filter(oa, NonCustom);
      var news := Filter(na, NonCustom);
      SpotifyJob(userId, olds, news)
      + NameJobs(userId, Unique(Map(olds, NameOf) + Map(news, NameOf)), olds, news)
      + TypeJobs(userId, Unique(Map(olds, TypeOf) + Map(news, TypeOf)), olds, news)
  }

  /** An event the handler acts on: a new presence from the configured guild. */
  predicate Relevant(guildId: string, next: Option<RawPresence>) {
    next.Some? && next.value.guildId == guildId
  }

  /** All sends of one `presenceUpdate`, in the order they are issued. */
  function PresenceJobs(guildId: string, prior: Option<RawPresence>, next: Option<RawPresence>): (r: seq<Job>)
    ensures !Relevant(guildId, next) ==> r == []
  {
    if !Relevant(guildId, next) then []
    else
      var p := next.value;
      UserJobs(p.userId, PresenceChanges(prior, p), None)
      + ActivityJobs(p.userId, ActivitiesOf(prior), p.activities)
  }

  // ---------------------------------------------------------------------------
  // What presenceUpdate promises.

  lemma ChangeJobsMembership(userId: string, changes: seq<string>, c: string)
    ensures SendUser(userId, Some(c)) in ChangeJobs(userId, changes) <==> c in changes
  {
    if c in changes {
      var i :| 0 <= i < |changes| && changes[i] == c;
      assert ChangeJobs(userId, changes)[i] == SendUser(userId, Some(c));
    }
  }

  /** The names of the changes the handler detects, as equalities of the activities. */
  lemma PresenceChangesMeaning(prior: Option<RawPresence>, next: RawPresence)
    ensures "status" in PresenceChanges(prior, next) <==> OldStatus(prior) != next.status
    ensures "customStatus" in PresenceChanges(prior, next) <==>
      UndatedFound(Find(ActivitiesOf(prior), IsCustom)) != UndatedFound(Find(next.activities, IsCustom))
    ensures "activities" in PresenceChanges(prior, next) <==>
      UndatedAll(Filter(ActivitiesOf(prior), NonCustom)) != UndatedAll(Filter(next.activities, NonCustom))
    ensures IsSubsequence(PresenceChanges(prior, next), ["status", "customStatus", "activities"])
  {
    var oa := ActivitiesOf(prior);
    EncFoundEqual(Find(oa, IsCustom), Find(next.activities, IsCustom));
    EncActivitiesEqual(Filter(oa, NonCustom), Filter(next.activities, NonCustom));
    var s := if OldStatus(prior) != next.status then ["status"] else [];
    var c := if UndatedFound(Find(oa, IsCustom)) != UndatedFound(Find(next.activities, IsCustom)) then ["customStatus"] else [];
    var a := if UndatedAll(Filter(oa, NonCustom)) != UndatedAll(Filter(next.activities, NonCustom)) then ["activities"] else [];
    assert PresenceChanges(prior, next) == s + c + a;
    SubsequenceOfThree(s, c, a, "status", "customStatus", "activities");
  }

  lemma SubsequenceOfThree(s: seq<string>, c: seq<string>, a: seq<string>, x: string, y: string, z: string)
    requires s == [] || s == [x]
    requires c == [] || c == [y]
    requires a == [] || a == [z]
    ensures IsSubsequence(s + c + a, [x, y, z])
  {
    var w := [x, y, z];
    assert w[1..] == [y, z] && w[1..][1..] == [z] && w[1..][1..][1..] == [];
    assert IsSubsequence(a, [z]) by {
      if a != [] { assert a[1..] == []; }
    }
    assert IsSubsequence(c + a, [y, z]) by {
      if c != [] { assert (c + a)[0] == y && (c + a)[1..] == a; }
    }
    if s != [] {
      assert (s + c + a)[0] == x && (s + c + a)[1..] == c + a;
    } else {
      assert s + c + a == c + a;
    }
  }

  /** A relevant event issues its user-data sends, then its activity sends. */
  lemma PresenceParts(guildId: string, prior: Option<RawPresence>, next: RawPresence)
    requires next.guildId == guildId
    ensures PresenceJobs(guildId, prior, Some(next)) ==
      UserJobs(next.userId, PresenceChanges(prior, next), None) + ActivityJobs(next.userId, ActivitiesOf(prior), next.activities)
    ensures forall j :: j in UserJobs(next.userId, PresenceChanges(prior, next), None) ==> j.SendUser?
    ensures forall j :: j in ActivityJobs(next.userId, ActivitiesOf(prior), next.activities) ==> j.SendActivity?
  {
  }

  /** In a list of user sends followed by activity sends, no user send follows an
      activity send. */
  lemma UsersBeforeActivities(us: seq<Job>, acts: seq<Job>)
    requires forall j :: j in us ==> j.SendUser?
    requires forall j :: j in acts ==> j.SendActivity?
    ensures forall i, j :: 0 <= i < j < |us + acts| && (us + acts)[j].SendUser? ==> (us + acts)[i].SendUser?
  {
    var jobs := us + acts;
    forall k | |us| <= k < |jobs| ensures jobs[k].SendActivity? {
      assert jobs[k] == acts[k - |us|] && acts[k - |us|] in acts;
    }
    forall i, j | 0 <= i < j < |jobs| && jobs[j].SendUser? ensures jobs[i].SendUser? {
      if j < |us| {
        assert jobs[i] == us[i] && us[i] in us;
      }
    }
  }

  /** The user-data sends come first, each tagged with one change, or a single untagged
      send when nothing changed. */
  lemma PresenceUserSends(guildId: string, prior: Option<RawPresence>, next: RawPresence, c: string)
    requires next.guildId == guildId
    ensures var jobs := PresenceJobs(guildId, prior, Some(next));
      && (SendUser(next.userId, Some(c)) in jobs <==> c in PresenceChanges(prior, next))
      && (SendUser(next.userId, None) in jobs <==> PresenceChanges(prior, next) == [])
      && (forall i, j :: 0 <= i < j < |jobs| && jobs[j].SendUser? ==> jobs[i].SendUser?)
  {
    var u := next.userId;
    var changes := PresenceChanges(prior, next);
    PresenceParts(guildId, prior, next);
    var us := UserJobs(u, changes, None);
    var acts := ActivityJobs(u, ActivitiesOf(prior), next.activities);
    UsersBeforeActivities(us, acts);
    ChangeJobsMembership(u, changes, c);
    if SendUser(u, None) in us + acts {
      assert SendUser(u, None) in us;
    }
  }

  /** `status`, `customStatus` and `activities` are scheduled exactly for the parts that
      changed; an absent old presence differs from any defined new status. */
  lemma PresenceChangeSends(guildId: string, prior: Option<RawPresence>, next: RawPresence)
    requires next.guildId == guildId
    ensures var jobs := PresenceJobs(guildId, prior, Some(next));
      && (SendUser(next.userId, Some("status")) in jobs <==> OldStatus(prior) != next.status)
      && (SendUser(next.userId, Some("customStatus")) in jobs <==>
            UndatedFound(Find(ActivitiesOf(prior), IsCustom)) != UndatedFound(Find(next.activities, IsCustom)))
      && (SendUser(next.userId, Some("activities")) in jobs <==>
            UndatedAll(Filter(ActivitiesOf(prior), NonCustom)) != UndatedAll(Filter(next.activities, NonCustom)))
  {
    PresenceChangesMeaning(prior, next);
    PresenceUserSends(guildId, prior, next, "status");
    PresenceUserSends(guildId, prior, next, "customStatus");
    PresenceUserSends(guildId, prior, next, "activities");
  }

  /** The activity part is empty exactly when the two full lists agree up to instants. */
  lemma ActivityJobsShape(u: string, oa: seq<Activity>, na: seq<Activity>)
    ensures UndatedAll(oa) == UndatedAll(na) ==> ActivityJobs(u, oa, na) == []
    ensures UndatedAll(oa) != UndatedAll(na) ==>
      var olds := Filter(oa, NonCustom);
      var news := Filter(na, NonCustom);
      ActivityJobs(u, oa, na) ==
        SpotifyJob(u, olds, news)
        + NameJobs(u, Unique(Map(olds, NameOf) + Map(news, NameOf)), olds, news)
        + TypeJobs(u, Unique(Map(olds, TypeOf) + Map(news, TypeOf)), olds, news)
  {
    EncActivitiesEqual(oa, na);
  }

  /** Activity sends are issued only when the full activity lists, custom entries
      included, differ other than in their instants. */
  lemma ActivitySendsNeedDifferentLists(guildId: string, prior: Option<RawPresence>, next: RawPresence, j: Job)
    requires next.guildId == guildId
    requires j in PresenceJobs(guildId, prior, Some(next)) && j.SendActivity?
    ensures UndatedAll(ActivitiesOf(prior)) != UndatedAll(next.activities)
  {
    PresenceParts(guildId, prior, next);
    ActivityJobsShape(next.userId, ActivitiesOf(prior), next.activities);
  }

  /** With the same status and the same activities up to their instants, the only send
      is one untagged user-data send. */
  lemma UnchangedPresence(guildId: string, prior: RawPresence, next: RawPresence)
    requires next.guildId == guildId
    requires prior.status == next.status && UndatedAll(prior.activities) == UndatedAll(next.activities)
    ensures PresenceJobs(guildId, Some(prior), Some(next)) == [SendUser(next.userId, None)]
  {
    PresenceParts(guildId, Some(prior), next);
    PresenceChangesMeaning(Some(prior), next);
    ActivityJobsShape(next.userId, prior.activities, next.activities);
    UndatedSelections(prior.activities, next.activities, IsCustom);
    UndatedSelections(prior.activities, next.activities, NonCustom);
    assert PresenceChanges(Some(prior), next) == [];
  }

  /** Lists that agree up to instants still agree after a filter or a find whose
      predicate does not look at the instants. */
  lemma {:induction false} UndatedSelections(xs: seq<Activity>, ys: seq<Activity>, p: Activity -> bool)
    requires UndatedAll(xs) == UndatedAll(ys)
    requires forall a :: p(Undated(a)) == p(a)
    ensures UndatedAll(Filter(xs, p)) == UndatedAll(Filter(ys, p))
    ensures UndatedFound(Find(xs, p)) == UndatedFound(Find(ys, p))
  {
    assert |xs| == |UndatedAll(xs)| == |ys|;
    if xs != [] {
      assert Undated(xs[0]) == UndatedAll(xs)[0] == Undated(ys[0]);
      assert UndatedAll(xs[1..]) == UndatedAll(xs)[1..];
      assert UndatedAll(ys[1..]) == UndatedAll(ys)[1..];
      UndatedSelections(xs[1..], ys[1..], p);
      assert p(xs[0]) == p(ys[0]) by {
        assert p(xs[0]) == p(Undated(xs[0])) && p(ys[0]) == p(Undated(ys[0]));
      }
      if p(xs[0]) {
        UndatedCons(xs[0], Filter(xs[1..], p));
        UndatedCons(ys[0], Filter(ys[1..], p));
      }
    }
    FindIsHeadOfFilter(xs, p);
    FindIsHeadOfFilter(ys, p);
    if Find(xs, p).Some? {
      assert UndatedAll(Filter(xs, p))[0] == Undated(Filter(xs, p)[0]);
      assert UndatedAll(Filter(ys, p))[0] == Undated(Filter(ys, p)[0]);
    }
  }

  lemma UndatedCons(x: Activity, xs: seq<Activity>)
    ensures UndatedAll([x] + xs) == [Undated(x)] + UndatedAll(xs)
  {
    assert forall i :: 0 <= i < |xs| ==> ([x] + xs)[i + 1] == xs[i];
  }

  /** An activity restarted with new instants is no change to the handler: deepEqual
      sees two Dates as equal, so nothing but the untagged user-data send is issued. */
  lemma RestartIsNoChange(guildId: string, prior: RawPresence, next: RawPresence, a: Activity, start: int)
    requires next.guildId == guildId && prior.status == next.status
    requires a.timestamps.Some? && a.timestamps.value.start.Some?
    requires prior.activities == [a]
    requires next.activities == [a.(timestamps := Some(a.timestamps.value.(start := Some(start))))]
    ensures PresenceJobs(guildId, Some(prior), Some(next)) == [SendUser(next.userId, None)]
  {
    assert UndatedAll(prior.activities) == [Undated(a)];
    assert UndatedAll(next.activities) == [Undated(next.activities[0])];
    UnchangedPresence(guildId, prior, next);
  }

  // Activity sends.

  lemma NameJobsMembership(userId: string, names: seq<string>, olds: seq<Activity>, news: seq<Activity>, n: string)
    ensures SendActivity(userId, Str(n), Null) in NameJobs(userId, names, olds, news) <==>
      n in names && n != "Spotify" && UndatedFound(Find(olds, HasName(n))) != UndatedFound(Find(news, HasName(n)))
    decreases |names|
  {
    if names != [] {
      EncFoundEqual(Find(olds, HasName(names[0])), Find(news, HasName(names[0])));
      NameJobsMembership(userId, names[1..], olds, news, n);
      assert names == [names[0]] + names[1..];
    }
  }

  lemma TypeJobsMembership(userId: string, types: seq<int>, olds: seq<Activity>, news: seq<Activity>, t: int)
    ensures SendActivity(userId, Null, Num(t)) in TypeJobs(userId, types, olds, news) <==>
      t in types && UndatedAll(Filter(olds, HasType(t))) != UndatedAll(Filter(news, HasType(t)))
    decreases |types|
  {
    if types != [] {
      EncActivitiesEqual(Filter(olds, HasType(types[0])), Filter(news, HasType(types[0])));
      TypeJobsMembership(userId, types[1..], olds, news, t);
      assert types == [types[0]] + types[1..];
    }
  }

  /** A name absent from a list finds nothing in it. */
  lemma FindAbsentName(xs: seq<Activity>, n: string)
    requires n !in Map(xs, NameOf)
    ensures Find(xs, HasName(n)) == None
  {
  }

  /** A type absent from a list filters it to nothing. */
  lemma FilterAbsentType(xs: seq<Activity>, t: int)
    requires t !in Map(xs, TypeOf)
    ensures Filter(xs, HasType(t)) == []
  {
  }

  /** The name sends of the activity part. */
  lemma ActivityNameSends(u: string, oa: seq<Activity>, na: seq<Activity>, n: string)
    requires n != "Spotify"
    ensures var olds := Filter(oa, NonCustom);
      var news := Filter(na, NonCustom);
      SendActivity(u, Str(n), Null) in ActivityJobs(u, oa, na) <==>
        UndatedAll(oa) != UndatedAll(na) && UndatedFound(Find(olds, HasName(n))) != UndatedFound(Find(news, HasName(n)))
  {
    var olds, news := Filter(oa, NonCustom), Filter(na, NonCustom);
    var names := Unique(Map(olds, NameOf) + Map(news, NameOf));
    ActivityJobsShape(u, oa, na);
    NameJobsMembership(u, names, olds, news, n);
    if n !in names {
      FindAbsentName(olds, n);
      FindAbsentName(news, n);
    }
  }

  /** The type sends of the activity part. */
  lemma ActivityTypeSends(u: string, oa: seq<Activity>, na: seq<Activity>, t: int)
    ensures var olds := Filter(oa, NonCustom);
      var news := Filter(na, NonCustom);
      SendActivity(u, Null, Num(t)) in ActivityJobs(u, oa, na) <==>
        UndatedAll(oa) != UndatedAll(na) && UndatedAll(Filter(olds, HasType(t))) != UndatedAll(Filter(news, HasType(t)))
  {
    var olds, news := Filter(oa, NonCustom), Filter(na, NonCustom);
    var types := Unique(Map(olds, TypeOf) + Map(news, TypeOf));
    ActivityJobsShape(u, oa, na);
    TypeJobsMembership(u, types, olds, news, t);
    if t !in types {
      FilterAbsentType(olds, t);
      FilterAbsentType(news, t);
    }
  }

  /** One send per activity name (other than Spotify) whose first non-custom activity of
      that name differs between the old and the new presence. */
  lemma PresenceNameSends(guildId: string, prior: Option<RawPresence>, next: RawPresence, n: string)
    requires next.guildId == guildId && n != "Spotify"
    ensures var olds := Filter(ActivitiesOf(prior), NonCustom);
      var news := Filter(next.activities, NonCustom);
      SendActivity(next.userId, Str(n), Null) in PresenceJobs(guildId, prior, Some(next)) <==>
        UndatedAll(ActivitiesOf(prior)) != UndatedAll(next.activities) &&
        UndatedFound(Find(olds, HasName(n))) != UndatedFound(Find(news, HasName(n)))
  {
    PresenceParts(guildId, prior, next);
    ActivityNameSends(next.userId, ActivitiesOf(prior), next.activities, n);
  }

  /** One send per activity type whose non-custom activities of that type, as a list,
      differ between the old and the new presence. */
  lemma PresenceTypeSends(guildId: string, prior: Option<RawPresence>, next: RawPresence, t: int)
    requires next.guildId == guildId
    ensures var olds := Filter(ActivitiesOf(prior), NonCustom);
      var news := Filter(next.activities, NonCustom);
      SendActivity(next.userId, Null, Num(t)) in PresenceJobs(guildId, prior, Some(next)) <==>
        UndatedAll(ActivitiesOf(prior)) != UndatedAll(next.activities) &&
        UndatedAll(Filter(olds, HasType(t))) != UndatedAll(Filter(news, HasType(t)))
  {
    PresenceParts(guildId, prior, next);
    ActivityTypeSends(next.userId, ActivitiesOf(prior), next.activities, t);
  }

  /** The Spotify send, when there is one, is the first activity send. */
  lemma SpotifySendFirst(guildId: string, prior: Option<RawPresence>, next: RawPresence)
    requires next.guildId == guildId
    ensures var olds := Filter(ActivitiesOf(prior), NonCustom);
      var news := Filter(next.activities, NonCustom);
      var k := |UserJobs(next.userId, PresenceChanges(prior, next), None)|;
      UndatedAll(ActivitiesOf(prior)) != UndatedAll(next.activities) &&
      UndatedFound(Find(olds, HasName("Spotify"))) != UndatedFound(Find(news, HasName("Spotify"))) ==>
        k < |PresenceJobs(guildId, prior, Some(next))| &&
        PresenceJobs(guildId, prior, Some(next))[k] == SendActivity(next.userId, Str("Spotify"), Null)
  {
    var olds := Filter(ActivitiesOf(prior), NonCustom);
    var news := Filter(next.activities, NonCustom);
    PresenceParts(guildId, prior, next);
    ActivityJobsShape(next.userId, ActivitiesOf(prior), next.activities);
    EncFoundEqual(Find(olds, HasName("Spotify")), Find(news, HasName("Spotify")));
  }

  /** Lists compare by position: swapping two non-custom activities that differ other
      than in their instants schedules an `activities` update even though the same
      activities are present. */
  lemma ReorderIsAChange(guildId: string, prior: RawPresence, next: RawPresence, a: Activity, b: Activity)
    requires next.guildId == guildId && Undated(a) != Undated(b) && NonCustom(a) && NonCustom(b)
    requires prior.activities == [a, b] && next.activities == [b, a]
    ensures SendUser(next.userId, Some("activities")) in PresenceJobs(guildId, Some(prior), Some(next))
  {
    PresenceChangeSends(guildId, Some(prior), next);
    assert Filter([a, b], NonCustom)[0] == a;
    assert Filter([b, a], NonCustom)[0] == b;
    assert UndatedAll(Filter([a, b], NonCustom))[0] != UndatedAll(Filter([b, a], NonCustom))[0];
  }

  // ---------------------------------------------------------------------------
  // userUpdate

  /** The `changes` array of presenceHandlers.js:86-98. */
  function ProfileChanges(prior: RawUser, next: RawUser): seq<string> {
    (if prior.username != next.username then ["username"] else [])
    + (if prior.avatar != next.avatar then ["avatar"] else [])
    + (if prior.globalName != next.globalName then ["displayName"] else [])
  }

  /** All sends of one `userUpdate`. */
  function ProfileJobs(prior: RawUser, next: RawUser): seq<Job> {
    UserJobs(next.id, ProfileChanges(prior, next), Some("all"))
  }

  /** `username`, `avatar` and `displayName` are scheduled exactly for the fields that
      differ, in that order; with no difference the single send is tagged `'all'`. */
  lemma ProfileSends(prior: RawUser, next: RawUser)
    ensures var jobs := ProfileJobs(prior, next);
      && (SendUser(next.id, Some("username")) in jobs <==> prior.username != next.username)
      && (SendUser(next.id, Some("avatar")) in jobs <==> prior.avatar != next.avatar)
      && (SendUser(next.id, Some("displayName")) in jobs <==> prior.globalName != next.globalName)
      && (jobs == [SendUser(next.id, Some("all"))] <==>
            prior.username == next.username && prior.avatar == next.avatar && prior.globalName == next.globalName)
      && IsSubsequence(ProfileChanges(prior, next), ["username", "avatar", "displayName"])
  {
    var cs := ProfileChanges(prior, next);
    ChangeJobsMembership(next.id, cs, "username");
    ChangeJobsMembership(next.id, cs, "avatar");
    ChangeJobsMembership(next.id, cs, "displayName");
    if cs != [] {
      assert ProfileJobs(prior, next)[0] == SendUser(next.id, Some(cs[0]));
      assert cs[0] in cs;
    }
    SubsequenceOfThree(
      if prior.username != next.username then ["username"] else [],
      if prior.avatar != next.avatar then ["avatar"] else [],
      if prior.globalName != next.globalName then ["displayName"] else [],
      "username", "avatar", "displayName");
  }
}
