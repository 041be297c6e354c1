/** The opt-out list of utils/optOut.js (copy in index.js:28-42): a module-level set of
    user ids, written out in full after every change. `persisted` stands for the file's
    contents; reading and writing the file itself is not modelled. */
module OptOut {
  import opened Wrappers

  /** The set after `optOutUser` and `optInUser`. */
  function AfterOptOut(s: set<string>, userId: string): set<string> {
    s + {userId}
  }

  function AfterOptIn(s: set<string>, userId: string): set<string> {
    s - {userId}
  }

  /** `new Set(JSON.parse(...))`, or an empty set when the file does not parse. */
  function Loaded(file: Option<seq<string>>): (r: set<string>)
    ensures file.None? ==> r == {}
    ensures file.Some? ==> forall x :: x in r <==> x in file.value
  {
    if file.Some? then set x | x in file.value else {}
  }

  /** Opting out makes `isOptedOut` true, opting in makes it false, and neither touches
      any other id. */
  lemma OptOutMembership(s: set<string>, userId: string, other: string)
    requires other != userId
    ensures userId in AfterOptOut(s, userId) && userId !in AfterOptIn(s, userId)
    ensures other in AfterOptOut(s, userId) <==> other in s
    ensures other in AfterOptIn(s, userId) <==> other in s
  {
  }

  /** Repeating either operation leaves the set as it is; opting in undoes an opt-out of
      an id that was not in the set. */
  lemma OptOutIdempotent(s: set<string>, userId: string)
    ensures AfterOptOut(AfterOptOut(s, userId), userId) == AfterOptOut(s, userId)
    ensures AfterOptIn(AfterOptIn(s, userId), userId) == AfterOptIn(s, userId)
    ensures userId !in s ==> AfterOptIn(AfterOptOut(s, userId), userId) == s
  {
  }

  class OptOutStore {
    var members: set<string>
    var persisted: set<string>

    constructor (file: Option<seq<string>>)
      ensures members == Loaded(file) && persisted == members
    {
      members := Loaded(file);
      persisted := members;
    }

    predicate IsOptedOut(userId: string)
      reads this
    {
      userId in members
    }

    /** `optOutSet.add(userId); saveOptOutList(optOutSet)`. */
    method OptOutUser(userId: string)
      modifies this
      ensures members == AfterOptOut(old(members), userId)
      ensures persisted == members
    {
      members := members + {userId};
      persisted := members;
    }

    /** `optOutSet.delete(userId); saveOptOutList(optOutSet)`. */
    method OptInUser(userId: string)
      modifies this
      ensures members == AfterOptIn(old(members), userId)
      ensures persisted == members
    {
      members := members - {userId};
      persisted := members;
    }

    /** `refreshOptOutList`: the set is replaced by what the file holds; nothing is written. */
    method Refresh(file: Option<seq<string>>)
      modifies this
      ensures members == Loaded(file)
      ensures persisted == old(persisted)
    {
      members := Loaded(file);
    }
  }
}
