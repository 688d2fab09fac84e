/**
 * The in-memory backend: a map from challenge id to challenge and a map from
 * access code to challenge id, updated in place.
 */
module Memory {
  import opened Wrappers
  import opened Types
  import opened StoreContract

  /**
   * The index addChallenge starts from: when the new code is already indexed
   * under a non-empty id that is stored, the stored challenge's own code is
   * dropped from the index first.
   */
  function CollisionCleared(challenges: map<string, Challenge>, index: map<string, string>, code: string): map<string, string> {
    if code in index && index[code] != "" && index[code] in challenges
    then index - {challenges[index[code]].accessCode}
    else index
  }

  /** The access codes of the expired challenges among the ids `done`. */
  function ExpiredCodesAmong(challenges: map<string, Challenge>, done: set<string>, now: int): set<string> {
    set id | id in done && id in challenges && IsExpired(challenges[id], now) :: challenges[id].accessCode
  }

  /** The challenges a sweep that has visited the ids `done` leaves in place. */
  function Kept(challenges: map<string, Challenge>, done: set<string>, now: int): map<string, Challenge> {
    map id | id in challenges && (id !in done || !IsExpired(challenges[id], now)) :: challenges[id]
  }

  class MemoryStore {
    var challenges: map<string, Challenge>
    var accessCodeIndex: map<string, string>

    function View(): View
      reads this
    {
      StoreContract.View(challenges, accessCodeIndex)
    }

    predicate Valid()
      reads this
    {
      Wellformed(View())
    }

    constructor()
      ensures View() == Empty
      ensures Valid()
    {
      challenges := map[];
      accessCodeIndex := map[];
    }

    /**
     * addChallenge: throws on a stored id; otherwise stores the challenge and
     * points its access code at it, overwriting any colliding index entry.
     */
    method AddChallenge(challenge: Challenge) returns (r: Outcome)
      modifies this
      ensures challenge.id in old(challenges) ==>
        r == Err(AlreadyExists(challenge.id)) && challenges == old(challenges) && accessCodeIndex == old(accessCodeIndex)
      ensures challenge.id !in old(challenges) ==>
        r == Ok(()) &&
        challenges == old(challenges)[challenge.id := challenge] &&
        accessCodeIndex == CollisionCleared(old(challenges), old(accessCodeIndex), challenge.accessCode)[challenge.accessCode := challenge.id]
      ensures old(Valid()) && r.Ok? ==> View() == Added(old(View()), challenge) && Valid()
    {
      if challenge.id in challenges {
        return Err(AlreadyExists(challenge.id));
      }
      if challenge.accessCode in accessCodeIndex {
        var existingChallengeId := accessCodeIndex[challenge.accessCode];
        if existingChallengeId != "" {
          if existingChallengeId in challenges {
            var existingChallenge := challenges[existingChallengeId];
            accessCodeIndex := accessCodeIndex - {existingChallenge.accessCode};
          }
        }
      }
      challenges := challenges[challenge.id := challenge];
      accessCodeIndex := accessCodeIndex[challenge.accessCode := challenge.id];
      r := Ok(());
      if old(Valid()) {
        OverwriteAfterClear(old(accessCodeIndex), old(challenges), challenge);
        AddedWellformed(old(View()), challenge);
      }
    }

    /** Under a consistent index the collision clearing is subsumed by the overwrite. */
    static lemma OverwriteAfterClear(index: map<string, string>, challenges: map<string, Challenge>, c: Challenge)
      requires IndexConsistent(StoreContract.View(challenges, index))
      ensures CollisionCleared(challenges, index, c.accessCode)[c.accessCode := c.id] == index[c.accessCode := c.id]
    {
    }

    method GetChallengeById(id: string) returns (r: Option<Challenge>)
      ensures r == ById(View(), id)
    {
      if id in challenges {
        r := Some(challenges[id]);
      } else {
        r := None;
      }
    }

    /** getChallengeByAccessCode: an index entry naming the empty id finds nothing. */
    method GetChallengeByAccessCode(accessCode: string) returns (r: Option<Challenge>)
      ensures accessCode in accessCodeIndex && accessCodeIndex[accessCode] != "" ==> r == ByCode(View(), accessCode)
      ensures accessCode !in accessCodeIndex || accessCodeIndex[accessCode] == "" ==> r.None?
      ensures r.Some? ==> r == ByCode(View(), accessCode)
    {
      if accessCode in accessCodeIndex && accessCodeIndex[accessCode] != "" {
        r := GetChallengeById(accessCodeIndex[accessCode]);
      } else {
        r := None;
      }
    }

    /**
     * updateChallenge: throws on an unknown id; otherwise replaces the record,
     * moving the index entry when the access code changed.
     */
    method UpdateChallenge(challenge: Challenge) returns (r: Outcome)
      modifies this
      ensures r.Ok? <==> challenge.id in old(challenges)
      ensures r.Err? ==> r == Err(NotFound(challenge.id)) && View() == old(View())
      ensures r.Ok? ==> View() == Updated(old(View()), challenge)
      ensures old(Valid()) ==> Valid()
    {
      if challenge.id !in challenges {
        return Err(NotFound(challenge.id));
      }
      var existingChallenge := challenges[challenge.id];
      if existingChallenge.accessCode != challenge.accessCode {
        if challenge.accessCode in accessCodeIndex {
          var collidingChallengeId := accessCodeIndex[challenge.accessCode];
          if collidingChallengeId != "" && collidingChallengeId != challenge.id {
            accessCodeIndex := accessCodeIndex - {challenge.accessCode};
          }
        }
        accessCodeIndex := accessCodeIndex - {existingChallenge.accessCode};
        accessCodeIndex := accessCodeIndex[challenge.accessCode := challenge.id];
      }
      challenges := challenges[challenge.id := challenge];
      r := Ok(());
      if old(Valid()) {
        UpdatedWellformed(old(View()), challenge);
      }
    }

    method ResetStore()
      modifies this
      ensures View() == Empty
      ensures Valid()
    {
      challenges := map[];
      accessCodeIndex := map[];
    }

    /**
     * cleanupExpiredChallenges at clock reading `now`: visits every stored
     * challenge once and removes each expired one together with the index
     * entry under its access code.
     */
    method CleanupExpiredChallenges(now: int)
      modifies this
      ensures View() == CleanedUp(old(View()), now)
      ensures old(Valid()) ==> Valid()
    {
      var pending := challenges.Keys;
      ghost var done: set<string> := {};
      ghost var removed: set<string> := {};
      while pending != {}
        invariant Swept(old(challenges), old(accessCodeIndex), pending, done, removed, challenges, accessCodeIndex, now)
        decreases |pending|
      {
        var id :| id in pending;
        ghost var before := StoreContract.View(challenges, accessCodeIndex);
        ghost var removedBefore := removed;
        SweepVisits(old(challenges), old(accessCodeIndex), pending, done, removed, challenges, accessCodeIndex, id, now);
        var challenge := challenges[id];
        if IsExpired(challenge, now) {
          accessCodeIndex := accessCodeIndex - {challenge.accessCode};
          challenges := challenges - {id};
          removed := removed + {challenge.accessCode};
        }
        SweepStep(old(challenges), old(accessCodeIndex), pending, done, removedBefore, before.challenges, before.index,
                  id, now, removed, challenges, accessCodeIndex);
        pending := pending - {id};
        done := done + {id};
      }
      SweepFinished(old(challenges), old(accessCodeIndex), done, removed, challenges, accessCodeIndex, now);
      if old(Valid()) {
        CleanedUpWellformed(old(View()), now);
      }
    }
  }

  /**
   * The state of the cleanup sweep over `original` once the ids `done` have
   * been visited and the ids `pending` have not.
   */
  predicate Swept(original: map<string, Challenge>, originalIndex: map<string, string>,
                  pending: set<string>, done: set<string>, removed: set<string>,
                  challenges: map<string, Challenge>, index: map<string, string>, now: int)
  {
    pending !! done && pending + done == original.Keys &&
    challenges == Kept(original, done, now) &&
    removed == ExpiredCodesAmong(original, done, now) &&
    index == originalIndex - removed
  }

  /** An id not yet visited is still in place, unchanged. */
  lemma SweepVisits(original: map<string, Challenge>, originalIndex: map<string, string>,
                    pending: set<string>, done: set<string>, removed: set<string>,
                    challenges: map<string, Challenge>, index: map<string, string>, id: string, now: int)
    requires Swept(original, originalIndex, pending, done, removed, challenges, index, now)
    requires id in pending
    ensures id in challenges && challenges[id] == original[id]
  {
  }

  /** Visiting one more id: an expired challenge and its code go, anything else stays. */
  lemma SweepStep(original: map<string, Challenge>, originalIndex: map<string, string>,
                  pending: set<string>, done: set<string>, removed: set<string>,
                  challenges: map<string, Challenge>, index: map<string, string>, id: string, now: int,
                  removed': set<string>, challenges': map<string, Challenge>, index': map<string, string>)
    requires Swept(original, originalIndex, pending, done, removed, challenges, index, now)
    requires id in pending
    requires IsExpired(original[id], now) ==>
      removed' == removed + {original[id].accessCode} && challenges' == challenges - {id} &&
      index' == index - {original[id].accessCode}
    requires !IsExpired(original[id], now) ==> removed' == removed && challenges' == challenges && index' == index
    ensures Swept(original, originalIndex, pending - {id}, done + {id}, removed', challenges', index', now)
  {
    KeptStep(original, done, id, now);
    ExpiredCodesStep(original, done, id, now);
    RemoveTwice(originalIndex, removed, {original[id].accessCode});
  }

  /** Once every id is visited, the sweep has produced the cleaned-up View. */
  lemma SweepFinished(original: map<string, Challenge>, originalIndex: map<string, string>,
                      done: set<string>, removed: set<string>,
                      challenges: map<string, Challenge>, index: map<string, string>, now: int)
    requires Swept(original, originalIndex, {}, done, removed, challenges, index, now)
    ensures StoreContract.View(challenges, index) == CleanedUp(StoreContract.View(original, originalIndex), now)
  {
    assert ExpiredCodesAmong(original, done, now) == ExpiredCodes(StoreContract.View(original, originalIndex), now);
    assert Kept(original, done, now) == CleanedUp(StoreContract.View(original, originalIndex), now).challenges;
  }

  lemma KeptStep(challenges: map<string, Challenge>, done: set<string>, id: string, now: int)
    requires id in challenges && id !in done
    ensures Kept(challenges, done + {id}, now) ==
      if IsExpired(challenges[id], now) then Kept(challenges, done, now) - {id} else Kept(challenges, done, now)
  {
  }

  lemma RemoveTwice(m: map<string, string>, a: set<string>, b: set<string>)
    ensures (m - a) - b == m - (a + b)
  {
  }

  lemma ExpiredCodesStep(challenges: map<string, Challenge>, done: set<string>, id: string, now: int)
    requires id in challenges
    ensures ExpiredCodesAmong(challenges, done + {id}, now) ==
      ExpiredCodesAmong(challenges, done, now) + (if IsExpired(challenges[id], now) then {challenges[id].accessCode} else {})
  {
  }
}
