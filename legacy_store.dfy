/**
 * The earlier single-file store: the same two maps as the in-memory backend,
 * but addChallenge overwrites a colliding index entry without clearing
 * anything, and updateChallenge replaces the record without ever moving its
 * index entry.
 */
module Legacy {
  import opened Wrappers
  import opened Types
  import opened StoreContract
  import Memory

  /** updateChallenge of a stored id: the record is replaced, the index is left as it was. */
  function RecordReplaced(v: View, c: Challenge): View
    requires c.id in v.challenges
  {
    View(v.challenges[c.id := c], v.index)
  }

  /** With an unchanged access code the record replacement is the contract's update. */
  lemma RecordReplacedSameCode(v: View, c: Challenge)
    requires c.id in v.challenges && v.challenges[c.id].accessCode == c.accessCode
    ensures RecordReplaced(v, c) == Updated(v, c)
  {
  }

  /**
   * With a changed access code the index goes stale: the old code still names
   * the challenge, which no longer has that code, and the new code does not
   * find it unless it already did.
   */
  lemma {:induction false} RecordReplacedChangedCode(v: View, c: Challenge)
    requires Wellformed(v) && c.id in v.challenges
    requires v.challenges[c.id].accessCode != c.accessCode
    requires v.challenges[c.id].accessCode in v.index && v.index[v.challenges[c.id].accessCode] == c.id
    ensures !IndexConsistent(RecordReplaced(v, c))
    ensures ByCode(RecordReplaced(v, c), v.challenges[c.id].accessCode) == Some(c)
    ensures ByCode(RecordReplaced(v, c), c.accessCode) != Some(c)
  {
    var w := RecordReplaced(v, c);
    var stale := v.challenges[c.id].accessCode;
    assert w.challenges[w.index[stale]].accessCode != stale;
  }

  class LegacyStore {
    var challenges: map<string, Challenge>
    var accessCodeIndex: map<string, string>

    function View(): View
      reads this
    {
      StoreContract.View(challenges, accessCodeIndex)
    }

    constructor()
      ensures View() == Empty
    {
      challenges := map[];
      accessCodeIndex := map[];
    }

    /** addChallenge: throws on a stored id; a colliding index entry is simply overwritten. */
    method AddChallenge(challenge: Challenge) returns (r: Outcome)
      modifies this
      ensures r.Err? <==> challenge.id in old(challenges)
      ensures r.Err? ==> r == Err(AlreadyExists(challenge.id)) && View() == old(View())
      ensures r.Ok? ==> View() == Added(old(View()), challenge)
      ensures r.Ok? && Wellformed(old(View())) ==> Wellformed(View())
    {
      if challenge.id in challenges {
        return Err(AlreadyExists(challenge.id));
      }
      challenges := challenges[challenge.id := challenge];
      accessCodeIndex := accessCodeIndex[challenge.accessCode := challenge.id];
      r := Ok(());
      if Wellformed(old(View())) {
        AddedWellformed(old(View()), challenge);
      }
    }

    method GetChallengeById(id: string) returns (r: Option<Challenge>)
      ensures r == ById(View(), id)
    {
      if id in challenges {
        r := Some(challenges[id]);
      } else {
        r := None;
      }
    }

    /** getChallengeByAccessCode: an index entry naming the empty id finds nothing. */
    method GetChallengeByAccessCode(accessCode: string) returns (r: Option<Challenge>)
      ensures accessCode in accessCodeIndex && accessCodeIndex[accessCode] != "" ==> r == ByCode(View(), accessCode)
      ensures accessCode !in accessCodeIndex || accessCodeIndex[accessCode] == "" ==> r.None?
    {
      if accessCode in accessCodeIndex && accessCodeIndex[accessCode] != "" {
        r := GetChallengeById(accessCodeIndex[accessCode]);
      } else {
        r := None;
      }
    }

    /** updateChallenge: throws on an unknown id; otherwise only the record is replaced. */
    method UpdateChallenge(challenge: Challenge) returns (r: Outcome)
      modifies this
      ensures r.Ok? <==> challenge.id in old(challenges)
      ensures r.Err? ==> r == Err(NotFound(challenge.id)) && View() == old(View())
      ensures r.Ok? ==> View() == RecordReplaced(old(View()), challenge)
    {
      if challenge.id !in challenges {
        return Err(NotFound(challenge.id));
      }
      challenges := challenges[challenge.id := challenge];
      r := Ok(());
    }

    method ResetStore()
      modifies this
      ensures View() == Empty
    {
      challenges := map[];
      accessCodeIndex := map[];
    }

    /** cleanupExpiredChallenges at clock reading `now`, the same sweep as the in-memory backend's. */
    method CleanupExpiredChallenges(now: int)
      modifies this
      ensures View() == CleanedUp(old(View()), now)
    {
      var pending := challenges.Keys;
      ghost var done: set<string> := {};
      ghost var removed: set<string> := {};
      while pending != {}
        invariant Memory.Swept(old(challenges), old(accessCodeIndex), pending, done, removed, challenges, accessCodeIndex, now)
        decreases |pending|
      {
        var id :| id in pending;
        ghost var before := StoreContract.View(challenges, accessCodeIndex);
        ghost var removedBefore := removed;
        Memory.SweepVisits(old(challenges), old(accessCodeIndex), pending, done, removed, challenges, accessCodeIndex, id, now);
        var challenge := challenges[id];
        if IsExpired(challenge, now) {
          accessCodeIndex := accessCodeIndex - {challenge.accessCode};
          challenges := challenges - {id};
          removed := removed + {challenge.accessCode};
        }
        Memory.SweepStep(old(challenges), old(accessCodeIndex), pending, done, removedBefore, before.challenges, before.index,
                  id, now, removed, challenges, accessCodeIndex);
        pending := pending - {id};
        done := done + {id};
      }
      Memory.SweepFinished(old(challenges), old(accessCodeIndex), done, removed, challenges, accessCodeIndex, now);
    }
  }
}
