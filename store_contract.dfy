/**
 * The storage contract every backend implements: challenges by id, and an
 * index from access code to challenge id. A backend's state is seen through a
 * View of those two maps; the relations below say what each operation of the
 * contract does to the View, and the lemmas say that each keeps the View
 * well-formed and what a later lookup returns.
 */
module StoreContract {
  import opened Wrappers
  import opened Types

  datatype View = View(challenges: map<string, Challenge>, index: map<string, string>)

  /** What a backend throws; the message is the id it was given. */
  datatype StoreError = AlreadyExists(id: string) | NotFound(id: string)

  /** The result of an operation that returns nothing or throws. */
  type Outcome = Result<(), StoreError>

  const Empty: View := View(map[], map[])

  /** Every challenge is stored under its own id. */
  predicate KeyedById(v: View) {
    forall id :: id in v.challenges ==> v.challenges[id].id == id
  }

  /** Every index entry names a stored challenge that has that access code. */
  predicate IndexConsistent(v: View) {
    forall code :: code in v.index ==>
      v.index[code] in v.challenges && v.challenges[v.index[code]].accessCode == code
  }

  predicate Wellformed(v: View) {
    KeyedById(v) && IndexConsistent(v)
  }

  /** getChallengeById. */
  function ById(v: View, id: string): (r: Option<Challenge>)
    ensures r.Some? <==> id in v.challenges
    ensures r.Some? ==> r.value == v.challenges[id]
  {
    if id in v.challenges then Some(v.challenges[id]) else None
  }

  /** getChallengeByAccessCode: follow the index, then look the id up. */
  function ByCode(v: View, code: string): (r: Option<Challenge>)
    ensures r.Some? ==> code in v.index && r == ById(v, v.index[code])
    ensures code in v.index ==> r == ById(v, v.index[code])
  {
    if code in v.index then ById(v, v.index[code]) else None
  }

  // ---------------------------------------------------------------------------
  // What each operation does to the View
  // ---------------------------------------------------------------------------

  /** addChallenge of a fresh id: stored under its id, its code now names it. */
  function Added(v: View, c: Challenge): View {
    View(v.challenges[c.id := c], v.index[c.accessCode := c.id])
  }

  /**
   * updateChallenge of a stored id: the record is replaced; when the access
   * code changed, the old code leaves the index and the new one names the id.
   */
  function Updated(v: View, c: Challenge): View
    requires c.id in v.challenges
  {
    var previous := v.challenges[c.id];
    if previous.accessCode == c.accessCode then View(v.challenges[c.id := c], v.index)
    else View(v.challenges[c.id := c], (v.index - {previous.accessCode})[c.accessCode := c.id])
  }

  /** The access codes of the challenges expired at `now`. */
  function ExpiredCodes(v: View, now: int): set<string> {
    set id | id in v.challenges && IsExpired(v.challenges[id], now) :: v.challenges[id].accessCode
  }

  /** cleanupExpiredChallenges at `now`: expired challenges and their codes go. */
  function CleanedUp(v: View, now: int): View {
    View(map id | id in v.challenges && !IsExpired(v.challenges[id], now) :: v.challenges[id],
         v.index - ExpiredCodes(v, now))
  }

  // ---------------------------------------------------------------------------
  // Properties of the operations
  // ---------------------------------------------------------------------------

  lemma EmptyWellformed()
    ensures Wellformed(Empty)
    ensures forall id :: ById(Empty, id).None?
    ensures forall code :: ByCode(Empty, code).None?
  {
  }

  /** Adding a fresh id keeps the View well-formed, and both lookups find it. */
  lemma AddedWellformed(v: View, c: Challenge)
    requires Wellformed(v) && c.id !in v.challenges
    ensures Wellformed(Added(v, c))
    ensures ById(Added(v, c), c.id) == Some(c)
    ensures ByCode(Added(v, c), c.accessCode) == Some(c)
    ensures forall id :: id != c.id ==> ById(Added(v, c), id) == ById(v, id)
    ensures forall code :: code != c.accessCode ==> ByCode(Added(v, c), code) == ByCode(v, code)
  {
    var w := Added(v, c);
    forall code | code in w.index
      ensures w.index[code] in w.challenges && w.challenges[w.index[code]].accessCode == code
    {
      if code != c.accessCode {
        assert v.index[code] in v.challenges;
        assert v.index[code] != c.id;
      }
    }
    forall code | code != c.accessCode
      ensures ByCode(w, code) == ByCode(v, code)
    {
      if code in v.index {
        assert v.index[code] != c.id;
      }
    }
  }

  /**
   * Updating a stored id keeps the View well-formed. Other ids are unaffected;
   * with a changed code the new code finds the new record, and with the same
   * code every lookup that found the old record finds the new one.
   */
  lemma UpdatedWellformed(v: View, c: Challenge)
    requires Wellformed(v) && c.id in v.challenges
    ensures Wellformed(Updated(v, c))
    ensures ById(Updated(v, c), c.id) == Some(c)
    ensures forall id :: id != c.id ==> ById(Updated(v, c), id) == ById(v, id)
    ensures v.challenges[c.id].accessCode != c.accessCode ==> ByCode(Updated(v, c), c.accessCode) == Some(c)
    ensures v.challenges[c.id].accessCode != c.accessCode ==> ByCode(Updated(v, c), v.challenges[c.id].accessCode).None?
    ensures v.challenges[c.id].accessCode == c.accessCode ==>
      forall code :: ByCode(Updated(v, c), code) ==
        (if ByCode(v, code) == Some(v.challenges[c.id]) then Some(c) else ByCode(v, code))
  {
    var previous := v.challenges[c.id];
    var w := Updated(v, c);
    forall code | code in w.index
      ensures w.index[code] in w.challenges && w.challenges[w.index[code]].accessCode == code
    {
      if code != c.accessCode {
        assert code in v.index;
      }
    }
  }

  /** Writing the same record a second time changes nothing more. */
  lemma UpdatedTwice(v: View, c: Challenge)
    requires c.id in v.challenges
    ensures c.id in Updated(v, c).challenges
    ensures Updated(Updated(v, c), c) == Updated(v, c)
  {
  }

  /** Cleanup keeps the View well-formed and leaves exactly the live challenges. */
  lemma CleanedUpWellformed(v: View, now: int)
    requires Wellformed(v)
    ensures Wellformed(CleanedUp(v, now))
    ensures forall id :: ById(CleanedUp(v, now), id).Some? <==> ById(v, id).Some? && !IsExpired(ById(v, id).value, now)
    ensures forall id :: ById(CleanedUp(v, now), id).Some? ==> ById(CleanedUp(v, now), id) == ById(v, id)
  {
    var w := CleanedUp(v, now);
    forall code | code in w.index
      ensures w.index[code] in w.challenges && w.challenges[w.index[code]].accessCode == code
    {
      var id := v.index[code];
      if IsExpired(v.challenges[id], now) {
        assert false;
      }
    }
  }

  /**
   * An add whose code collides leaves the earlier challenge stored under the
   * same code. Once that earlier challenge expires, cleanup deletes the index
   * entry by its code, which is the entry of the newer, live challenge: the
   * live challenge is still stored, but its code no longer finds it.
   */
  lemma CleanupAfterCollision(v: View, c: Challenge, now: int)
    requires Wellformed(v) && c.id !in v.challenges
    requires c.accessCode in v.index && IsExpired(v.challenges[v.index[c.accessCode]], now)
    requires !IsExpired(c, now)
    ensures ByCode(Added(v, c), c.accessCode) == Some(c)
    ensures ById(CleanedUp(Added(v, c), now), c.id) == Some(c)
    ensures ByCode(CleanedUp(Added(v, c), now), c.accessCode).None?
  {
    var w := Added(v, c);
    var earlier := v.index[c.accessCode];
    assert earlier in w.challenges && w.challenges[earlier] == v.challenges[earlier];
    assert c.accessCode in ExpiredCodes(w, now);
  }
}
