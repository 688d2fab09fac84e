/**
 * The HTTP handlers of the challenge API over the store the worker selected:
 * create, join, submit an attempt, the leaderboard and the challenge details.
 * A handler answers with a Reply (status and typed body) or a Failure (status,
 * message and, for a rejected body, the field errors of the validation). The
 * clock readings, the generated ids and the random draws of the access code are
 * parameters.
 */
module Handlers {
  import opened Wrappers
  import opened Types
  import opened Validation
  import opened Utils
  import opened StoreContract
  import opened StoreIndex
  import opened Leaderboard

  datatype Failure = Failure(status: int, message: string, errors: Option<map<string, seq<Issue>>>)

  datatype Reply<T> = Reply(status: int, body: T)

  /**
   * A body the schema rejects: 400 with the field errors of the flattened
   * error only; its form errors (a body that is not an object) are not sent.
   */
  function ValidationFailure(e: FlatErrors): Failure {
    Failure(400, "Validation Failed", Some(e.fieldErrors))
  }

  /**
   * What a rejected create body's 400 reply carries: no field errors at all
   * for a body that is not an object (its form error is dropped), and for an
   * object at least one failing field. RejectedJoinErrors and
   * RejectedAttemptErrors say the same of the other two schemas.
   */
  lemma RejectedCreateErrors(body: Json)
    ensures !body.JObject? ==> ValidateCreate(body).Err?
    ensures ValidateCreate(body).Err? ==>
      (ValidationFailure(ValidateCreate(body).error).errors == Some(map[]) <==> !body.JObject?)
  {
    var r := ValidateCreate(body);
    if r.Err? && body.JObject? {
      var e := r.error.fieldErrors;
      if !StringWithin(Field(body, "name"), 1, Some(100)) { assert "name" in e; }
      else if !OptionalDuration(Field(body, "expiresIn")) { assert "expiresIn" in e; }
      else if !StringWithin(Field(body, "gameMode"), 1, None) { assert "gameMode" in e; }
      else if !SettingsValid(Field(body, "settings")) { assert "settings" in e; }
      else if !StringWithin(Field(body, "deviceId"), 1, None) { assert "deviceId" in e; }
      else if !StringWithin(Field(body, "displayName"), 1, Some(50)) { assert "displayName" in e; }
      else { assert "userId" in e; }
    }
  }

  lemma RejectedJoinErrors(body: Json)
    ensures !body.JObject? ==> ValidateJoin(body).Err?
    ensures ValidateJoin(body).Err? ==>
      (ValidationFailure(ValidateJoin(body).error).errors == Some(map[]) <==> !body.JObject?)
  {
    var r := ValidateJoin(body);
    if r.Err? && body.JObject? {
      var e := r.error.fieldErrors;
      if !StringOfLength(Field(body, "accessCode"), 6) { assert "accessCode" in e; }
      else if !StringWithin(Field(body, "deviceId"), 1, None) { assert "deviceId" in e; }
      else if !StringWithin(Field(body, "displayName"), 1, Some(50)) { assert "displayName" in e; }
      else { assert "userId" in e; }
    }
  }

  lemma RejectedAttemptErrors(body: Json)
    ensures !body.JObject? ==> ValidateAttempt(body).Err?
    ensures ValidateAttempt(body).Err? ==>
      (ValidationFailure(ValidateAttempt(body).error).errors == Some(map[]) <==> !body.JObject?)
  {
    var r := ValidateAttempt(body);
    if r.Err? && body.JObject? {
      var e := r.error.fieldErrors;
      if !UuidString(Field(body, "participantId")) { assert "participantId" in e; }
      else if !IntegerAtLeast(Field(body, "winningStreak"), 0) { assert "winningStreak" in e; }
      else if !OptionalString(Field(body, "sessionId")) { assert "sessionId" in e; }
      else if !MetadataValid(Field(body, "metadata")) { assert "metadata" in e; }
      else { assert "deviceId" in e; }
    }
  }

  /** A thrown HTTPException. */
  function HttpFailure(status: int, message: string): Failure {
    Failure(status, message, None)
  }

  const ChallengeNotFound := "Challenge not found"
  const ChallengeExpired := "Challenge has expired"
  const ParticipantNotFound := "Participant not found in this challenge"
  const DeviceMismatch := "Forbidden: Device ID mismatch"
  const CodesExhausted := "Internal Server Error: Could not generate unique access code"
  const SaveChallengeFailed := "Internal Server Error: Failed to save challenge"
  const SaveParticipantFailed := "Internal Server Error: Failed to save participant"
  const SaveAttemptFailed := "Internal Server Error: Failed to save attempt"

  // ---------------------------------------------------------------------------
  // Public shapes
  // ---------------------------------------------------------------------------

  /** A participant as the API shows it: everything but the id. */
  datatype PublicParticipant = PublicParticipant(
    challengeId: string,
    displayName: string,
    deviceId: string,
    userId: Option<string>,
    joinedAt: int)

  /** A challenge as the API shows it: participants without their ids. */
  datatype PublicChallenge = PublicChallenge(
    id: string,
    accessCode: string,
    name: string,
    createdAt: int,
    expiresAt: Option<int>,
    gameMode: string,
    settings: Settings,
    participants: seq<PublicParticipant>,
    attempts: seq<Attempt>)

  function Strip(p: Participant): PublicParticipant {
    PublicParticipant(p.challengeId, p.displayName, p.deviceId, p.userId, p.joinedAt)
  }

  /** The challenge with every participant's id removed. */
  function Sanitize(c: Challenge): PublicChallenge {
    PublicChallenge(c.id, c.accessCode, c.name, c.createdAt, c.expiresAt, c.gameMode, c.settings,
      seq(|c.participants|, i requires 0 <= i < |c.participants| => Strip(c.participants[i])),
      c.attempts)
  }

  function ParticipantIds(c: Challenge): seq<string> {
    seq(|c.participants|, i requires 0 <= i < |c.participants| => c.participants[i].id)
  }

  /** Puts the ids back, in participant order. */
  function Restore(pc: PublicChallenge, ids: seq<string>): Challenge
    requires |ids| == |pc.participants|
  {
    Challenge(pc.id, pc.accessCode, pc.name, pc.createdAt, pc.expiresAt, pc.gameMode, pc.settings,
      seq(|ids|, i requires 0 <= i < |ids| =>
        var p := pc.participants[i];
        Participant(ids[i], p.challengeId, p.displayName, p.deviceId, p.userId, p.joinedAt)),
      pc.attempts)
  }

  /** Sanitizing drops the participant ids and nothing else. */
  lemma SanitizeRestore(c: Challenge)
    ensures |ParticipantIds(c)| == |Sanitize(c).participants|
    ensures Restore(Sanitize(c), ParticipantIds(c)) == c
  {
    var r := Restore(Sanitize(c), ParticipantIds(c));
    assert r.participants == c.participants;
  }

  /** Array `find` by device id: the first participant registered from `deviceId`. */
  function FindDevice(ps: seq<Participant>, deviceId: string): (r: Option<nat>)
    ensures r.None? <==> forall j :: 0 <= j < |ps| ==> ps[j].deviceId != deviceId
    ensures r.Some? ==> r.value < |ps| && ps[r.value].deviceId == deviceId
    ensures r.Some? ==> forall j :: 0 <= j < r.value ==> ps[j].deviceId != deviceId
    decreases |ps|
  {
    if |ps| == 0 then None
    else if ps[0].deviceId == deviceId then Some(0)
    else
      match FindDevice(ps[1..], deviceId)
      case None => assert forall j :: 1 <= j < |ps| ==> ps[j] == ps[1..][j - 1]; None
      case Some(k) => assert forall j :: 1 <= j < |ps| ==> ps[j] == ps[1..][j - 1]; Some(k + 1)
  }

  /** Array `find` by participant id. */
  function FindParticipant(ps: seq<Participant>, id: string): (r: Option<nat>)
    ensures r.None? <==> forall j :: 0 <= j < |ps| ==> ps[j].id != id
    ensures r.Some? ==> r.value < |ps| && ps[r.value].id == id
    ensures r.Some? ==> forall j :: 0 <= j < r.value ==> ps[j].id != id
    decreases |ps|
  {
    if |ps| == 0 then None
    else if ps[0].id == id then Some(0)
    else
      match FindParticipant(ps[1..], id)
      case None => assert forall j :: 1 <= j < |ps| ==> ps[j] == ps[1..][j - 1]; None
      case Some(k) => assert forall j :: 1 <= j < |ps| ==> ps[j] == ps[1..][j - 1]; Some(k + 1)
  }

  // ---------------------------------------------------------------------------
  // POST /api/challenges
  // ---------------------------------------------------------------------------

  /** The number of access codes tried before giving up. */
  const MaxCodeAttempts: nat := 10

  /** The `j`-th generated access code; its draws are numbers 6j .. 6j + 5. */
  function CodeNumber(rand: nat -> CharIndex, j: nat): string {
    CodeFrom(rand, CodeLength * j)
  }

  /** Code number `j` already finds a challenge in `v`, under the lookup rule `skipEmptyId`. */
  predicate Taken(skipEmptyId: bool, v: View, rand: nat -> CharIndex, j: nat) {
    CodeLookup(skipEmptyId, v, CodeNumber(rand, j)).Some?
  }

  /**
   * The first of the codes number j, j + 1, ... below MaxCodeAttempts that no
   * challenge holds, or MaxCodeAttempts when every one of them is held.
   */
  function FirstFreeCode(skipEmptyId: bool, v: View, rand: nat -> CharIndex, j: nat): (k: nat)
    requires j <= MaxCodeAttempts
    ensures j <= k <= MaxCodeAttempts
    ensures forall i :: j <= i < k ==> Taken(skipEmptyId, v, rand, i)
    ensures k < MaxCodeAttempts ==> !Taken(skipEmptyId, v, rand, k)
    decreases MaxCodeAttempts - j
  {
    if j == MaxCodeAttempts then j
    else if !Taken(skipEmptyId, v, rand, j) then j
    else FirstFreeCode(skipEmptyId, v, rand, j + 1)
  }

  /**
   * The collision loop of the create handler: draws code number 0, then while
   * the current code is taken and fewer than MaxCodeAttempts redraws were made,
   * draws the next one. Returns the last code drawn and the number of redraws;
   * the handler gives up when that number reached MaxCodeAttempts, even if the
   * last code is free.
   */
  method SearchAccessCode(store: Backend, rand: nat -> CharIndex) returns (accessCode: string, attempts: nat)
    ensures attempts == FirstFreeCode(store.MemoryBackend?, ViewOf(store), rand, 0)
    ensures accessCode == CodeNumber(rand, attempts)
  {
    ghost var skipEmptyId := store.MemoryBackend?;
    ghost var view := ViewOf(store);
    attempts := 0;
    var found;
    accessCode, found := DrawCode(store, rand, attempts);
    while found.Some? && attempts < MaxCodeAttempts
      invariant attempts <= MaxCodeAttempts
      invariant accessCode == CodeNumber(rand, attempts)
      invariant found == CodeLookup(skipEmptyId, view, accessCode)
      invariant FirstFreeCode(skipEmptyId, view, rand, attempts) == FirstFreeCode(skipEmptyId, view, rand, 0)
      decreases MaxCodeAttempts - attempts
    {
      FirstFreeCodeSkips(skipEmptyId, view, rand, attempts);
      attempts := attempts + 1;
      accessCode, found := DrawCode(store, rand, attempts);
    }
    FirstFreeCodeStops(skipEmptyId, view, rand, attempts);
  }

  /** One draw of the collision loop: generate code number `j` and look it up. */
  method DrawCode(store: Backend, rand: nat -> CharIndex, j: nat) returns (code: string, found: Option<Challenge>)
    ensures code == CodeNumber(rand, j)
    ensures found == CodeLookup(store.MemoryBackend?, ViewOf(store), code)
  {
    code := GenerateAccessCode(rand, CodeLength * j);
    found := GetChallengeByAccessCode(store, code);
  }

  /** A taken code below the bound is passed over. */
  lemma FirstFreeCodeSkips(skipEmptyId: bool, v: View, rand: nat -> CharIndex, j: nat)
    requires j < MaxCodeAttempts && Taken(skipEmptyId, v, rand, j)
    ensures FirstFreeCode(skipEmptyId, v, rand, j) == FirstFreeCode(skipEmptyId, v, rand, j + 1)
  {
  }

  /** The search stops at a free code or at the bound. */
  lemma FirstFreeCodeStops(skipEmptyId: bool, v: View, rand: nat -> CharIndex, j: nat)
    requires j <= MaxCodeAttempts
    requires j == MaxCodeAttempts || !Taken(skipEmptyId, v, rand, j)
    ensures FirstFreeCode(skipEmptyId, v, rand, j) == j
  {
  }

  datatype CreatedBody = CreatedBody(
    id: string,
    accessCode: string,
    name: string,
    expiresAt: Option<int>,
    participantId: string)

  /** The creator, the challenge's first participant. */
  function Creator(p: CreatePayload, challengeId: string, participantId: string, now: int): Participant {
    Participant(participantId, challengeId, p.displayName, p.deviceId, p.userId, now)
  }

  /** The challenge a create request stores. */
  function NewChallenge(p: CreatePayload, challengeId: string, code: string, participantId: string, now: int, expiryNow: int): Challenge {
    Challenge(challengeId, code, p.name, now, CalculateExpiresAt(p.expiresIn, expiryNow), p.gameMode, p.settings,
      [Creator(p, challengeId, participantId, now)], [])
  }

  /**
   * Create a challenge. `now` is the handler's clock reading and `expiryNow`
   * the one calculateExpiresAt takes; `challengeId` and `participantId` are the
   * two generated uuids and `rand` the random draws of the access codes.
   */
  method Create(store: Backend, verdict: Result<CreatePayload, FlatErrors>, now: int, expiryNow: int,
                challengeId: string, participantId: string, rand: nat -> CharIndex)
    returns (r: Result<Reply<CreatedBody>, Failure>)
    modifies Repr(store)
    ensures verdict.Err? ==>
      r == Err(Failure(400, "Validation Failed", Some(verdict.error.fieldErrors))) && ViewOf(store) == old(ViewOf(store))
    ensures verdict.Ok? && old(FirstFreeCode(store.MemoryBackend?, ViewOf(store), rand, 0)) == MaxCodeAttempts ==>
      r == Err(HttpFailure(500, CodesExhausted)) && ViewOf(store) == old(ViewOf(store))
    ensures verdict.Ok? && old(FirstFreeCode(store.MemoryBackend?, ViewOf(store), rand, 0)) < MaxCodeAttempts ==>
      var payload := verdict.value;
      var code := CodeNumber(rand, old(FirstFreeCode(store.MemoryBackend?, ViewOf(store), rand, 0)));
      var c := NewChallenge(payload, challengeId, code, participantId, now, expiryNow);
      && old(FindByCode(store, code)).None?
      && (r.Ok? ==> r.value == Reply(201, CreatedBody(challengeId, code, payload.name, c.expiresAt, participantId)))
      && (r.Err? ==> r == Err(HttpFailure(500, SaveChallengeFailed)) && ViewOf(store) == old(ViewOf(store)))
      && (old(Valid(store)) ==> (r.Ok? <==> challengeId !in old(ViewOf(store)).challenges))
      && (old(Valid(store)) && r.Ok? ==> ViewOf(store) == Added(old(ViewOf(store)), c))
    ensures old(Valid(store)) ==> Valid(store)
  {
    if verdict.Err? {
      return Err(ValidationFailure(verdict.error));
    }
    var payload := verdict.value;
    var accessCode, attempts := SearchAccessCode(store, rand);
    if attempts >= MaxCodeAttempts {
      return Err(HttpFailure(500, CodesExhausted));
    }
    var creator := Creator(payload, challengeId, participantId, now);
    var newChallenge := Challenge(challengeId, accessCode, payload.name, now, CalculateExpiresAt(payload.expiresIn, expiryNow),
      payload.gameMode, payload.settings, [creator], []);
    var added := StoreIndex.AddChallenge(store, newChallenge);
    if added.Err? {
      return Err(HttpFailure(500, SaveChallengeFailed));
    }
    r := Ok(Reply(201, CreatedBody(newChallenge.id, newChallenge.accessCode, newChallenge.name, newChallenge.expiresAt, creator.id)));
  }

  /**
   * A successful create on a well-formed store leaves the new challenge
   * findable both by its id and by its fresh access code.
   */
  lemma CreatedFindable(v: View, c: Challenge)
    requires Wellformed(v) && c.id !in v.challenges && ByCode(v, c.accessCode).None?
    ensures Wellformed(Added(v, c))
    ensures ById(Added(v, c), c.id) == Some(c) && ByCode(Added(v, c), c.accessCode) == Some(c)
    ensures forall code :: code != c.accessCode ==> ByCode(Added(v, c), code) == ByCode(v, code)
    ensures c.accessCode !in v.index
  {
    AddedWellformed(v, c);
  }

  // ---------------------------------------------------------------------------
  // POST /api/challenges/join
  // ---------------------------------------------------------------------------

  datatype JoinedBody = JoinedBody(challenge: PublicChallenge, participantId: string)

  function NewParticipant(p: JoinPayload, challengeId: string, participantId: string, now: int): Participant {
    Participant(participantId, challengeId, p.displayName, p.deviceId, p.userId, now)
  }

  /** The challenge with participant `i` showing `displayName`. */
  function Renamed(c: Challenge, i: nat, displayName: string): Challenge
    requires i < |c.participants|
  {
    c.(participants := c.participants[i := c.participants[i].(displayName := displayName)])
  }

  /** After a new device joins, a rejoin from that device finds the participant just added. */
  lemma JoinedFindsDevice(c: Challenge, p: Participant)
    requires FindDevice(c.participants, p.deviceId).None?
    ensures FindDevice(c.participants + [p], p.deviceId) == Some(|c.participants|)
  {
    var ps := c.participants + [p];
    assert ps[|c.participants|] == p;
    assert forall j :: 0 <= j < |c.participants| ==> ps[j] == c.participants[j];
  }

  /** A rejoin keeps every participant and changes only the rejoining one's display name. */
  lemma RenamedKeepsParticipants(c: Challenge, i: nat, displayName: string)
    requires i < |c.participants|
    ensures |Renamed(c, i, displayName).participants| == |c.participants|
    ensures Renamed(c, i, displayName).participants[i] == c.participants[i].(displayName := displayName)
    ensures forall j :: 0 <= j < |c.participants| && j != i ==> Renamed(c, i, displayName).participants[j] == c.participants[j]
    ensures Renamed(c, i, displayName).(participants := c.participants) == c
  {
  }

  /**
   * Join by access code. A new device becomes a participant and the challenge
   * is saved twice, the second failure being ignored. A known device is
   * answered under the new display name, but nothing is saved.
   */
  method Join(store: Backend, verdict: Result<JoinPayload, FlatErrors>, now: int, newParticipantId: string)
    returns (r: Result<Reply<JoinedBody>, Failure>)
    modifies Repr(store)
    ensures verdict.Err? ==>
      r == Err(Failure(400, "Validation Failed", Some(verdict.error.fieldErrors))) && ViewOf(store) == old(ViewOf(store))
    ensures verdict.Ok? && old(FindByCode(store, verdict.value.accessCode)).None? ==>
      r == Err(HttpFailure(404, ChallengeNotFound)) && ViewOf(store) == old(ViewOf(store))
    ensures verdict.Ok? ==>
      var found := old(FindByCode(store, verdict.value.accessCode));
      found.Some? && IsExpired(found.value, now) ==>
        r == Err(HttpFailure(410, ChallengeExpired)) && ViewOf(store) == old(ViewOf(store))
    ensures verdict.Ok? ==>
      var payload := verdict.value;
      var found := old(FindByCode(store, payload.accessCode));
      found.Some? && !IsExpired(found.value, now) && FindDevice(found.value.participants, payload.deviceId).Some? ==>
        var i := FindDevice(found.value.participants, payload.deviceId).value;
        && r == Ok(Reply(200, JoinedBody(Sanitize(Renamed(found.value, i, payload.displayName)), found.value.participants[i].id)))
        && ViewOf(store) == old(ViewOf(store))
    ensures verdict.Ok? ==>
      var payload := verdict.value;
      var found := old(FindByCode(store, payload.accessCode));
      found.Some? && !IsExpired(found.value, now) && FindDevice(found.value.participants, payload.deviceId).None? ==>
        var joined := found.value.(participants := found.value.participants + [NewParticipant(payload, found.value.id, newParticipantId, now)]);
        && (found.value.id in old(ViewOf(store)).challenges ==>
              r == Ok(Reply(200, JoinedBody(Sanitize(joined), newParticipantId))) &&
              ViewOf(store) == Updated(old(ViewOf(store)), joined))
        && (found.value.id !in old(ViewOf(store)).challenges ==>
              r == Err(HttpFailure(500, SaveParticipantFailed)) && ViewOf(store) == old(ViewOf(store)))
    ensures old(Valid(store)) && r.Err? ==> r.error.status != 500
    ensures old(Valid(store)) ==> Valid(store)
  {
    if verdict.Err? {
      return Err(ValidationFailure(verdict.error));
    }
    var payload := verdict.value;
    var found := GetChallengeByAccessCode(store, payload.accessCode);
    if found.None? {
      return Err(HttpFailure(404, ChallengeNotFound));
    }
    var challenge := found.value;
    if IsExpired(challenge, now) {
      return Err(HttpFailure(410, ChallengeExpired));
    }
    if old(Valid(store)) {
      FoundIsStored(store, payload.accessCode);
    }
    var existing := FindDevice(challenge.participants, payload.deviceId);
    var participant: Participant;
    var needsUpdate := false;
    if existing.None? {
      needsUpdate := true;
      participant := NewParticipant(payload, challenge.id, newParticipantId, now);
      challenge := challenge.(participants := challenge.participants + [participant]);
      var saved := StoreIndex.UpdateChallenge(store, challenge);
      if saved.Err? {
        return Err(HttpFailure(500, SaveParticipantFailed));
      }
    } else {
      var i := existing.value;
      participant := challenge.participants[i];
      if participant.displayName != payload.displayName {
        participant := participant.(displayName := payload.displayName);
        challenge := challenge.(participants := challenge.participants[i := participant]);
      } else {
        assert challenge.participants[i := participant.(displayName := payload.displayName)] == challenge.participants;
      }
      if participant.displayName != payload.displayName {
        needsUpdate := true;
      }
    }
    if needsUpdate {
      ghost var before := ViewOf(store);
      var ignored := StoreIndex.UpdateChallenge(store, challenge);
      UpdatedTwice(old(ViewOf(store)), challenge);
    }
    r := Ok(Reply(200, JoinedBody(Sanitize(challenge), participant.id)));
  }

  // ---------------------------------------------------------------------------
  // POST /api/challenges/:id/attempts
  // ---------------------------------------------------------------------------

  function NewAttempt(p: AttemptPayload, challengeId: string, attemptId: string, now: int): Attempt {
    Attempt(attemptId, challengeId, p.participantId, p.winningStreak, now, p.sessionId, p.metadata)
  }

  /**
   * Submit an attempt to the challenge with id `challengeId` (the path
   * parameter) on behalf of a participant, from that participant's device.
   */
  method SubmitAttempt(store: Backend, challengeId: string, verdict: Result<AttemptPayload, FlatErrors>, now: int, attemptId: string)
    returns (r: Result<Reply<Attempt>, Failure>)
    modifies Repr(store)
    ensures verdict.Err? ==>
      r == Err(Failure(400, "Validation Failed", Some(verdict.error.fieldErrors))) && ViewOf(store) == old(ViewOf(store))
    ensures verdict.Ok? && old(ById(ViewOf(store), challengeId)).None? ==>
      r == Err(HttpFailure(404, ChallengeNotFound)) && ViewOf(store) == old(ViewOf(store))
    ensures verdict.Ok? ==>
      var found := old(ById(ViewOf(store), challengeId));
      found.Some? && IsExpired(found.value, now) ==>
        r == Err(HttpFailure(410, ChallengeExpired)) && ViewOf(store) == old(ViewOf(store))
    ensures verdict.Ok? ==>
      var payload := verdict.value;
      var found := old(ById(ViewOf(store), challengeId));
      found.Some? && !IsExpired(found.value, now) && FindParticipant(found.value.participants, payload.participantId).None? ==>
        r == Err(HttpFailure(404, ParticipantNotFound)) && ViewOf(store) == old(ViewOf(store))
    ensures verdict.Ok? ==>
      var payload := verdict.value;
      var found := old(ById(ViewOf(store), challengeId));
      found.Some? && !IsExpired(found.value, now) && FindParticipant(found.value.participants, payload.participantId).Some? ==>
        var participant := found.value.participants[FindParticipant(found.value.participants, payload.participantId).value];
        participant.deviceId != payload.deviceId ==>
          r == Err(HttpFailure(403, DeviceMismatch)) && ViewOf(store) == old(ViewOf(store))
    ensures verdict.Ok? ==>
      var payload := verdict.value;
      var found := old(ById(ViewOf(store), challengeId));
      found.Some? && !IsExpired(found.value, now) && FindParticipant(found.value.participants, payload.participantId).Some? ==>
        var participant := found.value.participants[FindParticipant(found.value.participants, payload.participantId).value];
        var attempt := NewAttempt(payload, challengeId, attemptId, now);
        var saved := found.value.(attempts := found.value.attempts + [attempt]);
        participant.deviceId == payload.deviceId ==>
          && (found.value.id in old(ViewOf(store)).challenges ==>
                r == Ok(Reply(201, attempt)) && ViewOf(store) == Updated(old(ViewOf(store)), saved))
          && (found.value.id !in old(ViewOf(store)).challenges ==>
                r == Err(HttpFailure(500, SaveAttemptFailed)) && ViewOf(store) == old(ViewOf(store)))
    ensures old(Valid(store)) && r.Err? ==> r.error.status != 500
    ensures old(Valid(store)) ==> Valid(store)
  {
    if verdict.Err? {
      return Err(ValidationFailure(verdict.error));
    }
    var payload := verdict.value;
    var found := StoreIndex.GetChallengeById(store, challengeId);
    if found.None? {
      return Err(HttpFailure(404, ChallengeNotFound));
    }
    var challenge := found.value;
    if IsExpired(challenge, now) {
      return Err(HttpFailure(410, ChallengeExpired));
    }
    var index := FindParticipant(challenge.participants, payload.participantId);
    if index.None? {
      return Err(HttpFailure(404, ParticipantNotFound));
    }
    var participant := challenge.participants[index.value];
    if participant.deviceId != payload.deviceId {
      return Err(HttpFailure(403, DeviceMismatch));
    }
    if old(Valid(store)) {
      FoundByIdCarriesId(store, challengeId);
    }
    var newAttempt := Attempt(attemptId, challengeId, payload.participantId, payload.winningStreak, now,
      payload.sessionId, payload.metadata);
    challenge := challenge.(attempts := challenge.attempts + [newAttempt]);
    var saved := StoreIndex.UpdateChallenge(store, challenge);
    if saved.Err? {
      return Err(HttpFailure(500, SaveAttemptFailed));
    }
    r := Ok(Reply(201, newAttempt));
  }

  // ---------------------------------------------------------------------------
  // GET /api/challenges/:id/leaderboard
  // ---------------------------------------------------------------------------

  datatype LeaderboardBody = LeaderboardBody(
    challengeName: string,
    gameMode: string,
    expiresAt: Option<int>,
    leaderboard: seq<LeaderboardEntry>)

  /** The leaderboard of the challenge with id `challengeId`, expired or not. */
  method GetLeaderboard(store: Backend, challengeId: string) returns (r: Result<Reply<LeaderboardBody>, Failure>)
    ensures ById(ViewOf(store), challengeId).None? <==> r == Err(HttpFailure(404, ChallengeNotFound))
    ensures r.Ok? ==>
      var c := ById(ViewOf(store), challengeId).value;
      r.value == Reply(200, LeaderboardBody(c.name, c.gameMode, c.expiresAt, Standings(c)))
  {
    var found := StoreIndex.GetChallengeById(store, challengeId);
    if found.None? {
      return Err(HttpFailure(404, ChallengeNotFound));
    }
    var challenge := found.value;
    var bestAttempts := BestAttempts(challenge.attempts);
    var participants := challenge.participants;
    var leaderboard := seq(|participants|, i requires 0 <= i < |participants| =>
      EntryFor(participants[i], Lookup(bestAttempts, participants[i].id)));
    assert leaderboard == Entries(participants, challenge.attempts);
    r := Ok(Reply(200, LeaderboardBody(challenge.name, challenge.gameMode, challenge.expiresAt, Sort(leaderboard))));
  }

  // ---------------------------------------------------------------------------
  // GET /api/challenges/:id
  // ---------------------------------------------------------------------------

  /** The details of the challenge with id `challengeId`, participants without their ids. */
  method GetDetails(store: Backend, challengeId: string) returns (r: Result<Reply<PublicChallenge>, Failure>)
    ensures ById(ViewOf(store), challengeId).None? <==> r == Err(HttpFailure(404, ChallengeNotFound))
    ensures r.Ok? ==> r.value == Reply(200, Sanitize(ById(ViewOf(store), challengeId).value))
  {
    var found := StoreIndex.GetChallengeById(store, challengeId);
    if found.None? {
      return Err(HttpFailure(404, ChallengeNotFound));
    }
    r := Ok(Reply(200, Sanitize(found.value)));
  }
}
