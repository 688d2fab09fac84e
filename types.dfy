/**
 * The data model of the challenge service: challenges, their participants and
 * attempts, the leaderboard entry, the request payloads, and the JSON values the
 * payloads arrive as.
 */
module Types {
  import opened Wrappers

  // ---------------------------------------------------------------------------
  // JSON numbers
  // ---------------------------------------------------------------------------

  /** 10 to the power k. */
  function Pow10(k: nat): (r: nat)
    ensures r >= 1
    ensures k > 0 ==> r >= 10
  {
    if k == 0 then 1 else 10 * Pow10(k - 1)
  }

  /**
   * A JSON number in its decimal form: the value is mantissa * 10^exponent.
   * Payload fields that are checked only for a range (precision) keep this
   * form; fields checked to be integers are turned into an `int`.
   */
  datatype Number = Number(mantissa: int, exponent: int)

  /** The number has no fractional part (Zod's `.int()`). */
  predicate IsInteger(n: Number) {
    n.exponent >= 0 || n.mantissa % Pow10(-n.exponent) == 0
  }

  /** The value of the number is at least k (Zod's `.min(k)`). */
  predicate AtLeast(n: Number, k: int) {
    if n.exponent >= 0 then n.mantissa * Pow10(n.exponent) >= k
    else n.mantissa >= k * Pow10(-n.exponent)
  }

  /** The exact value of an integral number. */
  function IntValue(n: Number): (r: int)
    requires IsInteger(n)
    ensures n.exponent >= 0 ==> r == n.mantissa * Pow10(n.exponent)
    ensures n.exponent < 0 ==> r * Pow10(-n.exponent) == n.mantissa
    ensures forall k: int :: AtLeast(n, k) <==> r >= k
  {
    if n.exponent >= 0 then n.mantissa * Pow10(n.exponent)
    else
      var d := Pow10(-n.exponent);
      assert n.mantissa == (n.mantissa / d) * d;
      assert forall k: int :: n.mantissa >= k * d <==> n.mantissa / d >= k by {
        forall k: int ensures n.mantissa >= k * d <==> n.mantissa / d >= k {
          ScaledComparison(n.mantissa / d, k, d);
        }
      }
      n.mantissa / d
  }

  lemma ScaledComparison(q: int, k: int, d: int)
    requires d >= 1
    ensures q * d >= k * d <==> q >= k
  {
    if q >= k {
      assert q * d - k * d == (q - k) * d;
    } else {
      assert k * d - q * d == (k - q) * d;
    }
  }

  // ---------------------------------------------------------------------------
  // JSON values, as a request body is parsed before validation
  // ---------------------------------------------------------------------------

  datatype Json =
    | JNull
    | JBool(b: bool)
    | JNumber(n: Number)
    | JString(s: string)
    | JArray(items: seq<Json>)
    | JObject(fields: map<string, Json>)

  /** The JavaScript type an input value is reported as; Undefined is a missing key. */
  datatype Kind = UndefinedKind | NullKind | BooleanKind | NumberKind | StringKind | ArrayKind | ObjectKind

  function KindOf(v: Option<Json>): Kind {
    match v
    case None => UndefinedKind
    case Some(JNull) => NullKind
    case Some(JBool(_)) => BooleanKind
    case Some(JNumber(_)) => NumberKind
    case Some(JString(_)) => StringKind
    case Some(JArray(_)) => ArrayKind
    case Some(JObject(_)) => ObjectKind
  }

  /** The value under a key of an object; None for a missing key or a non-object. */
  function Field(j: Json, key: string): (r: Option<Json>)
    ensures r.Some? <==> j.JObject? && key in j.fields
    ensures r.Some? ==> r.value == j.fields[key]
  {
    if j.JObject? && key in j.fields then Some(j.fields[key]) else None
  }

  // ---------------------------------------------------------------------------
  // Stored entities
  // ---------------------------------------------------------------------------

  datatype Settings = Settings(precision: Number, maxLife: int, gameType: string)

  datatype Participant = Participant(
    id: string,
    challengeId: string,
    displayName: string,
    deviceId: string,
    userId: Option<string>,
    joinedAt: int)

  datatype Metadata = Metadata(rounds: int, mode: string, gameType: string, precision: Number)

  datatype Attempt = Attempt(
    id: string,
    challengeId: string,
    participantId: string,
    winningStreak: int,
    submittedAt: int,
    sessionId: Option<string>,
    metadata: Metadata)

  /** A challenge; `expiresAt` is in milliseconds, None when it never expires. */
  datatype Challenge = Challenge(
    id: string,
    accessCode: string,
    name: string,
    createdAt: int,
    expiresAt: Option<int>,
    gameMode: string,
    settings: Settings,
    participants: seq<Participant>,
    attempts: seq<Attempt>)

  /** The public leaderboard row: no participant id. */
  datatype LeaderboardEntry = LeaderboardEntry(displayName: string, winningStreak: int, submittedAt: int)

  /**
   * The expiry test of the handlers and of the in-memory cleanup: an expiry of 0
   * (falsy) or none means "never", and a challenge is still live at the exact
   * millisecond of its expiry.
   */
  predicate IsExpired(c: Challenge, now: int) {
    c.expiresAt.Some? && c.expiresAt.value != 0 && now > c.expiresAt.value
  }

  // ---------------------------------------------------------------------------
  // Request payloads, after validation
  // ---------------------------------------------------------------------------

  /** The expiry tokens "1h", "24h", "3d" and "7d". */
  datatype Duration = OneHour | OneDay | ThreeDays | SevenDays

  datatype CreatePayload = CreatePayload(
    name: string,
    expiresIn: Option<Duration>,
    gameMode: string,
    settings: Settings,
    deviceId: string,
    displayName: string,
    userId: Option<string>)

  datatype JoinPayload = JoinPayload(
    accessCode: string,
    deviceId: string,
    displayName: string,
    userId: Option<string>)

  datatype AttemptPayload = AttemptPayload(
    participantId: string,
    winningStreak: int,
    sessionId: Option<string>,
    metadata: Metadata,
    deviceId: string)
}
