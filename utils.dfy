/**
 * Access-code generation and expiry computation. The random source is an
 * oracle: rand(k) is the character index the k-th draw of the random number
 * generator yields, already scaled and floored into [0, 36).
 */
module Utils {
  import opened Wrappers
  import opened Types

  const CodeLength: nat := 6
  const Characters: string := "ABCDEFGHIJKLMNOPQRSTUVWXYZ0123456789"

  /** A character index for the 36-character alphabet. */
  type CharIndex = i: int | 0 <= i < 36

  predicate IsCodeChar(c: char) {
    ('A' <= c <= 'Z') || ('0' <= c <= '9')
  }

  /** The shape of every generated code: six upper-case letters or digits. */
  predicate IsAccessCode(s: string) {
    |s| == CodeLength && forall i :: 0 <= i < |s| ==> IsCodeChar(s[i])
  }

  lemma CharactersAreCodeChars()
    ensures |Characters| == 36
    ensures forall i :: 0 <= i < 36 ==> IsCodeChar(Characters[i])
  {
  }

  /** The code made from the six draws starting at draw number `start`. */
  function CodeFrom(rand: nat -> CharIndex, start: nat): (code: string)
    ensures |code| == CodeLength
    ensures forall i :: 0 <= i < CodeLength ==> code[i] == Characters[rand(start + i)]
    ensures IsAccessCode(code)
  {
    CharactersAreCodeChars();
    seq(CodeLength, i requires 0 <= i < CodeLength => Characters[rand(start + i)])
  }

  /**
   * generateAccessCode: appends one alphabet character per draw, six times.
   * The draws it uses are numbers start .. start + 5.
   */
  method GenerateAccessCode(rand: nat -> CharIndex, start: nat) returns (result: string)
    ensures IsAccessCode(result)
    ensures result == CodeFrom(rand, start)
  {
    ghost var code := CodeFrom(rand, start);
    result := "";
    for i := 0 to CodeLength
      invariant result == code[..i]
    {
      result := result + [Characters[rand(start + i)]];
    }
    assert result == code;
  }

  /** The lifetime a duration token stands for, in milliseconds. */
  function DurationMs(d: Duration): (ms: nat)
    ensures d == OneHour ==> ms == 3_600_000
    ensures d == OneDay ==> ms == 86_400_000
    ensures d == ThreeDays ==> ms == 259_200_000
    ensures d == SevenDays ==> ms == 604_800_000
  {
    match d
    case OneHour => 60 * 60 * 1000
    case OneDay => 24 * 60 * 60 * 1000
    case ThreeDays => 3 * 24 * 60 * 60 * 1000
    case SevenDays => 7 * 24 * 60 * 60 * 1000
  }

  /**
   * calculateExpiresAt: no expiry without a token, otherwise `now` plus the
   * token's duration. `now` is the clock reading this function takes itself.
   */
  function CalculateExpiresAt(expiresIn: Option<Duration>, now: int): (r: Option<int>)
    ensures r.None? <==> expiresIn.None?
    ensures expiresIn == Some(OneHour) ==> r == Some(now + 3_600_000)
    ensures expiresIn == Some(OneDay) ==> r == Some(now + 86_400_000)
    ensures expiresIn == Some(ThreeDays) ==> r == Some(now + 259_200_000)
    ensures expiresIn == Some(SevenDays) ==> r == Some(now + 604_800_000)
    ensures r.Some? ==> r.value > now
  {
    match expiresIn
    case None => None
    case Some(d) => Some(now + DurationMs(d))
  }

  /** The four lifetimes are strictly ordered 1h < 24h < 3d < 7d. */
  lemma ExpiryOrdered(now: int)
    ensures CalculateExpiresAt(Some(OneHour), now).value < CalculateExpiresAt(Some(OneDay), now).value
    ensures CalculateExpiresAt(Some(OneDay), now).value < CalculateExpiresAt(Some(ThreeDays), now).value
    ensures CalculateExpiresAt(Some(ThreeDays), now).value < CalculateExpiresAt(Some(SevenDays), now).value
  {
  }

  /**
   * The expiry test on a challenge whose expiry calculateExpiresAt set at a
   * (non-negative) clock reading `created`: without a token it never expires;
   * with one it is expired exactly once more than the token's lifetime has
   * passed, and it stays expired from then on.
   */
  lemma ExpiredIffPastLifetime(c: Challenge, expiresIn: Option<Duration>, created: int, now: int, later: int)
    requires c.expiresAt == CalculateExpiresAt(expiresIn, created) && created >= 0
    ensures IsExpired(c, now) <==> expiresIn.Some? && now - created > DurationMs(expiresIn.value)
    ensures IsExpired(c, now) && now <= later ==> IsExpired(c, later)
  {
  }
}
