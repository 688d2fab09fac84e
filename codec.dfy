/**
 * The text form a challenge is stored in by the KV backend. It stands for
 * JSON.stringify / JSON.parse: an injective, self-delimiting encoding of every
 * field (naturals in decimal ended by ';', integers with a sign, strings with
 * their length in front, lists with their count in front), and a parser that
 * fails on text it did not produce. The only property the store relies on is
 * the round trip Parse(Serialize(c)) == Some(c), proved below.
 *
 * Encoders are written in continuation style, EncodeXThen(x, rest), so that
 * a decoder applied to an encoding followed by anything returns that thing
 * as its remainder.
 */
module Codec {
  import opened Wrappers
  import opened Types

  // ---------------------------------------------------------------------------
  // Naturals in decimal
  // ---------------------------------------------------------------------------

  predicate IsDigit(c: char) { '0' <= c <= '9' }

  predicate AllDigits(s: string) { forall i :: 0 <= i < |s| ==> IsDigit(s[i]) }

  function DigitChar(d: nat): (c: char)
    requires d < 10
    ensures IsDigit(c)
  {
    ('0' as int + d) as char
  }

  function DigitValue(c: char): (d: nat)
    requires IsDigit(c)
    ensures d < 10
  {
    c as int - '0' as int
  }

  function NatDigits(n: nat): (s: string)
    ensures |s| >= 1 && AllDigits(s)
  {
    if n < 10 then [DigitChar(n)] else NatDigits(n / 10) + [DigitChar(n % 10)]
  }

  /** Reads a digit string left to right onto an accumulator. */
  function FoldDigits(acc: nat, ds: string): nat
    requires AllDigits(ds)
    decreases |ds|
  {
    if ds == [] then acc else FoldDigits(acc * 10 + DigitValue(ds[0]), ds[1..])
  }

  lemma {:induction false} FoldDigitsSnoc(acc: nat, ds: string, c: char)
    requires AllDigits(ds) && IsDigit(c)
    ensures AllDigits(ds + [c])
    ensures FoldDigits(acc, ds + [c]) == FoldDigits(acc, ds) * 10 + DigitValue(c)
    decreases |ds|
  {
    assert AllDigits(ds + [c]) by {
      forall i | 0 <= i < |ds + [c]| ensures IsDigit((ds + [c])[i]) {
        if i < |ds| { assert (ds + [c])[i] == ds[i]; }
      }
    }
    if ds == [] {
      assert ds + [c] == [c];
    } else {
      assert (ds + [c])[1..] == ds[1..] + [c];
      FoldDigitsSnoc(acc * 10 + DigitValue(ds[0]), ds[1..], c);
    }
  }

  /** Decimal digits read back give the number. */
  lemma {:induction false} NatDigitsValue(n: nat)
    ensures FoldDigits(0, NatDigits(n)) == n
  {
    if n < 10 {
      assert NatDigits(n)[1..] == [];
    } else {
      NatDigitsValue(n / 10);
      FoldDigitsSnoc(0, NatDigits(n / 10), DigitChar(n % 10));
    }
  }

  function EncodeNatThen(n: nat, rest: string): string {
    NatDigits(n) + ([';'] + rest)
  }

  function ReadDigits(acc: nat, s: string): Option<(nat, string)>
    decreases |s|
  {
    if s == [] then None
    else if s[0] == ';' then Some((acc, s[1..]))
    else if IsDigit(s[0]) then ReadDigits(acc * 10 + DigitValue(s[0]), s[1..])
    else None
  }

  function DecodeNat(s: string): Option<(nat, string)> {
    if s != [] && IsDigit(s[0]) then ReadDigits(0, s) else None
  }

  lemma {:induction false} ReadDigitsThen(acc: nat, ds: string, rest: string)
    requires AllDigits(ds)
    ensures ReadDigits(acc, ds + ([';'] + rest)) == Some((FoldDigits(acc, ds), rest))
    decreases |ds|
  {
    var s := ds + ([';'] + rest);
    if ds == [] {
      assert s == [';'] + rest;
      assert s[1..] == rest;
    } else {
      assert s[0] == ds[0];
      assert s[1..] == ds[1..] + ([';'] + rest);
      ReadDigitsThen(acc * 10 + DigitValue(ds[0]), ds[1..], rest);
    }
  }

  lemma DecodeNatThen(n: nat, rest: string)
    ensures DecodeNat(EncodeNatThen(n, rest)) == Some((n, rest))
  {
    var ds := NatDigits(n);
    assert EncodeNatThen(n, rest)[0] == ds[0];
    ReadDigitsThen(0, ds, rest);
    NatDigitsValue(n);
  }

  // ---------------------------------------------------------------------------
  // Integers, strings, optional values, decimal numbers
  // ---------------------------------------------------------------------------

  function EncodeIntThen(i: int, rest: string): string {
    if i < 0 then ['-'] + EncodeNatThen(-i, rest) else ['+'] + EncodeNatThen(i, rest)
  }

  function DecodeInt(s: string): Option<(int, string)> {
    if s == [] then None
    else if s[0] == '-' then
      var r :- DecodeNat(s[1..]);
      var magnitude: int := r.0;
      var negated := -magnitude;
      Some((negated, r.1))
    else if s[0] == '+' then
      var r :- DecodeNat(s[1..]);
      Some((r.0 as int, r.1))
    else None
  }

  lemma DecodeIntThen(i: int, rest: string)
    ensures DecodeInt(EncodeIntThen(i, rest)) == Some((i, rest))
  {
    var n: nat := if i < 0 then -i else i;
    var s := EncodeIntThen(i, rest);
    assert s[1..] == EncodeNatThen(n, rest);
    DecodeNatThen(n, rest);
  }

  function EncodeStringThen(text: string, rest: string): string {
    EncodeNatThen(|text|, text + rest)
  }

  function DecodeString(s: string): Option<(string, string)> {
    var r :- DecodeNat(s);
    if r.0 <= |r.1| then Some((r.1[..r.0], r.1[r.0..])) else None
  }

  lemma DecodeStringThen(text: string, rest: string)
    ensures DecodeString(EncodeStringThen(text, rest)) == Some((text, rest))
  {
    DecodeNatThen(|text|, text + rest);
    assert (text + rest)[..|text|] == text;
    assert (text + rest)[|text|..] == rest;
  }

  function EncodeOptionalStringThen(o: Option<string>, rest: string): string {
    match o
    case None => ['0'] + rest
    case Some(text) => ['1'] + EncodeStringThen(text, rest)
  }

  function DecodeOptionalString(s: string): Option<(Option<string>, string)> {
    if s == [] then None
    else if s[0] == '0' then Some((None, s[1..]))
    else if s[0] == '1' then
      var r :- DecodeString(s[1..]);
      Some((Some(r.0), r.1))
    else None
  }

  lemma DecodeOptionalStringThen(o: Option<string>, rest: string)
    ensures DecodeOptionalString(EncodeOptionalStringThen(o, rest)) == Some((o, rest))
  {
    var s := EncodeOptionalStringThen(o, rest);
    match o
    case None =>
      assert s[1..] == rest;
    case Some(text) =>
      assert s[1..] == EncodeStringThen(text, rest);
      DecodeStringThen(text, rest);
  }

  function EncodeOptionalIntThen(o: Option<int>, rest: string): string {
    match o
    case None => ['0'] + rest
    case Some(i) => ['1'] + EncodeIntThen(i, rest)
  }

  function DecodeOptionalInt(s: string): Option<(Option<int>, string)> {
    if s == [] then None
    else if s[0] == '0' then Some((None, s[1..]))
    else if s[0] == '1' then
      var r :- DecodeInt(s[1..]);
      Some((Some(r.0), r.1))
    else None
  }

  lemma DecodeOptionalIntThen(o: Option<int>, rest: string)
    ensures DecodeOptionalInt(EncodeOptionalIntThen(o, rest)) == Some((o, rest))
  {
    var s := EncodeOptionalIntThen(o, rest);
    match o
    case None =>
      assert s[1..] == rest;
    case Some(i) =>
      assert s[1..] == EncodeIntThen(i, rest);
      DecodeIntThen(i, rest);
  }

  function EncodeNumberThen(n: Number, rest: string): string {
    EncodeIntThen(n.mantissa, EncodeIntThen(n.exponent, rest))
  }

  function DecodeNumber(s: string): Option<(Number, string)> {
    var m :- DecodeInt(s);
    var e :- DecodeInt(m.1);
    Some((Number(m.0, e.0), e.1))
  }

  lemma DecodeNumberThen(n: Number, rest: string)
    ensures DecodeNumber(EncodeNumberThen(n, rest)) == Some((n, rest))
  {
    DecodeIntThen(n.mantissa, EncodeIntThen(n.exponent, rest));
    DecodeIntThen(n.exponent, rest);
  }

  // ---------------------------------------------------------------------------
  // Records
  // ---------------------------------------------------------------------------

  function EncodeSettingsThen(x: Settings, rest: string): string {
    EncodeNumberThen(x.precision, EncodeIntThen(x.maxLife, EncodeStringThen(x.gameType, rest)))
  }

  function DecodeSettings(s: string): Option<(Settings, string)> {
    var precision :- DecodeNumber(s);
    var maxLife :- DecodeInt(precision.1);
    var gameType :- DecodeString(maxLife.1);
    Some((Settings(precision.0, maxLife.0, gameType.0), gameType.1))
  }

  lemma DecodeSettingsThen(x: Settings, rest: string)
    ensures DecodeSettings(EncodeSettingsThen(x, rest)) == Some((x, rest))
  {
    DecodeNumberThen(x.precision, EncodeIntThen(x.maxLife, EncodeStringThen(x.gameType, rest)));
    DecodeIntThen(x.maxLife, EncodeStringThen(x.gameType, rest));
    DecodeStringThen(x.gameType, rest);
  }

  function EncodeParticipantThen(p: Participant, rest: string): string {
    EncodeStringThen(p.id,
    EncodeStringThen(p.challengeId,
    EncodeStringThen(p.displayName,
    EncodeStringThen(p.deviceId,
    EncodeOptionalStringThen(p.userId,
    EncodeIntThen(p.joinedAt, rest))))))
  }

  function DecodeParticipant(s: string): Option<(Participant, string)> {
    var id :- DecodeString(s);
    var challengeId :- DecodeString(id.1);
    var displayName :- DecodeString(challengeId.1);
    var deviceId :- DecodeString(displayName.1);
    var userId :- DecodeOptionalString(deviceId.1);
    var joinedAt :- DecodeInt(userId.1);
    Some((Participant(id.0, challengeId.0, displayName.0, deviceId.0, userId.0, joinedAt.0), joinedAt.1))
  }

  lemma DecodeParticipantThen(p: Participant, rest: string)
    ensures DecodeParticipant(EncodeParticipantThen(p, rest)) == Some((p, rest))
  {
    var s5 := EncodeIntThen(p.joinedAt, rest);
    var s4 := EncodeOptionalStringThen(p.userId, s5);
    var s3 := EncodeStringThen(p.deviceId, s4);
    var s2 := EncodeStringThen(p.displayName, s3);
    var s1 := EncodeStringThen(p.challengeId, s2);
    DecodeStringThen(p.id, s1);
    DecodeStringThen(p.challengeId, s2);
    DecodeStringThen(p.displayName, s3);
    DecodeStringThen(p.deviceId, s4);
    DecodeOptionalStringThen(p.userId, s5);
    DecodeIntThen(p.joinedAt, rest);
  }

  function EncodeMetadataThen(m: Metadata, rest: string): string {
    EncodeIntThen(m.rounds,
    EncodeStringThen(m.mode,
    EncodeStringThen(m.gameType,
    EncodeNumberThen(m.precision, rest))))
  }

  function DecodeMetadata(s: string): Option<(Metadata, string)> {
    var rounds :- DecodeInt(s);
    var mode :- DecodeString(rounds.1);
    var gameType :- DecodeString(mode.1);
    var precision :- DecodeNumber(gameType.1);
    Some((Metadata(rounds.0, mode.0, gameType.0, precision.0), precision.1))
  }

  lemma DecodeMetadataThen(m: Metadata, rest: string)
    ensures DecodeMetadata(EncodeMetadataThen(m, rest)) == Some((m, rest))
  {
    var s3 := EncodeNumberThen(m.precision, rest);
    var s2 := EncodeStringThen(m.gameType, s3);
    var s1 := EncodeStringThen(m.mode, s2);
    DecodeIntThen(m.rounds, s1);
    DecodeStringThen(m.mode, s2);
    DecodeStringThen(m.gameType, s3);
    DecodeNumberThen(m.precision, rest);
  }

  function EncodeAttemptThen(a: Attempt, rest: string): string {
    EncodeStringThen(a.id,
    EncodeStringThen(a.challengeId,
    EncodeStringThen(a.participantId,
    EncodeIntThen(a.winningStreak,
    EncodeIntThen(a.submittedAt,
    EncodeOptionalStringThen(a.sessionId,
    EncodeMetadataThen(a.metadata, rest)))))))
  }

  function DecodeAttempt(s: string): Option<(Attempt, string)> {
    var id :- DecodeString(s);
    var challengeId :- DecodeString(id.1);
    var participantId :- DecodeString(challengeId.1);
    var winningStreak :- DecodeInt(participantId.1);
    var submittedAt :- DecodeInt(winningStreak.1);
    var sessionId :- DecodeOptionalString(submittedAt.1);
    var metadata :- DecodeMetadata(sessionId.1);
    Some((Attempt(id.0, challengeId.0, participantId.0, winningStreak.0, submittedAt.0,
                  sessionId.0, metadata.0), metadata.1))
  }

  lemma DecodeAttemptThen(a: Attempt, rest: string)
    ensures DecodeAttempt(EncodeAttemptThen(a, rest)) == Some((a, rest))
  {
    var s6 := EncodeMetadataThen(a.metadata, rest);
    var s5 := EncodeOptionalStringThen(a.sessionId, s6);
    var s4 := EncodeIntThen(a.submittedAt, s5);
    var s3 := EncodeIntThen(a.winningStreak, s4);
    var s2 := EncodeStringThen(a.participantId, s3);
    var s1 := EncodeStringThen(a.challengeId, s2);
    DecodeStringThen(a.id, s1);
    DecodeStringThen(a.challengeId, s2);
    DecodeStringThen(a.participantId, s3);
    DecodeIntThen(a.winningStreak, s4);
    DecodeIntThen(a.submittedAt, s5);
    DecodeOptionalStringThen(a.sessionId, s6);
    DecodeMetadataThen(a.metadata, rest);
  }

  // ---------------------------------------------------------------------------
  // Lists
  // ---------------------------------------------------------------------------

  function EncodeParticipantItemsThen(ps: seq<Participant>, rest: string): string
    decreases |ps|
  {
    if ps == [] then rest else EncodeParticipantThen(ps[0], EncodeParticipantItemsThen(ps[1..], rest))
  }

  function DecodeParticipantItems(count: nat, s: string): Option<(seq<Participant>, string)> {
    if count == 0 then Some(([], s))
    else
      var first :- DecodeParticipant(s);
      var others :- DecodeParticipantItems(count - 1, first.1);
      Some(([first.0] + others.0, others.1))
  }

  /** One step of reading a counted list: an item, then the remaining items. */
  lemma DecodeParticipantItemsStep(count: nat, s: string, first: Participant, middle: string, others: seq<Participant>, rest: string)
    requires DecodeParticipant(s) == Some((first, middle))
    requires DecodeParticipantItems(count, middle) == Some((others, rest))
    ensures DecodeParticipantItems(count + 1, s) == Some(([first] + others, rest))
  {
  }

  lemma {:induction false} DecodeParticipantItemsThen(ps: seq<Participant>, rest: string)
    ensures DecodeParticipantItems(|ps|, EncodeParticipantItemsThen(ps, rest)) == Some((ps, rest))
    decreases |ps|
  {
    if ps != [] {
      var tail := EncodeParticipantItemsThen(ps[1..], rest);
      var whole := EncodeParticipantItemsThen(ps, rest);
      assert whole == EncodeParticipantThen(ps[0], tail);
      DecodeParticipantThen(ps[0], tail);
      assert DecodeParticipant(whole) == Some((ps[0], tail));
      var others := ps[1..];
      DecodeParticipantItemsThen(others, rest);
      assert |others| == |ps| - 1;
      DecodeParticipantItemsStep(|others|, whole, ps[0], tail, others, rest);
      assert [ps[0]] + ps[1..] == ps;
    }
  }

  function EncodeParticipantsThen(ps: seq<Participant>, rest: string): string {
    EncodeNatThen(|ps|, EncodeParticipantItemsThen(ps, rest))
  }

  function DecodeParticipants(s: string): Option<(seq<Participant>, string)> {
    var count :- DecodeNat(s);
    DecodeParticipantItems(count.0, count.1)
  }

  lemma DecodeParticipantsThen(ps: seq<Participant>, rest: string)
    ensures DecodeParticipants(EncodeParticipantsThen(ps, rest)) == Some((ps, rest))
  {
    DecodeNatThen(|ps|, EncodeParticipantItemsThen(ps, rest));
    DecodeParticipantItemsThen(ps, rest);
  }

  function EncodeAttemptItemsThen(xs: seq<Attempt>, rest: string): string
    decreases |xs|
  {
    if xs == [] then rest else EncodeAttemptThen(xs[0], EncodeAttemptItemsThen(xs[1..], rest))
  }

  function DecodeAttemptItems(count: nat, s: string): Option<(seq<Attempt>, string)> {
    if count == 0 then Some(([], s))
    else
      var first :- DecodeAttempt(s);
      var others :- DecodeAttemptItems(count - 1, first.1);
      Some(([first.0] + others.0, others.1))
  }

  /** One step of reading a counted list: an item, then the remaining items. */
  lemma DecodeAttemptItemsStep(count: nat, s: string, first: Attempt, middle: string, others: seq<Attempt>, rest: string)
    requires DecodeAttempt(s) == Some((first, middle))
    requires DecodeAttemptItems(count, middle) == Some((others, rest))
    ensures DecodeAttemptItems(count + 1, s) == Some(([first] + others, rest))
  {
  }

  lemma {:induction false} DecodeAttemptItemsThen(xs: seq<Attempt>, rest: string)
    ensures DecodeAttemptItems(|xs|, EncodeAttemptItemsThen(xs, rest)) == Some((xs, rest))
    decreases |xs|
  {
    if xs != [] {
      var tail := EncodeAttemptItemsThen(xs[1..], rest);
      var whole := EncodeAttemptItemsThen(xs, rest);
      assert whole == EncodeAttemptThen(xs[0], tail);
      DecodeAttemptThen(xs[0], tail);
      assert DecodeAttempt(whole) == Some((xs[0], tail));
      var others := xs[1..];
      DecodeAttemptItemsThen(others, rest);
      assert |others| == |xs| - 1;
      DecodeAttemptItemsStep(|others|, whole, xs[0], tail, others, rest);
      assert [xs[0]] + xs[1..] == xs;
    }
  }

  function EncodeAttemptsThen(xs: seq<Attempt>, rest: string): string {
    EncodeNatThen(|xs|, EncodeAttemptItemsThen(xs, rest))
  }

  function DecodeAttempts(s: string): Option<(seq<Attempt>, string)> {
    var count :- DecodeNat(s);
    DecodeAttemptItems(count.0, count.1)
  }

  lemma DecodeAttemptsThen(xs: seq<Attempt>, rest: string)
    ensures DecodeAttempts(EncodeAttemptsThen(xs, rest)) == Some((xs, rest))
  {
    DecodeNatThen(|xs|, EncodeAttemptItemsThen(xs, rest));
    DecodeAttemptItemsThen(xs, rest);
  }

  // ---------------------------------------------------------------------------
  // Challenges
  // ---------------------------------------------------------------------------

  function EncodeChallengeThen(c: Challenge, rest: string): string {
    EncodeStringThen(c.id,
    EncodeStringThen(c.accessCode,
    EncodeStringThen(c.name,
    EncodeIntThen(c.createdAt,
    EncodeOptionalIntThen(c.expiresAt,
    EncodeStringThen(c.gameMode,
    EncodeSettingsThen(c.settings,
    EncodeParticipantsThen(c.participants,
    EncodeAttemptsThen(c.attempts, rest)))))))))
  }

  function DecodeChallenge(s: string): Option<(Challenge, string)> {
    var id :- DecodeString(s);
    var accessCode :- DecodeString(id.1);
    var name :- DecodeString(accessCode.1);
    var createdAt :- DecodeInt(name.1);
    var expiresAt :- DecodeOptionalInt(createdAt.1);
    var gameMode :- DecodeString(expiresAt.1);
    var settings :- DecodeSettings(gameMode.1);
    var participants :- DecodeParticipants(settings.1);
    var attempts :- DecodeAttempts(participants.1);
    Some((Challenge(id.0, accessCode.0, name.0, createdAt.0, expiresAt.0, gameMode.0,
                    settings.0, participants.0, attempts.0), attempts.1))
  }

  lemma DecodeChallengeThen(c: Challenge, rest: string)
    ensures DecodeChallenge(EncodeChallengeThen(c, rest)) == Some((c, rest))
  {
    var s8 := EncodeAttemptsThen(c.attempts, rest);
    var s7 := EncodeParticipantsThen(c.participants, s8);
    var s6 := EncodeSettingsThen(c.settings, s7);
    var s5 := EncodeStringThen(c.gameMode, s6);
    var s4 := EncodeOptionalIntThen(c.expiresAt, s5);
    var s3 := EncodeIntThen(c.createdAt, s4);
    var s2 := EncodeStringThen(c.name, s3);
    var s1 := EncodeStringThen(c.accessCode, s2);
    DecodeStringThen(c.id, s1);
    DecodeStringThen(c.accessCode, s2);
    DecodeStringThen(c.name, s3);
    DecodeIntThen(c.createdAt, s4);
    DecodeOptionalIntThen(c.expiresAt, s5);
    DecodeStringThen(c.gameMode, s6);
    DecodeSettingsThen(c.settings, s7);
    DecodeParticipantsThen(c.participants, s8);
    DecodeAttemptsThen(c.attempts, rest);
  }

  /** JSON.stringify of a challenge. */
  function Serialize(c: Challenge): string {
    EncodeChallengeThen(c, [])
  }

  /** JSON.parse of a stored challenge: None where the source's parse throws. */
  function Parse(text: string): Option<Challenge> {
    match DecodeChallenge(text)
    case Some((c, rest)) => if rest == [] then Some(c) else None
    case None => None
  }

  /** Whatever the KV backend writes, it reads back unchanged. */
  lemma ParseSerialize(c: Challenge)
    ensures Parse(Serialize(c)) == Some(c)
  {
    DecodeChallengeThen(c, []);
  }
}
