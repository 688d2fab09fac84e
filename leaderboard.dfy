/**
 * The leaderboard of a challenge: each participant's best attempt (the first
 * attempt with the longest winning streak), one row per participant, sorted by
 * streak descending, then by submission time ascending with the participants
 * who never submitted last among equal streaks.
 */
module Leaderboard {
  import opened Wrappers
  import opened Types

  // ---------------------------------------------------------------------------
  // Best attempt per participant
  // ---------------------------------------------------------------------------

  /**
   * The best attempt of participant `pid` after scanning `xs` in order: a later
   * attempt replaces the current best only with a strictly longer streak.
   */
  function Best(xs: seq<Attempt>, pid: string): Option<Attempt>
    decreases |xs|
  {
    if |xs| == 0 then None
    else
      var previous := Best(xs[..|xs| - 1], pid);
      var last := xs[|xs| - 1];
      if last.participantId == pid && (previous.None? || last.winningStreak > previous.value.winningStreak)
      then Some(last)
      else previous
  }

  predicate HasAttempt(xs: seq<Attempt>, pid: string) {
    exists i :: 0 <= i < |xs| && xs[i].participantId == pid
  }

  /**
   * Position `k` holds the first of `pid`'s attempts with the longest streak:
   * no attempt of `pid` has a longer one, and every earlier one a shorter one.
   */
  predicate FirstMaximal(xs: seq<Attempt>, pid: string, k: int) {
    0 <= k < |xs| && xs[k].participantId == pid &&
    (forall i :: 0 <= i < |xs| && xs[i].participantId == pid ==> xs[i].winningStreak <= xs[k].winningStreak) &&
    (forall i :: 0 <= i < k && xs[i].participantId == pid ==> xs[i].winningStreak < xs[k].winningStreak)
  }

  /** Best finds nothing exactly when `pid` has no attempt. */
  lemma {:induction false} BestNone(xs: seq<Attempt>, pid: string)
    ensures Best(xs, pid).None? <==> !HasAttempt(xs, pid)
    decreases |xs|
  {
    if |xs| > 0 {
      var n := |xs| - 1;
      var ys := xs[..n];
      BestNone(ys, pid);
      if HasAttempt(ys, pid) {
        var i :| 0 <= i < |ys| && ys[i].participantId == pid;
        assert xs[i] == ys[i];
      }
    }
  }

  /** Whoever has an attempt has a first longest-streak one. */
  lemma {:induction false} FirstMaximalExists(xs: seq<Attempt>, pid: string)
    requires HasAttempt(xs, pid)
    ensures exists k :: FirstMaximal(xs, pid, k)
    decreases |xs|
  {
    var n := |xs| - 1;
    var ys := xs[..n];
    var last := xs[n];
    if HasAttempt(ys, pid) {
      FirstMaximalExists(ys, pid);
      var j :| FirstMaximal(ys, pid, j);
      if last.participantId == pid && last.winningStreak > ys[j].winningStreak {
        assert FirstMaximal(xs, pid, n);
      } else {
        assert FirstMaximal(xs, pid, j);
      }
    } else {
      assert FirstMaximal(xs, pid, n) by {
        forall i | 0 <= i < n
          ensures xs[i].participantId != pid
        {
          assert ys[i] == xs[i];
        }
      }
    }
  }

  /** Best is the first longest-streak attempt. */
  lemma {:induction false} BestAtFirstMaximal(xs: seq<Attempt>, pid: string, k: int)
    requires FirstMaximal(xs, pid, k)
    ensures Best(xs, pid) == Some(xs[k])
    decreases |xs|
  {
    var n := |xs| - 1;
    var ys := xs[..n];
    var last := xs[n];
    if k < n {
      assert FirstMaximal(ys, pid, k);
      BestAtFirstMaximal(ys, pid, k);
    } else if HasAttempt(ys, pid) {
      FirstMaximalExists(ys, pid);
      var j :| FirstMaximal(ys, pid, j);
      BestAtFirstMaximal(ys, pid, j);
      assert xs[j] == ys[j];
    } else {
      BestNone(ys, pid);
    }
  }

  /**
   * Best finds nothing exactly when `pid` has no attempt; otherwise there is a
   * first maximal attempt, and Best is that attempt.
   */
  lemma BestIsFirstMaximal(xs: seq<Attempt>, pid: string)
    ensures Best(xs, pid).None? <==> !HasAttempt(xs, pid)
    ensures HasAttempt(xs, pid) ==> exists k :: FirstMaximal(xs, pid, k)
    ensures forall k :: FirstMaximal(xs, pid, k) ==> Best(xs, pid) == Some(xs[k])
  {
    BestNone(xs, pid);
    if HasAttempt(xs, pid) {
      FirstMaximalExists(xs, pid);
    }
    forall k | FirstMaximal(xs, pid, k)
      ensures Best(xs, pid) == Some(xs[k])
    {
      BestAtFirstMaximal(xs, pid, k);
    }
  }

  /**
   * Submitting attempt `a` changes no other participant's best attempt, and
   * the submitter's best streak is afterwards at least `a`'s.
   */
  lemma BestAfterSubmit(xs: seq<Attempt>, a: Attempt, pid: string)
    ensures pid != a.participantId ==> Best(xs + [a], pid) == Best(xs, pid)
    ensures Best(xs + [a], a.participantId).Some?
    ensures Best(xs + [a], a.participantId).value.winningStreak >= a.winningStreak
  {
    assert (xs + [a])[..|xs|] == xs;
  }

  /** A map lookup as an Option, as `Map.get` returns undefined for a missing key. */
  function Lookup<K, V>(m: map<K, V>, key: K): (r: Option<V>)
    ensures r.Some? <==> key in m
    ensures r.Some? ==> r.value == m[key]
  {
    if key in m then Some(m[key]) else None
  }

  /**
   * The scan over a challenge's attempts that keeps, per participant id, the
   * best attempt seen so far.
   */
  method BestAttempts(attempts: seq<Attempt>) returns (best: map<string, Attempt>)
    ensures forall pid :: Lookup(best, pid) == Best(attempts, pid)
  {
    best := map[];
    for i := 0 to |attempts|
      invariant forall pid :: Lookup(best, pid) == Best(attempts[..i], pid)
    {
      var attempt := attempts[i];
      assert attempts[..i + 1][..i] == attempts[..i];
      var currentBest := Lookup(best, attempt.participantId);
      if currentBest.None? || attempt.winningStreak > currentBest.value.winningStreak {
        best := best[attempt.participantId := attempt];
      }
    }
    assert attempts[..|attempts|] == attempts;
  }

  // ---------------------------------------------------------------------------
  // Rows
  // ---------------------------------------------------------------------------

  /** A participant's row: the best attempt's streak and time, or 0 and 0 without one. */
  function EntryFor(p: Participant, best: Option<Attempt>): LeaderboardEntry {
    match best
    case Some(a) => LeaderboardEntry(p.displayName, a.winningStreak, a.submittedAt)
    case None => LeaderboardEntry(p.displayName, 0, 0)
  }

  /** One row per participant, in participant order. */
  function Entries(participants: seq<Participant>, attempts: seq<Attempt>): seq<LeaderboardEntry> {
    seq(|participants|, i requires 0 <= i < |participants| => EntryFor(participants[i], Best(attempts, participants[i].id)))
  }

  /**
   * Participant `i`'s row carries their display name and, when they submitted,
   * the streak and time of their first longest-streak attempt; otherwise 0 and 0.
   */
  lemma EntryIsBest(participants: seq<Participant>, attempts: seq<Attempt>, i: int)
    requires 0 <= i < |participants|
    ensures |Entries(participants, attempts)| == |participants|
    ensures Entries(participants, attempts)[i].displayName == participants[i].displayName
    ensures !HasAttempt(attempts, participants[i].id) ==>
      Entries(participants, attempts)[i].winningStreak == 0 && Entries(participants, attempts)[i].submittedAt == 0
    ensures forall k :: FirstMaximal(attempts, participants[i].id, k) ==>
      Entries(participants, attempts)[i].winningStreak == attempts[k].winningStreak &&
      Entries(participants, attempts)[i].submittedAt == attempts[k].submittedAt
  {
    BestIsFirstMaximal(attempts, participants[i].id);
  }

  // ---------------------------------------------------------------------------
  // Ordering
  // ---------------------------------------------------------------------------

  /**
   * The sort comparator: negative puts `a` first. Longer streaks first; among
   * equal streaks earlier submissions first, and a submission time of 0 (no
   * attempt) after every other.
   */
  function Compare(a: LeaderboardEntry, b: LeaderboardEntry): int {
    if b.winningStreak != a.winningStreak then b.winningStreak - a.winningStreak
    else if a.submittedAt == 0 && b.submittedAt == 0 then 0
    else if a.submittedAt == 0 then 1
    else if b.submittedAt == 0 then -1
    else a.submittedAt - b.submittedAt
  }

  /** `a` may stand before `b` in the sorted leaderboard. */
  predicate Precedes(a: LeaderboardEntry, b: LeaderboardEntry) {
    Compare(a, b) <= 0
  }

  /** The comparator is antisymmetric in sign, so it orders any two rows one way or the other. */
  lemma CompareAntisymmetric(a: LeaderboardEntry, b: LeaderboardEntry)
    ensures Compare(a, b) == -Compare(b, a)
    ensures Precedes(a, b) || Precedes(b, a)
    ensures Precedes(a, a)
  {
  }

  /** The ordering by (streak descending, then time ascending with 0 last) that Compare encodes. */
  predicate RanksNoLower(a: LeaderboardEntry, b: LeaderboardEntry) {
    a.winningStreak > b.winningStreak ||
    (a.winningStreak == b.winningStreak &&
      (b.submittedAt == 0 || (a.submittedAt != 0 && a.submittedAt <= b.submittedAt)))
  }

  lemma PrecedesMeansRanksNoLower(a: LeaderboardEntry, b: LeaderboardEntry)
    ensures Precedes(a, b) <==> RanksNoLower(a, b)
  {
  }

  lemma PrecedesTransitive(a: LeaderboardEntry, b: LeaderboardEntry, c: LeaderboardEntry)
    requires Precedes(a, b) && Precedes(b, c)
    ensures Precedes(a, c)
  {
    PrecedesMeansRanksNoLower(a, b);
    PrecedesMeansRanksNoLower(b, c);
    PrecedesMeansRanksNoLower(a, c);
  }

  predicate Sorted(s: seq<LeaderboardEntry>) {
    forall i, j :: 0 <= i < j < |s| ==> Precedes(s[i], s[j])
  }

  /** Places `x` before the first row it may precede. */
  function Insert(x: LeaderboardEntry, s: seq<LeaderboardEntry>): (r: seq<LeaderboardEntry>)
    ensures multiset(r) == multiset(s) + multiset{x}
    ensures |r| == |s| + 1
    decreases |s|
  {
    if |s| == 0 then [x]
    else if Precedes(x, s[0]) then [x] + s
    else
      assert s == [s[0]] + s[1..];
      [s[0]] + Insert(x, s[1..])
  }

  /** `h` may stand before every row of `s`. */
  predicate PrecedesAll(h: LeaderboardEntry, s: seq<LeaderboardEntry>) {
    forall k :: 0 <= k < |s| ==> Precedes(h, s[k])
  }

  /** A row that may precede `x` and all of `s` may precede all of `Insert(x, s)`. */
  lemma {:induction false} InsertPrecededBy(h: LeaderboardEntry, x: LeaderboardEntry, s: seq<LeaderboardEntry>)
    requires Precedes(h, x) && PrecedesAll(h, s)
    ensures PrecedesAll(h, Insert(x, s))
    decreases |s|
  {
    if |s| > 0 && !Precedes(x, s[0]) {
      InsertPrecededBy(h, x, s[1..]);
    }
  }

  lemma SortedCons(h: LeaderboardEntry, t: seq<LeaderboardEntry>)
    ensures Sorted([h] + t) <==> PrecedesAll(h, t) && Sorted(t)
  {
    var s := [h] + t;
    if PrecedesAll(h, t) && Sorted(t) {
      forall i, j | 0 <= i < j < |s|
        ensures Precedes(s[i], s[j])
      {
        if i > 0 {
          assert s[i] == t[i - 1];
        }
      }
    }
    if Sorted(s) {
      forall k | 0 <= k < |t|
        ensures Precedes(h, t[k])
      {
        assert s[0] == h && s[k + 1] == t[k];
        assert Precedes(s[0], s[k + 1]);
      }
      forall i, j | 0 <= i < j < |t|
        ensures Precedes(t[i], t[j])
      {
        assert t[i] == s[i + 1] && t[j] == s[j + 1];
      }
    }
  }

  /** Inserting into a sorted leaderboard keeps it sorted. */
  lemma {:induction false} InsertSorted(x: LeaderboardEntry, s: seq<LeaderboardEntry>)
    requires Sorted(s)
    ensures Sorted(Insert(x, s))
    decreases |s|
  {
    if |s| == 0 {
      return;
    }
    var tail := s[1..];
    assert s == [s[0]] + tail;
    SortedCons(s[0], tail);
    if Precedes(x, s[0]) {
      forall k | 0 <= k < |s|
        ensures Precedes(x, s[k])
      {
        if k > 0 {
          PrecedesTransitive(x, s[0], s[k]);
        }
      }
      SortedCons(x, s);
    } else {
      CompareAntisymmetric(x, s[0]);
      InsertPrecededBy(s[0], x, tail);
      InsertSorted(x, tail);
      SortedCons(s[0], Insert(x, tail));
    }
  }

  /** The leaderboard sort: an insertion sort under Compare. */
  function Sort(s: seq<LeaderboardEntry>): (r: seq<LeaderboardEntry>)
    ensures multiset(r) == multiset(s)
    ensures |r| == |s|
    decreases |s|
  {
    if |s| == 0 then []
    else
      assert s == [s[0]] + s[1..];
      Insert(s[0], Sort(s[1..]))
  }

  /** Sort returns a sorted permutation of its input. */
  lemma {:induction false} SortSorted(s: seq<LeaderboardEntry>)
    ensures Sorted(Sort(s))
    ensures multiset(Sort(s)) == multiset(s)
    decreases |s|
  {
    if |s| > 0 {
      SortSorted(s[1..]);
      InsertSorted(s[0], Sort(s[1..]));
    }
  }

  /** The rows of `s` that compare equal to `k`, in their order in `s`. */
  function Ties(s: seq<LeaderboardEntry>, k: LeaderboardEntry): seq<LeaderboardEntry>
    decreases |s|
  {
    if |s| == 0 then []
    else (if Compare(s[0], k) == 0 then [s[0]] else []) + Ties(s[1..], k)
  }

  lemma TiesCons(h: LeaderboardEntry, t: seq<LeaderboardEntry>, k: LeaderboardEntry)
    ensures Ties([h] + t, k) == (if Compare(h, k) == 0 then [h] else []) + Ties(t, k)
  {
    assert ([h] + t)[0] == h && ([h] + t)[1..] == t;
  }

  /** Insertion puts `x` in front of every row that ties with it. */
  lemma {:induction false} InsertTies(x: LeaderboardEntry, t: seq<LeaderboardEntry>, k: LeaderboardEntry)
    ensures Ties(Insert(x, t), k) == (if Compare(x, k) == 0 then [x] else []) + Ties(t, k)
    decreases |t|
  {
    if |t| == 0 {
      assert Insert(x, t) == [x] + t;
      TiesCons(x, t, k);
    } else if Precedes(x, t[0]) {
      assert Insert(x, t) == [x] + t;
      TiesCons(x, t, k);
    } else {
      var rest := Insert(x, t[1..]);
      assert Insert(x, t) == [t[0]] + rest;
      TiesCons(t[0], rest, k);
      InsertTies(x, t[1..], k);
      assert t == [t[0]] + t[1..];
      TiesCons(t[0], t[1..], k);
      if Compare(x, k) == 0 {
        assert Compare(t[0], k) != 0;
      }
    }
  }

  /**
   * The sort is stable: for every row `k`, the rows that tie with `k` keep the
   * order they had in the input.
   */
  lemma {:induction false} SortStable(s: seq<LeaderboardEntry>, k: LeaderboardEntry)
    ensures Ties(Sort(s), k) == Ties(s, k)
    decreases |s|
  {
    if |s| > 0 {
      SortStable(s[1..], k);
      InsertTies(s[0], Sort(s[1..]), k);
    }
  }

  /** The leaderboard of a challenge, before serialisation. */
  function Standings(c: Challenge): seq<LeaderboardEntry> {
    Sort(Entries(c.participants, c.attempts))
  }

  /**
   * The standings hold exactly one row per participant, rows ranked by
   * streak descending, then by time ascending with those who never submitted last.
   */
  lemma StandingsRanked(c: Challenge)
    ensures |Standings(c)| == |c.participants|
    ensures multiset(Standings(c)) == multiset(Entries(c.participants, c.attempts))
    ensures forall i, j :: 0 <= i < j < |Standings(c)| ==> RanksNoLower(Standings(c)[i], Standings(c)[j])
    ensures forall k :: Ties(Standings(c), k) == Ties(Entries(c.participants, c.attempts), k)
  {
    forall k
      ensures Ties(Standings(c), k) == Ties(Entries(c.participants, c.attempts), k)
    {
      SortStable(Entries(c.participants, c.attempts), k);
    }
    SortSorted(Entries(c.participants, c.attempts));
    var s := Standings(c);
    forall i, j | 0 <= i < j < |s|
      ensures RanksNoLower(s[i], s[j])
    {
      PrecedesMeansRanksNoLower(s[i], s[j]);
    }
  }
}
