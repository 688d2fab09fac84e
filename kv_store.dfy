/**
 * The Workers KV backend. A KvNamespace is the host's key-value namespace:
 * string keys, string values with an optional expiration in seconds, and a
 * paginated listing by key prefix. The KvStore keeps each challenge as its
 * serialized text under "challenge:<id>" and its index entry as the id under
 * "ac:<code>"; the View of the namespace is what those two key families say.
 */
module Kv {
  import opened Wrappers
  import opened Types
  import opened Codec
  import opened StoreContract

  // ---------------------------------------------------------------------------
  // The host namespace
  // ---------------------------------------------------------------------------

  datatype Entry = Entry(value: string, expiration: Option<int>)

  /** A listing position: the keys handed out by the earlier pages. */
  datatype Cursor = Cursor(listed: set<string>)

  datatype ListResult = ListResult(keys: seq<string>, listComplete: bool, cursor: Option<Cursor>)

  /** The number of keys one list call returns at most, the host's default. */
  const ListLimit: nat := 1000

  predicate HasPrefix(k: string, prefix: string) {
    |prefix| <= |k| && k[..|prefix|] == prefix
  }

  function Elems(s: seq<string>): set<string> {
    set x | x in s
  }

  lemma ElemsSnoc(s: seq<string>, x: string)
    ensures Elems(s + [x]) == Elems(s) + {x}
  {
  }

  function Listed(cursor: Option<Cursor>): set<string> {
    match cursor
    case None => {}
    case Some(c) => c.listed
  }

  /** The keys with the prefix that a listing from `listed` has not handed out yet. */
  function PendingKeys(entries: map<string, Entry>, prefix: string, listed: set<string>): set<string> {
    set k | k in entries && HasPrefix(k, prefix) && k !in listed
  }

  /** Hands out up to ListLimit of the keys `all`, in some order, and what is left over. */
  method TakePage(all: set<string>) returns (keys: seq<string>, remaining: set<string>)
    ensures remaining + Elems(keys) == all && remaining !! Elems(keys)
    ensures |keys| <= ListLimit
    ensures remaining != {} ==> |keys| == ListLimit
  {
    remaining := all;
    keys := [];
    while remaining != {} && |keys| < ListLimit
      invariant remaining + Elems(keys) == all && remaining !! Elems(keys)
      invariant |keys| <= ListLimit
      decreases |remaining|
    {
      var k :| k in remaining;
      ElemsSnoc(keys, k);
      keys := keys + [k];
      remaining := remaining - {k};
    }
  }

  class KvNamespace {
    var entries: map<string, Entry>

    constructor()
      ensures entries == map[]
    {
      entries := map[];
    }

    /** get: the stored value, or None where the host returns null. */
    method Get(key: string) returns (r: Option<string>)
      ensures r.Some? <==> key in entries
      ensures r.Some? ==> r.value == entries[key].value
    {
      if key in entries {
        r := Some(entries[key].value);
      } else {
        r := None;
      }
    }

    method Put(key: string, value: string, expiration: Option<int>)
      modifies this
      ensures entries == old(entries)[key := Entry(value, expiration)]
    {
      entries := entries[key := Entry(value, expiration)];
    }

    method Delete(key: string)
      modifies this
      ensures entries == old(entries) - {key}
    {
      entries := entries - {key};
    }

    /**
     * list: up to ListLimit keys with the prefix not handed out before. The
     * listing is complete exactly when no such key is left over, and an
     * incomplete listing returns a full page and a cursor past it.
     */
    method List(prefix: string, cursor: Option<Cursor>) returns (r: ListResult)
      ensures forall k :: k in r.keys ==> k in PendingKeys(entries, prefix, Listed(cursor))
      ensures |r.keys| <= ListLimit
      ensures r.listComplete <==> PendingKeys(entries, prefix, Listed(cursor)) <= Elems(r.keys)
      ensures !r.listComplete ==> |r.keys| == ListLimit
      ensures r.cursor == if r.listComplete then None else Some(Cursor(Listed(cursor) + Elems(r.keys)))
    {
      var all := PendingKeys(entries, prefix, Listed(cursor));
      var keys, remaining := TakePage(all);
      if remaining == {} {
        r := ListResult(keys, true, None);
      } else {
        assert !(all <= Elems(keys)) by {
          var k :| k in remaining;
          assert k in all && k !in Elems(keys);
        }
        r := ListResult(keys, false, Some(Cursor(Listed(cursor) + Elems(keys))));
      }
    }
  }

  // ---------------------------------------------------------------------------
  // Keys and the View of a namespace
  // ---------------------------------------------------------------------------

  const ChallengePrefix: string := "challenge:"
  const AccessCodePrefix: string := "ac:"

  function ChallengeKey(id: string): string {
    ChallengePrefix + id
  }

  function AccessCodeKey(code: string): string {
    AccessCodePrefix + code
  }

  /** The put option both records of a challenge carry: its expiry floored to seconds. */
  function ExpirationOf(c: Challenge): (r: Option<int>)
    ensures r.Some? <==> c.expiresAt.Some? && c.expiresAt.value != 0
    ensures r.Some? ==> r.value * 1000 <= c.expiresAt.value < r.value * 1000 + 1000
  {
    if c.expiresAt.Some? && c.expiresAt.value != 0 then Some(c.expiresAt.value / 1000) else None
  }

  function Stripped(entries: map<string, Entry>, prefix: string): set<string> {
    set k | k in entries && HasPrefix(k, prefix) :: k[|prefix|..]
  }

  /** The challenges the "challenge:" keys hold, by id; text that does not parse holds none. */
  function ChallengesOf(entries: map<string, Entry>): map<string, Challenge> {
    map id | id in Stripped(entries, ChallengePrefix) && ChallengeKey(id) in entries
                && Parse(entries[ChallengeKey(id)].value).Some?
      :: Parse(entries[ChallengeKey(id)].value).value
  }

  /** The index the "ac:" keys hold. */
  function IndexOf(entries: map<string, Entry>): map<string, string> {
    map code | code in Stripped(entries, AccessCodePrefix) && AccessCodeKey(code) in entries
      :: entries[AccessCodeKey(code)].value
  }

  function ViewOf(entries: map<string, Entry>): View {
    View(ChallengesOf(entries), IndexOf(entries))
  }

  /** Every "challenge:" key holds text that parses. */
  predicate AllParse(entries: map<string, Entry>) {
    forall k :: k in entries && HasPrefix(k, ChallengePrefix) ==> Parse(entries[k].value).Some?
  }

  function WithoutPrefix(entries: map<string, Entry>, prefix: string): map<string, Entry> {
    map k | k in entries && !HasPrefix(k, prefix) :: entries[k]
  }

  /** What is left once the listed keys with the prefix are deleted. */
  function WithoutListed(entries: map<string, Entry>, prefix: string, listed: set<string>): map<string, Entry> {
    map k | k in entries && !(HasPrefix(k, prefix) && k in listed) :: entries[k]
  }

  // ---------------------------------------------------------------------------
  // Key lemmas
  // ---------------------------------------------------------------------------

  lemma PrefixedKey(prefix: string, x: string)
    ensures HasPrefix(prefix + x, prefix)
    ensures (prefix + x)[|prefix|..] == x
  {
    assert (prefix + x)[..|prefix|] == prefix;
  }

  lemma RebuiltKey(prefix: string, k: string)
    requires HasPrefix(k, prefix)
    ensures prefix + k[|prefix|..] == k
  {
    assert k == k[..|prefix|] + k[|prefix|..];
  }

  /** The two key families never meet. */
  lemma FamiliesDisjoint(x: string)
    ensures !HasPrefix(ChallengeKey(x), AccessCodePrefix)
    ensures !HasPrefix(AccessCodeKey(x), ChallengePrefix)
  {
    assert ChallengeKey(x)[0] == 'c';
    assert AccessCodeKey(x)[0] == 'a';
  }

  lemma ChallengesOfAt(entries: map<string, Entry>, id: string)
    ensures id in ChallengesOf(entries) <==>
      ChallengeKey(id) in entries && Parse(entries[ChallengeKey(id)].value).Some?
    ensures id in ChallengesOf(entries) ==>
      ChallengesOf(entries)[id] == Parse(entries[ChallengeKey(id)].value).value
  {
    PrefixedKey(ChallengePrefix, id);
    if ChallengeKey(id) in entries {
      assert id in Stripped(entries, ChallengePrefix);
    }
  }

  lemma IndexOfAt(entries: map<string, Entry>, code: string)
    ensures code in IndexOf(entries) <==> AccessCodeKey(code) in entries
    ensures code in IndexOf(entries) ==> IndexOf(entries)[code] == entries[AccessCodeKey(code)].value
  {
    PrefixedKey(AccessCodePrefix, code);
    if AccessCodeKey(code) in entries {
      assert code in Stripped(entries, AccessCodePrefix);
    }
  }

  /** A write or delete outside the "challenge:" family leaves the challenges alone. */
  lemma ChallengesUnaffected(entries: map<string, Entry>, after: map<string, Entry>)
    requires forall k :: HasPrefix(k, ChallengePrefix) ==>
      (k in after <==> k in entries) && (k in after ==> after[k] == entries[k])
    ensures ChallengesOf(after) == ChallengesOf(entries)
  {
    forall x ensures x in ChallengesOf(after) <==> x in ChallengesOf(entries)
      ensures x in ChallengesOf(after) ==> ChallengesOf(after)[x] == ChallengesOf(entries)[x]
    {
      ChallengesOfAt(after, x);
      ChallengesOfAt(entries, x);
      PrefixedKey(ChallengePrefix, x);
    }
    SameMaps(ChallengesOf(after), ChallengesOf(entries));
  }

  /** A write or delete outside the "ac:" family leaves the index alone. */
  lemma IndexUnaffected(entries: map<string, Entry>, after: map<string, Entry>)
    requires forall k :: HasPrefix(k, AccessCodePrefix) ==>
      (k in after <==> k in entries) && (k in after ==> after[k] == entries[k])
    ensures IndexOf(after) == IndexOf(entries)
  {
    forall x ensures x in IndexOf(after) <==> x in IndexOf(entries)
      ensures x in IndexOf(after) ==> IndexOf(after)[x] == IndexOf(entries)[x]
    {
      IndexOfAt(after, x);
      IndexOfAt(entries, x);
      PrefixedKey(AccessCodePrefix, x);
    }
    SameMaps(IndexOf(after), IndexOf(entries));
  }

  lemma SameMaps<V>(a: map<string, V>, b: map<string, V>)
    requires forall x :: x in a <==> x in b
    requires forall x :: x in a ==> a[x] == b[x]
    ensures a == b
  {
  }

  lemma DistinctKeys(prefix: string, x: string, y: string)
    requires x != y
    ensures prefix + x != prefix + y
  {
    PrefixedKey(prefix, x);
    PrefixedKey(prefix, y);
  }

  /** Writing a challenge record stores that challenge under its id and touches nothing else. */
  lemma PutChallengeView(entries: map<string, Entry>, c: Challenge, expiration: Option<int>)
    ensures ChallengesOf(entries[ChallengeKey(c.id) := Entry(Serialize(c), expiration)]) == ChallengesOf(entries)[c.id := c]
    ensures IndexOf(entries[ChallengeKey(c.id) := Entry(Serialize(c), expiration)]) == IndexOf(entries)
  {
    var after := entries[ChallengeKey(c.id) := Entry(Serialize(c), expiration)];
    ParseSerialize(c);
    forall id ensures id in ChallengesOf(after) <==> id in ChallengesOf(entries)[c.id := c]
      ensures id in ChallengesOf(after) ==> ChallengesOf(after)[id] == ChallengesOf(entries)[c.id := c][id]
    {
      ChallengesOfAt(after, id);
      ChallengesOfAt(entries, id);
      if id != c.id {
        DistinctKeys(ChallengePrefix, id, c.id);
      }
    }
    SameMaps(ChallengesOf(after), ChallengesOf(entries)[c.id := c]);
    FamiliesDisjoint(c.id);
    IndexUnaffected(entries, after);
  }

  /** Writing an index entry points that code at the id and touches nothing else. */
  lemma PutIndexView(entries: map<string, Entry>, code: string, id: string, expiration: Option<int>)
    ensures ChallengesOf(entries[AccessCodeKey(code) := Entry(id, expiration)]) == ChallengesOf(entries)
    ensures IndexOf(entries[AccessCodeKey(code) := Entry(id, expiration)]) == IndexOf(entries)[code := id]
  {
    var after := entries[AccessCodeKey(code) := Entry(id, expiration)];
    forall x ensures x in IndexOf(after) <==> x in IndexOf(entries)[code := id]
      ensures x in IndexOf(after) ==> IndexOf(after)[x] == IndexOf(entries)[code := id][x]
    {
      IndexOfAt(after, x);
      IndexOfAt(entries, x);
      if x != code {
        DistinctKeys(AccessCodePrefix, x, code);
      }
    }
    SameMaps(IndexOf(after), IndexOf(entries)[code := id]);
    FamiliesDisjoint(code);
    ChallengesUnaffected(entries, after);
  }

  /** Deleting an index entry removes that code and touches nothing else. */
  lemma DeleteIndexView(entries: map<string, Entry>, code: string)
    ensures ChallengesOf(entries - {AccessCodeKey(code)}) == ChallengesOf(entries)
    ensures IndexOf(entries - {AccessCodeKey(code)}) == IndexOf(entries) - {code}
  {
    var after := entries - {AccessCodeKey(code)};
    forall x ensures x in IndexOf(after) <==> x in IndexOf(entries) - {code}
      ensures x in IndexOf(after) ==> IndexOf(after)[x] == IndexOf(entries)[x]
    {
      IndexOfAt(after, x);
      IndexOfAt(entries, x);
      if x != code {
        DistinctKeys(AccessCodePrefix, x, code);
      }
    }
    SameMaps(IndexOf(after), IndexOf(entries) - {code});
    FamiliesDisjoint(code);
    ChallengesUnaffected(entries, after);
  }

  /** With neither key family present, the View is empty. */
  lemma NoFamiliesEmptyView(entries: map<string, Entry>)
    requires forall k :: k in entries ==> !HasPrefix(k, ChallengePrefix) && !HasPrefix(k, AccessCodePrefix)
    ensures ViewOf(entries) == Empty
  {
    forall x ensures x !in ChallengesOf(entries) && x !in IndexOf(entries) {
      ChallengesOfAt(entries, x);
      IndexOfAt(entries, x);
      PrefixedKey(ChallengePrefix, x);
      PrefixedKey(AccessCodePrefix, x);
    }
  }

  /** One page of a prefix deletion: the listed keys are gone, or all of them when the listing completed. */
  lemma DeletePage(original: map<string, Entry>, prefix: string, listed: set<string>, page: set<string>)
    requires page <= PendingKeys(WithoutListed(original, prefix, listed), prefix, listed)
    ensures WithoutListed(original, prefix, listed) - page == WithoutListed(original, prefix, listed + page)
    ensures PendingKeys(WithoutListed(original, prefix, listed + page), prefix, listed + page)
         == PendingKeys(WithoutListed(original, prefix, listed), prefix, listed) - page
    ensures PendingKeys(WithoutListed(original, prefix, listed), prefix, listed) <= page ==>
      WithoutListed(original, prefix, listed) - page == WithoutPrefix(original, prefix)
  {
  }

  /** The namespace after addChallenge's two writes. */
  function AddedEntries(entries: map<string, Entry>, c: Challenge): map<string, Entry> {
    entries[ChallengeKey(c.id) := Entry(Serialize(c), ExpirationOf(c))]
           [AccessCodeKey(c.accessCode) := Entry(c.id, ExpirationOf(c))]
  }

  /** The namespace after updateChallenge's writes, given the record it read. */
  function UpdatedEntries(entries: map<string, Entry>, previous: Challenge, c: Challenge): map<string, Entry> {
    var indexed :=
      if previous.accessCode != c.accessCode
      then (entries - {AccessCodeKey(previous.accessCode)})[AccessCodeKey(c.accessCode) := Entry(c.id, ExpirationOf(c))]
      else entries;
    indexed[ChallengeKey(c.id) := Entry(Serialize(c), ExpirationOf(c))]
  }

  /** Writing a serialized challenge keeps every record parseable. */
  lemma AllParsePutChallenge(entries: map<string, Entry>, c: Challenge, expiration: Option<int>)
    requires AllParse(entries)
    ensures AllParse(entries[ChallengeKey(c.id) := Entry(Serialize(c), expiration)])
  {
    ParseSerialize(c);
  }

  /** Writing an index entry keeps every record parseable. */
  lemma AllParsePutIndex(entries: map<string, Entry>, code: string, id: string, expiration: Option<int>)
    requires AllParse(entries)
    ensures AllParse(entries[AccessCodeKey(code) := Entry(id, expiration)])
  {
    FamiliesDisjoint(code);
  }

  lemma AllParseDelete(entries: map<string, Entry>, key: string)
    requires AllParse(entries)
    ensures AllParse(entries - {key})
  {
  }

  /** addChallenge's writes add the challenge to the View and keep it well-formed. */
  lemma AddedEntriesView(entries: map<string, Entry>, c: Challenge)
    requires ChallengeKey(c.id) !in entries
    ensures ViewOf(AddedEntries(entries, c)) == Added(ViewOf(entries), c)
    ensures Wellformed(ViewOf(entries)) && AllParse(entries) ==>
      Wellformed(ViewOf(AddedEntries(entries, c))) && AllParse(AddedEntries(entries, c))
  {
    var middle := entries[ChallengeKey(c.id) := Entry(Serialize(c), ExpirationOf(c))];
    PutChallengeView(entries, c, ExpirationOf(c));
    PutIndexView(middle, c.accessCode, c.id, ExpirationOf(c));
    if Wellformed(ViewOf(entries)) && AllParse(entries) {
      ChallengesOfAt(entries, c.id);
      AddedWellformed(ViewOf(entries), c);
      AllParsePutChallenge(entries, c, ExpirationOf(c));
      AllParsePutIndex(middle, c.accessCode, c.id, ExpirationOf(c));
    }
  }

  /** updateChallenge's writes replace the record in the View and keep it well-formed. */
  lemma UpdatedEntriesView(entries: map<string, Entry>, c: Challenge)
    requires c.id in ChallengesOf(entries)
    ensures ViewOf(UpdatedEntries(entries, ChallengesOf(entries)[c.id], c)) == Updated(ViewOf(entries), c)
    ensures Wellformed(ViewOf(entries)) && AllParse(entries) ==>
      Wellformed(ViewOf(UpdatedEntries(entries, ChallengesOf(entries)[c.id], c))) &&
      AllParse(UpdatedEntries(entries, ChallengesOf(entries)[c.id], c))
  {
    var previous := ChallengesOf(entries)[c.id];
    var after := UpdatedEntries(entries, previous, c);
    var indexed := if previous.accessCode != c.accessCode
      then (entries - {AccessCodeKey(previous.accessCode)})[AccessCodeKey(c.accessCode) := Entry(c.id, ExpirationOf(c))]
      else entries;
    if previous.accessCode != c.accessCode {
      DeleteIndexView(entries, previous.accessCode);
      PutIndexView(entries - {AccessCodeKey(previous.accessCode)}, c.accessCode, c.id, ExpirationOf(c));
    }
    PutChallengeView(indexed, c, ExpirationOf(c));
    if Wellformed(ViewOf(entries)) && AllParse(entries) {
      UpdatedWellformed(ViewOf(entries), c);
      if previous.accessCode != c.accessCode {
        AllParseDelete(entries, AccessCodeKey(previous.accessCode));
        AllParsePutIndex(entries - {AccessCodeKey(previous.accessCode)}, c.accessCode, c.id, ExpirationOf(c));
      }
      AllParsePutChallenge(indexed, c, ExpirationOf(c));
    }
  }

  // ---------------------------------------------------------------------------
  // The KV store
  // ---------------------------------------------------------------------------

  class KvStore {
    const kv: KvNamespace

    constructor(kvNamespace: KvNamespace)
      ensures kv == kvNamespace
    {
      kv := kvNamespace;
    }

    function View(): View
      reads kv
    {
      ViewOf(kv.entries)
    }

    predicate Valid()
      reads kv
    {
      Wellformed(View()) && AllParse(kv.entries)
    }

    /**
     * addChallenge: throws when the id's record key is present; otherwise
     * writes the record, then the index entry, both with the challenge's
     * expiration. A colliding index entry is overwritten.
     */
    method AddChallenge(challenge: Challenge) returns (r: Outcome)
      modifies kv
      ensures ChallengeKey(challenge.id) in old(kv.entries) ==>
        r == Err(AlreadyExists(challenge.id)) && kv.entries == old(kv.entries)
      ensures ChallengeKey(challenge.id) !in old(kv.entries) ==>
        r == Ok(()) && kv.entries == AddedEntries(old(kv.entries), challenge)
      ensures r.Ok? ==> View() == Added(old(View()), challenge)
      ensures old(Valid()) ==> Valid()
    {
      var challengeKey := ChallengeKey(challenge.id);
      var accessCodeKey := AccessCodeKey(challenge.accessCode);
      var existingChallenge := kv.Get(challengeKey);
      if existingChallenge.Some? {
        return Err(AlreadyExists(challenge.id));
      }
      // A present index entry is only reported; it is overwritten below.
      var existingIdForAccessCode := kv.Get(accessCodeKey);
      var expiration := ExpirationOf(challenge);
      kv.Put(challengeKey, Serialize(challenge), expiration);
      kv.Put(accessCodeKey, challenge.id, expiration);
      r := Ok(());
      AddedEntriesView(old(kv.entries), challenge);
    }

    /** getChallengeById: the parsed record, None when absent or unparseable. */
    method GetChallengeById(id: string) returns (r: Option<Challenge>)
      ensures ChallengeKey(id) in kv.entries ==> r == Parse(kv.entries[ChallengeKey(id)].value)
      ensures ChallengeKey(id) !in kv.entries ==> r.None?
      ensures r == ById(View(), id)
    {
      var challengeJson := kv.Get(ChallengeKey(id));
      ChallengesOfAt(kv.entries, id);
      if challengeJson.None? {
        return None;
      }
      r := Parse(challengeJson.value);
    }

    /** getChallengeByAccessCode: the id under the code's key, then its record. */
    method GetChallengeByAccessCode(accessCode: string) returns (r: Option<Challenge>)
      ensures r == ByCode(View(), accessCode)
    {
      var challengeId := kv.Get(AccessCodeKey(accessCode));
      IndexOfAt(kv.entries, accessCode);
      if challengeId.None? {
        return None;
      }
      r := GetChallengeById(challengeId.value);
    }

    /**
     * updateChallenge: throws when the stored record is absent or does not
     * parse. When the access code changed, the old index entry is deleted and
     * the new one written; then the record is rewritten. Every write carries
     * the challenge's current expiration.
     */
    method UpdateChallenge(challenge: Challenge) returns (r: Outcome)
      modifies kv
      ensures r.Ok? <==> challenge.id in old(View()).challenges
      ensures r.Err? ==> r == Err(NotFound(challenge.id)) && kv.entries == old(kv.entries)
      ensures r.Ok? ==> kv.entries == UpdatedEntries(old(kv.entries), old(View()).challenges[challenge.id], challenge)
      ensures r.Ok? ==> View() == Updated(old(View()), challenge)
      ensures old(Valid()) ==> Valid()
    {
      var challengeKey := ChallengeKey(challenge.id);
      var existingChallenge := GetChallengeById(challenge.id);
      if existingChallenge.None? {
        return Err(NotFound(challenge.id));
      }
      if existingChallenge.value.accessCode != challenge.accessCode {
        var oldAccessCodeKey := AccessCodeKey(existingChallenge.value.accessCode);
        var newAccessCodeKey := AccessCodeKey(challenge.accessCode);
        // A colliding index entry is only reported; it is overwritten below.
        var collidingId := kv.Get(newAccessCodeKey);
        kv.Delete(oldAccessCodeKey);
        kv.Put(newAccessCodeKey, challenge.id, ExpirationOf(challenge));
      }
      kv.Put(challengeKey, Serialize(challenge), ExpirationOf(challenge));
      r := Ok(());
      UpdatedEntriesView(old(kv.entries), challenge);
    }

    /** resetStore: deletes every record key, then every index key, page by page. */
    method ResetStore()
      modifies kv
      ensures kv.entries == WithoutPrefix(WithoutPrefix(old(kv.entries), ChallengePrefix), AccessCodePrefix)
      ensures View() == Empty
      ensures Valid()
    {
      DeleteAllWithPrefix(ChallengePrefix);
      DeleteAllWithPrefix(AccessCodePrefix);
      NoFamiliesEmptyView(kv.entries);
      EmptyWellformed();
    }

    /** One of the two deletion loops of resetStore. */
    method DeleteAllWithPrefix(prefix: string)
      modifies kv
      ensures kv.entries == WithoutPrefix(old(kv.entries), prefix)
    {
      var listComplete := false;
      var cursor: Option<Cursor> := None;
      while !listComplete
        invariant !listComplete ==> kv.entries == WithoutListed(old(kv.entries), prefix, Listed(cursor))
        invariant listComplete ==> kv.entries == WithoutPrefix(old(kv.entries), prefix)
        decreases (if listComplete then 0 else 1) + |PendingKeys(kv.entries, prefix, Listed(cursor))|
      {
        ghost var pending := PendingKeys(kv.entries, prefix, Listed(cursor));
        var listResult := kv.List(prefix, cursor);
        var keysToDelete := listResult.keys;
        ghost var before := kv.entries;
        if |keysToDelete| > 0 {
          for i := 0 to |keysToDelete|
            invariant kv.entries == before - Elems(keysToDelete[..i])
          {
            assert keysToDelete[..i + 1] == keysToDelete[..i] + [keysToDelete[i]];
            ElemsSnoc(keysToDelete[..i], keysToDelete[i]);
            kv.Delete(keysToDelete[i]);
          }
        }
        assert keysToDelete[..|keysToDelete|] == keysToDelete;
        DeletePage(old(kv.entries), prefix, Listed(cursor), Elems(keysToDelete));
        if !listResult.listComplete {
          assert keysToDelete[0] in pending;
          assert keysToDelete[0] !in PendingKeys(kv.entries, prefix, Listed(listResult.cursor));
        }
        listComplete := listResult.listComplete;
        cursor := if listResult.listComplete then None else listResult.cursor;
      }
    }

    /** cleanupExpiredChallenges: the host expires entries itself; nothing is written. */
    method CleanupExpiredChallenges()
      ensures View() == old(View())
    {
    }
  }
}
