# Challenge service: a verified model

This project models the server of a small "challenge" API. A player creates a
challenge and gets back a six-character access code. Other players join with
that code from their devices and submit attempts, each a winning streak. Anyone
can read the leaderboard (each participant's best streak, ranked) or the
challenge details, with the participant ids removed.

The model covers:

- the request schemas, with their validation results and field errors
  (`Validation`), and the data model (`Types`);
- access-code generation and expiry computation (`Utils`);
- the storage interface every backend implements, stated as a contract over an
  abstract view of the store (`StoreContract`);
- the in-memory backend, a class with two maps updated in place (`Memory`);
- the Workers KV backend (`Kv`). It sits on a model of the host namespace:
  keyed entries with an optional expiration, and a paginated, prefix-filtered
  listing. Records are stored as serialized text (`Codec`), and the
  serialization has a proved round trip;
- the backend selector and its module-level singleton (`StoreIndex`);
- the older single-file store (`Legacy`);
- the five request handlers (`Handlers`), with the best-attempt and ranking
  logic of the leaderboard in its own module (`Leaderboard`).

The handlers keep the source's behaviour, including its quirks:

- **A rename on rejoin is not saved.** When a device joins again under a new
  display name, the reply shows the new name, but nothing is written to the
  store. The renamed participant is a copy; the stored challenge keeps the old
  name.
- **A new participant is written twice.** The update runs once in the
  new-device branch and again at the end; the second write's result is
  ignored.
- **Code generation gives up after ten tries.** The create handler returns 500
  when the first code and the nine redraws after it are all taken. A tenth
  redraw is still drawn and looked up, but its result is ignored, even when
  that code is free.
- **Expiry is strict.** A challenge is still live at the exact millisecond of
  its expiry. An expiry of absent or 0 means the challenge never expires.
- **Leaderboard ties keep the earliest attempt.** An attempt replaces a
  participant's best only when its streak is strictly greater.
- **The leaderboard and details handlers do not check expiry.**
- **Cleanup can cut a live challenge off its code.** An add whose code
  collides leaves the earlier challenge stored under the same code. Cleanup
  deletes the index entry by the expired record's code, whichever id that
  entry names. Once the earlier challenge expires, cleanup therefore removes
  the lookup of the newer, live one. The live record stays stored, but its
  code finds nothing.

The handlers reach the store through the selector module `server/store/index.ts`.

Nondeterminism becomes parameters:

- the clock reading (`now`);
- the generated uuids;
- the random draws behind an access code. These are an oracle
  `rand: nat -> CharIndex`, where draw k is a character index in [0, 36).

The request-body validator runs before a handler. Each handler therefore takes
the validator's verdict: a parsed payload, or the flattened errors that
`Validation.ValidateCreate`, `ValidateJoin` or `ValidateAttempt` produce.

## Model

| member | source | states |
|---|---|---|
| Validation.ValidateCreate | server/types.ts:78-92 | accepts exactly the bodies the create schema admits. An accepted payload has a name of 1..100 characters, a display name of 1..50, non-empty device id and game mode, precision ≥ 0 and integral maxLife ≥ 1. Every field is the body's own value, the settings included, through `SettingsValue`. A rejected object lists exactly the failing fields; a non-object gets a form error |
| Validation.ValidateJoin | server/types.ts:127-132 | accepts exactly the bodies the join schema admits: an access code of exactly 6 characters, a non-empty device id, a display name of 1..50. A rejection lists exactly the failing fields |
| Validation.ValidateAttempt | server/types.ts:111-125 | accepts exactly the bodies the attempt schema admits: a uuid participant id, an integral streak ≥ 0 equal to the body's number, integral rounds ≥ 1, non-empty mode and game type, precision ≥ 0, a non-empty device id. The metadata is the body's own metadata object, through `MetadataValue`. A rejection lists exactly the failing fields |
| Validation.SettingsValue | server/types.ts:78-82 | the settings are the object's own values: its precision number, the exact integer its maxLife stands for, and its game type |
| Validation.MetadataValue | server/types.ts:111-117 | the metadata are the object's own values: the exact integer its rounds stand for, its mode, its game type and its precision number |
| Types.IntValue | server/types.ts:80 | the integer value of an integral JSON number, with `.min(k)` on the number agreeing with `≥ k` on the value, for every k |
| Utils.CodeFrom | server/utils.ts:1-16 | a code has six characters; character i is the alphabet letter at draw `start + i`; each is an upper-case letter or a digit |
| Utils.GenerateAccessCode | server/utils.ts:9-16 | the loop builds exactly the six-character code of the draws it consumes, and that code is well-formed |
| Utils.CalculateExpiresAt | server/utils.ts:23-52 | no token means no expiry; each token adds 1 hour, 24 hours, 3 days or 7 days in milliseconds to `now`; an expiry is always later than `now` |
| Utils.ExpiryOrdered | server/utils.ts:33-45 | the four lifetimes are strictly increasing in the order 1h, 24h, 3d, 7d |
| Types.IsExpired | server/index.ts:189 | the expiry test shared by the handlers and the in-memory cleanups: an expiry that is present and non-zero, with the clock strictly past it |
| Utils.ExpiredIffPastLifetime | server/store/memory.ts:96 | for an expiry set by calculateExpiresAt: expired exactly when a token was given and more than its lifetime has passed, and expired for good from then on |
| StoreContract.ById | server/store/base.ts:15-22 | `getChallengeById` finds a challenge exactly when the id is stored, and returns that record |
| StoreContract.ByCode | server/store/base.ts:24-31 | `getChallengeByAccessCode` finds a challenge exactly when the code is indexed to a stored id, and returns that record |
| StoreContract.EmptyWellformed | server/store/base.ts:40-44 | the empty store satisfies the invariant (records keyed by their own id; every index entry names a record with that code) and finds nothing |
| StoreContract.AddedWellformed | server/store/base.ts:8-13 | adding a new id keeps the invariant; afterwards the challenge is found by its id and by its code, and every other id finds what it found before |
| StoreContract.UpdatedWellformed | server/store/base.ts:33-38 | updating a stored id keeps the invariant, and the new record is found by its id. After a code change, the new code finds the record and the old code finds nothing |
| StoreContract.UpdatedTwice | server/index.ts:213-251 | a second identical update changes nothing, which is what the join handler's double write relies on |
| StoreContract.CleanedUpWellformed | server/store/memory.ts:92-114 | removing the expired challenges keeps the invariant. Afterwards an id finds a challenge exactly when it found a live one before, and it finds the same record |
| StoreContract.CleanupAfterCollision | server/store/memory.ts:20-38 | after an add whose code collides with a challenge that then expires, cleanup keeps the new challenge stored but its code no longer finds it |
| Memory.MemoryStore.constructor | server/store/memory.ts:8-14 | a new store is empty and satisfies the invariant |
| Memory.MemoryStore.AddChallenge | server/store/memory.ts:16-42 | a stored id is refused and nothing changes. Otherwise the record is stored; if the code is indexed to a non-empty stored id, that challenge's own code is dropped from the index first; then the code points to the new id. Under the invariant this is the contract's add |
| Memory.MemoryStore.OverwriteAfterClear | server/store/memory.ts:23-38 | under a consistent index, clearing the colliding entry and then overwriting it leaves the same index as overwriting alone |
| Memory.MemoryStore.GetChallengeById | server/store/memory.ts:44-46 | returns the stored record for the id, if any |
| Memory.MemoryStore.GetChallengeByAccessCode | server/store/memory.ts:48-51 | returns nothing for an unindexed code or one indexed to the empty id; otherwise the record of the indexed id |
| Memory.MemoryStore.UpdateChallenge | server/store/memory.ts:53-84 | succeeds exactly for a stored id and otherwise changes nothing. On success the record is replaced and, when the code changed, the index entry moves from the old code to the new one. The result is the contract's update, and the invariant is kept |
| Memory.MemoryStore.ResetStore | server/store/memory.ts:86-90 | both maps are emptied |
| Memory.MemoryStore.CleanupExpiredChallenges | server/store/memory.ts:92-114 | the sweep removes every expired challenge and its code's index entry, and keeps every live record; the invariant is kept. A live record whose code an expired one shares loses its code lookup |
| Memory.SweepStep | server/store/memory.ts:95-106 | visiting one more id removes it and its code exactly when it is expired, which keeps the sweep's loop invariant |
| Memory.SweepFinished | server/store/memory.ts:95-106 | once every id is visited, the two maps are the contract's cleaned-up store |
| Kv.KvStore.constructor | server/store/kv.ts:21-27 | the store is over the namespace it is given |
| Kv.KvStore.AddChallenge | server/store/kv.ts:29-65 | an existing record key is refused and nothing is written. Otherwise the serialized record and the index entry are written, both with the challenge's expiration; a colliding index entry is overwritten. The view becomes the contract's add, and the invariant, including that every record parses, is kept |
| Kv.KvStore.GetChallengeById | server/store/kv.ts:67-82 | parses the stored text under "challenge:" plus the id; nothing for an absent key |
| Kv.KvStore.GetChallengeByAccessCode | server/store/kv.ts:84-94 | follows the id stored under "ac:" plus the code to its record |
| Kv.KvStore.UpdateChallenge | server/store/kv.ts:96-144 | fails with nothing written unless the stored record exists and parses. When the code changed, the old index key is deleted and the new one written; then the record is rewritten. The view becomes the contract's update, and the invariant is kept |
| Kv.KvStore.DeleteAllWithPrefix | server/store/kv.ts:150-173 | the list-and-delete loop removes exactly the keys with the prefix and nothing else |
| Kv.KvStore.ResetStore | server/store/kv.ts:146-202 | both key families are deleted, other keys survive, and the view is empty |
| Kv.KvStore.CleanupExpiredChallenges | server/store/kv.ts:204-213 | writes nothing; the host's expiration is relied on |
| Kv.ExpirationOf | server/store/kv.ts:52-56 | the KV expiration is the expiry in whole seconds, rounded down, and there is none when the expiry is absent or 0 |
| Kv.AddedEntriesView | server/store/kv.ts:57-60 | the two writes of an add produce the contract's add in the view of the namespace |
| Kv.UpdatedEntriesView | server/store/kv.ts:107-141 | the deletes and writes of an update produce the contract's update in the view of the namespace |
| Codec.ParseSerialize | server/store/kv.ts:57 | parsing a serialized challenge gives back the same challenge |
| Legacy.LegacyStore.constructor | server/store.ts:5-8 | the two module maps start empty: the view is the empty store |
| Legacy.LegacyStore.AddChallenge | server/store.ts:11-23 | a stored id is refused with no change; otherwise the record is stored and its code overwrites any index entry. This is exactly the contract's add, and it keeps the invariant |
| Legacy.LegacyStore.GetChallengeById | server/store.ts:25-27 | returns the stored record for the id, if any |
| Legacy.LegacyStore.GetChallengeByAccessCode | server/store.ts:29-32 | nothing for an unindexed code or the empty id; otherwise the indexed record |
| Legacy.LegacyStore.UpdateChallenge | server/store.ts:34-42 | succeeds exactly for a stored id; only the record is replaced and the index is left alone |
| Legacy.RecordReplacedSameCode | server/store.ts:34-42 | with an unchanged code, the legacy update is the contract's update |
| Legacy.RecordReplacedChangedCode | server/store.ts:34-42 | with a changed code, the index goes stale: the old code still finds the renamed record, and the new code does not find it |
| Legacy.LegacyStore.ResetStore | server/store.ts:45-49 | both maps are emptied |
| Legacy.LegacyStore.CleanupExpiredChallenges | server/store.ts:52-74 | removes every expired challenge and its code's index entry, and keeps every live record |
| StoreIndex.CodeLookup | server/store/memory.ts:48-51 | with the in-memory rule, an index entry naming the empty id finds nothing; otherwise the lookup is the contract's |
| StoreIndex.FindByCodeAgrees | server/store/kv.ts:84-94 | when no challenge has the empty id, both backends answer code lookups identically |
| StoreIndex.FoundIsStored | server/store/base.ts:24-31 | under the invariant, a challenge found by code is the stored record under its own id |
| StoreIndex.FoundByIdCarriesId | server/store/base.ts:15-22 | under the invariant, a challenge found by id carries that id |
| StoreIndex.AddChallenge | server/store/base.ts:8-13 | on either backend: a refusal changes nothing; under the invariant the add succeeds exactly for a new id and yields the contract's add |
| StoreIndex.GetChallengeById | server/store/base.ts:15-22 | on either backend, the contract's lookup by id |
| StoreIndex.GetChallengeByAccessCode | server/store/base.ts:24-31 | on either backend, the lookup by code of that backend |
| StoreIndex.UpdateChallenge | server/store/base.ts:33-38 | on either backend: succeeds exactly for a stored id, yields the contract's update, and keeps the invariant |
| StoreIndex.ResetStore | server/store/base.ts:40-44 | on either backend, the store becomes empty |
| StoreIndex.CleanupExpiredChallenges | server/store/base.ts:46-49 | the in-memory store drops the expired challenges; the KV store stays as it was |
| StoreIndex.Registry.constructor | server/store/index.ts:14 | the module starts with no store instance |
| StoreIndex.Registry.InitializeStore | server/store/index.ts:24-38 | an existing instance is returned unchanged. Otherwise it is a new KV store over the bound namespace, or a new empty in-memory store when the binding or the environment is missing; either way it is remembered |
| StoreIndex.Registry.GetStore | server/store/index.ts:45-57 | an existing instance, or a new empty in-memory store that is remembered |
| StoreIndex.GetStoreFirstPinsMemory | server/store/index.ts:24-57 | on a registry that holds no store yet, a getStore before initializeStore fixes the in-memory store, even when a KV binding arrives later |
| StoreIndex.SingletonStable | server/store/index.ts:24-57 | from any registry state, every call after the first returns the first call's instance, which is the held store if there was one |
| Handlers.SanitizeRestore | server/index.ts:255-257 | sanitizing removes the participant ids and nothing else: putting them back yields the challenge |
| Handlers.FindDevice | server/index.ts:194-196 | the index of the first participant with the device id, or nothing exactly when no participant has it |
| Handlers.FindParticipant | server/index.ts:311-313 | the index of the first participant with the id, or nothing exactly when none has it |
| Handlers.FirstFreeCode | server/index.ts:95-113 | the first code number from j on, below 10, that finds no challenge; 10 when every code from j onward finds one |
| Handlers.SearchAccessCode | server/index.ts:95-107 | the collision loop stops at the first free code number, or once codes 0 to 9 were all taken (the tenth redraw's lookup is then ignored); it returns that number and its code |
| Handlers.DrawCode | server/index.ts:95-105 | one draw of the collision loop: the code built from draw number j, and exactly what the store's code lookup answers for it |
| Handlers.Create | server/index.ts:73-160 | a rejected body gives 400 "Validation Failed" with the flattened field errors only, never the form errors, and nothing is written. When the first code and nine redraws are all taken, the answer is 500 with no write. Otherwise the challenge gets a code no challenge held, its creator as sole participant and its expiry from the token; it is stored and answered with 201. Under the invariant the add succeeds exactly when the id is new, a failing add gives 500 with nothing changed, and the invariant is kept |
| Handlers.RejectedCreateErrors | server/index.ts:75-86 | a body that is not an object is rejected, and its 400 reply carries an empty error map (the form error is dropped); a rejected object always carries at least one field error |
| Handlers.CreatedFindable | server/index.ts:128-150 | after a create, the new challenge is found by its id and by its fresh code, and every other code finds what it found before |
| Handlers.Join | server/index.ts:163-266 | a rejected body gives 400 "Validation Failed" with the field errors only; an unknown code, 404; an expired challenge, 410. A known device gets 200 with the renamed view, and the store is unchanged. A new device is appended and saved, then answered with 200 and its new id; if the save fails, 500 with nothing changed. Under the invariant there is no 500, and the invariant is kept |
| Handlers.RejectedJoinErrors | server/index.ts:165-174 | the same for the join schema: empty error map exactly when the body is not an object |
| Handlers.JoinedFindsDevice | server/index.ts:199-211 | after a new device joins, a rejoin from it finds the participant just appended |
| Handlers.RenamedKeepsParticipants | server/index.ts:221-240 | a rejoin keeps the participant list and changes only that participant's display name |
| Handlers.SubmitAttempt | server/index.ts:269-368 | the checks run in the source's order: 400 bad body (the field errors only), 404 unknown challenge, 410 expired, 404 unknown participant, 403 device mismatch. Otherwise the attempt is appended, saved, and returned with 201; a failing save gives 500. Under the invariant there is no 500, and the invariant is kept |
| Handlers.RejectedAttemptErrors | server/index.ts:271-292 | the same for the attempt schema: empty error map exactly when the body is not an object |
| Leaderboard.BestNone | server/index.ts:381-393 | a participant has no best attempt exactly when they have no attempt |
| Leaderboard.BestIsFirstMaximal | server/index.ts:381-393 | the best attempt kept is the participant's first one of maximal streak: no attempt of theirs is greater, and every earlier one is smaller |
| Leaderboard.BestAfterSubmit | server/index.ts:383-388 | a new attempt changes no other participant's best, and the submitter's best is afterwards at least its streak |
| Leaderboard.BestAttempts | server/index.ts:381-393 | the loop's map holds, for every participant id, exactly the best attempt |
| Leaderboard.EntryIsBest | server/index.ts:396-409 | each entry carries the participant's display name and, from their best attempt, its streak and time; 0 and 0 without an attempt |
| Leaderboard.CompareAntisymmetric | server/index.ts:412-422 | the comparator is antisymmetric, total, and 0 on equal entries |
| Leaderboard.PrecedesMeansRanksNoLower | server/index.ts:412-422 | an entry sorts first exactly when its streak is higher, or the streaks tie and it was submitted no later than the other, an entry without a submission ranking last among ties |
| Leaderboard.PrecedesTransitive | server/index.ts:412-422 | the comparator's order is transitive |
| Leaderboard.InsertSorted | server/index.ts:412-422 | inserting into a sorted list keeps it sorted |
| Leaderboard.SortSorted | server/index.ts:412-422 | the sort returns a sorted permutation of its input |
| Leaderboard.InsertTies | server/index.ts:412-422 | inserting a row puts it in front of every row that ties with it, and changes the order of no other ties |
| Leaderboard.SortStable | server/index.ts:412-422 | the sort is stable: for every row, the rows that tie with it keep their input order |
| Leaderboard.StandingsRanked | server/index.ts:380-422 | the leaderboard has one entry per participant, is a permutation of their entries, and ranks each entry no lower than every later one. Rows that tie keep participant order |
| Handlers.GetLeaderboard | server/index.ts:371-432 | an unknown id gives 404; otherwise 200 with the name, game mode, expiry and the ranked entries of every participant, with no expiry check |
| Handlers.GetDetails | server/index.ts:435-453 | an unknown id gives 404; otherwise 200 with the challenge, participant ids removed |

## Left out

- Sharing of mutable records is not modelled. Challenges are values, so a
  handler's edit never reaches the in-memory store without an update call.
  JavaScript shares the object with the in-memory map; there, a rejoin rename
  does reach the stored record. The model follows the rule "the response shows
  the new name and the store is unchanged".
- The KV namespace is a model of the host, not host code. It does not evict
  expired entries: expirations are recorded but never acted on. The order in
  which keys are listed is left open. A cursor is the set of keys already
  handed out. Two host rules are assumed, not derived: a page that is not
  the last holds exactly the page limit of keys (the termination of
  deleteAllWithPrefix rests on this), and writes and deletes never fail (the
  "no 500 under the invariant" clauses of Join and SubmitAttempt on the KV
  backend rest on this).
- Codec: records are stored in a length-prefixed text encoding, not JSON text.
  The property the store relies on is the parse-after-serialize round trip,
  and that is proved. A stored record that fails to parse is treated as
  absent, as in the source.
- Floating point is not modelled. Payload numbers are exact decimals. Streaks
  and timestamps are unbounded integers. UTF-16 string lengths are lengths of
  character sequences.
- Validation error texts are left out. The validators report which fields
  failed, with a list of issues per field, and the form error of a body that
  is not an object (which the handlers do not send); Zod's message wording is not
  reproduced.
- HTTP routing, CORS, logging, the health and root routes, and the worker's
  fetch entry are glue. Each handler starts from the validator's verdict and
  from the store the worker holds; the singleton is modelled separately.
- Clocks, uuid generation and `Math.random` are parameters. The create handler
  reads the clock twice (its own `now` and the one inside calculateExpiresAt),
  so it has two clock parameters.
- The KvStore constructor's check of a missing namespace is left out: the
  namespace is a non-null object.
- Promise concurrency is not modelled: `Promise.all` over a page's deletes is
  done sequentially, and no requests interleave.
- Findings: none are recorded. The quirks above are the source's behaviour,
  and they are modelled as written.
