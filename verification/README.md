# Verified models of the control plane's hard cores

This project models five parts of the repository in Dafny and proves what they
promise, for every input, every run and every interleaving.

**The at-rest re-encryption sweep** and **its lease** (`Lease`). The database is
a map from row keys to rows. Before every database operation of the sweep any
number of operations of other sessions may run (`World.pending`, a finite list
of turns; the empty list is a quiet database), and a per-blob update may fail
before or after it took effect. `SweepModel` states one call as a function of
world, cursor and limit; `SweepMachine` is the code's own form, classes whose
methods update rows, counters and cursor, proved equal to those functions.
`SweepInduction` is the induction over calls and sessions, together with what a
run reads and when; `SweepSafety` and `SweepInterleaving` are about what is
written, `SweepRetirement`, `SweepCoverage`, `SweepOverlap`, `SweepFailures`,
`SweepIdle` and `SweepOutcome` about which old keys remain at the sealed places,
which are listed on their own, `SweepCounts` and `SweepSecrets` about what counts
as what and what becomes of a secret, `SweepBatching`, `SweepCompletion` and
`SweepRequests` about limits, cursors and the number of calls. Everything holds for every *lawful* keyring (a sealed text opens to its
plaintext, carries the current version and is no daemon envelope), and
`Envelopes` proves that the envelope code over any sound cipher is one.

**The licence-expression evaluator and the lockfile walk** (`Spdx`, `DenoLock`,
`DenoResolve`),
**folder names, folder paths and SHA-256** (`FolderNames`, `Sha256`), **the
daemon frame validators** (`CellJson`, `CellFeatures`, `CellProgress`,
`CellFrames`) and **the LCOV merge** (`LcovHits`, `Lcov`, `LcovFiles`,
`LcovBranches`).

`Strings` holds text helpers. `dafny verify dfyconfig.toml` checks everything.

Properties one might hope for that are false of the code, each with an input
that breaks it and the exact condition under which it holds:

- A completed sweep without failures need not retire old keys while writers are
  at work: a writer that replaces one member of a JSON row and writes another
  back as it was keeps an old envelope alive, whether the sweep's update loses to
  it (`SweepOutcome.LostSwapKeepsOldKey`) or wins before it
  (`SweepOutcome.LateWriterKeepsOldKey`). Over whole sessions and any schedule, a
  place keeps an old envelope exactly when, after the sweep's read of it, another
  session left one there and nothing that took effect there later left the place
  at rest (`SweepFailures.PlaceFailsExactly`). When no writer brings an old
  envelope in, that is exactly when the sweep's own update lost while the row held
  one and nothing has cleaned it since (`SweepFailures.JsonRowFailsExactly`).
- `sha256Hex` computes SHA-256 exactly for byte strings shorter than 2^31 - 72;
  from that length on the 32-bit length arithmetic overflows and the code throws
  (`Sha256.Sha256Hex`).
- Fewer than 98 taken names always leave a free folder name; 98 can block every
  candidate exactly when the base is one of its own candidates
  (`FolderNames.NinetyEightBlockExactly`), that is, for valid names, when it has
  62 or 63 characters and ends in a suffix -2 to -99 after no separator
  (`FolderNames.OwnCandidateLooks`).
- The comment on the envelope validator says that a forged envelope cannot bypass
  wire validation. It can: a long branch name or error code, or more than sixteen
  files, pass it (`CellFrames.LongTextBypasses`, `CellFrames.ManyFilesBypass`), and
  so do values of the wrong type, since it reads `length` without a look at the type:
  a number, a boolean or an object of any size for the logs or the entries, an array
  of texts for the logs (`CellFrames.LooseTypesBypass`). It guards the wire checks
  exactly up to the listed ones it does not repeat
  (`CellFrames.EnvelopeGuardsExactly`).
- Lease windows counted from the time a call read, rather than from the grant,
  can overlap when the call pauses (`Lease.PausedInsertOverlaps`). Over a whole run
  they never do exactly when no call gets the lock while another call that began
  less than a lease before or after it has not released its own
  (`Lease.RunApartExactly`).
- The union of coverage shards promises the largest branch count as well. Its key
  for a branch row holds the row's own count and the printed row a second one, so
  one branch becomes two in the totals (`LcovBranches.SplitBranch`). A reader that
  takes the last field of a row for the count, as the script itself does, finds the
  promise kept exactly when at most one report has the file or no report took the
  branch (`LcovBranches.BranchMaximumExactly`); a reader that takes the fourth field
  always finds it kept (`LcovBranches.PositionMaximum`).
- The licence evaluator sees an operator only between blanks. SPDX allows a
  parenthesis in their place; the text (MIT)OR(ISC), or an operator beside a tab, goes
  to the verdict on single licences as a whole (`Spdx.BlanksNeeded`).

## Model

| member | source | states |
|---|---|---|
| Envelopes.ParseFormat | src/lib/secrets/envelope.ts:39-95 | Parsing a formatted envelope gives back its version and fields, for every version from 1 and non-empty separator-free fields |
| Envelopes.FormatParse | src/lib/secrets/envelope.ts:39-95 | A text that parses is exactly the formatted text of what was parsed, so envelope texts are canonical |
| Envelopes.EncryptLaws | src/lib/secrets/data-encryption.ts:138-197 | Over a sound cipher, decrypting a sealed text gives the plaintext and its version is the current one |
| Envelopes.DecryptKnown | src/lib/secrets/data-encryption.ts:160-197 | Rotation: what is sealed under any known version, current or fallback, opens to the plaintext it was sealed from |
| Envelopes.DecryptExactly | src/lib/secrets/data-encryption.ts:160-197 | A text opens to a plaintext exactly when it is a canonical envelope of a known version whose payload the key of that version opens to it |
| Envelopes.EnvelopesExactly | src/lib/secrets/data-encryption.ts:84-136 | The version of a text, and whether it is a daemon envelope, told from its canonical form |
| Envelopes.SchemesDiffer | src/lib/secrets/data-encryption.ts:84-136 | No text that parses as an at-rest envelope has the daemon scheme or parses as a daemon envelope |
| Envelopes.KeyringLawful | src/lib/secrets/data-encryption.ts:84-197 | The envelope code over any sound cipher satisfies every law the sweep theorems assume |
| SweepSafety.ResealStutters | src/admin/reencrypt-secrets.ts:329-355 | A re-seal replaces the value present at that moment by an envelope of the same plaintext: no reader of any row can tell |
| SweepSafety.OnlyWritersShow | src/admin/reencrypt-secrets.ts:278-355 | After any log a reader sees what its writers alone would have left, their conditional updates as they fell out |
| SweepSafety.CallIsSound | src/admin/reencrypt-secrets.ts:1395-1464 | Against any interference a call writes only re-seals; scanned = reencrypted + skipped + failed; reencrypted is the number of envelopes its heard, winning swaps wrote; at most `limit` rows are examined and 3 * limit + 7 blobs scanned; an incomplete call used the whole limit and returned a table stage with an id |
| SweepSafety.SoundCallIsInvisible | src/admin/reencrypt-secrets.ts:1395-1464 | A call changes nothing that a reader can see: readers see what the other sessions' writes alone would have left |
| SweepSafety.SessionIsSound | src/admin/reencrypt-secrets.ts:1471-1495 | The same of whole sessions, with balanced totals |
| SweepSafety.StoppedCallIsInvisible | src/admin/reencrypt-secrets.ts:716-724 | Wherever a database error ends a call, what it had written by then is only re-seals, and no reader can tell |
| SweepSafety.ProcessKeyedAccounted | src/admin/reencrypt-secrets.ts:671-725 | A JSON row's members are re-sealed in one swap whose weight equals the count reported, and each named member is counted once |
| SweepInterleaving.ConcurrentSweeps | src/admin/reencrypt-secrets.ts:329-355 | Any number of sweep calls interleaved with writers, conditional ones included, in one history: every sweep write is a re-seal, readers see exactly what the writers left, and the summed `reencrypted` counts equal the envelopes written by successful swaps when every reply was heard, and never exceed them |
| SweepInduction.AdvanceInduction | src/admin/reencrypt-secrets.ts:1405-1463 | What every turn of the loop passes on holds of every call, from any cursor and budget |
| SweepInduction.SessionInduction | src/admin/reencrypt-secrets.ts:1471-1494 | What every call passes on holds of every session, whatever its limits |
| SweepInduction.CompletedOrResumable | src/admin/reencrypt-secrets.ts:1395-1464 | A call completes exactly when it returns no cursor |
| SweepCoverage.SessionFollows | src/admin/reencrypt-secrets.ts:1293-1351 | Every place a completed session looks at is covered by one of its reads, and any aim that a value at rest meets, that no allowed operation undoes and that an update of the value seen meets, is met at the end |
| SweepCoverage.EachPlaceReadOnce | src/admin/reencrypt-secrets.ts:1293-1386 | No session reads a place twice, whatever its limits and whatever other sessions insert meanwhile |
| SweepOverlap.PlaceRetires | src/admin/reencrypt-secrets.ts:1293-1351 | If other sessions store only values at rest at a place, a completed session with no failure leaves no older-version envelope there |
| SweepOverlap.QuietSweepRetires | src/admin/reencrypt-secrets.ts:118-140 | On a quiet database a completed session with no failure leaves no older-version envelope in any sealed place: every column and JSON member of the list of covered places, written out on its own |
| SweepIdle.AdvanceIdle | src/admin/reencrypt-secrets.ts:1395-1464 | On a settled database a call from any cursor writes nothing and counts no re-encryption |
| SweepOverlap.RetiresAmongSweeps | src/admin/reencrypt-secrets.ts:363-403 | Single-envelope columns and JSON rows are retired even while other sweeps with the same keyring re-seal, with failures of their own or without, and writers store current-version envelopes |
| SweepFailures.PlaceFailsExactly | src/admin/reencrypt-secrets.ts:1293-1351 | Over whole sessions and any schedule: a place is read exactly once, and a completed session with no failure leaves an older-version envelope there exactly when, after that read, another session left one there and no later operation that took effect there left it at rest |
| SweepFailures.JsonRowFailsExactly | src/admin/reencrypt-secrets.ts:671-725 | If no other session brings an older-version envelope into a JSON row, one is left there exactly when the sweep's own update, made after its one read of the row, lost while the row held one and nothing has cleaned the row since |
| SweepOutcome.QuietSweepSettles | src/admin/reencrypt-secrets.ts:1395-1495 | A completed session on a quiet database, failures or not, leaves nothing that the keyring could still re-seal |
| SweepOutcome.SecondSweepWritesNothing | src/admin/reencrypt-secrets.ts:1395-1495 | After it, a second sweep with any cursor and limit writes no row and re-encrypts nothing |
| SweepSecrets.SecretSurvives | src/admin/reencrypt-secrets.ts:1395-1495 | A secret at a covered column or member that opens to a plaintext is, after a completed session on a quiet database, that plaintext sealed under the current key, and untouched if it was current |
| SweepSecrets.RotationKeepsPlaintext | src/lib/secrets/data-encryption.ts:138-197 | End to end with formatted envelopes over any sound cipher: sealed under any known version, it ends as an envelope of the same plaintext under the current one |
| SweepSecrets.SecondSweepSkipsAll | src/admin/reencrypt-secrets.ts:1395-1495 | If every sealed place holds an envelope that is up to date or opens, a completed quiet session counts no failure, and whatever a later call scans it skips |
| SweepCounts.BlobCounted | src/admin/reencrypt-secrets.ts:278-355 | Each text counts once: failed exactly when it is no allowed daemon envelope, of no version, or of another version and does not open, or its update errs; re-encrypted exactly when it opens, is older and still in place; skipped exactly when it is up to date or its update lost |
| SweepCounts.KeyCounted | src/admin/reencrypt-secrets.ts:671-714 | The same for one member of a JSON row |
| SweepCounts.KeyedCounted | src/admin/reencrypt-secrets.ts:671-725 | A JSON row counts each named text once, and all its older texts as re-encrypted or, if the row has changed meanwhile, as skipped |
| SweepCounts.FineSessionNeverFails | src/admin/reencrypt-secrets.ts:1395-1495 | On a quiet database whose sealed places all hold an envelope that is up to date or opens, no session counts a failure, and that stays so |
| SweepOutcome.LostSwapKeepsOldKey | src/admin/reencrypt-secrets.ts:716-724 | For every lawful keyring: a swap lost to a writer leaves an old envelope in the provider row although the sweep completes with no failure |
| SweepOutcome.LateWriterKeepsOldKey | src/admin/reencrypt-secrets.ts:936-1006 | The same writer after a winning update: two members re-encrypted, and an old envelope remains |
| SweepOutcome.LaterWriterCleans | src/admin/reencrypt-secrets.ts:716-724 | A lost update alone decides nothing: a later writer can leave the row at rest |
| SweepOutcome.RealSwapKeepsOldKey | src/lib/secrets/data-encryption.ts:138-197 | The lost swap on formatted envelopes of a fallback version, for every sound cipher |
| SweepBatching.AdvanceSpends | src/admin/reencrypt-secrets.ts:1357-1464 | On a quiet database a call completes exactly when fewer rows than its limit are left, and otherwise covers exactly `limit` rows of the route |
| SweepBatching.RouteExact | src/admin/reencrypt-secrets.ts:363-403 | The route is every matching row beyond the cursor, each once, in stage order and then id order |
| SweepBatching.SessionCovers | src/admin/reencrypt-secrets.ts:1395-1495 | A session completes exactly when its limits add up to more than the rows there are, and then its data, visits and summed counts are those of the sweep without a budget |
| SweepBatching.SessionIsOneCall | src/admin/reencrypt-secrets.ts:1395-1495 | Any completed sequence of positive limits and one large call give the same data and counts |
| SweepBatching.CallsNeeded | src/admin/reencrypt-secrets.ts:1471-1494 | With N matching rows and limit L the sweep completes after exactly N / L + 1 calls |
| SweepCompletion.CallsRunOut | src/admin/reencrypt-secrets.ts:1471-1494 | Every incomplete call leaves fewer turns of other sessions to come or fewer rows to visit, which is why running to completion ends |
| SweepCompletion.OneMoreCall | src/admin/reencrypt-secrets.ts:1478-1494 | One more call at the end of a session is the session with one more limit, with the counts added |
| SweepRequests.AcceptedIsUsable | src/admin/routes-helpers.ts:127-166 | Whatever the parser accepts has a limit from 1 to 200 and a known stage |
| SweepRequests.AcceptedExactly | src/admin/routes-helpers.ts:123-166 | Exactly which bodies are accepted, and the limit they get: 200 when none is sent, else the number sent up to 200 |
| SweepRequests.NormalizeStartsOver | src/admin/reencrypt-secrets.ts:184-192 | A cursor that names no stage starts over, an empty id counts as none, and any other cursor keeps its stage and id |
| SweepRequests.StageNamesDistinct | src/admin/reencrypt-secrets.ts:91-111 | The nineteen stage names are pairwise distinct, so a name determines its stage |
| SweepRequests.RequestRoundTrip | src/admin/routes-helpers.ts:123-166 | Every cursor without an empty id comes back from the client unchanged, with the limit capped at the batch size |
| SweepRequests.ReturnedCursorSendable | src/admin/reencrypt-secrets.ts:1357-1386 | Every returned cursor is one that survives that trip |
| SweepRequests.HttpSessionIsSession | src/admin/routes-helpers.ts:127-166 | A session over HTTP is the in-process session with capped limits, against any interference |
| SweepMachine.Sweeper.ProcessBlob | src/admin/reencrypt-secrets.ts:278-355 | The method's new database and counters are those of the model function, including the error paths |
| SweepMachine.Sweeper.ResealMembers | src/admin/reencrypt-secrets.ts:671-725 | The loop over a JSON row's keys and its one conditional update give the model's world and counts |
| SweepMachine.Sweeper.ProcessRows | src/admin/reencrypt-secrets.ts:1113-1129 | The loop over a page gives the model's world and counts |
| SweepMachine.Sweeper.RunTableBatch | src/admin/reencrypt-secrets.ts:1293-1386 | One page of a table stage: the model's world, counts, page size and outcome |
| SweepMachine.Sweeper.RunStage | src/admin/reencrypt-secrets.ts:1405-1452 | One turn of the loop: the model's world, counts, rows used and outcome |
| SweepMachine.Sweeper.SweepSettings | src/admin/reencrypt-secrets.ts:936-1073 | Each settings stage gives the model's world and counts |
| SweepMachine.Sweeper.SweepSealedSetting | src/admin/reencrypt-secrets.ts:1258-1289 | The sealed member of a setting is processed as in the model |
| SweepMachine.Sweeper.Reencrypt | src/admin/reencrypt-secrets.ts:1395-1464 | The loop on cursor, remaining budget and summary returns the model's result; a limit below one is refused and changes nothing |
| SweepMachine.Sweeper.ReencryptToCompletion | src/admin/reencrypt-secrets.ts:1471-1495 | The loop ends, with a completed session of batch-size calls and its summed counts |
| Lease.StepKeeps | src/admin/reencrypt-secrets.ts:194-263 | Every insert, read, conditional update, delete and clock step keeps the invariant: one current owner, windows in the past or apart, at most one thief per expired row |
| Lease.LeaseIsExclusive | src/admin/reencrypt-secrets.ts:194-263 | Over every interleaving the windows of unreleased owners, from grant to expiry, never overlap, at most one lock is live, and of racing stealers at most one wins |
| Lease.GrantApartExactly | src/admin/reencrypt-secrets.ts:205-251 | Counted from the time the call read, a grant keeps the windows apart exactly when every unreleased lock ends by that time or was read a whole lease later |
| Lease.RunApartExactly | src/admin/reencrypt-secrets.ts:205-263 | Over every run: windows counted from the time read are apart at every moment exactly when no call gets the lock while another call that began less than a lease before or after it has not released its own |
| Lease.StealClearsDisplaced | src/admin/reencrypt-secrets.ts:228-251 | A winning steal is always clear of the lock it displaces |
| Lease.PromptRunsApart | src/admin/reencrypt-secrets.ts:205-251 | Over every run in which no time passes between a call's reading and its grant, such windows never overlap |
| Lease.PausedInsertOverlaps | src/admin/reencrypt-secrets.ts:205-223 | The run in which a paused insert is granted a window that overlaps an unreleased one |
| Lease.StaleInsertApart | src/admin/reencrypt-secrets.ts:205-223 | The run in which an unreleased lock ends after the time read, and the windows still do not overlap |
| Lease.ReleaseSparesSuccessor | src/admin/reencrypt-secrets.ts:253-263 | A release removes a row exactly when it is the caller's own; a displaced owner's release leaves its successor's row |
| Lease.UndisturbedBegin | src/admin/reencrypt-secrets.ts:205-251 | An undisturbed call gets the lock exactly when there is no row or the row has expired |
| Lease.LeaseTable.TryBegin | src/admin/reencrypt-secrets.ts:205-251 | With arbitrary steps of other calls between its clock reading and each of its statements, the method is a run of the machine, and it returns true exactly when the caller holds the current row |
| Lease.LeaseTable.End | src/admin/reencrypt-secrets.ts:253-263 | The row is deleted only when it is the caller's own |
| Spdx.ClassifyMeansEval | scripts/lib/notices.ts:755-785 | For every expression tree of Annex D.4 of SPDX 2.3, with operators in any letter case, one or more blanks on either side of them, any redundant parentheses and any white space around the whole text, the string evaluator equals evaluation of the tree: OR passes if either side does, else gives the left reason; AND gives the first failing reason; WITH is dropped |
| Spdx.BlanksNeeded | scripts/lib/notices.ts:901-927 | With any white space or none beside an operator between two licences or parenthesised expressions: the text means the tree when a blank stands on both sides, and otherwise goes as a whole to the verdict on single licences |
| Spdx.SplitExactly | scripts/lib/notices.ts:901-927 | Two operands are split at the operator between them exactly when a blank stands on both sides of it |
| Spdx.PartsShorter | scripts/lib/notices.ts:901-932 | When a text splits, every part is strictly shorter, so the recursion ends on every input text |
| Spdx.Balanced | scripts/lib/notices.ts:889-899 | The depth walk accepts exactly the texts that stay inside one group until the end |
| Spdx.UnwrapParens | scripts/lib/notices.ts:879-887 | The loop strips exactly the outer parentheses that enclose the whole text |
| Spdx.SplitTopLevel | scripts/lib/notices.ts:901-927 | The index walk returns the trimmed, non-empty pieces between top-level delimiters |
| DenoLock.Walk | scripts/lib/notices.ts:442-477 | The worklist ends on every lockfile, cycles included, and returns exactly the keys reachable from the roots |
| DenoLock.Expand | scripts/lib/notices.ts:453-458 | Visiting a specifier adds exactly its keys and queues exactly its qualified dependencies |
| DenoLock.ReachableIsLeast | scripts/lib/notices.ts:442-477 | The reachable specifiers are inside every set that holds the non-empty roots and is closed under dependencies |
| DenoLock.ReachableIsClosed | scripts/lib/notices.ts:442-477 | They are themselves such a set |
| DenoLock.UsedMonotone | scripts/lib/notices.ts:442-477 | More roots, in any order, never lose a key; so the result does not depend on root order |
| DenoLock.ResolveFromTable | scripts/lib/notices.ts:486-538 | Whatever a specifier resolves to is a row of the lockfile, which bounds the walk |
| DenoResolve.ResolvedBySpecifier | scripts/lib/notices.ts:502-562 | A prefixed specifier whose deciding entry means a locked package is that package's row of that table, and nothing else |
| DenoResolve.ResolvedByName | scripts/lib/notices.ts:502-515 | Otherwise it is every row of its name in that table, in table order, none missed |
| DenoResolve.ResolvedOrNot | scripts/lib/notices.ts:540-562 | One of the two cases holds of every prefixed specifier |
| DenoResolve.BareJsr | scripts/lib/notices.ts:518-530 | A bare id of a locked jsr package is that package, whatever npm has |
| DenoResolve.BareNpm | scripts/lib/notices.ts:518-530 | A bare id of a locked npm package is that package when jsr does not have it |
| DenoResolve.BareName | scripts/lib/notices.ts:486-499 | Any other bare specifier is every npm row of that name, then every jsr row |
| DenoResolve.IdParses | scripts/lib/notices.ts:627-642 | A locked id parses to its name and version, scoped or not, without the peers of an npm id |
| DenoResolve.SpecNames | scripts/lib/notices.ts:564-572 | The name in a prefixed specifier, with a range or without |
| DenoResolve.QualifyLooks | scripts/lib/notices.ts:467-477 | Only an unprefixed scoped dependency of a jsr package is read as a jsr package |
| DenoResolve.LockedRootIsUsed | scripts/lib/notices.ts:442-461 | End to end: a root that the specifier map locks to a version puts the row's key among the keys and its dependencies among the specifiers visited |
| DenoResolve.NamedRootIsUsed | scripts/lib/notices.ts:442-461 | A root that only gives a name puts every locked row of that name among the keys |
| Sha256.Sha256Hex | src/contracts/directory-names.ts:243-260 | The lower-case hex of the FIPS 180-4 digest for every byte string shorter than 2^31 - 72, 64 hex digits, and a RangeError exactly from that length on |
| Sha256.Sha256Block | src/contracts/directory-names.ts:217-239 | The in-place update of `h` equals the hash computation of section 6.2.2 of FIPS 180-4 on the block |
| Sha256.ExtendSchedule | src/contracts/directory-names.ts:218-222 | The in-place loop computes the message schedule modulo 2^32 |
| Sha256.RunRounds | src/contracts/directory-names.ts:223-237 | The sixty-four rounds on signed and unsigned numbers equal the rounds on words |
| Sha256.MixStep | src/contracts/directory-names.ts:226-235 | Every mixed sum of a round stays below 2^53 in size and is congruent to the word sum |
| Sha256.CodeMatchesFips | src/contracts/directory-names.ts:213-230 | Each of the six expressions on JavaScript numbers is congruent to its logical function of section 4.1.2 of FIPS 180-4 |
| Sha256.RotateIsRotr | src/contracts/directory-names.ts:213-215 | The rotation built from an unsigned and a signed shift is ROTR on the word |
| Sha256.AndBit | src/contracts/directory-names.ts:227 | Bit by bit, the conjunction of words |
| Sha256.OrBit | src/contracts/directory-names.ts:214 | Bit by bit, the disjunction of words |
| Sha256.XorBit | src/contracts/directory-names.ts:219-228 | Bit by bit, the exclusive disjunction of words |
| Sha256.RoundConstants0 | src/contracts/directory-names.ts:203-204 | The first sixteen constants are the first 32 bits of the fractional parts of the cube roots of the primes 2 to 53 |
| Sha256.RoundConstants1 | src/contracts/directory-names.ts:205-206 | The same for the primes 59 to 131 |
| Sha256.RoundConstants2 | src/contracts/directory-names.ts:207-208 | The same for the primes 137 to 223 |
| Sha256.RoundConstants3 | src/contracts/directory-names.ts:209-210 | The same for the primes 227 to 311 |
| Sha256.InitialConstants | src/contracts/directory-names.ts:251-253 | The initial hash value is made of the square roots of the first eight primes |
| Sha256.PadMessage | src/contracts/directory-names.ts:244-250 | The buffer is the padded message of section 5.1.1 of FIPS 180-4, or the code throws, exactly from 2^31 - 72 bytes on |
| Sha256.PadIsLeast | src/contracts/directory-names.ts:245 | The padding solves l + 1 + k = 448 mod 512 with the least k |
| Sha256.PaddedLengthRight | src/contracts/directory-names.ts:245 | The two 32-bit shifts give the least multiple of 64 that holds message, mark and length |
| Sha256.PaddedLengthFails | src/contracts/directory-names.ts:245 | From 2^31 - 72 bytes on they give a negative length or one shorter than the message |
| Sha256.PaddedHexIsFixed | src/contracts/directory-names.ts:259 | Minimal hex digits padded with zeros are the fixed-width digits of the word |
| FolderNames.DefaultNameValid | src/contracts/directory-names.ts:311-320 | Every default name satisfies the folder rule, whatever the ASCII domain; a domain that is a valid name is its own default |
| FolderNames.MadeNamesDiffer | src/contracts/directory-names.ts:316-320 | Made-up names of domains whose hashes differ in the first eight characters differ |
| FolderNames.WildcardName | src/contracts/directory-names.ts:311-320 | A wildcard domain is named like the domain with `wildcard` in the place of the star |
| FolderNames.LongNameKeepsStart | src/contracts/directory-names.ts:311-320 | A long domain of folder characters keeps its first 54 characters, trimmed, before its hash |
| FolderNames.CleanDrops | src/contracts/directory-names.ts:311-320 | Cleaning drops what is no folder character and keeps the rest in its order |
| FolderNames.CollapsePair | src/contracts/directory-names.ts:311-320 | A run of dots becomes one dot, and a text without one stays as it is |
| FolderNames.DefaultFolderName | src/contracts/directory-names.ts:311-320 | The method computes that name with the SHA-256 of the whole domain, and gives a result for every domain shorter than 2^31 - 72 characters |
| FolderNames.TrimEdgeSeparators | src/contracts/directory-names.ts:291-297 | The two loops cut separators, and only separators, from both ends |
| FolderNames.TrimEdgesKeeps | src/contracts/directory-names.ts:291-297 | What remains is a piece of the text whose ends are no separators, and everything cut is a separator |
| FolderNames.SuffixedIsValid | src/contracts/directory-names.ts:323-331 | A suffix is given exactly for 2 to 99, and a suffixed valid base is valid, also after cutting and trimming |
| FolderNames.SuffixedDistinct | src/contracts/directory-names.ts:323-331 | The suffixed candidates of any base are pairwise distinct |
| FolderNames.FirstFreeFolderName | src/contracts/directory-names.ts:338-348 | The earliest untaken name in base, -2 to -99 order; none exactly when all 99 are taken; valid when the base is |
| FolderNames.FewTakenLeaveOne | src/contracts/directory-names.ts:338-348 | Fewer than 98 taken names always leave a candidate, for every base |
| FolderNames.NinetyEightBlockExactly | src/contracts/directory-names.ts:323-348 | For every base: 98 taken names can cover all 99 candidates exactly when the base is one of its own suffixed candidates |
| FolderNames.NinetyEightLeaveOne | src/contracts/directory-names.ts:338-348 | For every other base any 98 taken names still leave a candidate |
| FolderNames.OwnCandidateLooks | src/contracts/directory-names.ts:323-331 | For valid bases that is the case exactly for 62 or 63 characters ending in a suffix after no separator |
| FolderNames.NinetyEightCanBlock | src/contracts/directory-names.ts:323-348 | Names that do get blocked: 59 or 60 alphanumeric characters and any two-digit suffix |
| FolderNames.PathHasFourComponents | src/contracts/directory-names.ts:151-198 | A path is built exactly for a valid root and reference; splitting it after the root gives owner, scope, `services` or `volumes` by its kind, and slug, none empty, `.` or `..`, and the scope is reserved only when it is `common` |
| FolderNames.PathInjective | src/contracts/directory-names.ts:192-198 | Two references with the same path under one root are equal |
| CellFrames.ValidatorsAgree | src/contracts/cell-protocol.ts:2864-3105 | Every accepted frame that maps to an envelope yields one the envelope validator accepts, of the same kind, id and time |
| CellFrames.EnvelopeHoldsPayload | src/contracts/cell-protocol.ts:3499-3682 | Field by field: no envelope exactly for the fire-and-forget kinds, and otherwise every field of the kind with the value the message has, and no other |
| CellFrames.AcceptedPayloadArrives | src/contracts/cell-protocol.ts:2864-2902 | What the daemon sent in a field of an accepted frame is what the envelope holds, but for an oversized outcome |
| CellFrames.HelloKeepsKnown | src/contracts/cell-protocol.ts:2895-2899 | An accepted `hello` keeps exactly the known names it sent, each once, and every other field |
| CellFrames.IgnoredExactly | src/contracts/cell-protocol.ts:2864-2888 | Which frames are ignored and which are rejected: a type or value only a newer daemon knows does not close the socket |
| CellFrames.OversizedOutcomeFails | src/contracts/cell-protocol.ts:2770-2828 | An outcome over the size cap is accepted as a failed outcome for the same id and times, without result, whose error fits the cap and starts with the first 4000 characters of the daemon's own error, and with one note of its size |
| CellFrames.FailedErrorFits | src/contracts/cell-protocol.ts:2795-2822 | That error ends with the size note, is not empty and never exceeds 4096 characters |
| CellFrames.SizeNoteSays | src/contracts/cell-protocol.ts:2796-2800 | The note gives the size in kilobytes, rounded up |
| CellFrames.AcceptedIsStable | src/contracts/cell-protocol.ts:2864-2902 | An accepted message sent again as a frame is accepted unchanged and without notes |
| CellFrames.AcceptedIsFine | src/contracts/cell-protocol.ts:2883-2902 | Rewriting an oversized outcome or a feature list keeps the message valid and keeps its id and time |
| CellFrames.KindAgrees | src/contracts/cell-protocol.ts:2904-3085 | Kind by kind, field checks that pass on the frame pass again on the fields carried over |
| CellFrames.FilesAgree | src/contracts/cell-protocol.ts:2997-3012 | The frame's byte budget over file contents implies the envelope's, absent contents counting nothing |
| CellFrames.FilesWithinBudget | src/contracts/cell-protocol.ts:1814-1834 | The running check accepts exactly the well-formed files whose contents sum to at most the budget |
| CellFrames.AcceptedEnvelopeBounded | src/contracts/cell-protocol.ts:2982-3105 | What an accepted envelope does guarantee: a kind that answers a request, bounds on its id, time, error, result and capabilities, and on logs that are a text, on file contents and entries that are lists; paths are a fine list or the empty text |
| CellFrames.EnvelopeGuardsExactly | src/contracts/cell-protocol.ts:3046-3105 | The frame's checks hold of an envelope's fields exactly when the envelope is accepted and the checks it does not repeat hold: ok, ips, logs a text, entries and paths lists, file count and shape, branch, error code, upgrade id, capabilities present and an object, the outcome's times, and the checks outside this model |
| CellFrames.LongTextBypasses | src/contracts/cell-protocol.ts:3046-3105 | A branch name or an error code of any length over its cap passes the envelope check and not the frame check |
| CellFrames.ManyFilesBypass | src/contracts/cell-protocol.ts:2997-3012 | Any number of files over sixteen passes the envelope check and not the frame check |
| CellFrames.LooseTypesBypass | src/contracts/cell-protocol.ts:2982-3024 | Exactly which values in logs, entries or paths pass the envelope check and not the frame check: what is no text, or no list, and has no length over the cap, and for paths the empty text |
| CellProgress.ValidateCommandProgressSteps | src/contracts/cell-protocol.ts:1770-1784 | Accepts exactly the plans whose steps are well formed, whose ids are distinct and whose `current` is null with no running step or names the only running one; otherwise the issue names the first step that cannot be passed |
| CellProgress.StepAccepted | src/contracts/cell-protocol.ts:1724-1741 | One step passes exactly when every field is of its type and within its cap |
| CellProgress.UnknownStateFirst | src/contracts/cell-protocol.ts:1724-1741 | A state only a newer daemon knows is told apart from every other fault |
| CellProgress.PlanMeaning | src/contracts/cell-protocol.ts:1766-1784 | The loop's condition is the plain statement about distinct ids and the only running step |
| CellProgress.ValidateCommandProgress | src/contracts/cell-protocol.ts:1749-1764 | A payload is accepted exactly when its version, times, `current`, step count, plan and size all fit |
| CellFeatures.FilterHelloFeatures | src/contracts/cell-protocol.ts:1607-1638 | The loop with its counters, seen names and samples computes the specified filter |
| CellFeatures.FilterKeepsKnown | src/contracts/cell-protocol.ts:1570-1638 | Exactly the known, well-formed names among the first 4096 entries, each once, never more than the known list; a note exactly when something was ignored |
| CellFeatures.FilterOrder | src/contracts/cell-protocol.ts:1607-1638 | They stand in the order of their first occurrences |
| CellFeatures.NoteAddsUp | src/contracts/cell-protocol.ts:1624-1638 | kept + unknown + malformed + duplicate + unscanned = received, and at most three samples |
| CellFeatures.NoteByCause | src/contracts/cell-protocol.ts:1570-1638 | Each count of the note is the number of scanned entries that are malformed, unknown, or a repetition of a known name |
| CellFeatures.SampleIsPrintable | src/contracts/cell-protocol.ts:1588-1592 | A sample is at most 24 printable ASCII characters: the first of the text, with question marks for the others |
| CellFeatures.FilterIdempotent | src/contracts/cell-protocol.ts:1607-1638 | Filtering the output again changes nothing and gives no note |
| Lcov.LineHits | scripts/merge-lcov.py:54-61 | The loop builds the specified hit map |
| LcovHits.HitIsLargest | scripts/merge-lcov.py:54-73 | A line's or branch key's hit is the largest count of its rows, at least 0, and it has an entry exactly when it has a row |
| Lcov.BranchHits | scripts/merge-lcov.py:64-73 | The loop builds the hit map of branch rows, keyed by the whole row with its count |
| LcovHits.SmartMergeHits | scripts/merge-lcov.py:80-96 | The loop over the secondary, in any order, computes the specified merge, for lines and for branches |
| LcovHits.SmartIsMax | scripts/merge-lcov.py:80-96 | The merge is the pointwise maximum, absent lines counting 0 |
| LcovHits.SmartKeys | scripts/merge-lcov.py:80-96 | Its lines are the primary's and the secondary's executed ones, no others |
| LcovHits.RatioNeverDrops | scripts/merge-lcov.py:80-96 | LH' * LF >= LH * LF' against the primary |
| Lcov.MergeSfRecords | scripts/merge-lcov.py:99-138 | The printed record holds the merged lines in ascending order with LF and LH, then the merged branch keys in text order with BRF and BRH if there are any |
| Lcov.RenderedReads | scripts/merge-lcov.py:121-127 | Reading a printed record gives its hits back, and its LF and LH are what a reader counts in it |
| Lcov.MergeRatio | scripts/merge-lcov.py:99-127 | A merged record covers what either side covers, and its coverage ratio is at least the primary's |
| Lcov.WiderLinesKept | scripts/merge-lcov.py:173-180 | Of two shard records the one with more DA rows keeps its whole line map |
| Lcov.BetterRatioKept | scripts/merge-lcov.py:203-208 | The final merge covers what either report covers and never lowers the ratio of the report with more covered lines |
| Lcov.UnionDenoRecords | scripts/merge-lcov.py:162-180 | The nested loops compute the specified union |
| Lcov.MergeRecordMaps | scripts/merge-lcov.py:183-208 | The loop over all files computes the specified final merge |
| LcovBranches.MergedBranches | scripts/merge-lcov.py:110-135 | Where LCOV has the branch, a merged record has the whole rows of both sides, each with the larger count |
| LcovBranches.SplitBranch | scripts/merge-lcov.py:64-73 | One branch with counts 0 and n > 0 in two shards becomes two, BRF 2 and BRH 1, and no row is left for the branch itself |
| LcovBranches.BranchMaximumExactly | scripts/merge-lcov.py:162-208 | For reports with four-field branch rows and a reader that takes the last field for the count: the union of shards, and the final merge, give a branch the largest count of any report exactly when at most one report has the file or no report took the branch |
| LcovBranches.PositionMaximum | scripts/merge-lcov.py:162-208 | A reader that takes the first three fields for the branch and the fourth for the count always finds the largest count of any report |
| LcovBranches.ReadersAgree | scripts/merge-lcov.py:64-73 | On four-field rows both readers find the same |
| Lcov.MergeIsMaximum | scripts/merge-lcov.py:162-208 | For each file and line, the merge of all shards and Vitest has the maximum count over all reports |
| Lcov.OrderIrrelevant | scripts/merge-lcov.py:162-180 | No hit count depends on the order or repetition of shards |
| LcovFiles.ParseRecords | scripts/merge-lcov.py:27-51 | The line loop with its flush computes the specified records |
| LcovFiles.ParseWellFormed | scripts/merge-lcov.py:27-51 | Every record read from any file starts with its own SF row, has no other, and ends at its end row |
| LcovFiles.ParseWritten | scripts/merge-lcov.py:211-216 | Writing well-formed records in any order of names and reading the file gives them back |
| LcovFiles.WrittenMergeIsMaximum | scripts/merge-lcov.py:219-222 | A reader of the written merge sees for each file and line the largest count of any input file's records, where a file named twice in one input counts with its last record, and exactly the files of the inputs |
| LcovFiles.WrittenMergeIsLargestRow | scripts/merge-lcov.py:219-222 | In terms of input rows: the largest count on any DA row of the file's last section in any input, and exactly the files named by some SF row |
| LcovFiles.ParseSections | scripts/merge-lcov.py:27-51 | A file is read exactly when an SF row names it, as its last section: up to its end row, the next SF row or the end of the input |
| LcovFiles.OnlySection | scripts/merge-lcov.py:27-51 | In an input that names no file twice every section is a last one, so that no row is left out |
| LcovFiles.RepeatForgets | scripts/merge-lcov.py:32-46 | A file named twice in one input loses the counts of its first section |

## Left out

- Real cryptography, key derivation and base64url: the cipher is any pair of functions where opening a sealed text gives the plaintext; texts are taken to decode without loss.
- Key versions are unbounded naturals; the source keeps them in JavaScript numbers.
- SweepSafety.CallIsSound: a database error in the single update of a JSON row, or in a page read, ends the whole call in the source, without a result; only errors inside the per-blob handler are modelled. What an ended call leaves behind is some first part of a whole call's log, for which see SweepSafety.StoppedCallIsInvisible.
- The `updated_at` columns that every update sets, and columns the sweep does not read.
- The header of the sweep file speaks of "at most limit blobs", but the code budgets rows; bounds here are in rows, and blobs are bounded by three per row plus the settings secrets.
- Lease.LeaseIsExclusive: windows run from the moment the row is granted to its expiry; for windows from the earlier `nowMs` see Lease.GrantApartExactly. The uniqueness of the lease row comes from the schema (src/db/schema.ts:6770-6810).
- The HTTP routes, authentication and responses around the sweep; only the request body parser is modelled.
- Spdx.ClassifyMeansEval: the verdict on a single licence token is a parameter, and the checks that run before the expression is split (missing, custom, non-commercial licences) are not modelled; ASCII text only.
- Reading lockfile JSON: the walk starts from the parsed tables; package metadata other than ids and dependencies is not modelled.
- `domainToAscii` and `TextEncoder`: default names start from any ASCII text, and hashing from bytes.
- Owner and folder references as untyped values: `parseFolderRef` on unknown fields and wrong types; the rest of its checks are modelled.
- Per-type field checks that the envelope validator does not repeat (`Host.rest`, `Host.pathFine`), the timestamp test, UTF-8 and JSON sizes are parameters, and so are the conversion of values to text and their comparison with a number; the only laws used are that empty text has no bytes and that sizes are safe integers. Envelope fields are JSON values: functions and cyclic objects are not represented.
- Reason texts of the frame validators: only accepted, ignored and rejected are told apart. Notes keep their numbers, not their wording.
- Lcov.MergeSfRecords: a DA or BRDA row that does not parse ends the script in the source; rows here are already split, and a branch count is `-` or a decimal numeral. The form without a secondary record, which nothing calls, is not modelled.
- Lcov.MergeRecordMaps: the source visits files in sorted order; the result is a map, so the order is not represented, and written files are treated for every order.
- `src/contracts/metrics-contract.ts`, `capability-plan.ts`, `server-addresses.ts` and the outbound half of the cell protocol: wide field copies with easy members.
