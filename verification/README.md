# A verified model of the context service

This project models the executable specification of a gated, versioned memory for working sessions ("cognition") and
proves what it promises. Two components are modelled in full:

- **The snapshot codec.** A deep record tree is written as a flat, little-endian, length-prefixed byte image (format
  version 8) and read back by a checked reader that also accepts versions 6 and 7 and fails closed.
- **The gated write service.** A compare-and-swap store of images, a registry of immutable materializations, a
  single-writer lease, idempotency receipts and a quarantine state per materialization. A write passes ordered gates,
  is applied to a copy, and reaches the store only as a whole.

Around them: the founding snapshot, the read plane (views and the budgeted bundle), the work cycle of a session, and
the normalization of failure texts that decides whether a retry is allowed.

## How it is organised

| files | content |
|---|---|
| `Prelude`, `Text`, `Wire` | bytes, numerals and words; encodings as printer/parser pairs with laws, and combinators that keep the laws |
| `Cognition`, `SnapshotLayout`, `SnapshotCodecLaws`, `Limits` | the value tree, its layout, what the codec guarantees over whole inputs, and its size limits field by field |
| `SnapshotWriter`, `SnapshotReader`, `DigestWriter` | the same codec as the program has it: an appended buffer, a reader with a cursor and a sticky error |
| `Transactions`, `Gates`, `GateChecks` | operations, identities, the gates and the application, as functions and as the loops that compute them |
| `Ledger`, `History`, `Supersession`, `Reachability`, `Identifiers`, `Genesis` | histories of admitted transactions and what every history keeps |
| `Effects`, `Verdicts` | what a history leaves behind, field by field and from its operations alone; what the gates answer, on the fields of the snapshot and the transaction |
| `Service`, `Restore`, `Reachable`, `ServiceLaws`, `Progress`, `Fencing`, `GateOrder`, `ReadPlane` | the service as a state machine, its invariant over every run, and what callers may rely on |
| `Calls`, `Authority` | what each call answers and leaves behind, and whom runs give leases, commits and moves to |
| `WireImages`, `WireLaws` | the bytes of every supported version written out, what the reader makes of them, primitive reads on any input, codes, and what the identities are taken over |
| `BundleLaws`, `WorkerLaws`, `TextLaws` | bundles entry by entry, the work cycle by its cases, and splitting, normalizing and numerals by theirs |
| `Realization`, `Attainment`, `Divergences` | which histories the service has, exactly, and the runs on which the code parts from its promises |
| `QivenContext`, `Bundle`, `Worker`, `FailureText` | the service object, the read plane, the work cycle and the retry rule, each with its methods |

Most operations are given twice, as a function and as the method that computes it. What such a function yields is in turn
stated without it, on the fields, the operations of the history or the bytes: `Effects.HeadFollowsHistory` for the head,
`Verdicts.AnswersExactly` for the gates, `Calls` for the service, `WireImages.VersionsRestore` for the format,
`BundleLaws` for the bundle and `WorkerLaws` for the cycle.

A format is a printer, a parser and a size bound; `LawfulFormat` is the type of formats that round-trip, decode
exactly, and treat running out of input as the only error that more input can cure. Every combinator returns that
type, so the laws of the whole snapshot hold because each record is built from lawful parts. Everything beyond the
codec relies on the layout only through these laws and is stated for any `Layout`.

What comes from outside is a parameter, `World`: the two hashes, the layout and the founding snapshot. Results about
identities assume that the hashes do not collide (`CollisionFree`: the chained hash never, the content hash on inputs of
up to 2 GiB); `Reachable.SaneWorldExists` shows that the assumptions about the surroundings can be met by the program's
own layout and founding snapshot. The runs in `Divergences` are given for the program's founding snapshot in any layout
with the size limits of the program's (`Reachable.InProgram`). Results over runs further assume, call by call, that the successor a write
sends to the store has lengths the 32-bit prefixes can hold (`Reachable.AllFit`).

Every service call holds the admission lock, so a call is one step. Each write carries what happens to its store call:
acknowledged, committed with the acknowledgement lost, or never arrived. Writes and releases carry a grant; as callers
cannot make one, `Service.AllHeld` is the run in which every grant carried came with an earlier lease. Safety holds with any
grants, and the runs constructed here carry only such grants.

## Where the code and its promises part

Each of these comes with the exact condition under which the promise holds and, where the promise is about reachable
snapshots, with a run of the program that breaks it. By `Realization.HistoriesAreProperLedgers` the histories of runs are
exactly the ledgers with the head as every base, so a run is given by its transactions.

- Supersession is promised to be acyclic (`src/persistence.cpp:1332`). The gate looks at the snapshot before the
  transaction only, so one transaction can close a cycle; `Supersession.AcyclicExactlyPerTransaction` is the exact
  condition. What follows is worse: the search that guards supersession ends exactly when no closed walk can be entered
  from the successor (`Reachability.GateEndsExactlyOffLoops`). `Divergences.SupersessionNeverAnswers` gives a run: with
  decisions 1 to 4, the operations "1 by 2, 2 by 1, 1 by 3" are admitted together, and then "4 by 3" passes every other
  check and never gets an answer.
- Decision, conflict and profile ids are promised never to be reused. That holds exactly when no single transaction
  introduces an id twice (`Identifiers.UniqueExactlyPerTransaction`, broken by `Divergences.IdsAreReused`).
- View ids are promised never to be reused. That holds exactly when no id is added again since its last retirement
  (`Identifiers.ViewIdsUniqueExactly`); the gate compares ids for code 0 only, while every code but 1 adds, so
  codes above 1 repeat an id across transactions (`Divergences.ViewIdsAreReused`), and the declared codes only within
  one (`Identifiers.ViewsUniqueStep`).
- Closing an obligation checks for any open record of the id but closes the first record of the id
  (`History.ClosingClosesExactlyTheFirst`). After an obligation was inserted, closed and inserted again under its id,
  closing it is acknowledged as applied and changes nothing (`Divergences.OpenWorkStaysOpen`), and the record stays open
  over all later history (`History.OpenWorkBehindIsStuck`).
- A restore gives the snapshot back exactly when it is within the limits of the reader, which the writer does not
  enforce (`SnapshotCodecLaws.RoundTripExactlyWithinLimits`, `Limits.LimitsOfTheFormat`). A head over the limits can be
  served only by a live materialization (`ServiceLaws.HeadPathsAgreeWithinLimits`); without one the service is stranded
  for good: the head never opens and no lease is granted again (`ServiceLaws.StrandedForever`). One transaction of 100001
  operations and one retirement lead there (`Divergences.HeadIsStranded`).
- Grant ids are said never to wrap or collide. The counter is 64 bits wide, and ids repeat exactly when it comes around
  (`ServiceLaws.GrantIdsRepeatOnlyOnWrap`). A released grant stays out over any calls with fewer than 2^64 further leases
  (`Fencing.ReleasedStaysOut`); with exactly 2^64 it is the active one again and writes
  (`Divergences.ReleasedGrantComesBack`).
- The header lists the gates with the idempotency key after the handle, the grant and the actor
  (`include/qiven/context/persistence.hpp:468-473`); the code resolves the key first, and the model follows the code. In
  every run the two orders rule alike except exactly when an answer is recorded for the key and a gate listed before it
  refuses (`GateOrder.OrdersDifferExactly`): after a keyed write was applied and its lease released, the same request is
  still answered as applied, with a live successor (`Divergences.KeyIsAnsweredWithoutLease`). The header also gives
  `GovernanceDenied` for an unknown handle, where the code says `StaleBase` (`GateOrder.ReasonsDifferExactly`).
- View resolution is said to fail on duplicated references (`include/qiven/context/persistence.hpp:397-398`); the code
  checks for empty and dangling ones only and differs exactly on resolving references that repeat
  (`Bundle.ResolvesAsDescribedExactly`). Reachable snapshots hold none, a restored artifact may
  (`Divergences.RepeatedReferencesResolve`).
- A failure word counts as volatile when it holds four digits anywhere; the comment speaks of long digit runs
  (`include/qiven/context/runtime.hpp:248-250`). The model counts as the code does;
  `FailureText.VolatileAsDescribedExactly` says on which words the two differ, and a1b2c3d4 is one
  (`FailureText.ScatteredDigitsAreDropped`).
- The bundle is described as a plain result; building it throws exactly when the next boundary is set and is not a number
  (`Bundle.ThrowsExactlyOnUnreadable`). In reachable snapshots it never is, in a restored artifact it may be
  (`Divergences.UnreadableBoundaryThrows`).
- Of all refusal reasons exactly the unresolved conflict has no name of its own in the work cycle's messages and is
  reported as "unknown" (`src/runtime.cpp:22-39`, `Worker.OneReasonHasNoName`).

## Model

| member | source | states |
|---|---|---|
| `Wire.LERoundTrip` | src/persistence.cpp:37-53 | little-endian numbers of any width read back what was written, and take exactly that many bytes |
| `Wire.LEDecodes` | src/persistence.cpp:111-135 | whatever is read is below 256 to the width, and is the image of what was read |
| `Wire.StrRoundTrip` | src/persistence.cpp:62-69 | a string of 32-bit length reads back with the rest of the input untouched |
| `Wire.StrDecodes` | src/persistence.cpp:137-150 | a string that is read has a 32-bit length and is the image of itself |
| `Wire.StrStreams` | src/persistence.cpp:137-150 | bytes after a string never change how it reads, unless it had run out of input |
| `Wire.OptionRoundTrip` | src/persistence.cpp:327-331 | a presence flag and its value read back, or are refused when the value is over the cap |
| `Wire.AllRoundTrip` | src/persistence.cpp:168-189 | the elements of a list read back in order; the first one over the cap is refused as resource abuse |
| `Wire.AllDecodes` | src/persistence.cpp:168-189 | a list that is read has the announced number of elements, each within the cap, and is the image of itself |
| `Wire.AllStreams` | src/persistence.cpp:168-189 | bytes after a list never change how it reads, unless it had run out of input |
| `Wire.DecodeEncode` | src/persistence.cpp:367-701 | reading an image gives the record, or resource abuse exactly when it is over the cap |
| `Wire.DecodedWithin` | src/persistence.cpp:367-701 | whatever is accepted is within the cap, and is the exact image of what was read when flags are strict and the version is current |
| `Wire.DecodeExtended` | src/persistence.cpp:686-701 | bytes after an accepted input turn it into a truncation; a definite refusal stays the same |
| `Wire.DecodeCut` | src/persistence.cpp:92-100 | every proper prefix of an accepted input is refused as truncated |
| `SnapshotLayout.RefusalReasonTable` | src/persistence.cpp:401 | the code of a refusal reason and the range the reader accepts are inverse on the whole range |
| `SnapshotLayout.ActionKindTable` | src/persistence.cpp:603 | the code of an action kind and the range the reader accepts are inverse on the whole range |
| `SnapshotLayout.RequirementKindTable` | src/persistence.cpp:614 | the code of a requirement kind and the range the reader accepts are inverse on the whole range |
| `SnapshotLayout.WholeDropsTwoFields` | src/persistence.cpp:252-276 | the image determines everything but the epistemic type of memory records and the trigger value of obligations, and a restore resets just those |
| `SnapshotCodecLaws.SerializeCanon` | src/persistence.cpp:252-276 | a snapshot and its canonical form have the same image |
| `SnapshotCodecLaws.RestoreOutcome` | src/persistence.cpp:367-701 | restoring an image of addressable lengths gives the canonical snapshot, or resource abuse exactly when a list is over the record cap |
| `SnapshotCodecLaws.SerializeInjective` | src/persistence.cpp:191-365 | two snapshots with one image are equal up to the two dropped fields |
| `SnapshotCodecLaws.RoundTripExactlyWithinLimits` | src/persistence.cpp:168-177 | restore gives the snapshot back if and only if it is within the limits of the reader |
| `SnapshotCodecLaws.AcceptedInputsArePrefixFree` | src/persistence.cpp:686-701 | of every accepted input, each proper prefix and each non-empty extension is refused as truncated |
| `SnapshotCodecLaws.DefiniteRefusalsStand` | src/persistence.cpp:152-190 | a version, enumeration or resource refusal stands whatever follows the input |
| `SnapshotCodecLaws.ReencodingIsStable` | src/persistence.cpp:367-701 | what is restored from any supported version is canonical and within limits, and its re-encoding restores to the same snapshot |
| `SnapshotCodecLaws.ReencodingIsExact` | src/persistence.cpp:389-395 | re-encoding reproduces an accepted input byte for byte if and only if it is version 8 and all its flag bytes are 0 or 1 |
| `SnapshotWriter.AppendedPair` | src/persistence.cpp:191-365 | appending one part after the other is appending the pair |
| `SnapshotWriter.RemainingStep` | src/persistence.cpp:199-202 | writing one more element of a list leaves the rest of the list to be written |
| `SnapshotWriter.ByteBuffer.PutU8` | src/persistence.cpp:32-35 | one byte is appended |
| `SnapshotWriter.ByteBuffer.PutFlag` | src/persistence.cpp:209 | a flag is appended as 1 or 0 |
| `SnapshotWriter.ByteBuffer.PutCode` | src/persistence.cpp:207-208 | an enumerator is appended as its one-byte code |
| `SnapshotWriter.ByteBuffer.PutLittleEndian` | src/persistence.cpp:37-53 | the low bytes of a number are appended, least significant first |
| `SnapshotWriter.ByteBuffer.PutU32` | src/persistence.cpp:37-44 | a 32-bit size is appended, higher bits dropped |
| `SnapshotWriter.ByteBuffer.PutI64` | src/persistence.cpp:55-60 | the two's complement image of a 64-bit id is appended |
| `SnapshotWriter.ByteBuffer.PutStr` | src/persistence.cpp:62-69 | length and characters are appended |
| `SnapshotWriter.ByteBuffer.PutStrings` | src/persistence.cpp:198-202 | exactly the image the layout prescribes is appended to the buffer: count and strings |
| `SnapshotWriter.ByteBuffer.PutIds` | src/persistence.cpp:233-237 | exactly the image the layout prescribes is appended to the buffer: count and ids |
| `SnapshotWriter.ByteBuffer.PutAuthorities` | src/persistence.cpp:342-346 | exactly the image the layout prescribes is appended to the buffer: count and operation classes |
| `SnapshotWriter.ByteBuffer.PutSource` | src/persistence.cpp:244-249 | exactly the image the layout prescribes is appended to the buffer: one provenance source |
| `SnapshotWriter.ByteBuffer.PutSources` | src/persistence.cpp:243-249 | exactly the image the layout prescribes is appended to the buffer: count and provenance sources |
| `SnapshotWriter.ByteBuffer.PutHandoffRow` | src/persistence.cpp:205-210 | exactly the image the layout prescribes is appended to the buffer: one handoff row |
| `SnapshotWriter.ByteBuffer.PutHandoffRows` | src/persistence.cpp:204-210 | exactly the image the layout prescribes is appended to the buffer: count and handoff rows |
| `SnapshotWriter.ByteBuffer.PutRecoveryRow` | src/persistence.cpp:212-216 | exactly the image the layout prescribes is appended to the buffer: one recovery row |
| `SnapshotWriter.ByteBuffer.PutRecoveryRows` | src/persistence.cpp:211-216 | exactly the image the layout prescribes is appended to the buffer: count and recovery rows |
| `SnapshotWriter.ByteBuffer.PutState` | src/persistence.cpp:218-224 | exactly the image the layout prescribes is appended to the buffer: the seven state fields |
| `SnapshotWriter.ByteBuffer.PutDecision` | src/persistence.cpp:227-250 | exactly the image the layout prescribes is appended to the buffer: one decision with both link lists |
| `SnapshotWriter.ByteBuffer.PutDecisions` | src/persistence.cpp:226-250 | exactly the image the layout prescribes is appended to the buffer: count and decisions |
| `SnapshotWriter.ByteBuffer.PutMemory` | src/persistence.cpp:253-266 | exactly the image the layout prescribes is appended to the buffer: one memory record, without its epistemic type |
| `SnapshotWriter.ByteBuffer.PutMemoryRecords` | src/persistence.cpp:252-266 | exactly the image the layout prescribes is appended to the buffer: count and memory records |
| `SnapshotWriter.ByteBuffer.PutObligation` | src/persistence.cpp:269-276 | exactly the image the layout prescribes is appended to the buffer: one obligation, without its trigger value |
| `SnapshotWriter.ByteBuffer.PutObligations` | src/persistence.cpp:268-276 | exactly the image the layout prescribes is appended to the buffer: count and obligations |
| `SnapshotWriter.ByteBuffer.PutEvidence` | src/persistence.cpp:279-283 | exactly the image the layout prescribes is appended to the buffer: one evidence record |
| `SnapshotWriter.ByteBuffer.PutEvidenceRecords` | src/persistence.cpp:278-283 | exactly the image the layout prescribes is appended to the buffer: count and evidence records |
| `SnapshotWriter.ByteBuffer.PutConflict` | src/persistence.cpp:286-293 | exactly the image the layout prescribes is appended to the buffer: one conflict |
| `SnapshotWriter.ByteBuffer.PutConflicts` | src/persistence.cpp:285-293 | exactly the image the layout prescribes is appended to the buffer: count and conflicts |
| `SnapshotWriter.ByteBuffer.PutProfile` | src/persistence.cpp:296-302 | exactly the image the layout prescribes is appended to the buffer: one profile with its layer |
| `SnapshotWriter.ByteBuffer.PutProfiles` | src/persistence.cpp:295-302 | exactly the image the layout prescribes is appended to the buffer: count and profiles |
| `SnapshotWriter.ByteBuffer.PutView` | src/persistence.cpp:306-317 | exactly the image the layout prescribes is appended to the buffer: one view with its references |
| `SnapshotWriter.ByteBuffer.PutViews` | src/persistence.cpp:305-317 | exactly the image the layout prescribes is appended to the buffer: count and views |
| `SnapshotWriter.ByteBuffer.PutClaim` | src/persistence.cpp:327-331 | exactly the image the layout prescribes is appended to the buffer: presence and claim class |
| `SnapshotWriter.ByteBuffer.PutRule` | src/persistence.cpp:324-336 | exactly the image the layout prescribes is appended to the buffer: one invocation rule |
| `SnapshotWriter.ByteBuffer.PutRules` | src/persistence.cpp:323-336 | exactly the image the layout prescribes is appended to the buffer: count and invocation rules |
| `SnapshotWriter.ByteBuffer.PutInvocation` | src/persistence.cpp:322-336 | exactly the image the layout prescribes is appended to the buffer: presence of the policy and its rules |
| `SnapshotWriter.ByteBuffer.PutFloor` | src/persistence.cpp:351-354 | exactly the image the layout prescribes is appended to the buffer: the capability floor |
| `SnapshotWriter.ByteBuffer.PutRole` | src/persistence.cpp:339-362 | exactly the image the layout prescribes is appended to the buffer: one role |
| `SnapshotWriter.ByteBuffer.PutRoles` | src/persistence.cpp:338-362 | exactly the image the layout prescribes is appended to the buffer: count and roles |
| `SnapshotWriter.ByteBuffer.PutFront` | src/persistence.cpp:196-250 | exactly the image the layout prescribes is appended to the buffer: the fields up to the decisions, in wire order |
| `SnapshotWriter.ByteBuffer.PutMiddle` | src/persistence.cpp:252-276 | exactly the image the layout prescribes is appended to the buffer: memory records and obligations |
| `SnapshotWriter.ByteBuffer.PutBack` | src/persistence.cpp:278-362 | exactly the image the layout prescribes is appended to the buffer: the fields from evidence to roles, in wire order |
| `SnapshotWriter.ByteBuffer.PutSnapshot` | src/persistence.cpp:196-362 | exactly the image the layout prescribes is appended to the buffer: the whole snapshot |
| `SnapshotWriter.SerializeImpl` | src/persistence.cpp:191-365 | the loops of the writer produce exactly the version byte and the image of the snapshot |
| `SnapshotReader.ReadsPair` | src/persistence.cpp:75-190 | reading one part after the other is reading the pair, errors included |
| `SnapshotReader.MidwayStep` | src/persistence.cpp:183-187 | reading one more element keeps what was read and leaves the rest of the list to the parser |
| `SnapshotReader.Concluded` | src/persistence.cpp:372-378 | version check, record and check for trailing bytes make up the decoder |
| `SnapshotReader.Reader.Need` | src/persistence.cpp:92-100 | the bounds check: an error sticks, too little input is a truncation, anything else leaves the reader as it was |
| `SnapshotReader.Reader.ReadU8` | src/persistence.cpp:102-109 | one byte or the sticky error |
| `SnapshotReader.Reader.TakeLittleEndian` | src/persistence.cpp:111-127 | the number the next bytes denote, least significant first |
| `SnapshotReader.Reader.ReadU32` | src/persistence.cpp:111-118 | a 32-bit number or the sticky error |
| `SnapshotReader.Reader.ReadI64` | src/persistence.cpp:129-135 | a 64-bit id or the sticky error |
| `SnapshotReader.Reader.ReadStr` | src/persistence.cpp:137-150 | a string bounded by the input or the sticky error |
| `SnapshotReader.Reader.ReadFlag` | src/persistence.cpp:393 | any non-zero byte reads as true |
| `SnapshotReader.Reader.ReadEnum` | src/persistence.cpp:153-166 | an enumerator, or a bad-enumeration error outside its range |
| `SnapshotReader.Reader.ReadCount` | src/persistence.cpp:168-177 | a record count, or resource abuse above the cap |
| `SnapshotReader.Reader.ReadStrings` | src/persistence.cpp:179-189 | the reader moves, fails and returns as the parser of the layout says: a list of strings |
| `SnapshotReader.Reader.ReadIds` | src/persistence.cpp:433-438 | the reader moves, fails and returns as the parser of the layout says: a list of ids |
| `SnapshotReader.Reader.ReadAuthorities` | src/persistence.cpp:658-664 | the reader moves, fails and returns as the parser of the layout says: a list of operation classes |
| `SnapshotReader.Reader.ReadSource` | src/persistence.cpp:450-454 | the reader moves, fails and returns as the parser of the layout says: one provenance source |
| `SnapshotReader.Reader.ReadSources` | src/persistence.cpp:446-456 | the reader moves, fails and returns as the parser of the layout says: a list of provenance sources |
| `SnapshotReader.Reader.ReadHandoffRow` | src/persistence.cpp:390-394 | the reader moves, fails and returns as the parser of the layout says: one handoff row |
| `SnapshotReader.Reader.ReadHandoffRows` | src/persistence.cpp:386-395 | the reader moves, fails and returns as the parser of the layout says: the handoff rows |
| `SnapshotReader.Reader.ReadRecoveryRow` | src/persistence.cpp:400-403 | the reader moves, fails and returns as the parser of the layout says: one recovery row |
| `SnapshotReader.Reader.ReadRecoveryRows` | src/persistence.cpp:396-404 | the reader moves, fails and returns as the parser of the layout says: the recovery rows |
| `SnapshotReader.Reader.ReadState` | src/persistence.cpp:406-415 | the reader moves, fails and returns as the parser of the layout says: the seven state fields |
| `SnapshotReader.Reader.ReadDecision` | src/persistence.cpp:424-456 | the reader moves, fails and returns as the parser of the layout says: one decision |
| `SnapshotReader.Reader.ReadDecisions` | src/persistence.cpp:418-462 | the reader moves, fails and returns as the parser of the layout says: the decisions |
| `SnapshotReader.Reader.ReadMemoryRecord` | src/persistence.cpp:470-490 | the reader moves, fails and returns as the parser of the layout says: one memory record, its epistemic type at the default |
| `SnapshotReader.Reader.ReadMemoryRecords` | src/persistence.cpp:464-496 | the reader moves, fails and returns as the parser of the layout says: the memory records |
| `SnapshotReader.Reader.ReadObligation` | src/persistence.cpp:504-514 | the reader moves, fails and returns as the parser of the layout says: one obligation, its trigger value empty |
| `SnapshotReader.Reader.ReadObligations` | src/persistence.cpp:498-516 | the reader moves, fails and returns as the parser of the layout says: the obligations |
| `SnapshotReader.Reader.ReadEvidenceRecord` | src/persistence.cpp:524-526 | the reader moves, fails and returns as the parser of the layout says: one evidence record |
| `SnapshotReader.Reader.ReadEvidenceRecords` | src/persistence.cpp:518-532 | the reader moves, fails and returns as the parser of the layout says: the evidence records |
| `SnapshotReader.Reader.ReadConflict` | src/persistence.cpp:540-550 | the reader moves, fails and returns as the parser of the layout says: one conflict |
| `SnapshotReader.Reader.ReadConflicts` | src/persistence.cpp:534-552 | the reader moves, fails and returns as the parser of the layout says: the conflicts |
| `SnapshotReader.Reader.ReadProfile` | src/persistence.cpp:560-569 | the reader moves, fails and returns as the parser of the layout says: one profile |
| `SnapshotReader.Reader.ReadProfiles` | src/persistence.cpp:554-571 | the reader moves, fails and returns as the parser of the layout says: the profiles |
| `SnapshotReader.Reader.ReadView` | src/persistence.cpp:579-584 | the reader moves, fails and returns as the parser of the layout says: one view |
| `SnapshotReader.Reader.ReadViews` | src/persistence.cpp:573-590 | the reader moves, fails and returns as the parser of the layout says: the views |
| `SnapshotReader.Reader.ReadClaim` | src/persistence.cpp:610-613 | the reader moves, fails and returns as the parser of the layout says: the optional claim class |
| `SnapshotReader.Reader.ReadRuleClaim` | src/persistence.cpp:608-613 | the reader moves, fails and returns as the parser of the layout says: the claim class of version 8 rules, none before |
| `SnapshotReader.Reader.ReadRuleBoundary` | src/persistence.cpp:615 | the reader moves, fails and returns as the parser of the layout says: the boundary of version 8 rules, the default before |
| `SnapshotReader.Reader.ReadRule` | src/persistence.cpp:602-632 | the reader moves, fails and returns as the parser of the layout says: one invocation rule of version 7 or 8 |
| `SnapshotReader.Reader.ReadRules` | src/persistence.cpp:598-633 | the reader moves, fails and returns as the parser of the layout says: the invocation rules |
| `SnapshotReader.Reader.ReadPresence` | src/persistence.cpp:594-597 | the reader moves, fails and returns as the parser of the layout says: the presence byte of version 8 |
| `SnapshotReader.Reader.ReadRulesIfAny` | src/persistence.cpp:592-633 | the reader moves, fails and returns as the parser of the layout says: no rules before version 7 |
| `SnapshotReader.Reader.ReadInvocation` | src/persistence.cpp:592-644 | the reader moves, fails and returns as the parser of the layout says: the invocation policy in all three versions |
| `SnapshotReader.Reader.ReadFloor` | src/persistence.cpp:666-668 | the reader moves, fails and returns as the parser of the layout says: the capability floor |
| `SnapshotReader.Reader.ReadRole` | src/persistence.cpp:652-678 | the reader moves, fails and returns as the parser of the layout says: one role |
| `SnapshotReader.Reader.ReadRoles` | src/persistence.cpp:646-684 | the reader moves, fails and returns as the parser of the layout says: the roles |
| `SnapshotReader.Reader.ReadFront` | src/persistence.cpp:381-462 | the reader moves, fails and returns as the parser of the layout says: the fields up to the decisions |
| `SnapshotReader.Reader.ReadMiddle` | src/persistence.cpp:464-516 | the reader moves, fails and returns as the parser of the layout says: memory records and obligations |
| `SnapshotReader.Reader.ReadBack` | src/persistence.cpp:518-684 | the reader moves, fails and returns as the parser of the layout says: the fields from evidence to roles |
| `SnapshotReader.Reader.ReadSnapshot` | src/persistence.cpp:380-684 | the reader moves, fails and returns as the parser of the layout says: the whole snapshot |
| `SnapshotReader.DeserializeImpl` | src/persistence.cpp:367-701 | the reader's outcome is that of the decoder on every input: the same snapshot, or the same error and the empty snapshot |
| `Transactions.OperationsImageInjective` | src/persistence.cpp:853-868 | the unframed image of an operation list determines the list |
| `Transactions.DigestBindsOperations` | include/qiven/context/persistence.hpp:298-304 | a review digest identifies exactly one operation list |
| `Transactions.DigestBindsRequest` | src/persistence.cpp:877-894 | two requests have one digest if and only if base, operations, evidence pointer and review evidence agree |
| `Transactions.MintInjective` | src/persistence.cpp:911-913 | revision ids are non-empty and determine the base and the image they were minted over |
| `Transactions.CollisionFreeWorldExists` | src/persistence.cpp:838-851 | the assumption about the hashes can be met, for any layout and founding snapshot |
| `DigestWriter.PutOperation` | src/persistence.cpp:858-865 | one operation is appended field by field in the order of the digest |
| `DigestWriter.ImageOfOperations` | src/persistence.cpp:853-868 | the loop over the operations produces exactly their unframed image |
| `DigestWriter.PutEvidence` | src/persistence.cpp:883-890 | presence and the four fields of the review evidence are appended |
| `DigestWriter.ImageOfRequest` | src/persistence.cpp:877-894 | the request image is produced in the order base, digest, evidence pointer, review evidence |
| `Gates.RestoredJudgedAlike` | src/persistence.cpp:1226-1640 | snapshots equal up to restoring get the same verdict of gates 6 to 9 and build successors equal up to restoring |
| `GateChecks.Search` | src/persistence.cpp:772-835 | the linear searches find the first match, or nothing when there is none |
| `GateChecks.ParseRefs` | src/persistence.cpp:1448-1459 | the getline loop yields the non-empty parts between commas |
| `GateChecks.ReachesDecision` | src/persistence.cpp:784-799 | the recursion follows the superseded decisions depth first, stopping at the first that reaches the target |
| `GateChecks.CheckSupersede` | src/persistence.cpp:1324-1341 | both decisions exist, are different records and accepted, no chain leads back, and there is a rationale |
| `GateChecks.CheckTransition` | src/persistence.cpp:1372-1388 | the transition conditions of an obligation |
| `GateChecks.CheckView` | src/persistence.cpp:1433-1483 | the view conditions, with references non-empty, resolving and pairwise different |
| `GateChecks.CheckRecord` | src/persistence.cpp:1306-1494 | gate 8 for one operation, judged against the snapshot before the transaction |
| `GateChecks.CheckPolicy` | src/persistence.cpp:1226-1285 | gates 6 and 7 for the whole transaction: the first refusal in operation order |
| `GateChecks.CheckConflicts` | src/persistence.cpp:1289-1304 | gate 7.5 for the whole transaction |
| `GateChecks.CheckRecords` | src/persistence.cpp:1306-1494 | gate 8 for the whole transaction |
| `GateChecks.EraseView` | src/persistence.cpp:1591-1598 | retiring a view removes exactly the views of that id, keeping order |
| `GateChecks.ApplyOne` | src/persistence.cpp:1502-1620 | one operation applied to the successor |
| `GateChecks.ApplyOperations` | src/persistence.cpp:1496-1621 | the operations applied one after the other to a copy |
| `GateChecks.CheckBoundary` | src/persistence.cpp:1623-1640 | the next boundary is unset or names an open obligation |
| `GateChecks.CheckAll` | src/persistence.cpp:1226-1640 | the first refusing gate decides, else the successor is what the operations build |
| `Ledger.LedgerStep` | src/persistence.cpp:1496-1499 | a history extends by exactly the transactions the replayed snapshot admits |
| `Ledger.GovernanceIsConstant` | src/persistence.cpp:1499-1621 | root principal, constitution, policy, invocation policy and roles never change |
| `Ledger.DecisionChangesWereReviewed` | src/persistence.cpp:1257-1283 | every transaction that changed a decision carried review evidence by the root principal, under another binding than the writer's, for the digest of its operations |
| `Ledger.ReviewIsOfTheseOperations` | include/qiven/context/persistence.hpp:298-304 | no other operation list has the digest the review evidence carries |
| `History.LedgerIsSound` | src/persistence.cpp:1306-1494 | in every reachable snapshot views resolve without duplicates, the next boundary names open work, records of one conflict id agree, resolved conflicts have a resolution, and nothing is blocked |
| `History.HistoryIsAppendOnly` | src/persistence.cpp:1499-1621 | between any two points of a history memory, evidence and profiles are prefixes, decisions keep identity and content, only extend their links and stay superseded, and resolved conflicts are frozen |
| `History.GlobalConflictFreezes` | src/persistence.cpp:1289-1304 | with an open conflict without scope an admitted transaction changes conflicts only |
| `History.FrozenWhileBlocked` | src/persistence.cpp:1289-1304 | as long as such a conflict is open, history changes nothing but conflicts |
| `History.ClosingClosesExactlyTheFirst` | src/persistence.cpp:1355-1371 | an admitted closing leaves one open record of the id less when the first record is open and as many otherwise, so none stays open if and only if the first is the only open one |
| `History.OpenWorkBehindIsStuck` | src/persistence.cpp:1355-1388 | once the first record of an id is not open, it never is again, every other record of the id keeps its status over all later history, and the open ones never become fewer |
| `Supersession.AcyclicUnion` | src/persistence.cpp:784-799 | new links whose ends no old link reaches can only form cycles among themselves |
| `Supersession.NewLinksAreFresh` | src/persistence.cpp:1325-1331 | the links of an admitted transaction start and end at existing, different decisions that no earlier link ends at |
| `Supersession.LinksAreReciprocal` | src/persistence.cpp:1513-1526 | in every reachable snapshot both ends record each link, exactly the superseded decisions name a successor, and the links are those the transactions asked for |
| `Supersession.AcyclicExactlyPerTransaction` | src/persistence.cpp:1332-1335 | supersession is acyclic if and only if no single transaction closes a cycle among its own links |
| `Reachability.SearchDecidesConnection` | src/persistence.cpp:784-799 | a settled search answers exactly whether supersession links lead from one decision to the other |
| `Reachability.Deeper` | src/persistence.cpp:784-799 | once settled, a search has the same answer however deep it may go |
| `Reachability.SearchEndsExactlyOffLoops` | src/persistence.cpp:784-799 | a search for a decision that links do not lead to ends if and only if no closed walk can be entered from where it starts |
| `Reachability.DepthSuffices` | src/persistence.cpp:784-799 | whatever the snapshot, the recursion ends if and only if it settles within as many links as there are decisions |
| `Reachability.GateEndsExactlyOffLoops` | src/persistence.cpp:1324-1341 | in every history, past the status checks the search of the gate ends if and only if no closed walk can be entered from the successor, and the model refuses a supersession with a rationale exactly where it does not end |
| `Reachability.AcyclicSearchesSettle` | src/persistence.cpp:784-799 | in a history whose transactions are acyclic one by one every search from every decision ends, within as many links as there are decisions |
| `Reachability.ReachRefusalIsRedundant` | src/persistence.cpp:1327-1335 | in every history the search never refuses a supersession that the status checks let through |
| `Identifiers.UniqueExactlyPerTransaction` | src/persistence.cpp:1311-1323 | decision, conflict and profile ids are unique if and only if no single transaction introduces one twice |
| `Identifiers.ViewIdsUniqueExactly` | src/persistence.cpp:1441-1447 | view ids are unique if and only if no id is added again since its last retirement |
| `Identifiers.ViewsUniqueStep` | src/persistence.cpp:1441-1447 | with the declared codes, a transaction keeps view ids unique if and only if it adds none again itself |
| `Genesis.GenesisIsFounding` | src/persistence.cpp:730-770 | the founding snapshot names a root principal, requires review for decisions and holds no records |
| `Limits.WholeWithin` | src/persistence.cpp:191-365 | the size bound of the layout holds if and only if no list exceeds the cap and no string a 32-bit length, field by field |
| `Limits.LimitsOfTheFormat` | src/persistence.cpp:168-177 | in the program's layout a snapshot is addressable if and only if no list or string exceeds a 32-bit length, and accepted by the reader if and only if moreover no list exceeds the record cap |
| `Genesis.GenesisFits` | src/persistence.cpp:760-770 | the founding snapshot is within the limits of the reader, so a store can be founded and read back |
| `Restore.CommitSimilar` | src/persistence.cpp:1642-1682 | services equal up to restoring store the same image, mint the same revision and answer alike |
| `Restore.RulingSimilar` | src/persistence.cpp:1162-1285 | ... and rule alike on every write |
| `Restore.StepSimilar` | src/persistence.cpp:1024-2004 | every call answers alike on services equal up to restoring, and leaves them so |
| `Restore.LossyRestoreIsInvisible` | src/persistence.cpp:252-276 | replacing a live snapshot by its restored form changes no answer and no stored image of any later sequence of calls |
| `Reachable.SaneWorldExists` | src/persistence.cpp:760-770 | the assumptions about the surroundings can be met by the program's own layout and founding snapshot |
| `Reachable.RevisionsDistinct` | src/persistence.cpp:911-915 | the revisions of a store are pairwise different |
| `Reachable.MaterializesTo` | src/persistence.cpp:918-929 | each stored revision materializes to the image after as many transactions |
| `Reachable.StoredHeadOutcome` | src/persistence.cpp:1740-1746 | restoring the stored head gives the canonical replayed snapshot, or nothing exactly when it is over the limits |
| `Reachable.HeadIsReplay` | src/persistence.cpp:1722-1746 | whichever path answers, the canonical head is the replayed history up to restoring |
| `Reachable.EntryAtHead` | src/persistence.cpp:1733-1739 | an entry promoted at the head revision holds the replayed history up to restoring |
| `Reachable.SwapOutcome` | src/persistence.cpp:897-916 | an admitted transaction written from an anchored entry is refused off the head, is a no-op when it changes no byte, and otherwise extends the history by itself |
| `Reachable.OpenRemoteKeeps` | src/persistence.cpp:1043-1069 | opening canonical cognition, founding the store when it is empty, keeps the invariant |
| `Reachable.MoveKeeps` | src/persistence.cpp:1948-2004 | verification keeps the invariant, and promotion never changes anything |
| `Reachable.CommitKeeps` | src/persistence.cpp:1642-1682 | the store call and the publication keep the invariant, whatever happens to the acknowledgement |
| `Reachable.StepKeeps` | src/persistence.cpp:1024-2004 | every call keeps the invariant |
| `Reachable.RunsHold` | src/persistence.cpp:1024-2004 | every run keeps the invariant: the stored revisions are the images of a history of admitted transactions, live entries are anchored or quarantined, keys are receipted and unique |
| `ServiceLaws.HeadIsTheFold` | src/persistence.cpp:1499-1682 | after every run the head holds the image of the founding snapshot with the committed transactions applied in order, and they form a history |
| `ServiceLaws.NoLostUpdate` | src/persistence.cpp:1215-1218 | a write that changed the store had base, entry revision and head equal, held the active lease, and appended exactly its own transaction |
| `ServiceLaws.AppliedMeansCurrent` | src/persistence.cpp:1668-1682 | an applied write had the head as its base, and its successor is live |
| `ServiceLaws.AppliedExactlyAtTheHead` | src/persistence.cpp:1657-1660 | past the gates, an acknowledged write is applied if and only if its base is the head; otherwise it is refused as diverged and changes nothing |
| `ServiceLaws.HistoryIsKept` | src/persistence.cpp:897-916 | no call changes or removes a stored revision |
| `ServiceLaws.OldRevisionsStay` | src/persistence.cpp:918-929 | what a stored revision materializes to never changes |
| `ServiceLaws.KeysCommitAtMostOnce` | src/persistence.cpp:1162-1180 | no idempotency key commits twice in a run, with any lost acknowledgements |
| `ServiceLaws.ReceiptIsLeft` | src/persistence.cpp:1646-1682 | a keyed write that reached the store leaves a receipt of the answer it gave |
| `ServiceLaws.ReceiptsAreDurable` | src/persistence.cpp:1162-1180 | from then on the same request gets the recorded answer and any other request under the key is a key conflict, changing nothing, whatever happens in between |
| `ServiceLaws.RefusedChangesNothing` | src/persistence.cpp:1157-1159 | a refused write changes nothing; an unknown outcome at most the store and its receipt |
| `ServiceLaws.StaleGrantChangesNothing` | src/persistence.cpp:1199-1203 | a write under any grant but the active one changes nothing |
| `ServiceLaws.OneLeaseAtATime` | src/persistence.cpp:1120-1123 | while a lease is held no other is granted |
| `ServiceLaws.MintedInOrder` | src/persistence.cpp:1133-1140 | grants carry the numbers of a 64-bit generation counter in order |
| `ServiceLaws.GrantIdsRepeatOnlyOnWrap` | src/persistence.cpp:1133-1140 | two leases of a run share an id if and only if the 64-bit counter came around between them |
| `ServiceLaws.QuarantineHolds` | src/persistence.cpp:1039-1105 | over every run each live entry is promoted at a stored revision, or isolated or verified without one |
| `ServiceLaws.PromotionNeverSucceeds` | src/persistence.cpp:1977-2004 | no cutover is ever pending, so promotion never succeeds |
| `ServiceLaws.QuarantinedNeverWrites` | src/persistence.cpp:1191-1194 | a write through a quarantined entry changes nothing |
| `ServiceLaws.HeadPathsAgreeWithinLimits` | src/persistence.cpp:1722-1746 | the live and the stored head agree up to restoring if and only if the head is within the limits of the reader |
| `Progress.HeadOpens` | src/persistence.cpp:1043-1105 | opening the head registers exactly one promoted entry, at the head revision, with the restored snapshot |
| `Progress.LeaseIsTaken` | src/persistence.cpp:1117-1141 | with an entry at the head and the lease free, the root principal gets the lease and nothing else changes |
| `Progress.AdmittedPassesGates` | src/persistence.cpp:1162-1640 | a transaction the replayed history admits, written from an entry at the head, passes every gate of the service |
| `Progress.AdmittedIsApplied` | src/persistence.cpp:1642-1682 | and is applied; the history extends by it if and only if it changes the image |
| `Progress.AdmittedCanBeApplied` | src/persistence.cpp:1153-1683 | in every reachable state with a free lease and a readable head, any transaction the replayed history admits is applied at once |
| `Realization.RunsAreProper` | src/persistence.cpp:1153-1683 | every run has a history of admitted transactions with the head as base, a named author, distinct keys and an effect each |
| `Realization.ProperHasRun` | src/persistence.cpp:1153-1683 | every such history is that of a run |
| `Realization.HistoriesAreProperLedgers` | src/persistence.cpp:1153-1683 | the histories of the runs are exactly those, and so are the histories of the runs that carry only grants they were given |
| `Attainment.ReviewedIsAdmitted` | src/persistence.cpp:1226-1640 | under the default policy a reviewed transaction of admissible operations passes every gate |
| `Attainment.Advance` | src/persistence.cpp:1153-1683 | from any snapshot a run arrives at, a run arrives at what such a transaction builds |
| `Divergences.SupersessionNeverAnswers` | src/persistence.cpp:1324-1341 | a run arrives at a snapshot with a supersession cycle, in which a supersession passes every other check and its search never ends |
| `Divergences.IdsAreReused` | src/persistence.cpp:1311-1323 | a run arrives at a snapshot with a repeated decision id, one with a repeated conflict id, and one with a repeated profile id |
| `Divergences.ViewIdsAreReused` | src/persistence.cpp:1441-1447 | a run arrives at a snapshot with a repeated view id |
| `Divergences.OpenWorkStaysOpen` | src/persistence.cpp:1355-1371 | after a run, closing an obligation is acknowledged as applied, the store stays as it was and an open record of the id stays open |
| `Divergences.KeyIsAnsweredWithoutLease` | src/persistence.cpp:1162-1180 | a run after which a request under a released grant and a handle no longer live is answered as applied with a live successor, where the listed order refuses it |
| `Divergences.ReleasedGrantComesBack` | src/persistence.cpp:1133-1140 | a run in which a grant, released 2^64 leases ago, is the active one again and its write is applied |
| `Divergences.HeadIsStranded` | src/persistence.cpp:1736-1746 | a run arrives at a head over the limits of the reader with no entry at it |
| `Divergences.RepeatedReferencesResolve` | src/persistence.cpp:1748-1784 | an artifact opens whose view repeats a reference and resolves |
| `Divergences.UnreadableBoundaryThrows` | src/persistence.cpp:1803-1811 | an artifact opens on which building the bundle throws, whatever the budget |
| `ServiceLaws.StrandedStays` | src/persistence.cpp:1722-1746 | with the head over the limits and no entry at it, any call leaves the store and the receipts as they are, and every opening of the head, lease, move and fresh write is refused |
| `ServiceLaws.StrandedForever` | src/persistence.cpp:1722-1746 | and so it stays over any sequence of calls |
| `GateOrder.RulingsDifferExactly` | include/qiven/context/persistence.hpp:468-473 | the rulings of the two orders in any state that records no refusal |
| `GateOrder.RunsRecordNoRefusal` | src/persistence.cpp:1646-1682 | no run records a refusal under a key |
| `GateOrder.OrdersDifferExactly` | include/qiven/context/persistence.hpp:468-473 | in every run the code rules as the listed gate order does, except exactly when an answer is recorded for the key and a gate listed before the key refuses |
| `GateOrder.ReasonsDifferExactly` | include/qiven/context/persistence.hpp:469 | with the listed reason for an unknown handle they differ exactly there and on handles that are not live |
| `GateOrder.AnswerStaysBehind` | src/persistence.cpp:1162-1180 | after an acknowledged keyed write and the release of its lease, its request is answered as applied with a live successor, whatever handle and grant it comes with, and changes nothing |
| `GateOrder.AnsweredWithoutLease` | src/persistence.cpp:1162-1180 | every run at rest extends by a keyed commit to one in which this happens |
| `Fencing.ReleasedStaysOut` | src/persistence.cpp:1195-1203 | a released grant changes nothing over any later calls with fewer than 2^64 further leases |
| `Fencing.UnattendedChangesNothing` | src/persistence.cpp:1211-1214 | a write under an unattended grant changes nothing |
| `Fencing.UnattendedRunsCommitNothing` | src/persistence.cpp:1211-1214 | a run in which every lease is taken unattended commits nothing |
| `Fencing.SameIdSameGrant` | src/persistence.cpp:1133-1140 | until the counter has come around, a grant id belongs to one lease |
| `Fencing.WritesAreLeased` | src/persistence.cpp:1195-1214 | until then, every write that changed anything was made under the very lease its grant came with, taken for supervised work by the actor it is attributed to and not released since |
| `ReadPlane.PromotedIsSound` | src/persistence.cpp:1039-1105 | over every run each promoted entry holds a sound snapshot |
| `ReadPlane.PromotedViewsResolve` | src/persistence.cpp:1748-1784 | on it resolving a view never fails on references and finds every view that exists |
| `ReadPlane.PromotedBundleIsTotal` | src/persistence.cpp:1803-1811 | on it the bundle always exists and shows the next boundary when one is set |
| `QivenContext.MemoryStore.constructor` | include/qiven/context/persistence.hpp:92-103 | a new store is empty |
| `QivenContext.MemoryStore.CompareAndSwap` | src/persistence.cpp:897-916 | the store and the receipt become what the state machine's store step gives |
| `QivenContext.MemoryStore.Materialize` | src/persistence.cpp:918-929 | the bytes of the first entry with the id, else none |
| `QivenContext.MemoryStore.Verify` | src/persistence.cpp:931-943 | true exactly for stored revisions |
| `QivenContext.Context.constructor` | src/persistence.cpp:998-1005 | a new service is the start state |
| `QivenContext.Context.Image` | src/persistence.cpp:870-873 | the image of a snapshot |
| `QivenContext.Context.Restore` | src/persistence.cpp:1090-1096 | the decoder's outcome on the bytes |
| `QivenContext.Context.CanonicalHead` | src/persistence.cpp:1722-1746 | the live canonical entry, else the stored head restored, else nothing |
| `QivenContext.Context.Authenticate` | src/persistence.cpp:988-992 | the actor is complete and names the head's root principal |
| `QivenContext.Context.Register` | src/persistence.cpp:1085-1105 | parsing and registering: the whole new state and the reply, nothing changed on refusal |
| `QivenContext.Context.CreateFromRemote` | src/persistence.cpp:1043-1069 | takes the state machine's step for canonical cognition |
| `QivenContext.Context.CreateFromArtifact` | src/persistence.cpp:1070-1080 | takes the state machine's step for an artifact |
| `QivenContext.Context.AcquireGrant` | src/persistence.cpp:1117-1141 | takes the lease step |
| `QivenContext.Context.ReleaseGrant` | src/persistence.cpp:1143-1151 | takes the release step |
| `QivenContext.Context.Gate` | src/persistence.cpp:1199-1640 | the verdict of the gates behind the lease, and the successor when they let the transaction through |
| `QivenContext.Context.Send` | tests/persistence_fencing.cpp:283-298 | the store call with its acknowledgement delivered, lost, or the call never arriving |
| `QivenContext.Context.Commit` | src/persistence.cpp:1642-1682 | the store call, the publication and the receipt |
| `QivenContext.Context.DigestRequest` | src/persistence.cpp:1166-1168 | the digest a keyed request is remembered under |
| `QivenContext.Context.WriteToCognition` | src/persistence.cpp:1153-1683 | takes the write step: the whole new state and the verdict |
| `QivenContext.Context.RetireCognition` | src/persistence.cpp:1702-1714 | removes exactly the entry of the handle |
| `QivenContext.Context.VerifyRestored` | src/persistence.cpp:1948-1975 | takes the verification step |
| `QivenContext.Context.PromoteAuthority` | src/persistence.cpp:1977-2004 | takes the promotion step |
| `QivenContext.Context.ReadFromCognition` | src/persistence.cpp:1108-1115 | the full image of the pinned snapshot |
| `Bundle.ResolveView` | src/persistence.cpp:1748-1784 | the first view of the id when its references are non-empty and resolve, else the diagnostic |
| `Bundle.SoundViewsResolve` | src/persistence.cpp:1748-1784 | in a sound snapshot a view resolves if and only if it exists |
| `Bundle.ResolvesAsDescribedExactly` | src/persistence.cpp:1748-1784 | the outcome differs from the described diagnostic if and only if the references of the first view of the id are non-empty, all exist and repeat; in a sound snapshot never |
| `Bundle.GreedyWithinBudget` | src/persistence.cpp:1844-1885 | every item appears once and in order as candidate or omission, candidates stay within the budget, and no omitted item fits what is left |
| `Bundle.GreedyIsUnique` | src/persistence.cpp:1855-1865 | no other selection leaves out exactly the items that did not fit after those taken before them |
| `Bundle.SelectDecisions` | src/persistence.cpp:1850-1866 | the loop over the decisions fills greedily |
| `Bundle.SelectMemory` | src/persistence.cpp:1867-1885 | the loop over the memory records continues where the decisions left off, skipping inactive records and negative knowledge |
| `Bundle.CollectFloors` | src/persistence.cpp:1792-1826 | the floors in order, or the throw of an unreadable boundary reference |
| `Bundle.CollectConstraints` | src/persistence.cpp:1828-1842 | the protected constraints row by row |
| `Bundle.EvaluateObligations` | src/persistence.cpp:1887-1908 | three-valued evaluation of every obligation |
| `Bundle.BuildBundle` | src/persistence.cpp:1786-1910 | the bundle, or the throw of an unreadable boundary reference |
| `Bundle.ThrowsExactlyOnUnreadable` | src/persistence.cpp:1803-1811 | the bundle throws if and only if the next boundary is set and is not a number |
| `Bundle.SoundBundleIsTotal` | src/persistence.cpp:1803-1811 | in a sound snapshot the bundle exists for every budget and shows the next boundary when one is set |
| `Bundle.FloorsIgnoreTheBudget` | src/persistence.cpp:1795-1842 | floors and constraints are the same for every query |
| `Bundle.RestoredBundleIsSame` | src/persistence.cpp:1786-1910 | snapshots equal up to restoring give the same bundle |
| `Text.StollOfDecimal` | src/persistence.cpp:1805-1806 | reading back the printed form of an id gives the id, for all 64-bit ids |
| `Text.DecimalInjective` | src/persistence.cpp:1630 | the decimal form identifies the id |
| `Worker.LeaseIsLeftAsFound` | src/runtime.cpp:50-147 | whatever happens in a work cycle the lease is afterwards as it was found, and without the lease nothing happens |
| `Worker.DefaultPolicyParksOnlyStaleBase` | src/persistence.cpp:743-756 | under the default policy exactly a stale base leads to re-reading and re-thinking |
| `Worker.ParkedMeansUntouched` | src/runtime.cpp:119-127 | a cycle that parks its delta has changed nothing but the lease counter, keeps its handle and parks exactly its proposal |
| `Worker.StaleExactlyWhenGone` | src/persistence.cpp:1182-1218 | under the active lease a fresh write on the pinned revision is refused as stale if and only if its handle is no longer live |
| `Worker.ParksExactlyWhenRetired` | src/runtime.cpp:119-127 | under the default policy a cycle with the lease and a fresh proposal parks it if and only if its handle is no longer live |
| `Worker.OneReasonHasNoName` | src/runtime.cpp:22-39 | different refusal reasons have different names, and exactly the unresolved conflict is reported as unknown |
| `Worker.Llm.Work` | src/runtime.cpp:50-110 | the cycle takes the prescribed step on the service and the session, and reports it |
| `Worker.Llm.Settle` | src/runtime.cpp:93-147 | the session rebinds on success and otherwise obeys the recovery table |
| `FailureText.NormalizeFailureText` | include/qiven/context/runtime.hpp:251-301 | the one-pass loop gives the stable words of the message with one space between them |
| `FailureText.NormalizeIsIdempotent` | include/qiven/context/runtime.hpp:248-250 | normalizing again changes nothing |
| `FailureText.NormalizeIdentifiesStableWords` | include/qiven/context/runtime.hpp:248-250 | two messages normalize alike if and only if their stable words agree in order |
| `FailureText.VolatileAsDescribedExactly` | include/qiven/context/runtime.hpp:248-275 | every word with four digits in a row or a temporary path is dropped, and beyond these exactly the words without temporary path that have digits at four places and at no four in a row |
| `FailureText.ScatteredDigitsAreDropped` | include/qiven/context/runtime.hpp:258-268 | the word a1b2c3d4 is dropped, although its digits never run |
| `FailureText.RetryPermitted` | include/qiven/context/runtime.hpp:556-572 | a retry is refused exactly without new evidence, for the same tool and operation, with the same stable words |
| `Text.WordsOfJoin` | include/qiven/context/runtime.hpp:283-299 | splitting at the blanks undoes joining with one space |
| `Effects.ReplayIsPerformed` | src/persistence.cpp:1499-1621 | a head is the founding snapshot with the operations of its history performed one after the other |
| `Effects.PlacesAreThose` | src/persistence.cpp:1500-1502 | the places of the operations of a kind are exactly those, each once and in order |
| `Effects.StateThrough` | src/persistence.cpp:1564-1620 | over every history the current state is the text of the last update, the next boundary the number last set, and the other five state fields are as founded |
| `Effects.AdditionsThrough` | src/persistence.cpp:1527-1580 | over every history memory, evidence and profiles are the founding ones and then exactly one record per operation of the kind, in order, with its fields |
| `Effects.DecisionsThrough` | src/persistence.cpp:1504-1526 | one decision per append, in order, with the title, text and evidence pointer of its transaction; its links and status are those of the later supersessions of its id |
| `Effects.ConflictsThrough` | src/persistence.cpp:1574-1590 | one conflict per opening, in order, with its id, scope and description; it is resolved, with that text, by the last resolution of its id after it |
| `Effects.ObligationsThrough` | src/persistence.cpp:1536-1563 | one obligation per insertion, in order; its status and criteria are those of the later transitions of its id, and a closing reaches only the first record of the id |
| `Effects.StandingAreThose` | src/persistence.cpp:1591-1615 | an added view stands exactly when its id was not retired after it |
| `Effects.ViewsThrough` | src/persistence.cpp:1591-1615 | the views are exactly the additions that stand, in order, each with its id, summary, references and its scope split at the first colon |
| `Effects.HeadFollowsHistory` | src/persistence.cpp:1499-1621 | every field of the head of every history follows from the founding snapshot and the operations of the history |
| `Verdicts.PolicyAnswer` | src/persistence.cpp:1228-1285 | ungoverned operations are denied; where the governing row asks for a review, evidence that lacks a part is missing, and evidence that is not independent, of the root principal and for these operations is invalid |
| `Verdicts.ConflictAnswer` | src/persistence.cpp:1289-1304 | an operation that is not about conflicts is refused if and only if an open conflict has its scope or none |
| `Verdicts.RuleIsTheGate` | src/persistence.cpp:1306-1497 | the record conditions of each operation kind, on the fields of the records before the transaction |
| `Verdicts.BoundaryIsTheGate` | src/persistence.cpp:1625-1640 | a next boundary that is set prints the id of an open obligation |
| `Verdicts.AnswersExactly` | src/persistence.cpp:1226-1640 | each answer of the gates if and only if its condition holds: admitted, which denial of the first operation the policy stops, conflict, or invariant |
| `Verdicts.AdmittedKeepsClear` | src/persistence.cpp:1289-1304 | no admitted transaction holds an operation of the scope of an open conflict, or any but those about conflicts under one without scope |
| `Verdicts.OpenConflictKeepsOut` | src/persistence.cpp:1289-1304 | over every history, while a conflict stays open no operation it stands against is stored |
| `Authority.GrantedExactlyToRoot` | src/persistence.cpp:1117-1141 | a lease is granted if and only if none is held, there is a head and the actor is the root principal with a binding and a serving model; the grant carries its principal, mode and the epoch |
| `Authority.MovedExactlyByRoot` | src/persistence.cpp:1948-1975 | an entry leaves its quarantine if and only if the root principal asks and it is isolated; it becomes verified under a new address and nothing else changes |
| `Authority.LeaseIsRoots` | src/persistence.cpp:1117-1141 | over every run, whenever a lease is held the root principal of the founding snapshot holds it |
| `Authority.OnlyToTheRoot` | src/persistence.cpp:988-992 | over every run, each lease, changing write and move out of quarantine goes to the root principal |
| `Authority.CommitsAreRoots` | src/persistence.cpp:1205-1209 | every commit of every run was written by the root principal under a lease it held, and is attributed to its binding |
| `Calls.ArtifactOpensExactly` | src/persistence.cpp:1070-1105 | an artifact that is not the expected one is refused with nothing changed; the expected one opens if and only if it can be restored, isolated, at the next address and epoch |
| `Calls.OnlyTheExpectedOpens` | src/persistence.cpp:1072-1079 | an artifact expected by the content id of some bytes opens only if it is those bytes |
| `Calls.RevisionOpensExactly` | src/persistence.cpp:1048-1069 | every stored revision opens as the history up to it, up to restoring, or is refused for the limits of the reader |
| `Calls.UnknownRevisionIsNotFound` | src/persistence.cpp:1050-1054 | a revision that was never stored is refused and nothing changes |
| `Calls.FoundsExactly` | src/persistence.cpp:1055-1063 | the first opening stores exactly the image of the founding snapshot and opens it |
| `Calls.ReleaseEndsExactlyItsOwn` | src/persistence.cpp:1143-1151 | a release ends the lease of its own grant and changes nothing otherwise |
| `Calls.RetireTakesExactlyOne` | src/persistence.cpp:1702-1714 | retiring takes out the entry at the handle and nothing else |
| `Calls.UnknownHandleIsStale` | src/persistence.cpp:1182-1198 | a write with a fresh key to a handle that is not live is refused as stale and changes nothing |
| `Calls.WriteAnswersExactly` | src/persistence.cpp:1153-1224 | the answer to a write with a fresh key, gate by gate; a turn without operations is answered with its own entry |
| `Calls.ReasonsNameTheirGate` | src/persistence.cpp:1182-1224 | four refusal reasons are given by one gate each, exactly when it is the first that does not hold |
| `Calls.CommitLeavesExactly` | src/persistence.cpp:1642-1682 | what a write that passed the gates leaves in the store, the registry and the receipts, for each way the store call can go |
| `Calls.LossIsIndistinguishable` | src/persistence.cpp:1648-1660 | a lost acknowledgement and a call that never arrived have the same answer and differ in the store only |
| `WireImages.VersionsRestore` | src/persistence.cpp:367-701 | the image of a snapshot in version 6, 7 or 8 restores to what that version carries, or is refused if and only if that is over the cap: version 7 rules without claim and boundary, present when there are any; version 6 without policy |
| `WireImages.WriterPrintsTheImage` | src/persistence.cpp:191-365 | the writer prints exactly the version 8 image, byte by byte |
| `WireImages.InvocationReads` | src/persistence.cpp:596-640 | the invocation part of each version reads as that version carries it |
| `WireImages.RuleReads` | src/persistence.cpp:600-632 | a rule of version 7 reads without claim class and as binding before judgment |
| `WireLaws.U32Answer` | src/persistence.cpp:111-118 | four bytes, least significant first, or a truncation |
| `WireLaws.I64Answer` | src/persistence.cpp:120-135 | eight bytes as a two's complement number, or a truncation |
| `WireLaws.StrAnswer` | src/persistence.cpp:137-150 | a length and that many bytes, or a truncation |
| `WireLaws.CountAnswer` | src/persistence.cpp:168-177 | a count above 100000 is refused before a record is read |
| `WireLaws.FlagAnswer` | src/persistence.cpp:393 | any flag byte but 0 reads as set |
| `WireLaws.EnumAnswer` | src/persistence.cpp:152-167 | a code outside the range is a bad enumeration, a missing one a truncation |
| `WireLaws.VersionAnswer` | src/persistence.cpp:370-378 | no version byte is a truncation, and one other than 6, 7 and 8 a bad version |
| `WireLaws.CodesAsDeclared` | include/qiven/context/cognition.hpp:83-233 | the enumerators of the roles, lifecycles, classes, layers, handoffs, sources and recoveries are numbered in the order of their declaration |
| `WireLaws.RecordCodesAsDeclared` | include/qiven/context/cognition.hpp:235-412 | ... those of the conflict, claim, boundary, memory, obligation and trigger kinds |
| `WireLaws.ReasonCodesAsDeclared` | include/qiven/context/cognition.hpp:193-207 | ... those of the refusal reasons |
| `WireLaws.ActionCodesAsDeclared` | include/qiven/context/cognition.hpp:274-308 | ... those of the actions and requirements |
| `WireLaws.OperationCodesAsDeclared` | include/qiven/context/persistence.hpp:271-286 | ... those of the operations |
| `WireLaws.DeltaDigestIsOver` | src/persistence.cpp:853-868 | the digest of a delta is over the fields of its operations in order, without framing |
| `WireLaws.RequestDigestIsOver` | src/persistence.cpp:877-892 | the digest of a request is over its base, the digest of its operations, the evidence pointer and the review evidence |
| `BundleLaws.FloorsExactly` | src/persistence.cpp:1795-1826 | the floors are, in order and nothing else: governance, every article, the objective, the boundary when it names an obligation, every open conflict and every active warning |
| `BundleLaws.ItemsExactly` | src/persistence.cpp:1850-1885 | considered are every decision and every active memory record that is not negative knowledge, each once and in order, under their texts |
| `BundleLaws.SelectionExactly` | src/persistence.cpp:1844-1885 | with 512 tokens by default, every item is a candidate or an omission in order, the candidates cost at most the budget at four characters a token rounded up, and no omission would fit what is left |
| `BundleLaws.ConstraintsExactly` | src/persistence.cpp:1828-1842 | the constraints are what each policy row asks for, row by row, and the two that always hold |
| `BundleLaws.ObligationsExactly` | src/persistence.cpp:1887-1908 | every obligation in order: finished work is met, blocked work unmet, the rest unknown |
| `BundleLaws.ResolvesExactly` | src/persistence.cpp:1748-1784 | an id resolves to the first view of the id if that names profiles and all of them exist, and is not found if and only if no view has it |
| `WorkerLaws.FirstRuleDecides` | src/persistence.cpp:1685-1695 | the first rule for the reason decides the recovery; without one it is to fail closed |
| `WorkerLaws.FoundingRecovery` | src/persistence.cpp:743-756 | under the founding policy each of the twelve reasons has its recovery, and the participant is told so in its words |
| `WorkerLaws.FoundingHandoff` | src/persistence.cpp:735-742 | under the founding policy every operation is governed and exactly the two that change decisions need a review |
| `WorkerLaws.SettledExactly` | src/runtime.cpp:93-147 | the session after an answer, field by field: rebound and accepted on success, else unaccepted, told what to do, with a gap only for an unknown outcome, and parked only for re-reading |
| `WorkerLaws.CycleByCases` | src/runtime.cpp:50-110 | a cycle is nothing without a handle, a note without the lease, a release without operations, and else one write of exactly the proposal under the next lease |
| `TextLaws.NormalizesByCases` | include/qiven/context/runtime.hpp:251-301 | a word stays unless it is dropped, and texts apart by a blank, a tab or a line break are normalized one by one |
| `TextLaws.ReferencesByCases` | src/persistence.cpp:1436-1460 | references are listed between commas, and empty ones do not count |
| `TextLaws.StollReads` | src/persistence.cpp:1805-1806 | white space, a sign or none, a row of digits and anything after it read as that number, refused when out of range |
| `TextLaws.StollRefuses` | src/persistence.cpp:1805-1806 | without a digit after white space and sign there is no number |
| `TextLaws.DecimalIsShortest` | src/persistence.cpp:1618 | numbers are printed without leading zeros and negative ones behind a minus sign |

## Left out

- `GitStore` and the compressed-stream source: both throw by design.
- Mutexes and atomics: every service call holds one lock and is one step; reads of immutable data are not steps.
- The hash functions, the byte cursor and the allocation observer are library code that is not part of this model; the
  hashes are parameters assumed collision-free, the little-endian decoding is written out.
- Identity verifiers other than the root-principal one, and replacing the store or the verifier in a running service.
- An unacknowledged founding append: the source asserts that the founding store call is acknowledged.
- Pointer identity is modelled by addresses that are never reused; memory management of pinned materializations is not.
- Error offsets and detail texts of refused inputs.
- GateChecks.ReachesDecision: does not run on where the recursion of the program never ends, because a method of the
  model has to end; it answers None at a depth of as many links as there are decisions, which it reaches if and only if
  the recursion of the program never ends (`Reachability.DepthSuffices`).
- GateChecks.CheckSupersede: refuses where the program never returns from its search, and never refuses anything else
  that passes the status checks with a rationale (`Reachability.GateEndsExactlyOffLoops`). What the model does not capture
  is that the program then keeps its lock; it changes nothing before that point.
- Overflow of the 64-bit token count in the bundle, which would need records of that total length.
- Rendering of bundles, turn budgets and bounded waits: presentation and clocks.
- The control plane's requirement derivation and readiness predicates, tool contracts, role lookups and
  `is_continueable`: single loops and conjunctions that would only add easy members.
