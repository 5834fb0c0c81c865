# EvidenceFlow in Dafny

EvidenceFlow lets a language model propose an invoice draft and lets ordinary code decide what may be done with it.
This project models that code, and proves that what reaches the destination is what was quoted, checked and approved:
in every run of whole service calls, and under any interleaving of writers with outages, crashes and rollbacks.

## The modules

| Module | Models | Main results |
|---|---|---|
| `Text`, `Evidence` | white space, `find_span` | a quote is found exactly when it occurs up to spacing; least start; searching again finds the same span |
| `Schema`, `Validation` | the draft, the eleven rules | accepted exactly when sound; the money tolerances add up, and the bound is tight |
| `Highlight` | `segments` | the pieces reassemble the source, each in its place |
| `Keys`, `Crm` | the two keys, the two destinations | the encodings are injective; one record for each key and, in the database, for each invoice |
| `Limits` | the sliding window | it refines the rule on the history of admissions |
| `Protocol`, `Store`, `Runs` | extraction, validation, approval and write as atomic calls | what every run keeps, end to end |
| `Answers` | the same calls, one by one | what each answers and leaves behind, by what is so before it |
| `Writers` | the write cut into its steps, any number interleaved, with the in-memory destination | what survives interleaving, and exactly when a written document's row says succeeded |
| `DatabaseWriters` | the same with the database as the destination, its records in the writers' transactions | records and succeeded rows agree, with no hypothesis |
| `Races` | other calls between a writer's checks and its call | when a writer calls for a version that no longer stands, exactly, and the runs that do it |
| `Example` | one and two documents, from the empty store | approvals and records are reached |
| `Queue`, `Leases`, `Worker` | the job table, workers with leases, the three transactions | retry bound, exclusion, backoff; a worker's run is a run of calls |

A service appears twice: in `Store` as a method that changes fields step by step as the Python code does, and in
`Protocol` as one function on the whole state. The method's postcondition says that it computes the function; `Runs`,
`Writers`, `DatabaseWriters` and `Worker` prove what the function keeps. `SoloWriterIsAtomic`, in both of the writers'
modules, ties the interleaved form back to the same function.

## What is assumed

- SHA-256 is injective. A payload hash is the draft itself (`Sha256(draft)`), an idempotency key is the pair of
  document and hash; that the digest's input determines the pair is proved (`Keys.PreimageInjective`). `spelling` in a
  draft keeps drafts apart whose canonical JSON differs while their values agree.
- Amounts are exact (`real`), as Python's 28-digit decimals are for invoices; the limiter's moments are `real` too.
- Rows are never deleted and creation times increase: a row's position is its id, and the latest row is the last.
- The clock, today's date, the provider's answer, the destination's outages and the verdict of the date pattern are
  inputs, free in every lemma. The clock is assumed not to go back where a lemma is about time (`Limits`, `Leases`).
  A clock reading may be old by the time it is used.
- A worker id names one worker. `allow_value_fallback` is off.
- A transaction is committed as a whole or leaves no trace; a statement sees what is committed; an update with a
  condition is atomic. The in-memory destination is outside of the transaction and keeps its records after a
  rollback; the database as a destination is inside. A session keeps a row as it first read it and writes back only the
  columns it changed.
- An extraction with its validation, and an approval, are one step each, in the interleaved models as well: nothing
  happens to the document between their reads and their commit. The code does not see to that on its own, since it
  asks the provider in between (app/services/extraction.py:44-89). `Races.WithdrawsWhatItLoaded` says what an extraction
  leaves of an approval that it has not loaded, and `Races.ApprovedWhileExtracting` follows it to the destination.
  Likewise a settlement of a job reads and writes the row in one step.

## Where code and documentation differ

The model follows the code.

- docs/architecture.md:172 says that there is no read-then-write anywhere. The checks before the claim are reads
  (app/services/crm_write.py:38-54); only the last transition is guarded, and the destination is called before it.
  While calls are atomic this is harmless (`Runs.CallsOnlyWhenApproved`). When they are not, an extraction in between
  leaves the destination with a version its document has left behind: `Races.InterruptedFromStart` is such a run.
  `Races.CallsMeetStandingVersions` says exactly when: a writer that has loaded an approved or written document finds
  it so at its call, under the key it calls for, if and only if no extraction came in between, or an approval of the
  same hash came after the last one.
- With the in-memory destination, the row of a written document can say failed. Two commits do it: a failed writer's
  over the row of a written document (`Races.OvertakenFromStart`), and a successful writer's that takes the document
  to written over a row which another has made failed since it was loaded (`Races.OutdoneFromStart`). There is no
  third: `Writers.SettledExactlyWhenNothingUnsettled`. With the database it does not happen
  (`DatabaseWriters.WrittenIsRecorded`).
- docs/runbook.md:99 says that a live lease is never stolen. `succeed` and `fail` do not look at who holds the lease.
  `Leases.LateSettlementBreaksExclusion` is a run with two live leases on one job; leases exclude exactly as long as
  nobody settles a job that another worker holds live (`Leases.ExclusiveExactlyWithoutTrespass`). That is not enough
  for a settled job to stay settled: `Leases.LateSettlementReopens` is a run, `Leases.SettledIsFinal` the condition.
- The guarded update of a claim does not look at `run_at`; `Leases.StaleCandidateClaimsEarly` is a claim during the
  backoff, and `Leases.ClaimsBackOff` holds whenever the update finds what the query has seen to. The worker as it
  stands does not run into it: it reclaims in the same transaction first (app/workflows/worker.py:52-56), which takes
  SQLite's write lock, and on PostgreSQL the query locks its candidates (app/workflows/queue.py:73-74). It takes a
  `claim` outside of that transaction, or a database without such locks.

## Model

| member | source | states |
|---|---|---|
| `Evidence.CollapseWhitespace` | app/domain/evidence.py:57-72 | the loop yields the collapsed text and, for each of its characters, the offset it came from |
| `Evidence.FindSpanSound` | app/domain/evidence.py:75-85 | a span cuts out a window with no white space at its ends and the quote's normal form; its line is one plus the newlines before it |
| `Evidence.FindSpanComplete` | app/domain/evidence.py:75-85 | every window that shows the quote is found; the span starts no later than the window's first visible character, and its start determines its end |
| `Evidence.FindSpanExact` | app/domain/evidence.py:75-85 | there is a span if and only if some window has the quote's non-empty normal form |
| `Evidence.FindSpanAgain` | app/domain/evidence.py:75-85 | searching for the text a span cuts out gives the same span |
| `Evidence.SameWords` | app/domain/evidence.py:57-79 | two texts have the same normal form if and only if they have the same words |
| `Evidence.FindSpanByWords` | app/domain/evidence.py:75-85 | there is a span if and only if the quote has words and some window of the source has the same |
| `Text.NewlinesCounts` | app/domain/evidence.py:85 | the line is counted by the positions that hold a newline |
| `Schema.VerifiedMeansQuoted` | app/domain/evidence.py:88-109 | the evidence is all verified exactly when the seven quotes occur in the source |
| `Schema.SevenQuotes` | app/domain/schema.py:83-88 | verified if and only if the quotes of invoice number, supplier, currency, issue date, subtotal, tax and total are each in the source |
| `Schema.ResultsByField` | app/domain/evidence.py:88-109 | each of the seven fields has one result, with the field's own quote and the place where it was found |
| `Highlight.SortedSorts` | app/api/highlight.py:14-17 | the spans are sorted by start, longer first, and none is lost or added |
| `Highlight.SortKeepsTies` | app/api/highlight.py:14-17 | fields with equal spans keep their order |
| `Highlight.Segments` | app/api/highlight.py:13-30 | the loop yields the cut that the lemmas below are about |
| `Highlight.CutReassembles` | app/api/highlight.py:18-30 | for spans in any order, overlapping or past the end, the pieces join to the source |
| `Highlight.ShownDisjoint` | app/api/highlight.py:18-27 | highlighted spans do not overlap and stand in text order |
| `Highlight.DroppedAreCovered` | app/api/highlight.py:20-21 | a span without a piece starts inside one that has a piece |
| `Highlight.PiecesInPlace` | app/api/highlight.py:18-30 | no piece is empty, and a highlighted one is preceded by exactly the source in front of its span |
| `Highlight.ShownHavePieces` | app/api/highlight.py:18-27 | every shown span has its piece |
| `Highlight.ReviewScreen` | app/api/highlight.py:13-30 | fed with a draft's evidence: all of the above at once, and each highlighted text normalises to a quote of its field |
| `Keys.IdempotencyPreimage` | app/domain/approval.py:33-37 | the loop feeds the digest the length-prefixed parts |
| `Keys.FramingReadsBack` | app/domain/approval.py:33-37 | decoding returns the parts, for any strings and any number of parts |
| `Keys.PreimageInjective` | app/domain/approval.py:33-37 | two pairs never share a pre-image by shifting the boundary between them |
| `Keys.PreimageSpelled` | app/domain/approval.py:33-37 | length, colon and part, of the document and then of the hash |
| `Keys.NormalizedSupplier` | app/domain/validation.py:85-86 | a normalised supplier holds letters and digits only |
| `Keys.NormalizeIdempotent` | app/domain/validation.py:85-86 | a normalised supplier is a fixed point |
| `Keys.JoinedInjective` | app/providers/crm.py:41-48 | the joined string determines supplier and number |
| `Keys.DestinationAgreesWithRule` | app/repositories/documents.py:85-92 | the destination's string and the validator's pair identify the same invoices |
| `Keys.SameInvoiceExactly` | app/repositories/documents.py:85-92 | with ASCII suppliers, two drafts share a key if and only if the suppliers have the same letters and digits up to case, and the numbers are equal but for white space around them |
| `Keys.NumbersTellApart` | app/repositories/documents.py:85-92 | drafts that share a key have the same number and the same normalised supplier, whatever the suppliers |
| `Keys.SpellingIgnores` | app/domain/validation.py:85-86 | spacing, punctuation and case do not count anywhere in a supplier's name |
| `Keys.SpellingTellsApart` | app/domain/validation.py:85-86 | suppliers with other letters or digits are other suppliers |
| `Keys.BeyondAscii` | app/domain/validation.py:85-86 | what other characters leave of themselves |
| `Keys.InvoiceIsNamed` | app/repositories/documents.py:85-92 | no key if and only if supplier or number is the empty string |
| `Text.StripIgnoresPadding` | app/repositories/documents.py:85-92 | white space around a number does not matter |
| `Validation.CheckLines` | app/domain/validation.py:103-114 | the loop returns the worst outcome of any line, and the numbers of exactly the lines that do not pass |
| `Validation.WorstLineAnyOrder` | app/domain/validation.py:103-114 | the outcome does not depend on the order of the lines |
| `Validation.LinesWithinTolerance` | app/domain/validation.py:79-114 | n lines of which none fails are off by at most n hundredths together |
| `Validation.MoneyCompounds` | app/domain/validation.py:79-135 | if no money rule fails, the total is off by at most 0.01 (n + 2); if all pass it is exact |
| `Validation.MoneyBoundIsTight` | app/domain/validation.py:79-135 | for every n some draft is off by all of that bound |
| `Validation.AcceptedPasses` | app/domain/validation.py:71-76 | each of the eleven rules reports once; accepted if and only if all pass |
| `Validation.MoneyRules` | app/domain/validation.py:117-135 | the two sums pass at exactly nothing, ask for review up to a hundredth, and fail beyond |
| `Validation.LineRule` | app/domain/validation.py:103-114 | one line that is off by more than a hundredth fails; all exact passes |
| `Validation.FailingRules` | app/domain/validation.py:89-200 | when each of the rules that fail a draft does, and that they never ask for a review |
| `Validation.ReviewingRules` | app/domain/validation.py:146-193 | when each of the rules that ask for a review does, and that they never fail |
| `Validation.SoundAddsUp` | app/domain/validation.py:103-135 | in a sound draft, quantities times prices plus tax equal the total |
| `Validation.AcceptedIsSound` | app/domain/validation.py:71-200 | accepted if and only if quoted, consistent, exact, in time, unambiguous and new |
| `Limits.SlidingWindow.Allows` | app/api/limits.py:23-31 | the answer and the next deques, old hits dropped |
| `Limits.LimiterRefinesHistory` | app/api/limits.py:23-31 | after any requests, refused if and only if `limit` admissions of the client lie in (now - window, now] |
| `Limits.CountCounts` | app/api/limits.py:25-28 | the rule counts the positions with moments after now - window and up to now |
| `Limits.LetThroughIsAdmitted` | app/api/limits.py:23-31 | what the limiter lets through is what the rule on the history admits |
| `Limits.EveryWindowHolds` | app/api/limits.py:18-31 | no half-open window, wherever it ends, holds more than `limit` requests of a client that the limiter let through |
| `Limits.ClientsAreIndependent` | app/api/limits.py:23-31 | a client's answers depend on its own requests alone |
| `Crm.MockCrm.CreateRecord` | app/providers/crm.py:84-94 | the call is noted, an injected failure is used up, the record of the key is returned or created |
| `Crm.DatabaseCrm.Insert` | app/providers/crm.py:50-62 | an insert succeeds exactly when neither unique constraint is violated |
| `Crm.DatabaseCrm.CreateRecord` | app/providers/crm.py:41-70 | creates, returns the record of the key, or rejects an invoice stored under another key |
| `Crm.TakenMeansRecorded` | app/providers/crm.py:41-70 | a column value is taken exactly when a record of the same invoice exists |
| `Crm.CallsDoOneOfThree` | app/providers/crm.py:41-94 | created, found or refused, decided by key, invoice and injected failures; stored records stay |
| `Crm.RefusalsAndTraces` | app/providers/crm.py:41-94 | the database only rejects; the mock notes every call and answers and uses up the first injected failure |
| `Crm.AnswersNameRecords` | app/providers/crm.py:62-94 | the answer names the record under the key, and which id a new record gets |
| `Crm.RunKeepsConsistent` | app/providers/crm.py:41-94 | over any calls: one record for each key, in the database one for each invoice, in the mock no external id twice |
| `Store.Store.Create` | app/repositories/documents.py:23-31 | the new document row |
| `Store.Store.Extract` | app/services/extraction.py:29-101 | the extraction, its events, the document's status and hash, for each answer of the provider |
| `Store.Store.Fail` | app/services/extraction.py:126-152 | a failed attempt leaves its row and event and keeps the approved hash |
| `Store.Store.RecordEvidenceEvents` | app/services/extraction.py:104-123 | one event for the verified fields, one for the rejected, where there are any |
| `Store.Store.RunValidation` | app/services/validation.py:14-47 | eleven rows, the routed status and the event |
| `Store.Store.Approve` | app/services/approval.py:20-65 | the state and the answer of `Protocol.ApproveExtraction`, of which `Answers` tells grants and refusals |
| `Store.Store.ClaimWrite` | app/repositories/documents.py:176-198 | the row under the key, inserted only if there was none |
| `Store.Store.MarkWritten` | app/repositories/documents.py:201-211 | one row is updated exactly when the document is approved under this hash |
| `Store.Store.ClaimAndCall` | app/services/crm_write.py:56-107 | claim, call and settlement, field by field, as `Answers.WritesAreTold` tells them |
| `Store.Store.Write` | app/services/crm_write.py:34-107 | the state and the answer of `Protocol.WriteApprovedRecord`, of which `Answers.WriteAnswers` gives every case |
| `Answers.CreationAnswers` | app/repositories/documents.py:23-31 | a new document is received, without an approved version |
| `Answers.ExtractionAnswers` | app/services/extraction.py:44-152 | the row says what the provider did: its error, malformed output, or the draft; a failure keeps the approved version and a success clears it |
| `Answers.ProposalsAreLogged` | app/services/extraction.py:84-123 | the trail of a proposal: verified if some quote is in the source, rejected if some is not |
| `Answers.ValidationAnswers` | app/services/validation.py:14-47 | validated if and only if the draft may be approved as things stand, else in review; eleven rows with their verdicts, one event |
| `Answers.IntakeAnswers` | app/workflows/worker.py:81-91 | the same for a proposal that is extracted and validated in one go |
| `Answers.GrantedExactlyWhen` | app/services/approval.py:28-43 | granted if and only if validated, asked for its latest extraction, and sound, in time, unambiguous and new by all rules anew |
| `Answers.RefusalsAreTold` | app/services/approval.py:28-43 | which refusal it is, and what it leaves: nothing, or a document in review with rows and event |
| `Answers.GrantsAreTold` | app/services/approval.py:45-65 | hash, approval row with the end of its time, two events |
| `Answers.WriteAnswers` | app/services/crm_write.py:34-107 | in every run, what every write answers, by the state of its document |
| `Answers.WriteAnswersRecord` | app/services/crm_write.py:88-107 | a write that succeeds answers the id of the record under the document's key, which holds the approved draft |
| `Answers.WritesAreTold` | app/services/crm_write.py:56-107 | one more attempt, the outcome in the row, two events, and no other row touched |
| `Runs.GrantChecks` | app/services/approval.py:28-51 | a granted approval found the document validated, its latest extraction sound, its date in time and unambiguous and its invoice new |
| `Runs.GrantAppendsPasses` | app/services/approval.py:35-51 | a granted approval leaves exactly eleven new rows, one for each rule, all passed |
| `Runs.RunAudited` | app/repositories/documents.py:113-167 | in every run, each approval names an extraction of its document with its hash, and the trail shows that extraction's eleven rules passed |
| `Runs.ClearedIsApproved` | app/services/crm_write.py:34-74 | no line tests that the document is approved; in every run it is when all checks pass |
| `Runs.StepKeeps` | app/services/crm_write.py:34-107 | every call, committed or rolled back, keeps the invariant |
| `Runs.RunKeeps` | app/services/crm_write.py:34-107 | the invariant holds in every run, with either destination |
| `Runs.EveryRecordIsJustified` | app/services/crm_write.py:45-74 | every record was approved for its document with all eleven rules on record as passed, its seven quotes are in the source, its currency is supported, its lines and total are exact |
| `Runs.CommittedInvoicesDiffer` | app/domain/validation.py:176-184 | committed documents are pairwise different invoices, in every run |
| `Runs.CommittedIsKnown` | app/repositories/documents.py:95-110 | the duplicate rule is given the number of every other committed document |
| `Runs.KnownExactly` | app/repositories/documents.py:95-110 | the duplicate rule is given the numbers of the other approved and written documents, and no others |
| `Runs.ApprovalBinds` | app/services/approval.py:50-51 | a committed document's hash is the hash of its latest extraction and of its latest approval |
| `Runs.CalledMeansCleared` | app/services/crm_write.py:34-74 | a call reaches the destination exactly when all checks pass |
| `Runs.CallsOnlyWhenApproved` | app/services/crm_write.py:56-107 | the destination is called only for an approved document with an unexpired approval of its hash; the zero-row guard never fires |
| `Runs.WithdrawnRefusesWrites` | app/services/crm_write.py:35-54 | without a hash, or behind a failed extraction, a write is refused and changes nothing |
| `Runs.ExtractionBlocksWrites` | app/services/extraction.py:88-143 | after any extraction, successful or not, and any calls but a new approval, every write is refused without a call |
| `Runs.ReplaysAreNoOps` | app/services/crm_write.py:38-43 | once written, every later write returns the id of the record and changes nothing, until the next extraction |
| `Runs.TrailOnlyGrows` | app/repositories/documents.py:61-82 | over any calls, rows of the trail stay as and where they are, sources and records never change |
| `Writers.RunKeeps` | app/services/crm_write.py:34-107 | the invariant holds under any interleaving of steps |
| `Writers.EveryRecordWasApproved` | app/services/crm_write.py:45-74 | each record holds the draft of its key, is sound, and was created by a writer that had found an approval of exactly that hash unexpired, whose eleven rules are on record as passed |
| `Writers.WriteRowsTellTheTruth` | app/services/crm_write.py:88-90 | a succeeded row, and any row with an external id, names the record of its key and no other |
| `Writers.WrittenIsAtDestination` | app/services/crm_write.py:92-93 | a written document's approved version is at the destination |
| `Writers.SuccessStaysUnlessOverwritten` | app/services/crm_write.py:73-86 | a succeeded row stays so if and only if the move is not the commit of a failed writer that had loaded the row as something other than failed |
| `Writers.SettledUnlessUnsettled` | app/services/crm_write.py:73-93 | one move keeps the rows of written documents succeeded if and only if it is not one of two kinds of commit |
| `Writers.SettledExactlyWhenNothingUnsettled` | app/services/crm_write.py:73-93 | throughout a run from the empty store, written documents' rows say succeeded if and only if no move is such a commit |
| `Writers.WrittenIsSettled` | app/services/crm_write.py:73-93 | in such a run, a written document has a row for its approved version, and it has succeeded |
| `Writers.ApprovalsAreSpent` | app/repositories/documents.py:201-211 | never more successful writes than approvals in a document's trail, one fewer while an approval is unspent |
| `Writers.ClaimsNeverCollide` | app/repositories/documents.py:176-198 | at most one open transaction holds a new row of a key, and none beside a committed one |
| `Writers.RecordsNeverChange` | app/providers/crm.py:84-94 | nothing that happens later changes a record |
| `Writers.SoloWriterIsAtomic` | app/services/crm_write.py:34-107 | an undisturbed writer's steps do what the whole call does |
| `Races.CommittedAfterMove` | app/services/extraction.py:88-143 | after a move a document is committed under a hash if and only if the move approved it so, or it was so before and the move did not extract it |
| `Races.CommittedExactlyWhileItStands` | app/services/extraction.py:88-143 | the same over any interleaved run |
| `Races.CallsMeetStandingVersions` | app/services/crm_write.py:34-74 | a writer goes on under the hash it loaded, and meets the document committed under it if and only if that version still stands |
| `Races.UndisturbedCallsAreApproved` | app/services/crm_write.py:34-93 | unless its document is extracted in between, a writer claims, calls and commits only while the document is approved or written under its key |
| `Races.CommitWritesExactlyWhenCommitted` | app/services/crm_write.py:88-93 | after a successful call the document is written under the key if and only if the commit finds it committed so |
| `Races.InterruptedWriterStillCalls` | app/services/crm_write.py:52-93 | an extraction between checks and call: the destination holds the superseded version, its row has succeeded, the document is extracted |
| `Races.InterruptedFromStart` | app/services/crm_write.py:52-93 | such a run from the empty store |
| `Races.OvertakenWriterOverwrites` | app/services/crm_write.py:75-77 | a writer that another has overtaken, and whose call fails: written, and the row says failed |
| `Races.OvertakenFromStart` | app/services/crm_write.py:75-77 | such a run from the empty store |
| `Races.OutdoneWriterLeavesFailure` | app/services/crm_write.py:88-93 | a success committed over a row that has failed since it was loaded: written, and the row says failed |
| `Races.OutdoneFromStart` | app/services/crm_write.py:88-93 | such a run from the empty store |
| `Races.WithdrawsWhatItLoaded` | app/services/extraction.py:44-89 | an extraction that loaded the document earlier clears the approved hash if and only if there is none or it had loaded one |
| `Races.ApprovedWhileExtracting` | app/services/crm_write.py:88-93 | a document approved while an extraction asks the provider: validated with a hash, and a write of it reaches the destination before the guard refuses it |
| `DatabaseWriters.RunKeeps` | app/providers/crm.py:30-70 | the invariant holds under any interleaving, with the record in the writer's transaction |
| `DatabaseWriters.RecordsAndRowsAgree` | app/providers/crm.py:50-62 | a key has a record if and only if its row has succeeded, and the row names the record |
| `DatabaseWriters.WrittenIsRecorded` | app/services/crm_write.py:88-93 | a written document's row has succeeded and its approved version is recorded, with no hypothesis |
| `DatabaseWriters.EveryRecordWasApproved` | app/services/crm_write.py:45-74 | each record holds its key's draft, approved for the document and sound for its source, and no two records are the same invoice |
| `DatabaseWriters.RecordedKeysAnswer` | app/providers/crm.py:60-70 | a call under a recorded key returns the record |
| `DatabaseWriters.SoloWriterIsAtomic` | app/services/crm_write.py:34-107 | an undisturbed writer's steps do what the whole call does |
| `Example.ApprovalIsReached` | app/services/approval.py:20-65 | a concrete run from the empty store to an approved document whose write is due |
| `Example.RecordIsReached` | app/services/crm_write.py:34-107 | and on to the record, in either destination |
| `Example.TwoInvoicesAreApproved` | app/services/approval.py:28-65 | a run from the empty store with two invoices of one supplier approved |
| `Queue.CandidatesAreDue` | app/workflows/queue.py:64-75 | at most ten claimable jobs, due first first, none only when there is none |
| `Queue.JobQueue.Enqueue` | app/workflows/queue.py:23-39 | the new job row |
| `Queue.JobQueue.TryTake` | app/workflows/queue.py:45-59 | the guarded update and its row count |
| `Queue.JobQueue.Claim` | app/workflows/queue.py:42-61 | with nobody else at the table, the job due first is taken, or there is none |
| `Queue.JobQueue.Succeed` | app/workflows/queue.py:78-85 | finished, lease released |
| `Queue.JobQueue.Fail` | app/workflows/queue.py:88-105 | permanent, exhausted or put back after the backoff |
| `Queue.JobQueue.ReclaimExpired` | app/workflows/queue.py:108-116 | exactly the running jobs whose lease has expired are put back |
| `Queue.FailuresAreTold` | app/workflows/queue.py:88-105 | put back exactly for a timeout or an outage with an attempt left; otherwise permanent or exhausted |
| `Queue.BackoffDoubles` | app/domain/jobs.py:44-45 | two seconds at first, and twice as long each time |
| `Queue.LeasesEnd` | app/workflows/queue.py:42-61 | a claimed job can be taken and reclaimed exactly from the end of its lease on |
| `Queue.WithoutLease` | app/workflows/queue.py:64-75 | a pending job without a lease can be taken, a settled one never |
| `Queue.SuccessIsTold` | app/workflows/queue.py:78-85 | what a success clears and what it keeps |
| `Leases.ClaimsAreBounded` | app/workflows/queue.py:42-116 | attempts count the claims, at most the budget and one for each expired lease taken over, fewer while pending |
| `Leases.ClaimsAreALeaseApart` | app/workflows/queue.py:42-75 | a claim with no settlement since the one before comes at least one lease after the moment at which that one read the clock |
| `Leases.ExclusiveUnlessTrespass` | app/workflows/queue.py:42-116 | a move keeps exclusion if and only if it does not settle a job that another worker holds live |
| `Leases.ExclusiveExactlyWithoutTrespass` | app/workflows/queue.py:42-116 | from the empty table, leases exclude throughout a run if and only if nobody trespasses in it |
| `Leases.AtMostOneLiveLease` | app/workflows/queue.py:42-116 | in runs without trespass, one worker at most holds a live lease on a job |
| `Leases.TimelyIsNoTrespass` | app/workflows/queue.py:78-105 | settling before the own lease has ended is enough |
| `Leases.LateSettlementBreaksExclusion` | app/workflows/queue.py:88-105 | with one late settlement, two workers hold live leases on a job |
| `Leases.LateSettlementReopens` | app/workflows/queue.py:88-105 | a run without trespass after which a late settlement puts a succeeded job back to pending |
| `Leases.SettledStaysUnlessOverruled` | app/workflows/queue.py:78-105 | a settled job changes if and only if a worker that took it settles it again, to something else |
| `Leases.SettledIsFinal` | app/workflows/queue.py:78-116 | a settled job stays as it is throughout a run if and only if nobody does that |
| `Leases.TimelyRunIsFinal` | app/workflows/queue.py:78-116 | in runs without late settlements it stays as it is |
| `Leases.ClaimsBackOff` | app/domain/jobs.py:44-45 | in any interleaving in which no update takes this job before its `run_at`, and with none of its leases taken over, its n-th claim comes no earlier than base (2^(n-1) - 1) after its first run time |
| `Leases.AtomicClaimsBackOff` | app/workflows/queue.py:42-61 | with query and update in one step, that holds without further condition |
| `Leases.StaleCandidateClaimsEarly` | app/workflows/queue.py:45-59 | with a claim that is not atomic, a job is claimed during its backoff |
| `Worker.Worker.ClaimJob` | app/workflows/worker.py:52-56 | expired leases are reclaimed, then the job due first is taken |
| `Worker.Worker.DispatchJob` | app/workflows/worker.py:76-98 | what each kind of job does, and the failure it returns, which the lemmas on extraction, write and stray jobs tell |
| `Worker.Worker.RunOnce` | app/workflows/worker.py:38-50 | one job is claimed, dispatched and settled; what dispatch commits stays when the job fails; at a table of one job this is `RoundOn` |
| `Worker.Worker.Drain` | app/workflows/worker.py:70-74 | rounds, each on what the one before has left, up to the limit or until nothing is claimable; the invariant of all runs holds throughout |
| `Worker.DispatchIsACall` | app/workflows/worker.py:76-98 | a dispatch is one service call or nothing |
| `Worker.DispatchKeeps` | app/workflows/worker.py:76-98 | a dispatch keeps the invariant of all runs |
| `Worker.WriteOutcomes` | app/services/crm_write.py:34-107 | a write returns a record exactly when the document is written afterwards |
| `Worker.WriteJobsTellTheTruth` | app/workflows/worker.py:76-98 | a write job succeeds exactly when its document is written; it is retried only after an outage, and the retry finds the approval as it was |
| `Worker.ExtractJobsTellTheTruth` | app/workflows/worker.py:80-91 | an extraction job succeeds exactly when the latest extraction has a draft, and is put back exactly when the provider timed out and an attempt is left |
| `Worker.StrayJobsFail` | app/workflows/worker.py:76-98 | a job of no known type or document fails for good |
| `Worker.OutagesAreOutlasted` | app/workflows/worker.py:38-50 | k outages, more than k attempts left and an approval that lasts: k + 1 rounds leave the document written, the job succeeded and one record under its key |

## Left out

- HTTP routes, templates, middleware, configuration, migrations, the OpenAI and fake providers, demos, the evaluation
  harness and the cost model.
- SQL, savepoints, dialect locking and `skip_locked`: rows, guarded updates, unique constraints, commit and rollback
  are modelled, and an insert of a key that an open transaction has inserted waits for that transaction.
- Messages, actors, timestamps and payloads of rows and events, usage and request columns of extractions, and the
  messages of rule results except the line numbers.
- The value fallback, which gives up the quote guarantee on purpose.
- Parsing of drafts and dates, and the pattern behind `issue_date_unambiguous`, whose verdict is an input.
- Rounding of decimals and floats, the 28-digit context, time zones and `timedelta` precision.
- Interleaved approvals of two documents, which nothing in the code orders, and extractions cut at the provider call:
  both are one step everywhere.
- `run_forever`, `run_in_background`, `review_queue` and `lease_is_live`; progress of workers under fairness.
- Writers.EveryRecordWasApproved: says that the approval was unexpired when the writer checked, not when the
  destination was called; the code reads the clock once.
- Leases.ClaimsAreALeaseApart: counts the lease from the moment at which the first claim read the clock, which may lie
  before its update; two guarded updates can be closer to each other than one lease.
- Worker.OutagesAreOutlasted: speaks of a table with this one job.
- Crm.DatabaseCrm.CreateRecord: the external id stands for the head of the key's digest with the whole key, so
  collisions of the head are not modelled.
