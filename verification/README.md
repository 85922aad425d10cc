# A verified model of an e-invoicing service

This project models the parts of the service whose correctness spans many calls and many
processes, and proves what they guarantee. Integers are unbounded, as the `bigint`s of the service
are; times are integers (milliseconds); the rate limiter's floats are reals.

**The transmission protocol.** An issued invoice becomes a row of a queue; workers claim rows under
a lease, hand the sealed document to a platform that is idempotent on a key, and record success or
back off; pollers feed lifecycle statuses back under a lagging cursor.

- `Lifecycle.dfy`: the vocabulary of statuses and the ranking that keeps an invoice's state monotone.
- `Pdp.dfy`: the protocol as a state machine. Each transaction, each statement or read outside one,
  each platform call and each crash is one step, so runs cover every interleaving of enqueues,
  sweeps, workers (including ones that outlive their lease), lost replies, commits nobody heard of,
  manual retries, platform switches and polls.
- `PdpSafety.dfy`, `PdpProgress.dfy`, `PdpStates.dfy`, `PdpConnections.dfy`, `PdpCursor.dfy`, `PdpLease.dfy`, `Sweep.dfy`: what every run keeps.
- `TransmissionSpec.dfy` and `TransmissionService.dfy`, `PdpSync.dfy`, `Sandbox.dfy`, `Issuance.dfy`:
  the services as classes. Each method states its whole effect. In `TransmissionService` and `PdpSync` a
  ghost trace shows that the call is a run of the state machine; a send to the in-memory platform is
  shown to be the machine's send step; `Issuance` keeps an invariant of its own.
- `SandboxRun.dfy`: a run of the state machine with the in-memory platform.

**Exact money.** Scaled-integer decimals, totals derived from lines, the CII document written and
read back, the independent checker, and the pre-flight check of a draft.

- `Money.dfy`, `DecimalText.dfy`, `Seqs.dfy`: decimals, their text, and reorderings.
- `Draft.dfy`, `Compute.dfy`, `ComputeLaws.dfy`, `Invoicing.dfy`: the derived totals, and what each owes to
  the texts of the draft.
- `XmlText.dfy`, `CiiTree.dfy`, `XmlRender.dfy`, `Cii.dfy`, `CiiDraft.dfy`, `CiiText.dfy`: escaping, the parser's view
  of a tree, trees as text, the document, and the whole way from a draft to text and back.
- `Checks.dfy`, `FrenchRates.dfy`, `CheckDraft.dfy`, `CheckDraftLaws.dfy`, `CheckedIssues.dfy`: the
  checker and the pre-flight check.

**Smaller cores.** `Iban.dfy`, `IbanText.dfy` and `Identifiers.dfy` (check digits), `RateLimit.dfy` (token bucket),
`Sessions.dfy`, `CredentialTokens.dfy` (one-time links), `Archive.dfy` (content-addressed archive).

## What is assumed of the outside

A platform answers a known key with its first receipt and never mints one identifier for two
documents. Unique constraints and transactions hold as the database declares them. Clocks are
arbitrary in the protocol's main theorems; only the lemmas about leases ask that they agree.

## What turned out not to hold

The lemmas named give a concrete input, the exact condition under which the code does what was
expected, or both.

- A SENT row can go back to PENDING: a worker that outlives its lease does it
  (`PdpLease.StaleWorkerReverts`), and so does a worker alone and within its lease when its commit goes
  through unheard (`PdpLease.UnheardCommitReverts`). In any run a step takes a sent row back exactly when
  it records a failure on it or requeues it (`PdpLease.OnlyStaleWritesRevert`), and a failure that does
  so overwrites a row that has changed since it was claimed (`PdpLease.RevertedRowHasMoved`). The
  invoice still has at most one document.
- A published status can be lost. It is safe with a connection exactly when it has been dealt with, is
  older than the connection's coverage, or the cursor and every poll in progress are short of it or
  about to read it; otherwise some continuation passes it by for good (`PdpCursor.StatusIsKeptIff`,
  `PdpCursor.LateStatusIsNeverRead`). For a status just being published that is a condition on its
  timestamp (`PdpCursor.PublishedIsKeptIff`), which one later than all before it always meets
  (`PdpCursor.CursorNeverSkips`). The in-memory platform breaks it, because it dates a delivery one
  second ahead (`SandboxRun.SandboxStampsLoseAStatus`).
- The documentation says six attempts; the counter starts at 1 when a row is created and at 0 after a
  retry, so a row parks at its sixth failure in the first case and its seventh in the second
  (`PdpLease.BackoffIsBounded`, `PdpLease.FailureParksAtTheEnd`).
- An accepted draft with a standard rate below 0.005 percent is emitted at 0.00, which rule BR-S-05
  forbids (`CheckDraftLaws.TinyRateIsEmittedAsZero`, `CheckDraftLaws.StandardRatesPositiveIff`).
- The warning about several reasons is there to ensure that the lines of a VAT group agree on one, but it
  compares rates as they were typed: two lines at `0` and `0.00` may disagree without a word
  (`CheckDraftLaws.TwoReasonsAreNotNoticed`, `CheckDraftLaws.GroupsAgreeIff`).
- Swapping a digit with a neighbouring letter worth eleven times as much (1B, 2M, 3X) goes unnoticed
  in an account number (`Iban.SwapIsCaughtIff`).
- One wrong digit in a SIRET can go unnoticed: within La Poste's range when the digits differ by five,
  and across its border when the other rule's sum comes out right
  (`Identifiers.SiretCatchesOneChange`, `Identifiers.SiretSlipPasses`).
- Password resets issue links outside a transaction, so two can be live at once
  (`CredentialTokens.OverlappingIssuesLeaveTwo`). All through a run one link of each kind is live at most
  exactly when no insert finds another (`CredentialTokens.AlwaysOneLiveIff`), and one it finds was made
  after that issue's own update (`CredentialTokens.ClashCameLater`).
- The La Poste exception for a SIREN admits nothing the Luhn rule does not (`Identifiers.SirenIsLuhn`).

## Model

| member | source | states |
|---|---|---|
| PdpSafety.AtMostOneDocument | apps/api/src/pdp/transmission.service.ts:175-233 | in every run, an invoice has at most one row and at most one document over all platforms; that document stands under its row's platform and key, and an identifier on the row is the one the document was accepted under |
| PdpSafety.OneDocumentForever | apps/api/src/pdp/transmission.service.ts:323-338 | whatever is tried later, an invoice's document and its receipt stay the first ones |
| PdpSafety.StatusMatchesOneRow | apps/api/src/pdp/pdp-sync.service.ts:156-159 | an identifier reported by a connection names at most one row, so a status cannot be filed under another invoice |
| PdpSafety.StepKeepsInv | apps/api/src/pdp/transmission.service.ts:175-579 | every step of every process keeps the invariant the main theorem rests on, and takes back nothing already recorded |
| PdpSafety.RunExtends | apps/api/src/pdp/transmission.service.ts:430-478 | over whole runs, rows keep invoice, connection and key, recorded identifiers and receipts are never rewritten, and history only grows |
| PdpProgress.StateIsFurthest | apps/api/src/pdp/lifecycle.ts:183-212 | in every run, an issued invoice's state is exactly the furthest of VALIDATED, QUEUED when it has a row, and what its recorded statuses imply |
| PdpProgress.SameHistorySameState | apps/api/src/pdp/pdp-sync.service.ts:194-224 | two runs that recorded the same codes show the same state, whatever the order and repetition |
| PdpProgress.StateNeverRegresses | apps/api/src/pdp/transmission.service.ts:194-198 | no continuation of any run moves an issued invoice backwards, stale reads of enqueue included |
| PdpProgress.InsertFindsValidated | apps/api/src/pdp/transmission.service.ts:183-198 | an insert the unique key lets through finds the invoice VALIDATED, so the state it read earlier was not stale |
| PdpConnections.AtMostOneActiveConnection | apps/api/src/pdp/pdp.controller.ts:154-190 | in every run a client has one connection to a platform at most, and one active connection at most |
| PdpConnections.RowsGoOverOwnConnections | apps/api/src/pdp/transmission.service.ts:168-190 | in every run a row is sent over a connection of its invoice's own client |
| PdpConnections.TheActiveConnection | apps/api/src/pdp/transmission.service.ts:168-173 | the connection an enqueue finds is that client's one active connection |
| PdpConnections.SavedConnection | apps/api/src/pdp/pdp.controller.ts:154-190 | saving sets the connection's activity, keeps its cursor, switches the client's others off if it is on, and touches nothing else |
| PdpCursor.CursorNeverSkips | apps/api/src/pdp/pdp-sync.service.ts:135-191 | with crashes anywhere and any number of concurrent polls, every status published later than all before it, after the cold-start point and at or before the cursor, is recorded or was logged as matching no row |
| PdpCursor.StatusIsKeptIff | apps/api/src/pdp/pdp-sync.service.ts:135-191 | at any moment of any run, a published status is passed by undealt with in no continuation if and only if it has been dealt with, is older than the coverage, or the cursor and every poll in progress stop short of it or have it still to read; otherwise some continuation passes it by for good |
| PdpCursor.PublishedIsKeptIff | apps/api/src/pdp/pdp-sync.service.ts:137-151 | a status about to be published is safe with a connection exactly when its timestamp still lies ahead of the cursor and of every poll in progress |
| PdpCursor.LateStatusIsNeverRead | apps/api/src/pdp/pdp-sync.service.ts:137-151 | a status whose timestamp the cursor and the polls in progress have passed is in no continuation among what a poll of that connection reads |
| SandboxRun.SandboxStampsLoseAStatus | apps/api/src/pdp/providers/sandbox.provider.ts:38-65 | a reachable run with two sends half a second apart, in which the delivery of the first, dated one second ahead, moves the cursor past the deposit of the second, lost for good |
| PdpLease.OneAttemptInFlight | apps/api/src/pdp/transmission.service.ts:280-298 | when attempts act within their lease and hear what they commit, and only parked rows are retried, each row has at most one attempt in flight and is still waiting to be sent |
| PdpLease.NamedExactlyWhenSent | apps/api/src/pdp/transmission.service.ts:437-450 | under that discipline a row carries an identifier exactly while SENT or ACKNOWLEDGED |
| PdpLease.SentNeverReverts | apps/api/src/pdp/transmission.service.ts:485-549 | under that discipline no continuation takes a row back from SENT, or from ACKNOWLEDGED to SENT |
| PdpLease.OnlyStaleWritesRevert | apps/api/src/pdp/transmission.service.ts:502-577 | in any run at all, a step takes a sent row back exactly when it records a failure on it or requeues it |
| PdpLease.RevertedRowHasMoved | apps/api/src/pdp/transmission.service.ts:502-515 | in any run, a failure record that takes a sent row back overwrites a row that is no longer what its worker claimed, which was PENDING |
| PdpLease.StaleWorkerReverts | apps/api/src/pdp/transmission.service.ts:502-515 | a reachable run in which a worker past its lease puts a SENT row back to PENDING, the platform still holding one document |
| PdpLease.UnheardCommitReverts | apps/api/src/pdp/transmission.service.ts:323-338 | a reachable run in which the only worker, within its lease, puts its own SENT row back to PENDING, the news of its commit being lost |
| PdpLease.BackoffIsBounded | apps/api/src/pdp/transmission.service.ts:52-62 | since it was last queued a row backs off at most six times after a retry (9750 to 9924 seconds in all) and five after an enqueue (9720 to 9865) |
| PdpLease.FailureParksAtTheEnd | apps/api/src/pdp/transmission.service.ts:490-512 | a recorded failure parks the row exactly when it is permanent or the schedule is used up |
| PdpLease.MatchedIsSent | apps/api/src/pdp/pdp-sync.service.ts:234-241 | under the discipline a status only ever matches a sent row, so the rejection branch parks nothing |
| Lifecycle.ReplayIgnoresOrderAndRepeats | apps/api/src/pdp/lifecycle.ts:201-212 | the state after a stream of statuses depends only on which codes occurred |
| Lifecycle.ReplayIsFurthest | apps/api/src/pdp/lifecycle.ts:183-212 | that state is reached by one of the codes or the start, and nothing implied ranks above it |
| Lifecycle.FurthestIsStateAfter | apps/api/src/pdp/lifecycle.ts:60-160 | a furthest state is the one the codes name: REJECTED exactly on REJETEE or REFUSEE, else DELIVERED exactly on one of the four delivery codes, else TRANSMITTED exactly on DEPOSEE or PRISE_EN_CHARGE, else where the invoice stood |
| Lifecycle.AdvancedIsStateAfter | apps/api/src/pdp/lifecycle.ts:183-198 | one status takes an invoice exactly where that reference says, and the four payment and suspension codes take it nowhere |
| PdpStates.StateIsWhatCodesSay | apps/api/src/pdp/lifecycle.ts:60-212 | in every run, an issued invoice is REJECTED, DELIVERED or TRANSMITTED exactly when its recorded codes say so, and otherwise QUEUED or VALIDATED as it has a row or not |
| PdpStates.AcknowledgedIsDelivered | apps/api/src/pdp/pdp-sync.service.ts:234-243 | in every run, an ACKNOWLEDGED row has a delivery code on record and its invoice is DELIVERED or REJECTED |
| Sweep.NothingIsLost | apps/api/src/invoicing/issuance.service.ts:214-319 | whatever crashed, an issued invoice has something sealed to send, and either waits as VALIDATED without a row or has exactly one row |
| Sweep.SweepDrains | apps/api/src/pdp/transmission.service.ts:246-270 | a backlog of n is gone after ceil(n / limit) passes as long as nothing is added to it |
| Sweep.SweptSize | apps/api/src/pdp/transmission.service.ts:246-270 | one pass takes exactly min(limit, n) invoices off a backlog of n |
| TransmissionSpec.EnqueueIsIdempotent | apps/api/src/pdp/transmission.service.ts:175-233 | enqueueing again, whatever has happened since, changes nothing; it names the same row, or is refused exactly when the client has no active connection left |
| TransmissionSpec.ClaimsAreDisjoint | apps/api/src/pdp/transmission.service.ts:280-298 | a claimed row is claimed again within the lease time only if a failure was recorded on it or it was requeued in between |
| TransmissionSpec.BackoffIsHonoured | apps/api/src/pdp/transmission.service.ts:280-298 | a row rescheduled by a failed attempt begun at t is claimed, in any continuation, by no clock reading before t plus 30, 120, 600, 1800 or 3600 seconds, as its counter says, unless it is requeued or another failure is recorded on it |
| TransmissionSpec.FailureReschedules | apps/api/src/pdp/transmission.service.ts:490-512 | a recorded failure releases the row and parks it, or makes it due again after that wait and less than half a minute more |
| TransmissionSpec.KeyIsOfHandover | apps/api/src/pdp/transmission.service.ts:152-181 | the deduplication key of a row is of the sealed PDF handed over, or of the XML where no PDF is sealed |
| TransmissionSpec.LostReplyIsRecovered | apps/api/src/pdp/transmission.service.ts:323-338 | after a lost reply, whatever happens in between, a later success of the row records the identifier minted the first time and creates no second document |
| TransmissionSpec.OutcomesAddUp | apps/api/src/pdp/transmission.service.ts:301-315 | every claimed row is counted once, as sent, failed or parked |
| TransmissionService.Service.Enqueue | apps/api/src/pdp/transmission.service.ts:121-233 | each refusal in order, the row already there, or one new row towards an active connection of the invoice's client with QUEUED only from VALIDATED or DRAFT; nothing else moves |
| TransmissionService.Service.Candidates | apps/api/src/pdp/transmission.service.ts:247-256 | the limit oldest of the issued, VALIDATED, connected invoices without a row, oldest first |
| TransmissionService.Service.EnqueuePending | apps/api/src/pdp/transmission.service.ts:246-270 | queues min(limit, backlog) invoices, exactly those candidates, none failing |
| TransmissionService.Service.Claim | apps/api/src/pdp/transmission.service.ts:280-298 | stamps min(limit, backlog) rows, each PENDING, past its next attempt and unclaimed or claimed over five minutes ago, those longest due first, passing none over, and changes nothing else |
| TransmissionService.Service.Attempt | apps/api/src/pdp/transmission.service.ts:323-338 | the whole new state after a delivered, lost, failed or refused send, and the outcome, stale snapshots included |
| TransmissionService.Service.RecordSent | apps/api/src/pdp/transmission.service.ts:430-478 | row, history and invoice after a success, under the receipt the platform holds |
| TransmissionService.Service.RecordFailure | apps/api/src/pdp/transmission.service.ts:485-549 | row and history after a failure: parked, or rescheduled with the delay of the attempt that failed |
| TransmissionService.Service.Drain | apps/api/src/pdp/transmission.service.ts:301-315 | each claimed row meets its own answer, no other row moves, and the report counts exactly those outcomes |
| TransmissionService.Service.Retry | apps/api/src/pdp/transmission.service.ts:556-579 | an unknown or sent row is refused; any other is due at once with counter 0, its key, connection and identifier unchanged |
| PdpSync.SyncService.PollStatuses | apps/api/src/pdp/pdp-sync.service.ts:135-191 | reading from the cursor or from a day ago, every reported status is recorded once or counted unmatched, rows close on delivery and rejection codes and invoices stand where the new codes say, and the cursor is at the newest |
| PdpSync.SyncService.ApplyStatus | apps/api/src/pdp/pdp-sync.service.ts:194-245 | a repeat changes nothing; a first sight is recorded and moves invoice and row together to what its code says |
| PdpSync.AppliedNew | apps/api/src/pdp/pdp-sync.service.ts:198-243 | a first-seen status leaves each row closed and each invoice advanced exactly as all the new codes naming it demand |
| PdpSync.AppliedSeen | apps/api/src/pdp/pdp-sync.service.ts:213-215 | a status already on record leaves everything as the earlier statuses did |
| PdpSync.SortedIsSorted | apps/api/src/pdp/pdp-sync.service.ts:145-147 | the statuses are worked through oldest first, none added or dropped |
| Sandbox.SandboxProvider.Transmit | apps/api/src/pdp/providers/sandbox.provider.ts:38-65 | a known key returns its first result and changes nothing; a new one is remembered and announced twice |
| Sandbox.SandboxProvider.FetchStatuses | apps/api/src/pdp/providers/sandbox.provider.ts:71-73 | all and only the statuses later than the given moment |
| Sandbox.SandboxIsAPlatform | apps/api/src/pdp/providers/sandbox.provider.ts:38-65 | a send answered by the sandbox is the protocol's send step, with the same receipt and documents |
| Issuance.IssuanceService.Persist | apps/api/src/invoicing/issuance.service.ts:214-319 | whatever the outcome, an invoice exists only with both renditions sealed and readable, numbers stay unique per client, an interrupted issue leaves no row, and a finished one adds exactly the rows of its PDF and its XML, one if they are one content |
| Issuance.IssuanceService.SealIn | apps/api/src/archiving/archiving.service.ts:75-114 | a seal inside a transaction stores the bytes at once and adds at most one row to the transaction's view |
| Money.ComputePow10 | packages/facturx/src/money.ts:62-66 | the loop computes the power of ten |
| Money.RescaleDownIsNearest | packages/facturx/src/money.ts:75-91 | rounding errs by at most half a unit, and at exactly half it goes away from zero |
| Money.RescaleIsClosest | packages/facturx/src/money.ts:75-91 | no other decimal at the target scale is closer |
| Money.RescaleIsOdd | packages/facturx/src/money.ts:75-91 | rounding the negation is negating the rounding |
| Money.RescaleIsMonotone | packages/facturx/src/money.ts:75-91 | rounding never changes the order of two amounts, whatever their scales |
| Money.RescaleUpIsExact | packages/facturx/src/money.ts:78-80 | raising the scale keeps the value |
| Money.RescaleUpIsUndone | packages/facturx/src/money.ts:75-91 | scaling up and back down is the identity |
| Money.RescaleIgnoresTrailingZeros | packages/facturx/src/money.ts:75-91 | scaling up first never changes where an amount rounds |
| Money.NearestIsUnique | packages/facturx/src/money.ts:82-90 | at most one integer is nearest with ties away from zero |
| Money.AddIsExact | packages/facturx/src/money.ts:94-107 | sums and differences are exact at any scales |
| Money.MultiplyIsExact | packages/facturx/src/money.ts:109-111 | products are exact |
| Money.CompareIsExact | packages/facturx/src/money.ts:118-123 | comparison is comparison of the values |
| Money.MonetarySum | packages/facturx/src/money.ts:114-116 | amounts in cents sum exactly to cents, the empty list to 0.00 |
| DecimalText.ParsesExactly | packages/facturx/src/money.ts:24-58 | parsing accepts exactly the texts of the pattern, and reads all their digits at the scale of the fraction |
| DecimalText.FormatParses | packages/facturx/src/money.ts:153-160 | writing any decimal and parsing it gives back value and scale |
| DecimalText.CanonicalIff | packages/facturx/src/money.ts:153-160 | the texts written are exactly the canonical ones |
| DecimalText.CanonicalFormParsesTheSame | packages/facturx/src/money.ts:39-58 | whatever was parsed, its canonical form parses to the same decimal |
| Invoicing.ComputeInvoice | packages/facturx/src/generate/compute.ts:140-196 | the result is grouping by definition; each line's quantity, price and rate are what the draft's texts say, each net and VAT amount the nearest cent, the prepayment the nearest cent to the text stated and 0.00 where none is, the amount due the grand total less it; an error names the first unreadable amount |
| Invoicing.ComputedMeans | packages/facturx/src/generate/compute.ts:112-193 | the same of every draft that computes: lines, groups with their basis, VAT and reason, totals |
| Invoicing.FailureMeans | packages/facturx/src/generate/compute.ts:42-48 | a draft computes exactly when every amount in it is readable, and is otherwise refused for the first that is not |
| Invoicing.OneNearestCent | packages/facturx/src/money.ts:75-91 | there is one nearest cent only |
| Invoicing.GroupLines | packages/facturx/src/generate/compute.ts:143-154 | the insertion-ordered map holds each key in order of first appearance with exactly its lines in order |
| Compute.KeysAreDistinct | packages/facturx/src/generate/compute.ts:145-154 | there is exactly one group for each pair of category and two-decimal rate on the invoice |
| ComputeLaws.GroupsPartition | packages/facturx/src/generate/compute.ts:145-154 | every line is in the group of its own key as often as on the invoice, and in no other |
| ComputeLaws.KeysFollowFirstAppearance | packages/facturx/src/generate/compute.ts:143-154 | groups come in the order in which their keys first appear |
| ComputeLaws.TotalsAddUp | packages/facturx/src/generate/compute.ts:156-193 | totals are exact to the cent, the bases add up to the line total, and the chain to the amount due holds |
| ComputeLaws.OrderOfLinesDoesNotMatter | packages/facturx/src/generate/compute.ts:140-196 | permuting the lines permutes the groups, keeps each one's amounts, and changes no total |
| ComputeLaws.RoundingIsBounded | packages/facturx/src/generate/compute.ts:105-131 | the line total is within half a cent a line, and the VAT total within half a cent a group, of the exact sums |
| ComputeLaws.LineTotalIsWithinHalfCents | packages/facturx/src/generate/compute.ts:115-131 | n rounded lines sum to within n half-cents of quantity times price |
| ComputeLaws.TaxTotalIsWithinHalfCents | packages/facturx/src/generate/compute.ts:105-108 | g rounded groups sum to within g half-cents of basis times rate |
| XmlText.EscapeIsOnePass | packages/facturx/src/generate/xml.ts:46-52 | successive replacements equal one look at each character, for text and for attribute values |
| XmlText.DecodeUndoesEscape | packages/facturx/src/generate/xml.ts:46-52 | entity decoding (section 2.4 of XML 1.0) gives back what was escaped |
| XmlText.EscapedIsInert | packages/facturx/src/generate/xml.ts:46-52 | no escaped text opens a tag, and no escaped value closes its quotes |
| XmlText.SanitiseIsClean | packages/facturx/src/generate/xml.ts:61-64 | nothing unrepresentable is left, and cleaning again changes nothing |
| CiiTree.ArrayOfElement | packages/facturx/src/extract/cii.ts:164-173 | normalising to an array undoes the collapse of a repeatable element, for none, one or many |
| CiiTree.WalkPath | packages/facturx/src/extract/cii.ts:155-162 | the early-leaving loop reads the same as following the whole path |
| Cii.LineReadsBack | packages/facturx/src/generate/cii.ts:104-133 | a written line reads back with its id, name, quantity, unit, price, net amount, two-decimal rate and the code S, Z, E, AE, K or G of its category |
| Cii.GroupReadsBack | packages/facturx/src/generate/cii.ts:142-151 | a written VAT group reads back whole, under the code of its category and of type VAT, its reason exactly when it has one |
| Cii.TotalsReadBack | packages/facturx/src/generate/cii.ts:239-250 | the written totals read back, the prepaid amount exactly when it is not zero |
| XmlRender.RenderNode | packages/facturx/src/generate/xml.ts:73-93 | the recursive writer pushes exactly the lines of the tree, indented, after those it was handed |
| XmlRender.RenderXml | packages/facturx/src/generate/xml.ts:96-100 | the declaration and then the lines of the tree, each ended by a line feed |
| XmlRender.RenderReads | packages/facturx/src/generate/xml.ts:73-100 | for any legal and distinct names, reading the rendered text by the grammar of XML 1.0 gives back the tree, cleaned of what a document cannot carry |
| XmlRender.RenderTellsApart | packages/facturx/src/generate/xml.ts:73-100 | two trees with the same text differ at most in such characters |
| Cii.DocumentReadsBack | packages/facturx/src/extract/cii.ts:257-390 | serialising the transaction and reading it is the identity on all lines, groups and totals, in order, whatever stands around them |
| Cii.CategoryIsRead | packages/facturx/src/generate/cii.ts:125-148 | a reader of those codes gets back the category itself |
| CiiDraft.DocumentTellsTheDraft | packages/facturx/src/generate/cii.ts:104-133 | reading the document of a draft gives, line by line, the number k + 1 in decimal, the draft's own quantity, price and category, their product to the cent and the rate to the cent |
| CiiDraft.DocumentTellsTheGroups | packages/facturx/src/generate/cii.ts:142-151 | and each VAT group with its own category, basis, VAT, rate and reason |
| CiiText.TextReadsBack | packages/facturx/src/extract/cii.ts:329-390 | the text of a document, declaration and root element included, reads back with all lines, groups and totals, in order |
| CiiText.TextTellsTheDraft | packages/facturx/src/extract/cii.ts:329-390 | the text of a draft's document tells its reader the same |
| CiiText.GeneratedTextPasses | packages/facturx/src/checks.ts:132-282 | whatever draft computes, the text of its document, declaration and root element included, passes every check, under every profile |
| Checks.GeneratedDocumentPasses | packages/facturx/src/checks.ts:132-282 | whatever draft computes, its document written out and read back passes every check, under every profile |
| Checks.CheckerMeans | packages/facturx/src/checks.ts:132-282 | for any document at any scales, each of the five checks and each per-rate check passes exactly when a side is missing or both round to the same cent, the expected basis being line total less allowance plus charge, the expected amount due grand total less prepayment |
| Checks.ChecksInCents | packages/facturx/src/checks.ts:136-221 | on a document in cents, all checks pass exactly when the equations hold, allowance and charge included, an absent one counting as zero |
| Checks.TamperingIsCaught | packages/facturx/src/checks.ts:132-282 | one line amount, group tax or total of a generated document altered, allowance and charge included, passes only if it is the prepayment or the amount due under the profile that states no prepayment |
| Checks.CheckerAgreesOnVat | packages/facturx/src/checks.ts:239-245 | the checker's way of applying a rate is the generator's |
| Checks.MiscountedLineIsSuspect | packages/facturx/src/checks.ts:300-316 | a line left out of the declared total, or counted twice, is among the suspects |
| Checks.SuspectIff | packages/facturx/src/checks.ts:300-316 | a line is suspected exactly when its amount is, to the cent, the gap between the lines and the declared total |
| CheckDraft.Check | packages/facturx/src/generate/check-draft.ts:512-548 | given what the checks of header and parties report, all problems in order, totals looked at only when nothing else is wrong |
| CheckDraft.CheckLines | packages/facturx/src/generate/check-draft.ts:210-338 | the errors and warnings of every line in order, the missing delivery country, and each key under which several reasons were given, in order of first appearance |
| CheckDraft.CheckVatCoherence | packages/facturx/src/generate/check-draft.ts:340-396 | one line's category, rate and reason draw an error exactly when the rate is not zero where it must be, not positive where it must be, or a required reason is blank; the warnings on a reason under Z and on a rate that is none of France's follow the values alone |
| CheckDraft.CheckQuantity | packages/facturx/src/generate/check-draft.ts:260-274 | an unreadable quantity is an error, one worth zero a warning |
| CheckedIssues.IssuesAreDeserved | packages/facturx/src/generate/check-draft.ts:210-548 | every issue of a check and no other, each by the value and category it is raised for: on the lines, on the draft, and on the totals where nothing before is an error |
| CheckedIssues.LineIssuesAre | packages/facturx/src/generate/check-draft.ts:223-396 | every issue of one line and no other |
| CheckedIssues.ReasonIssuesAre | packages/facturx/src/generate/check-draft.ts:221-337 | the warning of several reasons names the category and the reason of the first line to give one under that spelling of the rate |
| FrenchRates.IsFrenchIff | packages/facturx/src/generate/check-draft.ts:53-54 | comparing texts after stripping zeros recognises a rate exactly when its value is 20, 10, 5.5, 2.1 or 0, at whatever scale it was typed |
| FrenchRates.StripIsReduced | packages/facturx/src/generate/check-draft.ts:409-412 | stripping the zeros of a formatted rate gives the text of the decimal of the same value without trailing zeros |
| CheckDraftLaws.AcceptedIff | packages/facturx/src/generate/check-draft.ts:512-548 | a draft is accepted exactly when the checks of header and parties find no error, every line fits, it computes, owes nothing negative, and says when to pay what it owes |
| CheckDraftLaws.AcceptedDraftIsSound | packages/facturx/src/generate/check-draft.ts:210-396 | an accepted draft computes, owes nothing negative, and all its VAT groups obey the rules on zero rates and reasons |
| CheckDraftLaws.ReasonWarningIff | packages/facturx/src/generate/check-draft.ts:221-337 | there is a warning of several reasons exactly when two lines of one category and one spelling of the rate give different ones |
| CheckDraftLaws.GroupsAgreeIff | packages/facturx/src/generate/check-draft.ts:221-337 | in an accepted draft the lines of every VAT group give one reason exactly when there is no such warning and lines that spell their zero rate differently agree as well |
| CheckDraftLaws.TwoReasonsAreNotNoticed | packages/facturx/src/generate/check-draft.ts:307-312 | a concrete accepted draft, without a warning, whose one VAT group has lines that give two reasons |
| CheckDraftLaws.StandardRatesPositiveIff | packages/facturx/src/generate/check-draft.ts:380-387 | an accepted draft's standard-rated groups carry a positive rate exactly when no standard-rated line is below 0.005 |
| CheckDraftLaws.TinyRateIsEmittedAsZero | packages/facturx/src/generate/check-draft.ts:380-387 | a concrete accepted draft whose standard-rated group is emitted at 0.00 |
| Iban.Remainder | packages/facturx/src/generate/check-draft.ts:88-94 | the digit-by-digit loop is the remainder of the whole number, as in MOD 97-10 of ISO/IEC 7064 |
| Iban.IsValidIban | packages/facturx/src/generate/check-draft.ts:81-96 | valid exactly when the text, cleaned and upper-cased, has the shape and its rearranged number leaves 1 |
| IbanText.PlainIsValidIff | packages/facturx/src/generate/check-draft.ts:81-96 | typed in capitals without separators, a text is valid exactly when it is an account number of ISO 13616: shape, and the number its letters and digits spell leaves 1 |
| IbanText.SeparatorsDoNotMatter | packages/facturx/src/generate/check-draft.ts:81-96 | white space and hyphens anywhere change nothing |
| IbanText.CaseDoesNotMatter | packages/facturx/src/generate/check-draft.ts:81-96 | a small letter counts as its capital, and a character that upper-cases to letters as those |
| IbanText.StrangersAreRefused | packages/facturx/src/generate/check-draft.ts:81-96 | any other character anywhere makes it invalid |
| Iban.OneChangeIsCaught | packages/facturx/src/generate/check-draft.ts:81-96 | at any length, changing one character to another of its class is caught |
| Iban.SwapIsCaughtIff | packages/facturx/src/generate/check-draft.ts:81-96 | swapping any two neighbours goes unnoticed exactly for equal ones and, beyond the first four, the pairs 1B, 2M, 3X |
| Identifiers.PassesLuhn | packages/facturx/src/identifiers.ts:41-54 | the right-to-left loop computes the alternating sum |
| Identifiers.LuhnCatchesOneChange | packages/facturx/src/identifiers.ts:41-54 | every single-digit change is caught |
| Identifiers.LuhnCatchesSwapIff | packages/facturx/src/identifiers.ts:41-54 | swapping neighbours goes unnoticed exactly when they are equal or 0 and 9 |
| Identifiers.ValidateSiren | packages/facturx/src/identifiers.ts:63-94 | blank, cleaned and validated exactly as nine digits under the rule |
| Identifiers.ValidateSiret | packages/facturx/src/identifiers.ts:97-136 | the same for fourteen digits, La Poste under its own rule |
| Identifiers.SirenIsLuhn | packages/facturx/src/identifiers.ts:83-85 | the exception for La Poste's SIREN admits nothing new |
| Identifiers.SirenCatchesOneChange | packages/facturx/src/identifiers.ts:63-94 | a SIREN with one wrong digit is refused |
| Identifiers.SiretCatchesOneChange | packages/facturx/src/identifiers.ts:118-134 | exactly when one wrong digit is accepted: never while both numbers are outside La Poste's range, by a difference of five inside it, and across its border when the sum of the other rule comes out right |
| Identifiers.SiretSlipPasses | packages/facturx/src/identifiers.ts:118-134 | 55600000000001 and 35600000000001 are both accepted |
| RateLimit.Limiter.CheckRateLimit | apps/web/src/lib/rate-limit.ts:79-114 | sweep, refill, answer and charge, with the whole new state |
| RateLimit.AllowedIsBounded | apps/web/src/lib/rate-limit.ts:86-107 | over any stretch of requests a key is allowed at most the capacity plus what the elapsed time earns |
| RateLimit.EvictionIsUnobservable | apps/web/src/lib/rate-limit.ts:68-77 | every request gets the answer it would get if no bucket were ever evicted |
| RateLimit.IdleBucketIsDropped | apps/web/src/lib/rate-limit.ts:64-77 | the first sweep, ten minutes apart at least, after a client has been idle long enough for a full bucket drops its bucket |
| RateLimit.WaitingAsToldSuffices | apps/web/src/lib/rate-limit.ts:96-104 | a refused client that waits as told, others asking meanwhile, is let through |
| RateLimit.WaitingLessDoesNot | apps/web/src/lib/rate-limit.ts:96-104 | and one second less is not enough, unless told to wait just one |
| RateLimit.RemainingIsAllowed | apps/web/src/lib/rate-limit.ts:109-113 | what is said to remain is exactly how many further requests would be allowed at once |
| Sessions.ExpiryIsExact | packages/auth/src/session.ts:166-176 | in every run the expiry is the sooner of last use plus seven days and creation plus thirty |
| Sessions.UseIsRecordedIff | packages/auth/src/session.ts:166-176 | a use is written exactly when over an hour after the last one recorded, and then moves the expiry |
| Sessions.ResolvesIff | packages/auth/src/session.ts:133-189 | a token resolves exactly while not revoked, its user enabled, and both limits ahead |
| Sessions.RevokedNeverResolves | packages/auth/src/session.ts:197-220 | after a revocation, by token or of all the user's sessions, nothing resolves again |
| Sessions.CapIsHard | packages/auth/src/session.ts:163-163 | no use carries a session to its thirtieth day |
| Sessions.UsedSessionResolves | packages/auth/src/session.ts:133-189 | an unrevoked session of an enabled user, used with gaps under seven days less an hour, resolves until the cap, requests that overlap being out of order by at most an hour |
| Sessions.SessionStore.CreateSession | packages/auth/src/session.ts:97-122 | a new session expiring seven days on, nothing else changed |
| Sessions.SessionStore.RevokeSession | packages/auth/src/session.ts:197-207 | one session ended, the first time only; silent when unknown |
| Sessions.SessionStore.ResolveSession | packages/auth/src/session.ts:133-189 | who the token stands for, and the slide of the expiry |
| Sessions.SessionStore.RevokeAllSessions | packages/auth/src/session.ts:210-220 | every live session of the user, and no other, is ended and counted |
| CredentialTokens.AtMostOneWrite | packages/auth/src/password-reset.ts:100-142 | in every interleaving of submissions a link writes at most one password |
| CredentialTokens.WritesComeFromLiveLinks | packages/auth/src/credential-tokens.ts:169-179 | a password written came from a link used and never superseded |
| CredentialTokens.SupersededNeverWrites | packages/auth/src/credential-tokens.ts:79-87 | once superseded, a link writes nothing in any continuation |
| CredentialTokens.ExpiredIsNotConsumed | packages/auth/src/credential-tokens.ts:174-178 | a submission begun at or after the expiry never consumes its link |
| CredentialTokens.FreshLinkWorksOnceInTime | packages/auth/src/password-reset.ts:100-142 | a fresh link sets its user's password and ends their sessions when submitted within seven days of an invitation or two hours of a reset, at no time after, and once |
| CredentialTokens.AtMostOneLiveLink | packages/auth/src/credential-tokens.ts:65-102 | when issues for one user and purpose do not overlap, at most one of their links is live |
| CredentialTokens.InsertKeepsOneLiveIff | packages/auth/src/credential-tokens.ts:89-99 | the insert of a half-done issue leaves links single exactly when no other link of its user and purpose is live by then |
| CredentialTokens.StepKeepsOneLiveIff | packages/auth/src/credential-tokens.ts:65-102 | whatever the step, links stay single exactly when it is not an insert that finds another live |
| CredentialTokens.AlwaysOneLiveIff | packages/auth/src/credential-tokens.ts:65-102 | all through a run at most one link of each user and purpose is live exactly when no insert of the run finds another |
| CredentialTokens.ClashCameLater | packages/auth/src/credential-tokens.ts:77-99 | a link that an issue finds live at its insert was made after that issue's own update, not missed by it |
| CredentialTokens.OverlappingIssuesLeaveTwo | packages/auth/src/password-reset.ts:59-63 | two overlapping issues, each outside a transaction, leave two live links |
| CredentialTokens.Accounts.SetPasswordWithToken | packages/auth/src/password-reset.ts:100-142 | the exact failure, or the link used, the password written and the sessions ended |
| CredentialTokens.Accounts.IssueCredentialToken | packages/auth/src/credential-tokens.ts:65-102 | earlier live links of the kind are superseded and one new link is live until its time |
| Archive.ArchiveIsWhole | apps/api/src/archiving/stores/filesystem.store.ts:54-83 | with crashes and rollbacks anywhere, every row points at a blob, every blob hashes to its address, and no two rows stand for one content of one invoice |
| Archive.RetrieveIsHonest | apps/api/src/archiving/archiving.service.ts:123-141 | whatever happened to the store, reading back gives the sealed bytes or fails |
| Archive.RetrieveSucceeds | apps/api/src/archiving/archiving.service.ts:123-141 | in a run without tampering it succeeds for every row of the tenant |
| Archive.SealIsIdempotent | apps/api/src/archiving/archiving.service.ts:75-114 | sealing the same bytes for the same invoice again adds nothing and names the same row |
| Archive.SealAloneIsSealed | apps/api/src/archiving/archiving.service.ts:75-114 | a seal nothing interrupts, run step by step, has the effect the service states, and is refused exactly when other bytes stand under its address |
| Archive.AnotherInvoiceGetsItsOwnRow | apps/api/src/archiving/archiving.service.ts:67-70 | the same bytes under another invoice get a row of their own and are not stored again |
| Archive.ArchivingService.Put | apps/api/src/archiving/stores/filesystem.store.ts:54-83 | identical bytes are a no-op, other bytes under the same address are refused |
| Archive.ArchivingService.Seal | apps/api/src/archiving/archiving.service.ts:75-114 | storage first, then the row there is or one new row |
| Archive.ArchivingService.Retrieve | apps/api/src/archiving/archiving.service.ts:123-141 | nothing of another tenant is answered, what is answered hashes to what was recorded, and with a collision-free digest it is the sealed bytes whenever they are what is stored and a complaint whenever they are not |

## Left out

- Hashes: SHA-256 is not computed. The deduplication key, cut from a digest of invoice and content hash, is a free constructor (taken as collision free); the archive takes the digest as a function, injective only where contents are compared; session and link tokens are their hashes, drawn fresh.
- Claims: in the protocol a batch claim is one step per row; `SKIP LOCKED` and isolation below transactions are not modelled. Enqueue's second read, of an existing row, is no step of its own there because it changes nothing; the class has it.
- TransmissionService.Service.Attempt: a commit whose acknowledgement is lost is a step of the state machine and no answer of the class.
- Issuance.IssuanceService.Persist: is not tied to the state machine's issuing step; the two meet only in what an issued invoice has sealed.
- Statuses: coverage starts at a connection's cold-start point; one that never recorded a status and is not polled for a day loses what is older. A status read before its row has an identifier is logged and dropped.
- Tenants: identifiers stand for rows of the caller's own tenant; only the archive carries the tenant.
- Row columns: send and acknowledgement times, error texts, labels, payloads and the audit log are not modelled. `coldStart`, `trace`, `ledger`, `sealedFrom` and the write histories are history variables.
- Connections: editing a connection's credentials so that it points at another account of the same platform is not modelled; a row's platform is its connection's provider.
- Reception: inbound polling and reception of invoices are not part of this model; received invoices exist only so that enqueue can refuse them.
- CheckDraft.Check: the checks of the header and of the parties are a parameter; the wording of problems is left out.
- CheckDraftLaws.AcceptedIff: what the checks of the header and of the parties object to is a parameter.
- CiiTree.ArrayOfElement: the parser's output is modelled as documented (single elements bare, repeats in an array, values trimmed, prefixes removed); malformed documents and other profiles are not.
- Cii.DocumentReadsBack: header, parties, delivery and payment fields are left open, and the theorem starts at the transaction element.
- CiiText.TextReadsBack: the namespace declarations on the root element are left out, and what the document's context and header hold is left open. The reader decodes the five named entities and the reference written for a line feed; that the configured parser decodes that reference is not shown, so a unit code with a line feed is not known to read back.
- XmlRender.RenderReads: the element and attribute names are a parameter, legal and distinct; the reader covers elements, attributes, text and the entities written, not comments, processing instructions, character data sections or line-end normalisation.
- Identifiers: VAT numbers, display grouping and the wording of refusals are left out.
- RateLimit: floats are reals and there is one configuration; the derivation of client keys from headers is left out.
- Sessions.UsedSessionResolves: interleaved requests are modelled by the writes that come late; ones out of order by more than an hour are outside it, though the other session lemmas cover them.
- CredentialTokens: strength rules and hashing of passwords are left out; a crash between consuming and writing leaves the link used and the password as it was.
- Archive: object storage, retention dates, temporary file names and the reuse of entry identifiers are left out.
- The validation engine, PDF generation, mail, roles and permissions, and the web interface are not part of this model.
