# NocTORnal: a model of its ledgers, its guarded graph and its operator scripts

This project models the parts of NocTORnal whose correctness does not show in any one function,
and proves what those parts promise. `dafny verify dfyconfig.toml` checks all of it.

**The two hash-chained ledgers** (`audit.event`, `core.evidence_custody`). `Chain` is one row: what it
hashes and why the hash pins it. `LedgerProtocol` is any number of writers appending at once, one step
at a time, with locks, snapshots, aborts and a sequence outside every transaction. `LedgerVerify` is the
verifier and what a recorded anchor adds to it, and `AuditScript` is the operator tool that carries
anchors from run to run in a file.

**The guarded graph.** `GraphStore` is the rule that every node and tie has an assertion, kept by
deferred constraint triggers inside transactions with savepoints and `SET CONSTRAINTS`.
`ClassificationFloor` and `EndpointRule` are triggers that skip unchanged rows, so what they keep is a
statement about history. `Merges` and `MergeRuns` are entity merges and their reversal.

**The secrets-file migrator.** `EnvText` and `EnvFiles` are the line-preserving editor, `SecretsPlan`
what it decides, `SecretsSafety` what the plan keeps, `SecretsRecovery` what a stop between any two file
operations leaves to the next run, `SecretsSettled` the run after a finished one, `SecretsGenerated` the
run after one that generated a password and stopped before its last file, and `SecretsScript` the script
as it runs.

**Collection.** `CollectionPass` is one budgeted pass, `CollectionTurns` many passes in a row, and
`Collector` the loop that owns one poll child.

**The demonstration seed.** `SeedNetwork` is the builder of the seeded network over any generator and any
sink, and why its replay asks for the same ties; `SeedScript` is the builder as it runs, loop by loop;
`SeedShape` is the structure the network has whatever is drawn, and `SeedRegrade` the regrade of the
seeded ties' claims.

**Smaller scripts.** `EnvLocal` (`.env.local` read by Python and by a shell), `SchemaDump` (the
schema-dump normaliser), `Redaction` (the dead-letter repair and the other writes to its table) and
`TotpSearch` (the clock-drift search).

Code that changes things step by step is a class or a method here, proved equal to a function of its old
state; the properties are lemmas about that function.

## What is idealised

- SHA-256 is a free constructor: a digest is its message, so it is injective and no digest occurs inside
  its own message. A digest written in hex and a timestamp written to the microsecond are one symbol each.
- Uuid, bytea and jsonb columns never print the separator; free text may, and then two rows can collide
  (`Chain.UncleanRowsCollide`).
- Ledger writers run under READ COMMITTED, except the ones the isolation guard refuses. Graph-store
  transactions are serial: two overlapping deletions of a node's last two assertions would each see the
  other's row. Merges and reversals are serial too: each one's checks and its writes are one step, though
  the service reads the nodes and looks for a blocker before its transaction and locks no row; only the
  stamp may be older than what the step sees.
- The server's clock does not step back, and a ledger writer rolls back whole transactions: a rollback to
  a savepoint, which also gives up a lock taken after it, is not a step.
- `urlsplit`, `urlunsplit`, `quote` and `unquote` are parameters. The runs after a finished or a stopped
  one assume of them only that a URL rebuilt from one line is one line (`PrintsLines`); a round trip is
  assumed only where a lemma says which URLs stay (`DsnRoundTrips`, `RoundTrips`), and that the empty text
  names no server only where a URL's target is compared (`EmptyNamesNone`).
  `SecretsSettled.SomeUrlsAreLawful` shows that these can be met together, not that the library meets them.
- `os.replace` puts a file in place whole or not at all. Any system call of a write or a backup may fail,
  and what was written so far is then left under a name of its own.
- `random.Random` is a parameter: `choice` answers an element, `randint` a number in its range, `sample`
  that many different positions. A label or a rationale is its template with what was drawn, and a date is
  a number of days.
- Clocks, random numbers, the database's answers and the operator's signals are inputs.
- Letter case is ASCII. That is exact for the published markers, which hold no letter another script folds
  to, and for plain identifiers, which the shell result is about.

## What the code does not keep

Each of these has a lemma with the input, and beside it the condition under which the property holds.

- A number drawn by the column default, before the lock, forks the chain
  (`LedgerProtocol.DefaultDrawnNumbersFork`); so does a stale snapshot without the isolation guard
  (`LedgerProtocol.StaleSnapshotForks`). Of the four forms only the one with both rules keeps the chain
  (`LedgerProtocol.ChainOrderExactly`).
- The row number is not hashed, so a recorded tail vouches for a whole ledger only if it is the end of
  the chain and no fork is listed (`LedgerVerify.AnchorVouchesExactly`, `LedgerVerify.RenumberedTailDoesNotVouch`).
- An UPDATE of an element's own id in the transaction that inserts it dodges the assertion rule
  (`GraphStore.RenewedIdCommitsUnasserted`, `GraphStore.CommitKeepsAssertedExactly`).
- A merge takes its time before its transaction, so one that waits behind another can carry the same or an
  earlier stamp than the one it follows. The first of two such merges can then be reversed before the
  second, which leaves a tie where it never was, and with an earlier stamp the right reversal is the one
  refused (`MergeRuns.EarlierStampMisplaces`). Every tie stays in place if and only if no merge is reversed
  while a live one that recorded a shared tie after it is stamped at or before it
  (`MergeRuns.RunInPlaceExactly`).
- A source refused before its run row counts as a pass's first poll, so a long source behind it can wait
  for ever though it fits a pass alone (`CollectionTurns.RefusedSourceStarves`). The documentation of the
  pass promises delay, never omission (`scripts/collection_poll.py:33-38`). A pass polls its first source
  that is neither too long nor refused if and only if there is time for it
  (`CollectionTurns.FirstIsAttemptedExactly`).
- With `--new-database` and a DSN that `urlsplit` refuses, planning raises instead of refusing
  (`SecretsSafety.MalformedDsnRaises`; exactly when, `SecretsSafety.GoesAheadExactly`); nothing is written.
- A password generated into a DSN whose host holds a bracket inside its own brackets does not read back
  from it, and the second run reports a mismatch the first one left unsaid
  (`SecretsSettled.NestedHostIsReported`; exactly when, `SecretsSettled.NothingLeftToChange`).
- A run that generated a password and stopped after writing both owner files says to run it again, and is
  then refused where secrets.env held a DSN with no password of its own
  (`SecretsGenerated.BareDsnBlocksRerun`; exactly when, `SecretsGenerated.GeneratedRerunExactly`).
- A quoted REDIS_URL whose query is one space is rewritten by the second run too
  (`SecretsSettled.SpacedUrlMoves`; exactly when, `SecretsSettled.NothingLeftToChange`).
- A name given twice in `.env.local` loads as its first value and evaluates as its last
  (`EnvLocal.TwiceDisagrees`; exactly when, `EnvLocal.ShellAgreesExactly`).
- A seeding run that finds a smaller case populated passes over that case's draws too, so its ties are not
  the replay's (`SeedNetwork.PopulatedCaseDiverges`; they are if and only if none was,
  `SeedNetwork.ReplayIsFaithful`).
  The comment at `scripts/seed_showcase.py:247-251` says no draw is skipped on what only the database knows.
- A second regrade changes more claims where a tie had a second live seed claim of another grade
  (`SeedRegrade.TwoClaimsTakeTwoRuns`; exactly when, `SeedRegrade.SecondRunExactly`).

## Model

| member | source | states |
|---|---|---|
| `Chain.ConcatWsInjective` | db/migrations/versions/0013_audit.py:73-93 | Joining fields by chr(31) can be undone when no field holds it |
| `Chain.FieldsInjective` | db/migrations/versions/0013_audit.py:73-93 | Two clean payloads with equal hashed fields are the same payload |
| `Chain.HashInjective` | db/migrations/versions/0024_custody_tamper_evident.py:47-63 | Equal row hashes of clean rows mean the same predecessor and the same columns, in both ledgers |
| `Chain.MessageReadsBack` | db/migrations/versions/0149_ledger_chain_under_lock.py:161-214 | A clean row's hashed message, read back at its separators, has the predecessor's hash or GENESIS and then each column of its ledger at its place, and no more |
| `Chain.UncleanRowsCollide` | db/migrations/versions/0013_audit.py:73-93 | Without those conditions two different rows have one hash |
| `LedgerProtocol.NumberOrderIsChainOrder` | db/migrations/versions/0149_ledger_chain_under_lock.py:143-181 | Under every interleaving, aborts and multi-row transactions included, number order is chain order: one first row, each other row names the one numbered just before it, no row is named twice |
| `LedgerProtocol.CustodyTimesFollowNumbers` | db/migrations/versions/0149_ledger_chain_under_lock.py:183-214 | Custody times never run backwards in number order |
| `LedgerProtocol.CommittedExactly` | db/migrations/versions/0149_ledger_chain_under_lock.py:143-214 | Over every run of any form a row is committed if and only if a transaction wrote it and then committed; a transaction rolled back or refused publishes nothing |
| `LedgerProtocol.WrittenWasInserted` | db/migrations/versions/0149_ledger_chain_under_lock.py:143-214 | A row a transaction holds carries the payload of an INSERT that transaction made before |
| `LedgerProtocol.DefaultDrawnNumbersFork` | db/migrations/versions/0013_audit.py:24-98 | With the number drawn before the lock, guarded or not, honest writers fork the chain and order custody times backwards, whatever the rows |
| `LedgerProtocol.StaleSnapshotForks` | db/migrations/versions/0149_ledger_chain_under_lock.py:149-155 | Without the isolation guard a stale snapshot claims to be first a second time |
| `LedgerProtocol.ChainOrderExactly` | db/migrations/versions/0149_ledger_chain_under_lock.py:25-60 | Over all four forms: in every reachable state number order is chain order, and no two rows name one predecessor, exactly when number and tail are taken under the lock and stale snapshots are refused |
| `LedgerProtocol.InsertionResult` | db/migrations/versions/0149_ledger_chain_under_lock.py:143-181 | One uninterrupted INSERT of either form, taken step by step, is the trigger's one effect |
| `LedgerProtocol.Ledger.BeginTransaction` | db/migrations/versions/0149_ledger_chain_under_lock.py:50-55 | A transaction begins with its isolation, its clock reading and what a snapshot would see |
| `LedgerProtocol.Ledger.ChainHash` | db/migrations/versions/0149_ledger_chain_under_lock.py:143-214 | The trigger run in place does those steps, refuses outside READ COMMITTED and stores exactly one more row of its own |
| `LedgerProtocol.Ledger.ReadTailRow` | db/migrations/versions/0149_ledger_chain_under_lock.py:161-161 | The predecessor is the hash of the highest-numbered row the transaction sees |
| `LedgerProtocol.Ledger.FindHighest` | db/migrations/versions/0149_ledger_chain_under_lock.py:161-161 | ORDER BY number DESC LIMIT 1, by a loop |
| `LedgerProtocol.Ledger.CommitTransaction` | db/migrations/versions/0149_ledger_chain_under_lock.py:50-55 | Commit publishes the transaction's rows in order to the snapshots taken later and releases the lock |
| `LedgerProtocol.Ledger.Rollback` | db/migrations/versions/0149_ledger_chain_under_lock.py:143-161 | Rollback leaves the committed table as it was, drops the transaction's rows, releases its lock, and gives no number back |
| `LedgerVerify.IntactMeans` | apps/api/src/noctornal_api/audit_verify.py:190-360 | A whole-table run finds nothing exactly when every row recomputes, names a real row or is the only first one, no fork is above the boundary and the anchor is held |
| `LedgerVerify.ReportedIsNewest` | apps/api/src/noctornal_api/audit_verify.py:190-194 | With or without a limit a run examines the last min(limit, n) rows in number order |
| `LedgerVerify.IntactExactly` | apps/api/src/noctornal_api/audit_verify.py:190-360 | With any limit a run finds nothing if and only if there is one first row, the anchor stands, and each of those newest rows recomputes, names a real row and is no fresh fork |
| `LedgerVerify.KindsExactly` | apps/api/src/noctornal_api/audit_verify.py:190-330 | Under which kind a row of the run is listed: broken link, changed content, both, or a fork above the boundary |
| `LedgerVerify.AnchorKindsExactly` | apps/api/src/noctornal_api/audit_verify.py:375-393 | A recorded anchor is missing, rewritten or moved exactly as its number and its hash are or are not in the table |
| `LedgerVerify.GenesisKindsExactly` | apps/api/src/noctornal_api/audit_verify.py:293-312 | No first row is reported exactly where rows stand and none is first, and a first row exactly where another is first too |
| `LedgerVerify.IntactIsOneChain` | apps/api/src/noctornal_api/audit_verify.py:190-360 | No break and no fork exactly when some order of the rows is one chain from a first row |
| `LedgerVerify.EqualHashEqualHistory` | apps/api/src/noctornal_api/audit_verify.py:375-393 | Two rows of two verified tables with one hash have the same history, row for row |
| `LedgerVerify.SameTailSameLedger` | db/migrations/versions/0013_audit.py:73-93 | Two verified chains with one tail hash are equal in every hashed column of every row |
| `LedgerVerify.HeldAnchorCovers` | apps/api/src/noctornal_api/audit_verify.py:375-393 | A verified table that still holds an anchored chain end has every row of the anchored table |
| `LedgerVerify.CutVerifies` | apps/api/src/noctornal_api/audit_verify.py:167-189 | A truncated ledger still verifies without a later anchor |
| `LedgerVerify.RechainedVerifies` | apps/api/src/noctornal_api/audit_verify.py:167-189 | So does a wholly re-chained one |
| `LedgerVerify.AnchorVouchesExactly` | apps/api/src/noctornal_api/audit_verify.py:333-346 | A recorded tail vouches for the whole table if and only if no fork is listed and no row names the tail |
| `LedgerVerify.RenumberedTailDoesNotVouch` | apps/api/src/noctornal_api/audit_verify.py:333-338 | A two-row table that verifies and whose recorded tail does not vouch for it |
| `LedgerVerify.HonestLedgerVouches` | db/migrations/versions/0149_ledger_chain_under_lock.py:143-181 | Every ledger the trigger at head can write verifies with no fork and its tail vouches for all of it |
| `AuditScript.ReadLastAnchor` | scripts/audit_verify.py:63-87 | The last recorded line, none for an empty file, unreadable if any line is not a record |
| `AuditScript.FindTail` | apps/api/src/noctornal_api/audit_verify.py:333-338 | The highest-numbered row's number and hash |
| `AuditScript.VerifyAndRecord` | scripts/audit_verify.py:142-215 | When a run compares, when it records, its exit code, and that it appends one line, or part of one when the append is cut short, or leaves the file alone |
| `AuditScript.AnswersExactly` | scripts/audit_verify.py:104-215 | The answer of every run: 2 for arguments that do not go together, a file that cannot be read or no database; else 1 exactly when the newest rows up to the limit, or the anchors, do not stand; else 0, or 2 when the append was cut short |
| `AuditScript.RecordsOnlyWholeIntactRuns` | scripts/audit_verify.py:203-214 | The file changes only by an intact run of the whole table that held the last anchor, by one record and the answer 0 or by part of one and the answer 2; a --limit run never records |
| `AuditScript.RecordedHistoryExtends` | scripts/audit_verify.py:104-139 | Over any history of runs, the ledgers at a recording run hold every row of the ledgers at any earlier one, if each recorded tail ended its chain |
| `GraphStore.CommitKeepsAssertedExactly` | db/migrations/versions/0022_assertion_required.py:50-111 | A commit leaves every element asserted if and only if no id it rewrote stands for an unasserted one, whenever events fired |
| `GraphStore.AssertedCommits` | db/migrations/versions/0022_assertion_required.py:50-79 | A transaction that has not failed and whose tables have an assertion for every element commits those tables, and SET CONSTRAINTS IMMEDIATE succeeds there |
| `GraphStore.CommitsExactly` | db/migrations/versions/0022_assertion_required.py:50-111 | From asserted tables and with no id rewritten, a transaction commits if and only if no statement of it failed and every element has an assertion |
| `GraphStore.AssertionMayFollow` | db/migrations/versions/0022_assertion_required.py:76-79 | A new node or tie may be inserted before its assertion in the same transaction; without one it does not commit |
| `GraphStore.InsertKeepsReferences` | db/migrations/versions/0022_assertion_required.py:76-79 | Foreign keys that held before a row is written hold after it where what the row names is there |
| `GraphStore.RollbackUndoes` | db/migrations/versions/0022_assertion_required.py:76-111 | ROLLBACK TO undoes whatever was done since the savepoint, queued events and failure included |
| `GraphStore.HistoriesKeepAsserted` | db/migrations/versions/0022_assertion_required.py:50-111 | Every committed state of any serial history that rewrites no id has an assertion for every element |
| `GraphStore.HistoriesKeepReferences` | db/migrations/versions/0022_assertion_required.py:50-111 | In every committed state of any history each assertion is about an element that is there and each tie ends at nodes that are |
| `GraphStore.RenewedIdCommitsUnasserted` | db/migrations/versions/0022_assertion_required.py:50-79 | A transaction that rewrites a new node's id and commits it unasserted |
| `GraphStore.WithdrawalIsFree` | db/migrations/versions/0022_assertion_required.py:86-111 | Wherever a transaction stands, constraints deferred or immediate, retracting or superseding any assertions raises no event and no error |
| `GraphStore.PurgeCommits` | db/migrations/versions/0022_assertion_required.py:89-106 | A tie, or a node at which no tie ends, may be deleted together with all its assertions |
| `GraphStore.Store.ChangeRows` | db/migrations/versions/0022_assertion_required.py:76-111 | A statement's rows changed one by one, each queuing its triggers' events |
| `GraphStore.Store.FireQueued` | db/migrations/versions/0022_assertion_required.py:50-106 | The queued events of the named constraints fire in order and leave the queue; one failure refuses |
| `GraphStore.Store.ExecuteStatement` | db/migrations/versions/0022_assertion_required.py:50-111 | Rows, then foreign keys, then the immediate constraints |
| `GraphStore.Store.SetImmediate` | db/migrations/versions/0022_assertion_required.py:76-111 | SET CONSTRAINTS IMMEDIATE fires what was waiting |
| `GraphStore.Store.Commit` | db/migrations/versions/0022_assertion_required.py:76-111 | COMMIT fires everything still queued; a refused one leaves the tables the transaction began with |
| `ClassificationFloor.BelowOnlyByALaterRaise` | db/migrations/versions/0016_graph_triggers.py:100-122 | In every reachable state a guarded element below its case's label was last checked before the case was raised |
| `ClassificationFloor.NothingIsWrittenBelow` | db/migrations/versions/0016_graph_triggers.py:100-122 | No relabelling, case move or insert commits below the floor |
| `ClassificationFloor.InsertAcceptedExactly` | db/migrations/versions/0016_graph_triggers.py:100-122 | Exactly which inserts are accepted, and the state each leaves |
| `ClassificationFloor.UpdateAcceptedExactly` | db/migrations/versions/0183_element_classification_never_lowered.py:41-60 | Exactly which updates are accepted, label, case, lowering and exemption included, and the state each leaves |
| `ClassificationFloor.BookkeepingNeverFails` | db/migrations/versions/0016_graph_triggers.py:103-111 | An update that touches neither label nor case succeeds after any history |
| `ClassificationFloor.UpgradeRaisesSamples` | db/migrations/versions/0043_sample_case_floor.py:57-72 | The upgrade leaves no sample below its case and lowers none |
| `ClassificationFloor.RequestRoleNeverLowers` | db/migrations/versions/0183_element_classification_never_lowered.py:41-60 | However long the request role writes, no node or tie ends with a lower label |
| `ClassificationFloor.Tables.UpdateChild` | db/migrations/versions/0016_graph_triggers.py:100-122 | The triggers on one row in place, accepting exactly what the rules accept |
| `ClassificationFloor.Tables.Reclassify` | db/migrations/versions/0016_graph_triggers.py:100-122 | A case's label set in place, its rows left as they are |
| `EndpointRule.IllFormedOnlyByALaterChange` | db/migrations/versions/0018_selector_hardening.py:49-93 | A tie the ontology does not permit was last checked before its type was narrowed or an end changed |
| `EndpointRule.StableOntologyKeepsEdges` | db/migrations/versions/0018_selector_hardening.py:49-93 | If no type was narrowed and no node changed, every tie joins permitted types in its own case and SAME_AS never crosses types |
| `EndpointRule.EdgeAcceptedExactly` | db/migrations/versions/0018_selector_hardening.py:49-93 | A tie is written if and only if nothing of it changes or its ends are of permitted types, alike for SAME_AS, and in its case; and only that tie changes |
| `EndpointRule.NodeDroppedExactly` | db/migrations/versions/0018_selector_hardening.py:49-93 | A node is deleted if and only if no tie ends at it |
| `EndpointRule.SoftDeleteNeverFails` | db/migrations/versions/0018_selector_hardening.py:56-63 | An update that leaves the ends alone is never refused |
| `EndpointRule.Tables.WriteEdge` | db/migrations/versions/0018_selector_hardening.py:49-93 | The trigger in place accepts exactly the permitted rows and records when it looked |
| `EndpointRule.Tables.Redefine` | db/migrations/versions/0018_selector_hardening.py:49-93 | A type's permitted ends set in place, ties already drawn left as they are |
| `Merges.TakenEitherWay` | apps/api/src/noctornal_api/merges.py:186-249 | Whether the next tie collides is settled before the first is moved, so the row order does not matter |
| `Merges.FoldKeepsUnique` | apps/api/src/noctornal_api/merges.py:210-248 | A merge leaves no two live ties of one kind between one pair |
| `Merges.MergeMovesEveryTie` | apps/api/src/noctornal_api/merges.py:171-256 | After a merge no live tie is on the source; each of its ties was moved whole, or set aside because it ran between the two or duplicated one the caller may not read; nothing else changed; the survivor is of one kind with the source and no less restricted |
| `Merges.CollidesExactly` | apps/api/src/noctornal_api/merges.py:221-248 | A merge past its first checks is refused exactly when a tie the caller may read, or any tie without labels, would duplicate one that stands |
| `Merges.MergeGoesAheadExactly` | apps/api/src/noctornal_api/merges.py:116-293 | A merge goes ahead if and only if its checks hold and no tie it would duplicate is readable |
| `Merges.MergeIsRecorded` | apps/api/src/noctornal_api/merges.py:116-293 | A merge redirects its source and records, under its own id, just the source's live ties, where each stood and whether it was set aside |
| `Merges.ReversalGoesAhead` | apps/api/src/noctornal_api/merges.py:295-375 | A reversal is blocked exactly when a later live merge recorded one of its ties; one not blocked, whose places are clear, goes ahead; without a reason or a second time it does not |
| `Merges.MergeService.FoldNodes` | apps/api/src/noctornal_api/merges.py:116-293 | The merge's transaction, for any row order: every selected tie recorded and moved or set aside, or a refusal and nothing changed |
| `Merges.MergeService.UnfoldNodes` | apps/api/src/noctornal_api/merges.py:295-423 | The reversal's transaction: refused with nothing changed, or every row restored |
| `Merges.ReversalUndoesMerge` | apps/api/src/noctornal_api/merges.py:295-375 | A merge reversed at once leaves every node and tie exactly as it was, whatever the row order |
| `MergeRuns.ReversalInPlaceExactly` | apps/api/src/noctornal_api/merges.py:322-375 | An accepted reversal leaves every tie where its topmost live merge left it if and only if no live merge that recorded one of its ties later is stamped at or before it |
| `MergeRuns.RunInPlaceExactly` | apps/api/src/noctornal_api/merges.py:302-312 | Through any run of merges, reversals and other writes that holds at every moment if and only if no such overtaken merge was reversed |
| `MergeRuns.UnheldTieIsAtItsBase` | apps/api/src/noctornal_api/merges.py:302-312 | After such a run a tie no live merge holds stands where it was recorded and is out of the graph only if somebody retired it |
| `MergeRuns.ReversalGivesBack` | apps/api/src/noctornal_api/merges.py:295-375 | A reversal that goes ahead puts each recorded tie back between the ends recorded, revives what was set aside, clears the redirect and changes nothing else |
| `MergeRuns.RedirectsExactly` | apps/api/src/noctornal_api/merges.py:387-398 | After any run, a node redirects to a target exactly while a live merge sent it there |
| `MergeRuns.AgreeingIsNotOvertaken` | apps/api/src/noctornal_api/merges.py:322-338 | Where its stamps agree with the order of recording no merge is overtaken |
| `MergeRuns.BlockedExactly` | apps/api/src/noctornal_api/merges.py:322-338 | Where its stamps agree with the order of recording, a merge's reversal is refused as blocked exactly when the merge is not the latest live one on some tie it recorded |
| `MergeRuns.EarlierStampMisplaces` | apps/api/src/noctornal_api/merges.py:159-160 | Two merges, the second stamped no later than the first: reversed first before second they leave a tie at an entity that never held it, and if the stamps differ the right reversal is refused |
| `EnvText.ParseStripped` | scripts/production_secrets.py:155-156 | A moved line without its outer spaces says the same key and value |
| `EnvText.ParseBuilt` | scripts/production_secrets.py:108-108 | A line written as KEY=value parses to that key and value |
| `EnvText.TextReadsBack` | scripts/production_secrets.py:199-200 | A written file reads back as the same lines with the same line ending |
| `EnvFiles.PutSets` | scripts/production_secrets.py:158-166 | put replaces the key's first setting, or adds one, and other keys keep theirs; a key set at most once is then set once, to the new value |
| `EnvFiles.DropClears` | scripts/production_secrets.py:168-171 | After drop no line sets the key and other keys keep their lines |
| `EnvFiles.ReplaceKeepsSettings` | scripts/production_secrets.py:187-197 | Replacing a stale comment changes no setting |
| `EnvFiles.ReplacedBlock` | scripts/production_secrets.py:173-197 | The replaced comment reads back as the replacement |
| `EnvFiles.OtherBlockKept` | scripts/production_secrets.py:173-197 | And the comment above any other key stays |
| `EnvFiles.EnvFile.Where` | scripts/production_secrets.py:139-141 | Each line that sets the key, and no other |
| `EnvFiles.EnvFile.Get` | scripts/production_secrets.py:143-153 | Missing, set twice, or the unquoted value |
| `EnvFiles.EnvFile.PutLine` | scripts/production_secrets.py:158-166 | put in place |
| `EnvFiles.EnvFile.DropKey` | scripts/production_secrets.py:168-171 | drop in place |
| `EnvFiles.EnvFile.CommentBlock` | scripts/production_secrets.py:173-185 | comment_above by its loop |
| `EnvFiles.EnvFile.ReplaceStaleComment` | scripts/production_secrets.py:187-197 | replace_stale_comment in place, answering whether it did |
| `SecretsSafety.MoveSettles` | scripts/production_secrets.py:312-338 | A moved key is gone from secrets.env, its destination holds the effective value, every other setting stays |
| `SecretsSafety.MoveRefuses` | scripts/production_secrets.py:312-332 | A move is refused exactly for a doubled key or two different real values |
| `SecretsSafety.MoveLeavesNote` | scripts/production_secrets.py:312-338 | Where a line moved away, or its placeholder was removed, the note that says so stands in secrets.env |
| `SecretsSafety.ChooseSettles` | scripts/production_secrets.py:340-368 | A password is generated only with the flag and where both passwords were published or absent |
| `SecretsSafety.LimiterSettles` | scripts/production_secrets.py:370-399 | What the two Redis lines say afterwards |
| `SecretsSafety.PlanKeepsOwnerValues` | scripts/production_secrets.py:290-408 | After a plan neither owner key is in secrets.env, each owner value stands in its file unless generated, and every other setting of every file is what it was |
| `SecretsSafety.PlanKeepsEveryOtherLine` | scripts/production_secrets.py:105-106 | Every line that is neither a comment nor a setting of the four keys is still there, as it was and in order, in all three files |
| `SecretsSafety.PlanKeepsRedisChoices` | scripts/production_secrets.py:370-399 | A usable Redis password and another Redis's URL are never overwritten |
| `SecretsSafety.GoesAheadExactly` | scripts/production_secrets.py:290-368 | Exactly when a plan goes ahead (readable files, no doubled key, no two real values, no DSN urlsplit refuses where a password is needed), and exactly when it raises |
| `SecretsSafety.MalformedDsnRaises` | scripts/production_secrets.py:340-364 | Three files whose plan raises |
| `SecretsSafety.GeneratesExactly` | scripts/production_secrets.py:340-364 | A run that goes ahead generates a password exactly with the flag and where both standing passwords are published or absent |
| `SecretsSafety.LeftExactly` | scripts/production_secrets.py:340-368 | What a plan that goes ahead leaves to the operator: nothing exactly when a password was generated or the two agree, and otherwise exactly which of the three reports |
| `SecretsSafety.OwnerDsnKeepsTarget` | scripts/production_secrets.py:247-263 | The DSN written with a generated password signs in with it and keeps its user and server, or is the default one where it names no server |
| `SecretsSafety.LimiterUrlKeepsTarget` | scripts/production_secrets.py:378-390 | The limiter's URL signs in as its user over redis:// and keeps the server of a chosen URL that names one |
| `SecretsRecovery.SecretsComesLast` | scripts/production_secrets.py:420-433 | No stop before the end has written secrets.env |
| `SecretsRecovery.InitComesFirst` | scripts/production_secrets.py:420-433 | migrate.env is not written before postgres-init.env |
| `SecretsRecovery.RerunFinishes` | scripts/production_secrets.py:420-443 | Stopped after any part of its writes but secrets.env, a value-moving run is finished by the next: same text in all three files, only what was missing written |
| `SecretsRecovery.StopLosesNothing` | scripts/production_secrets.py:420-443 | At every stop secrets.env is unchanged and both owner values stand where they will be read |
| `SecretsRecovery.HalfGeneratedIsReported` | scripts/production_secrets.py:361-368 | Stopped between the two files of a generated password, the next run keeps it, generates none and reports a mismatch |
| `SecretsGenerated.GeneratedRerunExactly` | scripts/production_secrets.py:311-368 | Stopped after both files of a generated password and before secrets.env, the next run keeps the password, generates none and finishes secrets.env; it is refused if and only if secrets.env holds a chosen DSN other than the generated one, and leaves nothing if and only if the DSN it ends with holds the password |
| `SecretsGenerated.GeneratedRunFinishes` | scripts/production_secrets.py:420-443 | Where secrets.env held no chosen DSN and the generated one reads back, it finishes the run with both owner files as they are |
| `SecretsGenerated.StoppedBeforeSecrets` | scripts/production_secrets.py:420-433 | A stop after every write but that of secrets.env is such a stop |
| `SecretsGenerated.BareDsnBlocksRerun` | scripts/production_secrets.py:319-332 | A secrets.env whose DSN has no password: the run after the stop is refused |
| `SecretsRecovery.ChangedFilesAreBackedUp` | scripts/production_secrets.py:224-234 | Before any file changes, each has its content under a new name and no older backup is written over |
| `SecretsSettled.NothingLeftToChange` | scripts/production_secrets.py:290-408 | Planning after a finished run changes a file, secrets.env, if and only if REDIS_URL does not stay (what is printed, read back, is printed otherwise), and leaves the operator the same if and only if no password was generated or the DSN it went into, printed and read back, holds it; else it reports the mismatch |
| `SecretsSettled.PlainDsnStays` | scripts/production_secrets.py:247-263 | A DSN whose host has no bracket does |
| `SecretsSettled.NestedHostIsReported` | scripts/production_secrets.py:340-368 | A DSN that does not: the first run leaves nothing, the second reports a mismatch |
| `SecretsSettled.PlainUrlSettles` | scripts/production_secrets.py:378-390 | So it changes nothing for a REDIS_URL that names another service, is no URL, or has no tab and no space at its end |
| `SecretsSettled.SpacedUrlMoves` | scripts/production_secrets.py:378-390 | A quoted URL whose query is one space does not stay |
| `SecretsSettled.FinishedIsPartly` | scripts/production_secrets.py:426-433 | A run none of whose operations failed has written just the changed files |
| `SecretsSettled.OwnerLeavesSecrets` | scripts/production_secrets.py:311-364 | On the disk of a finished run secrets.env holds neither owner value and each stands in its file; a generated password reads back from the DSN if and only if that DSN stays |
| `SecretsSettled.LawfulLimiter` | scripts/production_secrets.py:378-390 | Rebuilding the limiter's URL from itself changes nothing, for such a URL |
| `SecretsSettled.SomeUrlsAreLawful` | scripts/production_secrets.py:247-263 | The laws asked of the URL functions can be met together |
| `SecretsScript.MoveLine` | scripts/production_secrets.py:312-338 | One owner line moved between two files in place |
| `SecretsScript.ChoosePasswords` | scripts/production_secrets.py:340-368 | The generated or missing owner password, in place |
| `SecretsScript.SetLimiter` | scripts/production_secrets.py:370-399 | The limiter's two lines and comments, in place |
| `SecretsScript.PlanFiles` | scripts/production_secrets.py:290-408 | plan on its own copies, equal to the planned files |
| `SecretsScript.Directory.BackUp` | scripts/production_secrets.py:224-234 | The first free name gets the content; a call that fails leaves at most a partial file under that name and touches nothing else |
| `SecretsScript.Directory.WritePrivate` | scripts/production_secrets.py:203-221 | Five calls through a temporary file: the target is the finished new file, or whichever call fails it is the old one and the temporary file is removed if it can be |
| `SecretsScript.Directory.Apply` | scripts/production_secrets.py:411-450 | A refusal writes nothing; else the first k operations are done and the next may be cut short, all of them if every call succeeds; 0 exactly when all were done and a password was generated or DSN and password agree |
| `CollectionPass.Pass` | scripts/collection_poll.py:230-329 | The loop's decisions, its counters and the items they brought in, the seven outcome counters summing to selected, and the exit code |
| `CollectionPass.EverySourceIsCounted` | scripts/collection_poll.py:49-51 | Every decision is counted once under one counter |
| `CollectionPass.KindMeans` | scripts/collection_poll.py:265-318 | Which answer of a poll counts as skipped, blocked, rate limited, failed or polled, and whose items are added |
| `CollectionPass.AttentionIs` | scripts/collection_poll.py:319-329 | The exit code's failures are exactly the failed, the blocked and the too long |
| `CollectionPass.StartsExactly` | scripts/collection_poll.py:246-264 | With a time limit a poll starts if and only if it fits alone, the time is not up, and it fits the rest unless it is the first |
| `CollectionPass.NoLimitStartsAll` | scripts/collection_poll.py:246-264 | Without a time limit every source selected is polled |
| `CollectionPass.EndsBeforeTwice` | scripts/collection_poll.py:115-117 | If polls keep their budgets every poll ends before twice --max-seconds, and every one but the first within it |
| `CollectionTurns.FirstIsAttemptedExactly` | scripts/collection_poll.py:237-264 | A pass polls its first source that is neither too long nor refused if and only if it is no dry run, its time is not up there and, behind a refused source, the budget fits what is left |
| `CollectionTurns.BegunExactly` | scripts/collection_poll.py:246-264 | In a pass that is no dry run, until the time is up a poll has begun before a source behind stuck ones exactly when a refused one that fits stands before it |
| `CollectionTurns.FirstIsAttempted` | scripts/collection_poll.py:237-264 | A pass that polls and has that time begins a poll of some unstuck source no less overdue than any it lists |
| `CollectionTurns.NoStarvation` | scripts/collection_poll.py:31-39 | Through passes with that time a due source with k unstuck sources before it is polled within k + 1 |
| `CollectionTurns.RefusedSourceStarves` | scripts/collection_poll.py:255-264 | Whatever the limit, budgets and clock: a history of any length in which a source that fits alone is never polled behind one refused source whose poll leaves less than its budget |
| `Collector.MoreSafe` | scripts/collector.py:214-241 | What each event asks for the log to stay safe |
| `Collector.StopChild` | scripts/collector.py:125-135 | The child is not running afterwards, even one that ignores SIGTERM |
| `Collector.Loop` | scripts/collector.py:211-244 | With the stop flag set anywhere and any call raising: at most one child alive, starts --poll-every apart, none after stop was seen, none alive when the loop is left; and the log is that of its turns one after another |
| `Collector.DueIsStarted` | scripts/collector.py:228-234 | A turn with no stop and no raise, its child gone or exited and the time come, starts one and spaces the next from it |
| `Collector.TurnExactly` | scripts/collector.py:211-244 | What one turn logs, holds, schedules and leaves, whatever stops and raises: an exited child is reaped, a running one kept, a start follows exactly when none is left, no stop is seen and the time has come |
| `Collector.ExitIsFollowed` | scripts/collector.py:228-234 | Through turns without stops or raises an exited child is reaped and the next started at the first turn whose clock has come to the next poll |
| `EnvLocal.QuoteReads` | scripts/_env.py:80-95 | Word-parsing undoes quoting, whatever the value |
| `EnvLocal.PairOnIs` | scripts/_env.py:56-75 | A line of a name, = and a value, bare or in quotes, is that name and that value |
| `EnvLocal.NoPairOn` | scripts/_env.py:56-75 | A blank line, a comment and a line without = set nothing |
| `EnvLocal.ScriptEvaluates` | scripts/_env.py:83-95 | A shell's reading of the printed statements sets each name to its value, in order |
| `EnvLocal.LoadsFirst` | scripts/_env.py:98-117 | Loading keeps what is set and else takes the first value |
| `EnvLocal.ShellEndsWithLast` | scripts/_env.py:83-95 | Evaluating keeps what is set and else ends with the last value of a plain name |
| `EnvLocal.ShellAgreesExactly` | scripts/_env.py:56-117 | The two agree on a plain name exactly when it was set before or its first value in the file is its last |
| `EnvLocal.TwiceDisagrees` | scripts/_env.py:56-117 | A two-line file on which they do not |
| `EnvLocal.RefusedIsUntouched` | scripts/_env.py:43-72 | A refused name is given no value by either |
| `EnvLocal.Process.Load` | scripts/_env.py:98-117 | load_env_local in place, a missing file changing nothing |
| `SchemaDump.Normalise` | scripts/dump_schema.py:124-142 | The loop and the two pops compute the normalised text |
| `SchemaDump.NormalIsTidy` | scripts/dump_schema.py:124-142 | No volatile line, no trailing space, no adjacent, leading or trailing blank |
| `SchemaDump.NothingElseIsLost` | scripts/dump_schema.py:124-142 | Every other non-blank line is kept, right-trimmed, in order |
| `SchemaDump.NormalisedOnce` | scripts/dump_schema.py:124-142 | Normalising is idempotent |
| `SchemaDump.SameTextExactly` | scripts/dump_schema.py:124-142 | Two dumps give one text exactly when their lines normalise alike |
| `SchemaDump.VolatileIsIgnored` | scripts/dump_schema.py:55-62 | A volatile line may be inserted anywhere |
| `SchemaDump.BlankRunsAreOne` | scripts/dump_schema.py:130-135 | The length of a blank run does not matter |
| `SchemaDump.OuterBlanksAreIgnored` | scripts/dump_schema.py:138-141 | Nor do blanks at either end |
| `SchemaDump.TrailingSpacesAreIgnored` | scripts/dump_schema.py:137-137 | Nor do spaces at the end of a line, unless they make it volatile |
| `SchemaDump.CarriageReturnsAreIgnored` | scripts/dump_schema.py:127-127 | Nor does it matter which of the line endings are CRLF, all, some or none, whatever other carriage returns there are |
| `Redaction.DeadLetters.Apply` | scripts/redact_dead_letters.py:87-110 | Ends, having redacted exactly min(limit, pending) of the oldest rows, or all |
| `Redaction.DeadLetters.NextBatch` | scripts/redact_dead_letters.py:89-92 | The oldest unredacted rows, at most a batch |
| `Redaction.OldestAt` | scripts/redact_dead_letters.py:87-110 | Each of the oldest pending rows then holds the redacted text of its fragment, its flag and the digest of what it held; every other row is as it was |
| `Redaction.UnredactedNeverRises` | db/migrations/versions/0040_dead_letter_labels.py:116-117 | Whatever anybody inserts or updates, with any flag, the check lets the number of unredacted rows never rise |
| `Redaction.RunsKeepFaith` | apps/api/src/noctornal_api/ingest.py:1035-1073 | Over any arrivals, storable or not, retention purges and repairs cut short anywhere, each stored digest is of the fragment that arrived and an unredacted row still holds it |
| `TotpSearch.Diagnose` | scripts/bootstrap.py:1148-1168 | The nearest matching offset of the whole two-year range, the negative one on a tie, none only if none matches |
| `TotpSearch.NearestIsOne` | scripts/bootstrap.py:1148-1168 | That leaves one answer |
| `TotpSearch.NarrowIsEnough` | scripts/bootstrap.py:1166-1168 | Stopping at the first band with a match is sound |
| `SeedNetwork.ReplayIsFaithful` | scripts/seed_showcase.py:244-447 | The builder run through any sink that draws nothing and gives out new references: its flagship ties are the replay's, and all its ties are if and only if it found no smaller case populated |
| `SeedNetwork.PopulatedCaseDiverges` | scripts/seed_showcase.py:425-428 | A run that finds either smaller case populated asks for other ties than the replay |
| `SeedNetwork.ReplayIsGood` | scripts/seed_showcase.py:464-491 | The replay's stand-in is itself a sink that draws nothing and gives out new references |
| `SeedNetwork.CasesInStepExactly` | scripts/seed_showcase.py:423-447 | The same for any list of smaller cases |
| `SeedNetwork.FlagshipInStep` | scripts/seed_showcase.py:266-422 | The two runs of the flagship case stand at the same draw, entities and ties, whatever the sink says of any case |
| `SeedNetwork.NewHandle` | scripts/seed_showcase.py:87-94 | A handle is drawn again until it is none of those used |
| `SeedNetwork.Build` | scripts/seed_showcase.py:311-312 | No tie the builder asks for joins an entity to itself |
| `SeedShape.FlagshipIsStructured` | scripts/seed_showcase.py:266-422 | Whatever is drawn: six crews of the given sizes with a leader each, 146 to 438 vouches each inside one crew, six brokers and a redundant twin with three peers in each of two neighbouring crews, twenty-four negative ties, and twenty-six hosts, twenty wallets and fourteen victims, each tie with its dates, grade and rationale |
| `SeedShape.OnlyBrokersBridge` | scripts/seed_showcase.py:327-328 | Between two crews there are only negative ties: anything else runs through a broker |
| `SeedShape.OneCaseShape` | scripts/seed_showcase.py:425-447 | A smaller case is that many new handles and one to four times as many replies, all among them |
| `SeedScript.Seeder.BuildNetwork` | scripts/seed_showcase.py:255-447 | The builder's loops, in place, do just that |
| `SeedScript.Seeder.FindHandle` | scripts/seed_showcase.py:87-94 | The redraw loop |
| `SeedScript.Seeder.BuildCrews` | scripts/seed_showcase.py:268-304 | The crews and their members |
| `SeedScript.Seeder.WeaveCrews` | scripts/seed_showcase.py:306-325 | The ties inside each crew |
| `SeedScript.Seeder.PlaceBrokers` | scripts/seed_showcase.py:326-345 | The brokers between them |
| `SeedScript.Seeder.BuildCase` | scripts/seed_showcase.py:425-447 | A smaller case's network |
| `SeedRegrade.TiesApart` | scripts/seed_showcase.py:526-541 | The two dictionaries find no edge for two wanted ties |
| `SeedRegrade.OnlyGrows` | scripts/seed_showcase.py:507-519 | A regrade adds claims and stamps superseded ones and rewrites nothing |
| `SeedRegrade.SupersededBySuccessor` | scripts/seed_showcase.py:507-519 | Every claim a run stamps names its successor, and every claim it adds succeeds one and differs from it in nothing but the grade, which is the one wanted for that tie |
| `SeedRegrade.OtherClaimsStay` | scripts/seed_showcase.py:516-517 | A claim that is not a live founding claim of the seed on a tie it finds is left as it was |
| `SeedRegrade.OneLiveClaimIsRegraded` | scripts/seed_showcase.py:527-576 | A found tie with one live seed claim has one afterwards, at the seeded grade |
| `SeedRegrade.SeededTieIsRegraded` | scripts/seed_showcase.py:494-577 | Seed, replay and regrade together: a tie the builder asked for that is the last of its key and has one live seed claim has one afterwards, at the builder's grade |
| `SeedRegrade.SecondRunExactly` | scripts/seed_showcase.py:507-577 | A second run changes nothing exactly when no found tie had a second live claim of another grade behind a wrong one |
| `SeedRegrade.TwoClaimsTakeTwoRuns` | scripts/seed_showcase.py:507-577 | A tie with two live seed claims whose second regrade changes it again |
| `SeedRegrade.Estate.RegradeAll` | scripts/seed_showcase.py:507-577 | The two dictionaries built and the regrade's loop over them |

## Left out

- LedgerProtocol.NumberOrderIsChainOrder: transactions that read uncommitted data are taken as READ COMMITTED, which is what PostgreSQL gives them.
- AuditScript.RecordedHistoryExtends: needs each recorded tail to end its chain, because the number is not hashed (see LedgerVerify.AnchorVouchesExactly).
- SecretsSettled.NothingLeftToChange: asks that generated tokens be URL-safe and unpublished, that the current template carry no stale phrase, and that rebuilt URLs are one line.
- SecretsSettled.SomeUrlsAreLawful: is about functions made for it; the library's own urlsplit and urlunsplit are not modelled.
- LedgerProtocol.CustodyTimesFollowNumbers: needs a server clock that does not step back, which the source names as the one way time can run backwards.
- AuditScript.VerifyAndRecord: an append cut exactly before its newline, which leaves a whole record that the next append would continue, is not modelled.
- Merges.MergeService.FoldNodes: takes its checks and its writes as one step, as Merges.MergeService.UnfoldNodes does.
- Merges.MergeService.UnfoldNodes: looks for a blocker in the same step as it writes.
- CollectionTurns.NoStarvation: a rescheduled source is taken to become due after the pass's reading, which a jitter of 100 per cent or more could break; a source with no due time at all gets one at the reading, which may be in the past. Without time for the first unstuck source in every pass it is not promised (see CollectionTurns.RefusedSourceStarves).
- EnvLocal.ShellAgreesExactly: names that are not plain identifiers are loaded by Python and not printed for a shell.
- MergeRuns.UnheldTieIsAtItsBase: asks that no overtaken merge was reversed, which MergeRuns.RunInPlaceExactly shows is needed.
- SeedNetwork.ReplayIsFaithful: the search for a new handle stops after a number of tries that the run is given, and the run is then marked stalled; the original would go on drawing. The generator's own algorithms are a parameter.
- SeedShape.FlagshipIsStructured: says nothing of a tie's weight, its claim's observation date or a member's selectors, which SeedScript.Seeder.BuildNetwork ties to the builder alone.
- SeedNetwork.NewHandle: stops after that number of tries.
- SeedScript.Seeder.FindHandle: stops after that number of tries.
- SeedRegrade.SecondRunExactly: claims recorded at one instant are taken in the order they were recorded, and the regrade's report is not kept.
- The message text, argument parsing, file modes and ownership of the scripts.
- The window of a verifier run that starts at a given number (`since_seq`), and the counts in its report.
- The audit rows, notifications and reader-filtered listings of a merge, and which ties a reader may see beyond the set the merge is given.
- The custody verifier (apps/api/src/noctornal_api/custody_verify.py:190-394) is the same checks over the other table and is modelled once.
- Cryptography, Argon2, code generation, git, pg_dump, object storage, mail and process signals other than "stop may be set now".
- Row-level security, grants, search vectors, seeded vocabularies and approval requests.
- The act queue, adapters, leases and outbound requests behind a poll: a poll is what it answers and how long it takes.
