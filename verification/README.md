# Verified model of the public-data collectors

This project models the parts of the repository where a wrong step loses or misreports data, and proves
what those parts promise over whole runs. Each module follows one component.

| modules | component |
|---|---|
| `SpotBook`, `ProBook`, `StandardSession` | the three order-book boundaries: Binance overlapping ranges, Bitvavo Pro exact ranges, Bitvavo Standard nonces with its acknowledgement and snapshot protocol |
| `ReconnectLedger`, `SocketDrain` | the Binance reconnect budget, and the socket drain with the session that consumes from it |
| `CatalogLexer`, `CatalogRendering`, `CatalogGaps`, `CatalogParser`, `CatalogRoundTrip`, `CatalogPieces`, `CatalogWriter`, `CatalogRefusals`, `CatalogViews` | the catalog lexer and parser, and the pipeline's own catalog writer and the views it renders against them |
| `LogicalPath`, `GlobExpand` | logical paths, glob expansion and the selection of files |
| `Manifests`, `Publication`, `PublicationRuns`, `RefusedPublications`, `SpoolCleanup`, `CleanupRace` | create-only publication of closed chunks with the manifest it writes, the offline audit of a copy, and cleanup of the spool |
| `Supervisor`, `SupervisorClaims`, `SupervisorBudget`, `SupervisorGuard`, `SupervisorWitnesses` | the campaign supervisor over process lives and host boots |
| `PaperLifecycle`, `PaperVerification` | the bounded PAPER strategy, its independent check, and the cost overlay |
| `FundingBuckets`, `ReconnectClusters`, `CoinbaseSession` | hourly funding buckets, reconnect burst counts, Coinbase trade coverage |

Objects the program updates in place are classes here, their methods proved against a function on the
object's abstract value (`Ingest`, `Accept`, `Step`, `Decide`, `BookOf`, `Next`); loops stay loops. What is
promised over runs is then a lemma about every sequence of calls. Three protocols run concurrently or across
crashes and are step machines instead: the socket drain, publication with cleanup, and the supervisor. Their
theorems quantify over every sequence of enabled steps, so over every interleaving, and a process that takes
no further step has crashed there. Automatic induction is off for every lemma: where a proof is by
induction, its recursive call is in its body.

## What the proofs found

Where a property one would expect does not hold, the model keeps the code's behaviour, shows a concrete
input, and proves when the property does hold.

- A changed spool file can be unlinked. The identity check and the unlink of
  `remove_verified_spool_duplicate` are two calls; a file rewritten in between is removed although neither
  copy holds its content (`CleanupRace.ChangedFileIsUnlinked`). What is unlinked is the snapshotted file if
  and only if nothing touched the name in that window (`SpoolCleanup.UnlinkTakesTheSnapshottedFile`). The
  snapshotted content is kept twice in either case (`SpoolCleanup.UnlinkedFilesAreKeptTwice`).
- A publication can get past its final link and fail every audit of it. Audit and cleanup ask for a nonempty
  inventory and read at most 16 MiB of a manifest, the publisher asks for neither. A copy untouched since its
  reading back began is audited if and only if it was published, has a file, and its manifest is at most
  16 MiB long (`SpoolCleanup.AuditAgreesWithPublication`). That length follows from the snapshot and the
  arguments: a publication of any spool within the bounds can run to its end, and what it then leaves is
  audited if and only if the manifest known before the call meets both conditions
  (`PublicationRuns.QuietPublicationIsAuditedIff`). Both fail for concrete spools: an empty one
  (`RefusedPublications.EmptySpoolFailsAudit`) and one of the 50,000 files allowed under paths of 80
  characters (`RefusedPublications.FullSpoolFailsAudit`). The first exception is one of the function: its one
  caller requires terminal health and adds three files before it publishes (collector_runtime.py:506-538).
- A supervisor stopped while it recovers from a reboot is not stopped for that boot: the campaign in its
  document is of the earlier boot, so the next start in the same boot goes on
  (`SupervisorWitnesses.StopIsLeftInTheSameBoot`). In every reachable world a stop can be left without a reboot
  or a pause if and only if the campaign in the document is of another boot (`SupervisorClaims.StopIsLeftIff`).
- The adopted campaign can be stopped (`SupervisorWitnesses.AdoptedCanBeStopped`). A step stops it if and only
  if it is the process going on from where boot recovery closes the old campaign, with the adopted container
  running there (`SupervisorClaims.AdoptedIsStoppedIff`); over runs, the last reboot has then brought that
  container back, and cleanup never does it (`SupervisorClaims.OnlyBootRecoveryStopsTheAdopted`).
- The retry budget does not bound transport failures by itself: a boot recovery settles a failure without using
  a retry. Its guard refuses a campaign whose runtime recorded that it failed, unless a graceful stop of it is on
  record; a campaign classified with that record is never recovered
  (`SupervisorGuard.RecordedFailureIsNeverRecovered`), so while every classified failure was recorded, at most
  budget and one campaigns are classified without a completion, whatever reboots there are
  (`SupervisorGuard.RecordedFailuresAreWithinBudget`). Right after a reboot with a classified failure open the
  budget can be exceeded if and only if that guard lets the campaign pass
  (`SupervisorGuard.GuardDecidesTheBudget`). It does so for a runtime that ended before it could record its
  failure, as one that is killed (`SupervisorWitnesses.RecoveryExceedsTheBudget`); in any run the excess is at
  most the number of campaigns recovered so (`SupervisorClaims.ClassifiedFailuresAreBounded`).
- A Binance snapshot that ends exactly before a buffered update would replay without a gap but is refused by
  the join test (`SpotBook.BoundarySnapshotIsRefused`); `SpotBook.BootstrapEqualsReplay` has the exact
  condition.
- The Bitvavo Standard acknowledgement gate has a hole: in a session that did not subscribe to candles a
  candle frame is stored unacknowledged (`StandardSession.GateIsCompleteIffCandlesSubscribed`).
- The drain's idle verdict does not always end the session. At the idle check of any run it binds the session to
  end as starved if and only if some stream found silent is not that of a frame on its way
  (`SocketDrain.IdleBindsIff`). Otherwise the session can find every stream alive, with the silent stream's frame
  being stored (`SocketDrain.IdleWhileStoring`) or still in the race that waits for it
  (`SocketDrain.IdleWhileRacing`), and then goes round without an await until some stream has been silent for the
  threshold again (`SocketDrain.GoesRoundUntilSilent`).
- A file can be expanded from a pattern while the matcher refuses to look at its path: one whose name holds a
  wildcard character (`GlobExpand.WildcardNameIsExpandedButRefused`). Traversal and matcher agree on a file if
  and only if its logical path is safe or it is not expanded (`GlobExpand.ExpansionAgreesWithMatcher`). A path
  of names in a listing is safe exactly when it has at most 4096 characters, ends in `.parquet`, and has no
  wildcard, backslash or control character in it (`GlobExpand.LookedAtIffSafe`).
- The pipeline writes views its reader does not understand, and catalogs it does not read at all. A view the
  pipeline renders is understood if and only if its name has at most 127 characters, whatever its files
  (`CatalogViews.RenderedIsUnderstoodIff`). Reading a view from the catalog of an archive gives that view if and
  only if its own name has at most 127 characters, no name has more than 128, and no two views have the same name;
  otherwise nothing is read (`CatalogViews.ArchiveIsReadIff`). One directory with a long name, or two whose names
  differ in case only, close the whole catalog (`CatalogViews.OneViewClosesTheCatalog`).

## Assumptions

- A content change changes the file identity, identities are never given out again, the digest is injective,
  and a sealed destination is not altered afterwards. Before it is sealed the environment may do anything to
  a destination. What is done to it before its publisher reads it back is caught there; what is done between
  reading back and sealing is caught by cleanup, which reads every file again.
- The reconnect ledger is called with a nondecreasing clock.
- A directory listing is complete and names each entry once. The pattern matcher of the host language is a
  parameter; of it the traversal needs only that a component without wildcards matches itself and nothing else.
- No symbolic link lies on the way to a file of the archive, and no file or directory name has more than 255
  characters.
- A collector runtime that is started over a campaign that has begun gives up before it writes anything, and
  nothing else writes to a campaign's status.
- The sandbox engine fills each PAPER order in full at the tick that submits it.
- Prices, quantities, rates and costs are exact reals.

## Model

| member | source | states |
|---|---|---|
| `SpotBook.SpotBookState.IngestUpdate` | src/hyperliquid_bot/binance_public_research.py:427-468 | One depth update changes the book and answers as `Ingest` says: stale updates are dropped; a gap, an overflow or disorder is refused and clears the book |
| `SpotBook.SpotBookState.AcceptSnapshot` | src/hyperliquid_bot/binance_public_research.py:470-517 | The in-place join of a snapshot with the buffer equals the recursive `Accept`, including every refusal and what it clears |
| `SpotBook.SpotBookState.Clear` | src/hyperliquid_bot/binance_public_research.py:519-523 | The book is back at its initial state |
| `SpotBook.CoverageOverRuns` | src/hyperliquid_bot/binance_public_research.py:427-523 | In every run each id after the installed snapshot up to the cursor lies in the range of an emitted advancing update, and the validated counter is the number of those |
| `SpotBook.StepIsMonotone` | src/hyperliquid_bot/binance_public_research.py:454-523 | The cursor never moves back while a snapshot stays, every fault of the book resets it, and only a document the normalizer refuses leaves it alone |
| `SpotBook.BootstrapEqualsReplay` | src/hyperliquid_bot/binance_public_research.py:454-517 | On every reachable buffer a snapshot is installed exactly when it is not too old, reaches into the first newer update and replays without a gap; book and frames are then those of feeding the buffer through the live path |
| `SpotBook.BoundarySnapshotIsRefused` | src/hyperliquid_bot/binance_public_research.py:486-494 | A concrete buffer and a snapshot ending on its boundary that replays cleanly but is refused |
| `SpotBook.HandleDepth` | src/hyperliquid_bot/binance_public_research.py:1861-1954 | A depth call that returns leaves a snapshot installed and the buffer empty; which fetch was used, what exhausting the retries leaves, and which faults cannot occur |
| `ProBook.BookState.IngestUpdate` | src/hyperliquid_bot/bitvavo_mdpro_research.py:374-408 | One update is buffered, emitted or refused as `Ingest` says, each refusal but a malformed document clearing the book |
| `ProBook.BookState.AcceptSnapshot` | src/hyperliquid_bot/bitvavo_mdpro_research.py:410-450 | The loop over the buffer equals the recursive join, with the fault of the first update that does not follow |
| `ProBook.BookState.RequireNext` | src/hyperliquid_bot/bitvavo_mdpro_research.py:452-464 | The book is cleared exactly when the start does not directly follow |
| `ProBook.EmittedUpdatesTile` | src/hyperliquid_bot/bitvavo_mdpro_research.py:374-470 | In every run an id lies in an emitted update exactly when it lies after the snapshot and not after the cursor, and in one update only |
| `ProBook.SnapshotVerdict` | src/hyperliquid_bot/bitvavo_mdpro_research.py:410-464 | On every reachable nonempty buffer over [a,b] a snapshot s is accepted if and only if s >= a-1 and s >= b or s+1 starts a buffered update; which fault otherwise, and the cursor after |
| `StandardSession.BookState.IngestUpdate` | src/hyperliquid_bot/bitvavo_standard_research.py:265-302 | One nonce is buffered, emitted or refused as `Ingest` says |
| `StandardSession.BookState.AcceptSnapshot` | src/hyperliquid_bot/bitvavo_standard_research.py:304-340 | A snapshot is installed, asked for again or refused as `Accept` says |
| `StandardSession.ReceiveSession.OnFrame` | src/hyperliquid_bot/bitvavo_standard_research.py:738-875 | One inbound frame changes session and book, and leads to an output, as `Step` says |
| `StandardSession.RequestProtocol` | src/hyperliquid_bot/bitvavo_standard_research.py:738-930 | In every session request ids are 1,2,3,... within the bound, at most one outstanding and none after a snapshot, none before all channels are acknowledged; emitted nonces are consecutive from the snapshot to the cursor |
| `StandardSession.SnapshotReplyVerdict` | src/hyperliquid_bot/bitvavo_standard_research.py:795-829 | Exactly which reply installs a snapshot; the branches "could not join" and "outside bootstrap" are never reached |
| `StandardSession.StoredFramesAreAcknowledged` | src/hyperliquid_bot/bitvavo_standard_research.py:764-791 | Whatever is stored came on an acknowledged channel, except candles in a session without them |
| `StandardSession.GateIsCompleteIffCandlesSubscribed` | src/hyperliquid_bot/bitvavo_standard_research.py:764-791 | The acknowledgement gate has no exception if and only if candles are subscribed to |
| `ReconnectLedger.Ledger.Admit` | src/hyperliquid_bot/binance_public_research.py:248-313 | The pruned ledger decides every request as the complete history would, and records it exactly when admitted |
| `ReconnectLedger.Ledger.Prune` | src/hyperliquid_bot/binance_public_research.py:257-273 | The three counts reported are those of the complete history in their windows |
| `ReconnectLedger.Ledger.Record` | src/hyperliquid_bot/binance_public_research.py:301-305 | The pruned lists still stand for the history with the new attempt |
| `ReconnectLedger.Ledger.OthersToo` | src/hyperliquid_bot/binance_public_research.py:267-271 | Summing over all profiles counts every attempt of the process once |
| `ReconnectLedger.PruneThenLater` | src/hyperliquid_bot/binance_public_research.py:316-317 | Pruning at one time is invisible to every later question |
| `ReconnectLedger.WindowBudgets` | src/hyperliquid_bot/binance_public_research.py:236-317 | In every run at most 6 reconnects per profile and 15 overall fall in any half-open 300 s window, and at most 8 pong or starvation ones per profile in any 3600 s window |
| `ReconnectLedger.RefusalIsInert` | src/hyperliquid_bot/binance_public_research.py:274-300 | A refused request can be struck from any run without changing a later decision |
| `SocketDrain.FramesAreConserved` | src/hyperliquid_bot/binance_public_research.py:1127-1235 | In every interleaving received frames are those consumed, at most one in the race, the queue and at most one in the drain's hand, in order; the queue keeps its bound and a put never finds it full |
| `SocketDrain.NothingIsReportedEarly` | src/hyperliquid_bot/binance_public_research.py:1190-1287 | No frame, a stop, starvation or the drain's error is reported only when every received frame was consumed |
| `SocketDrain.NeverParkedForGood` | src/hyperliquid_bot/binance_public_research.py:1190-1287 | Once the drain has finished, no session waiting on it or on the queue is stuck |
| `SocketDrain.IdleBindsIff` | src/hyperliquid_bot/binance_public_research.py:1163-1165 | At the idle check of every run: the session is bound to end as starved if and only if some stream found silent does not belong to a frame being stored or in the race |
| `SocketDrain.EndsStarvedIff` | src/hyperliquid_bot/binance_public_research.py:1272-1278 | What becomes of such a session: handed nothing by the idle drain it ends as starved if and only if it was so bound, or another required stream has fallen silent since |
| `SocketDrain.GoesRoundUntilSilent` | src/hyperliquid_bot/binance_public_research.py:1190-1287 | A session told to go on after idle comes back to the same state having taken nothing, until a required stream has been silent for the threshold; then it ends as starved |
| `SocketDrain.IdleWhileStoring` | src/hyperliquid_bot/binance_public_research.py:1163-1165 | For any frame of the one required stream: a schedule in which idle is declared while that frame is being stored and the session then goes round |
| `SocketDrain.IdleWhileRacing` | src/hyperliquid_bot/binance_public_research.py:1225-1235 | The same with the frame taken by the racing read and not handed over yet |
| `CatalogLexer.NextStatement` | src/hyperliquid_bot/catalog_readiness.py:143-167 | The cursor loop agrees with the recursive reading of the rest of the text, and moves strictly forward for every statement |
| `CatalogLexer.ReadingIsLossless` | src/hyperliquid_bot/catalog_readiness.py:143-167 | What is read between two statements is a token by token reading of the text with nothing skipped; the statement is that reading without trivia and terminator |
| `CatalogRendering.GapIsSkipped` | src/hyperliquid_bot/catalog_readiness.py:31-37 | Any mixture of whitespace and comments between tokens leaves the reading of what follows unchanged |
| `CatalogRendering.StatementIsRead` | src/hyperliquid_bot/catalog_readiness.py:143-161 | A statement written with any gaps is read back as exactly its tokens |
| `CatalogParser.ParseDefinition` | src/hyperliquid_bot/catalog_readiness.py:170-221 | The cursor parser returns what the recursive reading of a definition returns, or nothing |
| `CatalogParser.ParseSource` | src/hyperliquid_bot/catalog_readiness.py:195-204 | The path or bracketed list is read with the cursor behind it |
| `CatalogParser.ParseCatalog` | src/hyperliquid_bot/catalog_readiness.py:224-277 | The loop over statements gives the definition, the counts and the faults of driving them one by one |
| `CatalogRoundTrip.DefinitionIffSpelled` | src/hyperliquid_bot/catalog_readiness.py:170-221 | A token list is accepted as a definition if and only if it spells that definition in the view grammar |
| `CatalogRoundTrip.EndIsFlag` | src/hyperliquid_bot/catalog_readiness.py:205-218 | Every spelling of the end of a definition is read as its option, with the cursor at the closing parenthesis and nothing behind it |
| `CatalogRoundTrip.FlagIsEnd` | src/hyperliquid_bot/catalog_readiness.py:205-218 | Whatever is read as an option and closed is such a spelling |
| `CatalogRoundTrip.QuotedPathIsRead` | src/hyperliquid_bot/catalog_readiness.py:183-190 | A path written with its quotes doubled is one token and is read back as that path |
| `CatalogRoundTrip.CatalogIsAccounted` | src/hyperliquid_bot/catalog_readiness.py:224-277 | Any catalog of view statements, however written, gives the selected definition if it is there and understood, and accounts for every other view in order |
| `CatalogRoundTrip.RoundTrip` | src/hyperliquid_bot/catalog_readiness.py:143-277 | A catalog rendered from distinct supported names and valid definitions parses back to the selected definition with every view counted as supported |
| `CatalogWriter.PrintedIsRead` | src/hyperliquid_bot/catalog_readiness.py:143-277 | Every list of distinct supported names and valid definitions can be printed as text, and that text parses to the selected view's definition with every view counted as supported |
| `CatalogWriter.MergedIsAccounted` | src/research/hist_etl/catalog.py:179-208 | Whatever well-written views stood there before, with any whitespace and comments behind the last or nothing but them, the merged text parses to the account of the earlier views followed by the printed ones |
| `CatalogWriter.ViewIsUnderstoodIff` | src/hyperliquid_bot/catalog_readiness.py:170-221 | The reader gets a printed view's own definition if and only if its name is supported and every reference safe, and nothing otherwise |
| `CatalogViews.RenderedIsPrinted` | src/research/hist_etl/catalog.py:365-371 | The statement the pipeline renders for a view over its files is the printed view of those files in the archive; it refuses exactly bad names and empty lists |
| `CatalogGaps.StrippedTailGoesOn` | src/research/hist_etl/catalog.py:205-206 | Whatever may end a catalog, cut at its trailing whitespace, is closed by the line break behind it: no open comment swallows the generated block |
| `CatalogRefusals.PrintedIsAccounted` | src/hyperliquid_bot/catalog_readiness.py:224-277 | Every printed catalog within the limits is accounted for view by view if its names are short enough and different, and refused as a whole otherwise |
| `CatalogViews.RenderStatements` | src/research/hist_etl/catalog.py:116-163 | The walk over the archive renders the statement of every view in order, or fails exactly when some name is refused |
| `CatalogViews.FileIsSafe` | src/research/hist_etl/catalog.py:318-362 | Every file of a feed whose view name is accepted is a safe reference of the reader |
| `CatalogViews.RenderedIsUnderstoodIff` | src/research/hist_etl/catalog.py:116-163 | The reader gets a rendered view's own definition if and only if its name has at most 127 characters, and nothing otherwise |
| `CatalogViews.ArchiveIsReadIff` | src/hyperliquid_bot/catalog_readiness.py:224-277 | A view of the catalog of any archive is read back with every view accounted for if and only if its name has at most 127 characters, none has more than 128 and no two are equal; otherwise the catalog is refused |
| `CatalogViews.OneViewClosesTheCatalog` | src/research/hist_etl/catalog.py:143-156 | Two concrete archives whose catalog is refused for one view of a pair directory, though the other view is in order |
| `CatalogPieces.ViewIsWritten` | src/research/hist_etl/catalog.py:365-371 | A printed view is well written whatever gap stands before it: no token runs into the next |
| `CatalogPieces.ViewTextIsSpelled` | src/research/hist_etl/catalog.py:365-371 | The text of a printed view is exactly its pieces |
| `LogicalPath.SplitJoin` | src/hyperliquid_bot/catalog_readiness.py:125-126 | Joined parts without separators split back into themselves |
| `LogicalPath.JoinSplit` | src/hyperliquid_bot/catalog_readiness.py:125-126 | Every text is the join of its parts |
| `GlobExpand.VisitAll` | src/hyperliquid_bot/catalog_readiness.py:472-489 | The loop over the children of a directory: what it collects, when the entry limit stops it, and that any other fault means a named entry of the wrong kind |
| `GlobExpand.ScanDirectory` | src/hyperliquid_bot/catalog_readiness.py:469-489 | What one directory contributes splits the wanted files below it, costs what it lists, and a fault means the tree cannot be expanded |
| `GlobExpand.Traverse` | src/hyperliquid_bot/catalog_readiness.py:467-489 | The stack traversal terminates, succeeds exactly on a good tree within what is left of the entry limit, reports what it used, and yields exactly the matching files, each once |
| `GlobExpand.Expand` | src/hyperliquid_bot/catalog_readiness.py:462-489 | Expansion succeeds if and only if the reference is safe, bound, shallow enough and resolvable within what earlier expansions left of the limit, and then yields exactly the matching regular files, each once |
| `GlobExpand.Choose` | src/hyperliquid_bot/catalog_readiness.py:525-532 | The files of one more reference are added exactly when none was chosen before and the file limit holds |
| `GlobExpand.SelectFiles` | src/hyperliquid_bot/catalog_readiness.py:521-534 | All references together select exactly their files, each once, if and only if each resolves and names a file, none overlap, and entries and files stay within their limits |
| `GlobExpand.ExpansionAgreesWithMatcher` | src/hyperliquid_bot/catalog_readiness.py:393-400 | On a regular file traversal and matcher agree if and only if its logical path is safe or it is not expanded; expanded paths stay below the root |
| `GlobExpand.LookedAtIffSafe` | src/hyperliquid_bot/catalog_readiness.py:125-142 | A path of listed names is looked at exactly when it is short enough, a Parquet file, and free of wildcard, backslash and control characters |
| `GlobExpand.WildcardNamesAreRefused` | src/hyperliquid_bot/catalog_readiness.py:137-138 | The matcher refuses every file with a wildcard character in its own name |
| `GlobExpand.WildcardNameIsExpandedButRefused` | src/hyperliquid_bot/catalog_readiness.py:137-138 | A concrete tree and pattern whose traversal yields a file that the matcher refuses |
| `Publication.CopyIsKept` | src/hyperliquid_bot/collector_storage.py:170-220 | Opening, checking, copying block by block and finishing a file keep the publication invariant: while the open file is still the snapshotted one the copy is a beginning of its content, and every finished record describes the snapshotted content |
| `Publication.SealIsKept` | src/hyperliquid_bot/collector_storage.py:256-298 | Catalogue, re-verification, inventory, manifest, marker and link keep it |
| `Publication.PublishIsPlaced` | src/hyperliquid_bot/collector_storage.py:223-299 | Every step of a publisher keeps the invariant that ties its stage to what its destination holds |
| `Publication.PlacedEvolves` | src/hyperliquid_bot/collector_storage.py:192-207 | Nothing done to the source by others breaks that invariant |
| `Publication.PublishTouchesItsOwn` | src/hyperliquid_bot/collector_storage.py:243 | A publisher writes only to a directory it reserved itself |
| `Publication.SealedIsLeftAlone` | src/hyperliquid_bot/collector_storage.py:283-299 | No step of any publisher alters a directory past its final link |
| `Publication.AuditCopy` | src/hyperliquid_bot/collector_continuous_audit.py:53-104 | The loop over the records accepts exactly a linked seal over a manifest of at most 16 MiB, a nonempty exact inventory and matching bytes for every record |
| `Publication.SealedCopy` | src/hyperliquid_bot/collector_continuous_audit.py:51-117 | The whole audit of one copy accepts exactly that, together with the expected provenance and relocation binding, accepted terminal health and the plan the provenance names |
| `Publication.PublishedAsPlanned` | src/hyperliquid_bot/collector_storage.py:244-277 | The manifest of a finished publication is the one that follows from its snapshot, its arguments and the catalogue it made |
| `Publication.AuditIffPublished` | src/hyperliquid_bot/collector_storage.py:223-299 | A copy untouched since its publisher began to read it back passes that audit if and only if its publication finished, had a file, and has a manifest of at most 16 MiB; earlier damage is caught by the reading back |
| `Publication.CopyAcceptedIff` | src/hyperliquid_bot/collector_continuous_audit.py:51-117 | Such a copy passes the whole audit if and only if it was published with a manifest of at most 16 MiB, names the expected origin, and the snapshotted capture ended in accepted health under the planned window |
| `Publication.TwinRecords` | src/hyperliquid_bot/collector_storage.py:244-259 | Two publications of one snapshot have the same records apart from the catalogue |
| `SpoolCleanup.VerifiedHasCopies` | src/hyperliquid_bot/collector_storage.py:316-341 | A verified copy holds, byte for byte, the content of every snapshotted raw file |
| `SpoolCleanup.UnlinkIsOk` | src/hyperliquid_bot/collector_storage.py:347-356 | An unlink is logged with what it should have removed and what it did, and both copies exist at that moment |
| `SpoolCleanup.NextKeeps` | src/hyperliquid_bot/collector_storage.py:223-370 | Every step of any publisher, cleaner or the environment keeps the invariant of the whole system |
| `SpoolCleanup.UnlinkedFilesAreKeptTwice` | src/hyperliquid_bot/collector_storage.py:302-356 | In every interleaving, wherever it stops, each unlinked raw file has its snapshotted content in two distinct sealed destinations |
| `SpoolCleanup.UnlinkTakesTheSnapshottedFile` | src/hyperliquid_bot/collector_storage.py:347-356 | What is unlinked is the snapshotted file if and only if nothing changed the name between the check and the unlink |
| `SpoolCleanup.AuditAgreesWithPublication` | src/hyperliquid_bot/collector_continuous_audit.py:21-117 | In every reachable state a destination untouched since its reading back began passes the structural audit if and only if its publication got past the final link with at least one file and a manifest of at most 16 MiB |
| `SpoolCleanup.AuditAcceptsIff` | src/hyperliquid_bot/collector_continuous_audit.py:51-117 | The same for the whole audit of a copy, in every reachable state: the conditions are on what was published and snapshotted, not on the copy |
| `SpoolCleanup.TwinCopiesAgree` | src/hyperliquid_bot/collector_continuous_audit.py:126-141 | Two such finished copies of one unchanged chunk, their manifests of at most 16 MiB, pass the pair check if and only if the first has a catalogue, the second has none and there is a raw file |
| `SpoolCleanup.PairIsAuditedIff` | src/hyperliquid_bot/collector_continuous_audit.py:126-141 | Two such finished copies pass the whole audit of their chunk if and only if both manifests are at most 16 MiB long, only the first has a catalogue, both name the expected origin, and health and plan of the snapshot are accepted |
| `PublicationRuns.QuietPublicationFinishes` | src/hyperliquid_bot/collector_storage.py:223-299 | From every state whose spool keeps the bounds a new publication can run to its end, and leaves the sealed directory that follows from the snapshot and its arguments |
| `PublicationRuns.QuietPublicationIsAuditedIff` | src/hyperliquid_bot/collector_continuous_audit.py:51-104 | That directory is audited if and only if the manifest known before the call names a file and is at most 16 MiB long |
| `CleanupRace.ChangedFileIsUnlinked` | src/hyperliquid_bot/collector_storage.py:347-356 | A reachable state in which a changed file was unlinked and its content is in no destination |
| `RefusedPublications.EmptyPublicationFailsAudit` | src/hyperliquid_bot/collector_storage.py:223-299 | Wherever a run has got to with an empty spool, a new publication can go on to its final link undisturbed and be refused by the audit |
| `RefusedPublications.EmptySpoolFailsAudit` | src/hyperliquid_bot/collector_continuous_audit.py:51-104 | In particular from the start, over a spool that never held a file |
| `RefusedPublications.ManifestIsWide` | src/hyperliquid_bot/collector_storage.py:100-118 | How long a manifest is at least, from the number of its files and identities and the length of their paths |
| `RefusedPublications.FullSpoolFailsAudit` | src/hyperliquid_bot/collector_continuous_audit.py:53 | A publication of 50,000 empty files under paths of 80 characters can go on to its final link undisturbed and be refused for the length of its manifest |
| `Supervisor.BackoffGrowsToItsCap` | src/hyperliquid_bot/collector_continuous.py:573-575 | Waits never shrink and are capped at 900 s from the sixth retry on |
| `Supervisor.NextKeeps` | src/hyperliquid_bot/collector_continuous.py:823-1442 | Every step of the supervisor, its host and its operator keeps the invariant of document, memory, container and log |
| `SupervisorClaims.LaunchesFollowAudits` | src/hyperliquid_bot/collector_continuous.py:1146-1148 | In every run a launch replaces a campaign that is not running and whose closed copies passed an audit since the last launch and the last reboot |
| `SupervisorClaims.ClassifiedFailuresAreBounded` | src/hyperliquid_bot/collector_continuous.py:1307-1344 | In every run the campaigns classified as transport failures in a stretch without an accepted completion number at most the retry budget, one, and those of them a boot recovery took on with no retry granted; each is classified from the health of every lane |
| `SupervisorClaims.RetriesAreBounded` | src/hyperliquid_bot/collector_continuous.py:1337-1344 | No stretch of any run without an accepted completion holds more retries than the budget |
| `SupervisorClaims.StoredCountIsTrue` | src/hyperliquid_bot/collector_continuous.py:1336-1343 | Except after a pause the stored count is the number of retried failures since the last completion, and within the budget |
| `SupervisorClaims.ExhaustionEndsLaunches` | src/hyperliquid_bot/collector_continuous.py:1337-1340 | After a failure classified with the budget used up, in any run, nothing is launched before an accepted completion or a boot recovery |
| `SupervisorClaims.ExhaustionOnlyPauses` | src/hyperliquid_bot/collector_continuous.py:1337-1340 | Until something is started again, the only document written after that is a paused one |
| `SupervisorClaims.LaunchesAreGrounded` | src/hyperliquid_bot/collector_continuous.py:1392-1423 | A whole run has no more launches than completions, retries and boot recoveries together, any stretch of it at most one more |
| `SupervisorClaims.PausedForGood` | src/hyperliquid_bot/collector_continuous.py:1392-1395 | A paused document stays paused and nothing is launched, across starts, commands and reboots |
| `SupervisorClaims.StopIsLeftIff` | src/hyperliquid_bot/collector_continuous.py:1396-1405 | In every reachable world a stop can be left without a reboot or a pause if and only if the campaign in the document is of another boot; otherwise the document stays and nothing is launched |
| `SupervisorClaims.NextStartResumes` | src/hyperliquid_bot/collector_continuous.py:1396-1405 | A document stopped with a campaign of another boot is left by the next start |
| `SupervisorClaims.AdoptedIsStoppedIff` | src/hyperliquid_bot/collector_continuous.py:1352-1374 | A step of any run stops the adopted campaign if and only if the process goes on from where boot recovery closes the old campaign with the adopted container running |
| `SupervisorClaims.OnlyBootRecoveryStopsTheAdopted` | src/hyperliquid_bot/collector_continuous.py:1352-1374 | In every run a stop of the adopted campaign is by boot recovery, and the last reboot before it had brought that campaign back; never by cleanup |
| `SupervisorWitnesses.AdoptedCanBeStopped` | src/hyperliquid_bot/collector_continuous.py:844-846 | A reachable state in which boot recovery has stopped the adopted campaign |
| `SupervisorWitnesses.StopIsLeftInTheSameBoot` | src/hyperliquid_bot/collector_continuous.py:1396-1405 | A reachable stop, made during boot recovery, that can be left in the same boot |
| `SupervisorBudget.NextBooks` | src/hyperliquid_bot/collector_continuous.py:823-1442 | Every step keeps the books: a classified campaign lies in the container with its runtime gone, only classified campaigns are granted a retry and each once, and none that was recorded as failed is recovered or stopped gracefully |
| `SupervisorGuard.RecordedFailureIsNeverRecovered` | src/hyperliquid_bot/collector_continuous.py:870-889 | In every run, a campaign classified as failed after its runtime recorded the failure is never taken on by boot recovery |
| `SupervisorGuard.RecordedFailuresAreWithinBudget` | src/hyperliquid_bot/collector_continuous.py:1337-1344 | In every stretch of any run without an accepted completion in which every classified failure was recorded, at most budget and one campaigns are classified, reboots included |
| `SupervisorGuard.GuardDecidesTheBudget` | src/hyperliquid_bot/collector_continuous.py:870-914 | In every world a run can reach right after a reboot with a classified failure open: the budget can be exceeded if and only if the guard lets the campaign pass; if not, nothing is classified, settled or launched ever again |
| `SupervisorWitnesses.RecoveryExceedsTheBudget` | src/hyperliquid_bot/collector_continuous.py:870-889 | A reachable world with no retry allowed in which more than one campaign was classified as failed without a completion, the first by a runtime that recorded nothing of it |
| `SupervisorWitnesses.RecordedFailureIsRefused` | src/hyperliquid_bot/collector_continuous.py:885-888 | A reachable world right after a reboot whose classified failure was recorded, so that the guard refuses it |
| `PaperLifecycle.LoadTicks` | fit_gates/d41_nautilus/fit_gate.py:845-866 | Ticks keep capture order and price, their clock strictly increases, and it leaves the receive time only to step one past the tick before |
| `PaperLifecycle.EntryDecision` | fit_gates/d41_nautilus/fit_gate.py:526-532 | For any configuration the entry is decided at the first tick from the warm-up on whose price differs from the one before, or never |
| `PaperLifecycle.SmokeStrategy.OnTradeTick` | fit_gates/d41_nautilus/fit_gate.py:504-575 | For any warm-up, holding time, quantity and record limit, after every tick all fields are those told from the ticks alone: signals, orders, fills, position, what is pending, and the inputs recorded up to the limit |
| `PaperLifecycle.PendingIsSubmitted` | fit_gates/d41_nautilus/fit_gate.py:577-627 | Submitting and filling what is pending, at the next tick, is what turns the book told from the ticks into the book of one more tick |
| `PaperLifecycle.Replay` | fit_gates/d41_nautilus/fit_gate.py:504-575 | A whole run of any configuration leaves the strategy in the state told from its ticks |
| `PaperLifecycle.CompletesIff` | fit_gates/d41_nautilus/fit_gate.py:479-488 | A run of any configuration completes if and only if the price moved late enough after the warm-up and enough ticks follow for its holding time |
| `PaperLifecycle.OrdersAreDeferred` | fit_gates/d41_nautilus/fit_gate.py:504-607 | At most two orders, each submitted one tick after its signal and filled there, the second opposite, of equal quantity and reduce-only |
| `PaperVerification.CostOverlay` | fit_gates/d41_nautilus/fit_gate.py:735-775 | Equity is starting cash plus every fill's gain at the mark, less costs in proportion to turnover and less funding |
| `PaperVerification.EquityOfAnyFills` | fit_gates/d41_nautilus/fit_gate.py:735-775 | With the default assumptions net profit is the gain less six basis points of the turnover, for any fills |
| `PaperVerification.FindExecution` | fit_gates/d41_nautilus/fit_gate.py:1353-1361 | A tick is found exactly when one and only one has the time stamp |
| `PaperVerification.CheckLeg` | fit_gates/d41_nautilus/fit_gate.py:1330-1367 | One order is accepted exactly when signal, intent, fill and executing tick agree |
| `PaperVerification.CheckReports` | fit_gates/d41_nautilus/fit_gate.py:1378-1423 | The engine's reports are accepted exactly when order and fill reports match the recorded intents and fills one by one and some position report is flat |
| `PaperVerification.ValidateLifecycle` | fit_gates/d41_nautilus/fit_gate.py:1281-1435 | An artifact is accepted exactly when its lifecycle, the engine's reports and the recomputed overlay meet the declared conditions |
| `PaperVerification.CompleteRunsAreAccepted` | fit_gates/d41_nautilus/fit_gate.py:1281-1435 | Every complete run of any configuration over strictly increasing ticks passes the check, with reports of orders filled in full under any ids |
| `PaperVerification.AcceptedIsRoundTrip` | fit_gates/d41_nautilus/fit_gate.py:1329-1374 | Every accepted artifact is an opposite-side round trip of one positive quantity whose net profit depends on its two prices only |
| `PaperVerification.ProfitIsOfReportedFills` | fit_gates/d41_nautilus/fit_gate.py:1378-1435 | The net profit of an accepted artifact is that of the engine's own fill reports, each for an order it reports as filled in full |
| `FundingBuckets.BisectLeft` | src/hyperliquid_bot/calendar_research.py:240 | The place that splits a sorted clock at a time |
| `FundingBuckets.Bucket` | src/hyperliquid_bot/calendar_research.py:237-247 | Every event is added to the one hour it belongs to; refused exactly when some event belongs to none |
| `FundingBuckets.AcceptedIffWithinClock` | src/hyperliquid_bot/calendar_research.py:241-244 | On an hourly grid events are accepted if and only if they lie after the hour before it up to its last tick |
| `FundingBuckets.ExposureIsMembership` | src/hyperliquid_bot/calendar_research.py:359-371 | The exposure check can never fail, for any event, entry and exit |
| `FundingBuckets.BucketsGiveExposure` | src/hyperliquid_bot/calendar_research.py:359-374 | For every trade the buckets after entry up to exit add up to the events between the two times, and all buckets hold every rate once |
| `ReconnectClusters.LeadersAreClusters` | src/hyperliquid_bot/capture_observability.py:100-105 | Leaders stand for the connected components of "within the gap" one by one |
| `ReconnectClusters.LinkedIsEquivalence` | src/hyperliquid_bot/capture_observability.py:100-105 | Being joined by steps within the gap is an equivalence on the stamps |
| `ReconnectClusters.AsManyLeadersAsClusters` | src/hyperliquid_bot/capture_observability.py:100-105 | There are as many leaders as equivalence classes of stamps, and every stamp is linked to one leader only |
| `ReconnectClusters.CountWallClockClusters` | src/hyperliquid_bot/capture_observability.py:100-118 | The count is the number of those classes, whatever the order and repetition of the stamps |
| `ReconnectClusters.Group` | src/hyperliquid_bot/capture_observability.py:315-324 | Stamps are filed under their profile and all together, unreadable ones left out |
| `ReconnectClusters.TogetherAtMostApart` | src/hyperliquid_bot/capture_observability.py:325-328 | Merged stamps never have more clusters than their parts have together |
| `ReconnectClusters.ReconnectClusterCounts` | src/hyperliquid_bot/capture_observability.py:296-328 | Every profile's count, the total, and that the total is at most their sum |
| `CoinbaseSession.CoinbaseSessionState.Normalize` | src/hyperliquid_bot/coinbase_public_research.py:122-214 | One message changes the session and gives a frame as `Next` says; a refused message changes nothing |
| `CoinbaseSession.TradeKeepsCoverage` | src/hyperliquid_bot/coinbase_public_research.py:156-187 | A trade that is taken keeps observed ids and reported gaps together covering exactly the ids from first to last |
| `CoinbaseSession.CoinbaseSessionState.Acknowledge` | src/hyperliquid_bot/coinbase_public_research.py:216-252 | The answer is accepted once, and exactly when it names every requested channel for the one product |
| `CoinbaseSession.Session` | src/hyperliquid_bot/coinbase_public_research.py:109-214 | Feeding the object a list of messages gives the frames of the run, or nothing when one is refused |
| `CoinbaseSession.TradesAreCovered` | src/hyperliquid_bot/coinbase_public_research.py:156-187 | Observed ids strictly increase and with the reported gaps, disjoint from them, make up exactly the ids from first to last |
| `CoinbaseSession.SessionIsOrdered` | src/hyperliquid_bot/coinbase_public_research.py:122-214 | The answer comes first and once, one snapshot at most, every book update after it, an anchor only as first trade, heartbeats never back |

## Left out

- Network, HTTP, DuckDB, Parquet, Docker, TrueNAS, chrony, systemd and NautilusTrader calls: their results are inputs or arbitrary outcomes.
- JSON decoding, decimal and timestamp texts and the field normalizers: a document is its ids, or refused.
- POSIX ownership, modes, link counts of single files, symbolic-link walks and fsync: reduced to atomic creation, writing, linking and unlinking; directories are not removed after a cleanup.
- A walk over the spool visits any files in any order and may miss or repeat some, and removal takes any order; both allow more than the code does.
- Publication.SealedCopy: leaves out ownership and link counts of the inventory (collector_continuous_audit.py:21-48) and takes decoded JSON and the spool path a copy should name as inputs.
- The query of the regenerated catalogue and the loop of the audit over chunks and lanes (collector_continuous_audit.py:120-158).
- Publication, cleanup, supervisor and socket drain are models on values: updating the files and the state dictionary in place is not captured, their interleaving is.
- Clocks of the supervisor, and the read timeout of the socket drain: whether a deadline has passed is arbitrary.
- The supervisor's checks of store identities, identities in interrupted metadata, guards, capacity, memory pressure and gap records: any of them may fail at any time, which raises.
- Deadline ticks in catalog parsing and expansion; the check of explicitly requested files against the declared patterns (catalog_readiness.py:508-519) and of physical identities (535-546).
- The pipeline's scan for view names outside its block and the statements it preserves (hist_etl/catalog.py:186-200, 211-235): the merged block is modelled from the views it keeps.
- Letters outside ASCII that the regular expression for view names accepts when ignoring case; for a digit in the month of a file name any character from U+0660 on is taken, which is more than the code takes.
- The sidecar check that decides which month files count, and the choice of funding months by the manifest: a shelf of the archive lists the months that are left.
- The frame reader, raw-record writers and end-of-session checks around the order books.
- PaperVerification.ValidateLifecycle: takes the artifact decoded; malformed and missing fields are not modelled.
- PaperVerification.CompleteRunsAreAccepted: covers runs whose orders are filled in full where they are submitted; partial and late fills are the engine's.
- Funding updates and terminal order events, which the strategy only stores.
- PaperLifecycle.LoadTicks: models the clock only; the other bounds of the dataset loader and the staleness of single trades are per-record checks.
- Wall-clock month-turn pairing, trade collection and walk-forward splits of the calendar study: their source is foreign or they are per-row checks.
