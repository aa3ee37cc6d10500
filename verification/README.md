# Verified models of the incremental code indexer

A Dafny model of the parts of the indexer where a fast or stateful form has to agree with something simpler: shared
symbol rows, fingerprints of operation graphs, the event-driven scheduler and the wave executor, the worker stage, crash
recovery by watermarks, the compressed ChangeSet dictionary, ChangeSet execution, Kbuild conditions, include
reachability, header ordering, batching, and layout rows. `dafny verify dfyconfig.toml` checks all of it.

## What each module is about

**Symbol rows** (`core/SymbolRows.py`). `SymbolModel` holds the six tables and what `symbol_view_rows` returns for them.
`SymbolAttribution` moves items to the innermost tag. `SymbolFinish` defines the database after one `finish()` and proves
the main result, `ViewIsRecorded`: after any history of files, with new and reused tags and either layout chosen per file,
a view holds exactly one row for every item ever recorded, with the target it had in its own file. `SymbolCollector` is the
recorder itself, a class whose `Finish` emits operations; executing them gives the database `SymbolFinish` defines.
`SymbolHistory` composes these from the first call of a parser to the rows of the views. The 64-bit key is an arbitrary
function: nothing in these results assumes that it does not collide. What they ask of targets, that equal fingerprints
resolve to the same row, `SymbolNames` derives from the fingerprints themselves. `SymbolReuse` is about what the layout is
for: a reused tag whose items are the stored ones writes no row but resolutions, and a file that only moved writes nothing
else at all. `SymbolKeys` says what keys tell apart and when a key is left with two meanings.

**Fingerprints** (`core/SymbolRows.py`). `MerkleFingerprint` models the stack-based `_op_fp`. It ends on every operation
graph; on operations from which no cycle is reached the result is the recursive Merkle hash whatever was fingerprinted
before; and without digest collisions two targets share a fingerprint exactly when they are routes to operations of the same
content, or the same value.

**Rollback** (`core/ingest_state.py`). `IngestSchema` is a generic schema and says, without any order of deletes, which rows
a rollback has to remove. `RollbackPlan` computes the plan. `RollbackRun` proves that every cut of it, at any chunk, keeps
all foreign keys intact, that a complete run removes exactly the condemned rows, and that starting over after a cut ends in
the same rows as a run that was never cut. `IngestState` is the module's operations as a class. `VersionHistory` runs many
versions over one database: begin, write, record, finish, crash, roll back, and a rollback that is itself cut.

**Scheduling** (`main.py`). `Waves` is the wave executor with cycle breaking, `Scheduler` the event-driven scheduler (no
lost wakeups, nothing executes twice, everything executes without a wave pass when the graph is acyclic), `WorkerStage` the
parent's side of the worker protocol in every interleaving, `HeaderOrder` Kahn's algorithm over changed headers, and
`SourceEpochs` the batching.

**Storage and parsing.** `CompressedDict` (`core/GreatProcessor.py`): three stores that answer like one dictionary.
`ChangeSetExecute` (`core/TableHandling.py`): operations executed out of order, over several calls, each submitted once.
`KbuildConditions` (`parser/kbuild_conditions.py`): condition folding and the conditional stack against make as section 7.2,
"Syntax of Conditionals", of the GNU make manual describes it. `IncludeGraph` (`parser/include_graph.py`): a breadth-first
walk and the chain that explains it. `ArchLayoutRows` (`parser/arch_layout.py`): layouts through unordered database rows.
`Basics` holds what several modules share.

## Assumptions

- Digests, key hashes and compression are arbitrary functions. Compression is assumed to succeed and to lose only an
  entry's process-local references. A digest without collisions is assumed only where results say that different things stay
  different: in `MerkleFingerprint`, `SymbolNames` and `SymbolKeys`.
- Rows are content-addressed (`SymbolNames.Parse.ByContent`): routes of one kind to operations of the same content end up with
  the same row. None of a file's operations reaches a cycle where its fingerprints are used as names.
- A file handed to `finish()` is a new blob, its new tags are new, and the stored items of its reused tags were loaded
  (`SymbolFinish.Fits`).
- The schema is sound for a rollback (`IngestSchema.Sound`): references to allocated ids use that id, tables cleared without
  having an id are not referenced, no table references itself, rows hanging off rows derived from a blob have no id of their
  own. Foreign keys among tables with ids are acyclic.
- A ChangeSet executes exactly when nothing it references is still in flight and nothing else holds it back; if it fails it
  names one such file in flight, if there is one.
- The table engine returns a row with every column it was given.
- Running parsers, the file system, git and the database are parameters: what they answer is quantified over.

## What the proofs show about the code

- Whether a rollback spares a finished version depends on the order of head commits, which the explanation at
  core/ingest_state.py:210-217 takes for granted. `VersionHistory.FinishedVersionsKeepTheirRows`: if the head commit of every
  run is newer than the marks of every run still interrupted, no rollback removes a finished version's row. Without that,
  `FinishedRowRemovedIff`: once a run has finished, whatever it wrote and recorded, the recovery of an interrupted run removes
  a row the finished run wrote above the marks exactly when neither its head nor any head finished before lies above the
  commit mark and the precheck passes. `RemovedIff` says the same of any row above the marks at the time of the recovery:
  a version with a newer head that finishes in between saves it. In `StaleHeadExample` version 1 finishes and the recovery of
  version 2 removes the tag it wrote.
- The comment at main.py:2083 says that the files reported there killed a worker twice. `WorkerStage.KilledTwice`: that is so
  exactly for the batches made of one file of a suspect batch. A batch nobody had parsed is retried whole and given up whole
  at its first death; in `LostAtFirstDeath` two files are lost that way.
- After a death the parent tops up workers below their queue depth (main.py:1907-1910). `WorkerStage.EndOfFile` shows that this
  never sends anything: a worker below the depth has been told to stop. The recovered batches go to workers as they return
  results, or to the retry.
- `CompressedChangeSetDict` differs from a dictionary. An entry handed out and changed later keeps the change exactly if it is
  still live (`CompressedDict.CompressedChangeSetDict.LateEdit`, `HoldAndChange`): with a cache of size 1, reading another
  entry in between loses it (`ReadingEvicts`, `LateChangeIsLost`), and with size 0 even a change made at once is lost unless the
  entry has executed (`Edit`). Deleting an absent key is no error (`Delete`). Keys are kept in a set, so they come in no
  particular order.
- The comment at main.py:1413 says that the file most others wait on is forced. Files forced before still count
  (`Waves.CountedTwice`), so this holds of the first file forced (`FirstForcedHasMost`) but not in general: in
  `SecondForcedHasFewer` file 5 is forced although one file waits on it and two on file 4.
- A layout reads back unchanged exactly when its source architecture is the one its first source directory says
  (`ArchLayoutRows.RoundTrip`); layouts are built that way.

## Model

| member | source | states |
|---|---|---|
| SymbolFinish.ViewIsRecorded | core/SymbolRows.py:355-608 | after any history of files, each view is, as a multiset, one row per item ever recorded with the target it had in its own file: nothing missing, nothing extra, no file changing another's rows |
| SymbolNames.ViewIsRecordedByFingerprints | core/SymbolRows.py:263-608 | the same with nothing assumed of targets but content-addressed rows: compared by the fingerprints of each file's operations |
| SymbolNames.NamesAreSound | core/SymbolRows.py:263-311 | targets with equal fingerprints resolve to the same row |
| SymbolNames.ComparedByMeaning | core/SymbolRows.py:304-311 | two targets compare equal exactly when they are routes of one kind to operations of the same content, or the same value |
| SymbolNames.ClashesByMeaning | core/SymbolRows.py:393-410 | a key clashes exactly when two items use it for targets that do not mean the same: none is missed, none is seen where there is none |
| SymbolReuse.MovedFileWritesNothing | core/SymbolRows.py:428-471 | a later version with the same tags and items, every tag moved by any number of lines, its targets recorded in any other form: without conflicting keys, tag rows and own marks stay as they were and per blob only spilled and tagless items are written |
| SymbolReuse.ReusedTagIsShared | core/SymbolRows.py:443-466 | for a reused tag: its rows stay; an own mark exactly if its items are not the stored rows, in any order, and there are stored ones; per blob its loose and spilled items, and the others exactly if they are not the stored ones |
| SymbolReuse.MovedFinal | core/SymbolRows.py:393-420 | a tag that moved has the same rows under its final keys, with refined keys or without |
| SymbolReuse.SpilledIs | core/SymbolRows.py:378-391 | nothing spills while all items lie in their tag and it has at most 64 definitions; of a tag with more, all definitions do |
| SymbolKeys.ConflictsIffTwice | core/SymbolRows.py:408-420 | a file is left with a key of two meanings exactly if it has one text placed twice, or one place of a text recorded twice, with two targets there |
| SymbolKeys.KeysTellApart | core/SymbolRows.py:242-252 | items share a key exactly when they are in the same text and are the same identifier in the same role, or definitions of the same name and type |
| SymbolKeys.RefinedTellApart | core/SymbolRows.py:485-487 | a refined key also tells places in the text apart, and is no item's plain key |
| SymbolHistory.ViewIsWhatWasRecorded | core/SymbolRows.py:145-608 | after any history of parsed files a view holds exactly one row per item the parsers recorded, with its target, under the tag it was recorded against if that contains it, otherwise under the innermost tag that does, or as it was |
| SymbolHistory.CollectFile | core/SymbolRows.py:145-471 | from the first call of a parser to the operations of `finish()`: executing them adds exactly the rows the calls mean |
| SymbolHistory.RecordedIsMeant | core/SymbolRows.py:145-352 | what `finish()` takes as recorded is one row per recorded item, whatever order tags and items came in |
| SymbolHistory.AttributedRows | core/SymbolRows.py:317-352 | attribution shows every item once, under its owner's tag |
| SymbolHistory.KeepLeaveRows | core/SymbolRows.py:317-352 | what stays with a placement and what leaves it are what was recorded against it |
| SymbolHistory.DeliverRows | core/SymbolRows.py:317-352 | delivering moved items adds their rows under the receiving tags and changes no other row |
| SymbolFinish.FinishAddsRecorded | core/SymbolRows.py:355-471 | one `finish()` adds exactly the file's recorded rows to a view, whatever the key function, the conflicts and the reuse of tags |
| SymbolFinish.PlacementsShow | core/SymbolRows.py:428-471 | shown through tags, spilled and kept rows of a file's placements are together its recorded rows |
| SymbolFinish.PlacementShows | core/SymbolRows.py:428-466 | for one placement, shared or keeping its own rows, what the tag shows plus what is kept is what was planned |
| SymbolFinish.SharedResolves | core/SymbolRows.py:393-466 | every key a shared item uses resolves, in its blob, to that very item's target, colliding keys included |
| SymbolFinish.NoClashResolves | core/SymbolRows.py:393-410 | a key without two fingerprints resolves right for every item using it, though only its first target is stored |
| SymbolFinish.ConflictFree | core/SymbolRows.py:393-426 | a key not set aside after refinement means one target in the file |
| SymbolFinish.SharedShows | core/SymbolRows.py:568-608 | a shared placement shows its items once the tag's rows are those items in any order and the keys resolve |
| SymbolFinish.SharedPlacement | core/SymbolRows.py:428-466 | a placement that does not keep its own rows shows exactly its items through the tag |
| SymbolFinish.OwnPlacement | core/SymbolRows.py:428-466 | a placement that keeps its own rows shows nothing through the tag, marked or without shared rows |
| SymbolFinish.TagShows | core/SymbolRows.py:428-466 | a tag's rows are the items of the placement, whether it wrote them or found them there |
| SymbolFinish.EarlierUntouched | core/SymbolRows.py:428-471 | nothing an earlier placement shows depends on what a later file writes |
| SymbolFinish.EarlierViews | core/SymbolRows.py:568-608 | the placements of earlier blobs show the same rows after a later `finish()` |
| SymbolFinish.OwnMarksAre | core/SymbolRows.py:428-466 | a blob is marked as keeping its own rows exactly for the placements that do and whose tag has shared rows |
| SymbolFinish.MappedKeysAre | core/SymbolRows.py:428-466 | every key of a shared placement gets a resolution |
| SymbolFinish.TagRowsKept | core/SymbolRows.py:428-466 | a reused tag's rows stay as they are |
| SymbolFinish.TagRowsNew | core/SymbolRows.py:428-466 | a new tag gets the rows of its one placement, in order |
| SymbolFinish.SplitInside | core/SymbolRows.py:367-391 | items inside and items outside their tag are together all its items |
| SymbolFinish.SpillRows | core/SymbolRows.py:367-391 | planned and spilled items are all items, also with more than 64 definitions |
| SymbolModel.SymbolViewRows | core/SymbolRows.py:568-608 | the loop over placements returns the per-blob rows and the expanded shared rows of every placement not marked own |
| SymbolModel.ExpandPermuted | core/SymbolRows.py:568-608 | what a placement shows does not depend on the order in which its tag's rows are stored |
| SymbolModel.SharedViewsFrame | core/SymbolRows.py:568-608 | what placements show depends only on their tags' rows, their blobs' resolutions and their own marks |
| SymbolModel.SyntheticDefIdInjective | core/SymbolRows.py:563-565 | shared definitions of different blobs, tags or indexes never get the same id while ids fit their fields |
| SymbolAttribution.OwnerIsInnermost | core/SymbolRows.py:317-352 | an item that moves was outside its tag and lies inside the new one, the last of the smallest tags covering its line; one that stays outside its tag does not lie in that one, and a reference in none |
| SymbolAttribution.AttributionConserves | core/SymbolRows.py:317-352 | attribution neither loses nor duplicates an item |
| SymbolAttribution.AttributedHas | core/SymbolRows.py:317-352 | a placement ends up with exactly the items whose owner it is; its place does not change |
| SymbolAttribution.AttributedWellFormed | core/SymbolRows.py:317-352 | references stay references, definitions stay definitions, tags keep their order |
| SymbolAttribution.Innermost | core/SymbolRows.py:317-330 | the last smallest placement covering a line, or none when none covers it |
| SymbolAttribution.SortWidestFirst | core/SymbolRows.py:317-330 | a stable order of all placements by falling extent |
| SymbolAttribution.PaintLines | core/SymbolRows.py:317-330 | painting the lines from the widest tag inwards gives every line its innermost tag |
| SymbolCollector.ClashesOf | core/SymbolRows.py:393-426 | the keys used for two fingerprints, though fingerprints are computed only for keys with two targets |
| SymbolCollector.TargetsOf | core/SymbolRows.py:393-426 | the first target of every key |
| SymbolCollector.DecideOwn | core/SymbolRows.py:428-466 | the placement keeps its own rows exactly if a key conflicts or, for a reused tag, the stored rows are not its items' rows in any order; shared rows would show exactly if a reused tag has stored rows or a new one has items |
| SymbolCollector.EmitKind | core/SymbolRows.py:428-466 | for a reused tag with the stored items, only resolutions are emitted and nothing is kept per blob |
| SymbolCollector.EmitAll | core/SymbolRows.py:428-466 | the emitted operations, executed in order, write the tag rows, own marks and resolutions of all plans; skipping keys already mapped changes nothing |
| SymbolCollector.Collector.RegisterTag | core/SymbolRows.py:145-154 | a tag is registered once and its first registration counts |
| SymbolCollector.Collector.Record | core/SymbolRows.py:157-191 | an item goes to its registered tag, otherwise to the loose items, and nowhere else |
| SymbolCollector.Collector.LoadPriorItems | core/SymbolRows.py:194-220 | every tag asked for gets its cached items, otherwise the multiset of its stored ones if the tables can be read; other tags are untouched; with a cache that agrees with the tables every tag asked for gets its stored items |
| SymbolCollector.Collector.Attribute | core/SymbolRows.py:317-352 | kept and moved items collected in two passes are the attributed placements |
| SymbolCollector.Collector.Finish | core/SymbolRows.py:355-471 | executing the emitted operations turns the database into the one `FinishAddsRecorded` is about; the collector is emptied |
| MerkleFingerprint.Fingerprints.OpFp | core/SymbolRows.py:263-291 | ends on every graph; on operations reaching no cycle returns the recursive hash, and never changes an earlier fingerprint |
| MerkleFingerprint.Fingerprints.Turn | core/SymbolRows.py:263-291 | every turn makes lexicographic progress and keeps the stack invariant |
| MerkleFingerprint.Fingerprints.Fingerprint | core/SymbolRows.py:304-311 | a positional target is identified by its operation's hash, a reference to no operation by itself, and any other value by a fingerprint from which the value can be read back |
| MerkleFingerprint.FingerprintsTellApart | core/SymbolRows.py:263-311 | without collisions, two targets get the same fingerprint exactly when they are routes of one kind to operations of the same content, or the same value |
| MerkleFingerprint.NoneExpanding | core/SymbolRows.py:263-291 | where no cycle is reached, no reference of the stack's top is still being expanded |
| MerkleFingerprint.TopSettled | core/SymbolRows.py:263-291 | an operation gets its fingerprint only when all operations it refers to have theirs |
| MerkleFingerprint.PopKeeps | core/SymbolRows.py:263-291 | popping keeps what the stack says about operations being expanded |
| MerkleFingerprint.ExpandKeeps | core/SymbolRows.py:263-291 | pushing the pending references keeps it |
| MerkleFingerprint.ShapeIsHashShape | core/SymbolRows.py:293-302 | with all references memoized, the digested value is the one of the recursive hash |
| MerkleFingerprint.NodeIffTree | core/SymbolRows.py:263-302 | same content, same hash, wherever the operations are stored; the converse without collisions |
| MerkleFingerprint.SameFingerprintSameContent | core/SymbolRows.py:263-302 | without collisions, equal hashes exactly for equal content |
| RollbackPlan.RollbackPlan | core/ingest_state.py:154-200 | the plan covers every condemned row, plans nothing else, deletes referring rows before what they refer to, and lists no delete twice |
| RollbackPlan.ChildFirstOrder | core/ingest_state.py:103-119 | a permutation of the marked tables with children before parents when they are acyclic; ends on cycles too |
| RollbackPlan.SomeReady | core/ingest_state.py:103-119 | without a cycle some pending table is referenced by no other |
| RollbackPlan.BatchChildFirst | core/ingest_state.py:103-119 | appending all ready tables at once keeps children first |
| RollbackPlan.ChildrenOf | core/ingest_state.py:94-100 | exactly the tables and columns that reference a table |
| RollbackPlan.BlobDerivedTables | core/ingest_state.py:122-131 | exactly the tables and columns that reference blobs outside commit scope |
| RollbackPlan.MarkedTables | core/ingest_state.py:89-91 | exactly the tables with an allocated id and a mark |
| RollbackPlan.AddDerived | core/ingest_state.py:172-181 | rows hanging off derived rows are planned before the derived rows themselves |
| RollbackPlan.AddBlobs | core/ingest_state.py:167-181 | every recorded blob is in some chunk whose deletes are all planned |
| RollbackPlan.AddMarks | core/ingest_state.py:183-191 | every marked table's new rows and every link row to them are planned, in order |
| RollbackPlan.Unique | core/ingest_state.py:192-200 | dropping repeated deletes keeps the order and the coverage |
| RollbackRun.CutIsIntact | core/ingest_state.py:328-351 | after any committed chunk of any step no foreign key points at a missing row |
| RollbackRun.NothingRefers | core/ingest_state.py:154-200 | no remaining row refers to a row the current delete removes |
| RollbackRun.ChunkIntact | core/ingest_state.py:328-351 | integrity survives a chunk of any matching rows |
| RollbackRun.StepKeeps | core/ingest_state.py:328-351 | every chunk and every step on keeps the rollback invariant |
| RollbackRun.TraceKeeps | core/ingest_state.py:328-351 | every state of every rollback meets the invariant |
| RollbackRun.MatchedIsCondemned | core/ingest_state.py:154-200 | a delete matches only rows of the run |
| RollbackRun.CondemnedMatches | core/ingest_state.py:154-200 | a row of the run that is still there matches some delete |
| RollbackRun.CondemnedStable | core/ingest_state.py:154-200 | which remaining rows belong to the run does not change while rows are deleted, subselects included |
| RollbackRun.CompleteIsRolledBack | core/ingest_state.py:296-356 | a complete rollback leaves exactly the rows that were not the run's |
| RollbackRun.Restartable | core/ingest_state.py:296-356 | cut anywhere and started over with the same marks, it ends in exactly the rows that were not the run's |
| RollbackRun.SameAsUninterrupted | core/ingest_state.py:296-356 | cut and started over, every table ends with the rows of a rollback that was never cut |
| RollbackRun.CutStartable | core/ingest_state.py:296-356 | a cut database passes the precheck again |
| RollbackRun.NothingAboveMarks | core/ingest_state.py:154-200 | afterwards no allocated id lies above its mark |
| RollbackRun.OlderIsBelowMarks | core/ingest_state.py:261-278 | rows from before the run, link rows included, lie below the marks |
| RollbackRun.OlderRowsSurvive | core/ingest_state.py:296-356 | every row from before the run survives, except the version's own rows and those of recorded blobs |
| RollbackRun.OlderCommitsKeepTheirRows | core/ingest_state.py:41-47 | whatever blobs were recorded, a row of m_commit_file, m_bridge_checkpoint, m_bridge_commit_tag, m_blob_transition or of a table without blobs stays if it lies below the marks, does not describe the version and references no table with blobs |
| RollbackRun.RunsRowsAreGone | core/ingest_state.py:41-47 | afterwards no row of m_bridge_checkpoint or m_arch_root has the run's commit, no table outside commit scope has a row of a recorded blob, and no own id lies above its mark |
| IngestState.MaxId | core/ingest_state.py:270-272 | the highest id, 0 for an empty table |
| IngestState.TakeMarks | core/ingest_state.py:267-277 | one mark, its highest id, for exactly the tables with a single integer id that is no foreign key and that are not static |
| IngestState.Precheck | core/ingest_state.py:134-151 | passes exactly when no row with an id at or below its table's mark refers above another table's mark |
| IngestState.Ingest.DiscardMarks | core/ingest_state.py:229-234 | forgets marks and blobs of this version only |
| IngestState.Ingest.SetStatus | core/ingest_state.py:243-258 | the version has this status and no other, all other rows are as they were; finishing discards the marks |
| IngestState.Ingest.Begin | core/ingest_state.py:261-278 | the marks are the highest ids before the run; other versions' marks stay |
| IngestState.Ingest.RecordBlobs | core/ingest_state.py:281-293 | adds to the version's blobs |
| IngestState.Ingest.DeleteChunk | core/ingest_state.py:336-342 | removes only matching rows, and all of them when the chunk is not full |
| IngestState.Ingest.RunDelete | core/ingest_state.py:330-342 | chunks until none matches, keeping the rollback invariant |
| IngestState.Ingest.RunPlan | core/ingest_state.py:328-350 | runs every step to its end: the database is rolled back and intact |
| IngestState.Ingest.RollbackVersion | core/ingest_state.py:296-356 | which of the four outcomes happens and when; when undone, exactly the run's rows are gone and integrity holds: rows of older commits stay whatever blobs were recorded, none of the run's own is left; when refused or without marks, nothing changes |
| VersionHistory.FinishedVersionsKeepTheirRows | core/ingest_state.py:296-356 | in every history with fresh heads no rollback, cut or complete, removes a row a finished version wrote |
| VersionHistory.HistoryKeeps | core/ingest_state.py:243-356 | every state of every history meets the invariant over all versions |
| VersionHistory.StepKeepsWorld | core/ingest_state.py:243-356 | every event keeps it |
| VersionHistory.BeginKeeps | core/ingest_state.py:261-278 | starting a run keeps it: nothing there before can be condemned by the new run |
| VersionHistory.WriteKeeps | core/ingest_state.py:154-200 | writing keeps it: a new row is neither a finished version's nor makes one condemned |
| VersionHistory.RecordKeeps | core/ingest_state.py:281-293 | recording blobs without derived rows keeps it |
| VersionHistory.FinishKeeps | core/ingest_state.py:243-258 | finishing keeps it: the version's rows lie beyond every interrupted run's reach |
| VersionHistory.OlderHead | core/ingest_state.py:210-226 | past the guard every finished version's commit lies below the marks |
| VersionHistory.RollbackSpares | core/ingest_state.py:296-356 | whatever a rollback has removed so far, no finished row is among it |
| VersionHistory.RollbackKeeps | core/ingest_state.py:296-356 | a rollback, cut anywhere, keeps the invariant |
| VersionHistory.EmptyWorld | core/ingest_state.py:243-356 | an empty database starts a history |
| VersionHistory.RemovedIff | core/ingest_state.py:296-356 | an uncut recovery removes a row above the marks exactly when no version with a newer head has finished and the precheck passes |
| VersionHistory.FinishedRowRemovedIff | core/ingest_state.py:210-356 | after any run from begin to finish, fresh head or not: its rows above another run's marks are removed by that run's recovery exactly when neither its own head nor any finished before lies above the commit mark and the precheck passes |
| VersionHistory.StillPrechecked | core/ingest_state.py:134-151 | a run that writes only above another run's marks does not make that run's precheck fail |
| VersionHistory.StillRunning | core/ingest_state.py:243-293 | from begin to finish a run keeps the database intact, finishes no version and touches no other run's marks |
| VersionHistory.FinishedRows | core/ingest_state.py:243-293 | every row a run wrote is there when it finishes, and is a finished version's row |
| VersionHistory.StaleHeadIsUnsafe | core/ingest_state.py:210-226 | with a head that is not newer, and another run's recovery that would have gone through before, every uncut recovery removes all rows written above its marks |
| VersionHistory.StaleHeadExample | core/ingest_state.py:210-226 | one such history on a three-table schema: the tag a finished version wrote is removed |
| Waves.Execute | main.py:1319-1472 | the incremental bookkeeping executes in exactly the order defined from the graph alone |
| Waves.EachOnce | main.py:1372-1472 | every remaining file executes, none twice |
| Waves.AfterDependencies | main.py:1372-1472 | a file that is not forced executes after all remaining files it depends on |
| Waves.ForcedMeansCycle | main.py:1402-1436 | a file is forced only when the files left contain a cycle |
| Waves.CycleExists | main.py:1402-1436 | files none of which is free contain a closed walk |
| Waves.GroundedRunFirst | main.py:1401-1465 | a file that leads into no cycle executes unforced before the first forced one |
| Waves.OneCandidate | main.py:1412-1415 | ties are broken fully: there is one file to force |
| Waves.ForcedIsCandidate | main.py:1412-1415 | every forced step takes the candidate among the files left |
| Waves.ForcedHasFewestOperations | main.py:1412-1415 | of the files that as many wait on, the forced one has fewest operations, and of those the last path |
| Waves.CountedTwice | main.py:1412-1415 | a file is counted for the files still waiting on it and for those forced before that depend on it, and for no others |
| Waves.FirstForcedHasMost | main.py:1412-1415 | the first file forced is one that most of the files left wait on |
| Waves.SecondForcedHasFewer | main.py:1412-1415 | an input on which the second file forced is not |
| Waves.Best | main.py:1412-1415 | the scan finds that file |
| Waves.Finish | main.py:1390-1399 | removing an executed file keeps the counts right and finds exactly the files it frees |
| Waves.RunWave | main.py:1442-1465 | a wave executes all free files in sorted order and leaves the next free ones |
| Waves.Force | main.py:1412-1436 | a forced file restores the same bookkeeping |
| Scheduler.AcyclicAllExecuted | main.py:1134-1274 | if all files arrived and the graph of references and declared dependencies is acyclic, everything has executed and no wave pass was needed |
| Scheduler.GroundedHaveExecuted | main.py:1134-1202 | an arrived file that leads into no cycle has executed whenever nothing is ready: no wakeup is lost |
| Scheduler.WhyUnexecuted | main.py:1134-1274 | a file that has not executed cannot resolve, or is registered to wake with a file still in flight that it references |
| Scheduler.StillPlaced | main.py:1140-1150 | completing a file loses none of the files waiting on others |
| Scheduler.StillHeld | main.py:1140-1150 | a held header that is not woken waits on another file |
| Scheduler.RunKeeps | main.py:1165-1175 | executing keeps the invariant: placed once, executed once, after what it references |
| Scheduler.ParkKeeps | main.py:1176-1186 | parking on a file in flight keeps it |
| Scheduler.DeferKeeps | main.py:1176-1186 | deferring, or leaving to the wave pass, keeps it |
| Scheduler.HoldKeeps | main.py:1234-1242 | holding a header on all its files in flight keeps it |
| Scheduler.WaveKeeps | main.py:1247-1256 | a wave pass keeps it |
| Scheduler.WakeKeeps | main.py:1198-1202 | waking waiters of files completed elsewhere keeps it |
| Scheduler.DependencyScheduler.constructor | main.py:1120-1132 | starts with nothing completed and nobody waiting |
| Scheduler.DependencyScheduler.Announce | main.py:1134-1138 | more changed files keep the invariant |
| Scheduler.DependencyScheduler.Attempt | main.py:1165-1186 | what executing a ChangeSet is assumed to answer |
| Scheduler.DependencyScheduler.Complete | main.py:1140-1150 | exactly the waiters that wait on nothing else become ready |
| Scheduler.DependencyScheduler.Execute | main.py:1165-1186 | executes exactly when nothing referenced is in flight, otherwise parks; keeps the invariant |
| Scheduler.DependencyScheduler.DrainReady | main.py:1188-1196 | ends, with nothing ready and nothing lost |
| Scheduler.DependencyScheduler.WakeCompleted | main.py:1198-1202 | ends with nothing ready |
| Scheduler.DependencyScheduler.IngestOne | main.py:1225-1244 | the branches for one file keep the invariant; in the header stage a file with declared dependencies in flight is not executed but held on exactly those |
| Scheduler.DependencyScheduler.IngestBatch | main.py:1204-1245 | every file of the batch is stored and placed, nothing is ready afterwards; outside the header stage none is left to the wave pass, and an unexecuted file waits on another or is deferred |
| Scheduler.DependencyScheduler.ResolveHeaders | main.py:1247-1256 | every stored file has executed |
| Scheduler.DependencyScheduler.DrainDeferredQueue | main.py:1258-1274 | retries every deferred file once and loses none |
| Scheduler.DependencyScheduler.Finalize | main.py:1276-1295 | every stored file has executed |
| WorkerStage.RunWorkerStage | main.py:1794-2115 | ends; ingests no file twice; unless no worker could start, every file was ingested or is reported; what is ingested, reported and lost is what the rounds' events say; if nothing goes wrong there is one round, all files are ingested and nothing is reported |
| WorkerStage.CleanRun | main.py:1884-2022 | along a run without faults nobody is suspect, a worker ends only once it was told to and has returned everything, and every file of every received batch was ingested without an error |
| WorkerStage.CleanEnd | main.py:1884-2022 | such a run ends with every batch received |
| WorkerStage.CleanStage | main.py:2066-2115 | after such a round there is no retry and exactly the batches' files were ingested |
| WorkerStage.Round | main.py:1884-2022 | whatever happens is a legal sequence of events from the first supply to the end of all pipes, with every batch in one place and the ledger those events make |
| WorkerStage.Supply | main.py:1887-1889 | every worker has two batches ahead or was told to stop |
| WorkerStage.NeverStarved | main.py:1884-1939 | a worker with an open pipe always has batches to return, or was told to stop, or is about to close: none is left waiting for a task |
| WorkerStage.NoDeadlock | main.py:1884-2022 | until the round is over something can happen that is no fault of a worker |
| WorkerStage.ExactlyOnePlace | main.py:1845-2022 | a batch is in exactly one of pending, one worker's queue, the reader's hand, the result queue, received, suspect |
| WorkerStage.TotalFalls | main.py:1884-2022 | batches only move forward, and each move brings the round closer to its end |
| WorkerStage.Dispatch | main.py:1868-1882 | a worker gets the first pending batch, or one stop frame; no batch is lost |
| WorkerStage.TakeResult | main.py:1926-1939 | a result takes its batch out of its worker's queue and refills the worker |
| WorkerStage.Offer | main.py:1859-1867 | the result enters the bounded queue |
| WorkerStage.Receive | main.py:1959-1976 | the oldest result is received, not a second time |
| WorkerStage.DiedMoves | main.py:1895-1911 | of a dead worker's batches the first is suspect and the others are pending again, all of them if it never started |
| WorkerStage.EndOfFile | main.py:1895-1911 | a closed pipe loses no batch: the one being parsed is suspect, the others go back to the front, all of them if the worker never started; topping up the other workers sends nothing |
| WorkerStage.Read | main.py:1890-1939 | any frame a worker can send, and any end of its pipe, keeps the round's invariant and brings it closer to its end |
| WorkerStage.Next | main.py:1884-2022 | so does anything that can happen, and the ledger changes only by taking a result |
| WorkerStage.Ingest | main.py:1974-2006 | exactly the parsed files of a readable result are ingested; an error is noted for exactly the files of an unreadable one, those not parsed, and all if ingesting raised |
| WorkerStage.RetryOk | main.py:2066-2107 | retried batches have fresh ids and share no file |
| WorkerStage.RetryFiles | main.py:2066-2107 | exactly the files of unreceived batches are retried, suspects only on their first failure |
| WorkerStage.RetrySplits | main.py:2066-2107 | every file is received, retried or lost, and only one of these |
| WorkerStage.RetryShrinks | main.py:2093-2115 | a second round with progress leaves fewer batches: the recursion ends |
| WorkerStage.Combined | main.py:2093-2115 | the results of a round and of its retry together account for every file once |
| WorkerStage.RetryShape | main.py:2073-2091 | a retried batch is one file of a suspect batch, or a whole batch that was neither received nor suspect |
| WorkerStage.SinglesWereSuspect | main.py:2073-2091 | in every round, a batch holds a file that was suspect before exactly when it was made of one file of a suspect batch |
| WorkerStage.KilledTwice | main.py:2082-2088 | a file given up with the batch its worker died with had been in such a batch before if and only if the batch is one of those single-file batches |
| WorkerStage.LostAtFirstDeath | main.py:2073-2091 | two rounds in which a batch nobody had parsed is retried whole and lost at its first death |
| HeaderOrder.OrderChangedFiles | main.py:846-922 | a permutation: all headers first, ordered by `Ordered`, the others as they were; unchanged without a working directory |
| HeaderOrder.OrderHeaders | main.py:866-921 | emitted headers come after every changed header they include; the others are exactly those that depend on a cycle, in original order |
| HeaderOrder.BuildGraph | main.py:866-898 | a header is listed under another exactly if it is not deleted and one of its includes names that one before any other changed header; a degree is the number of distinct headers included |
| HeaderOrder.TargetIsFirst | main.py:866-898 | an include means its first candidate that is a changed header |
| HeaderOrder.FirstQueue | main.py:900-902 | headers that include no changed header start the queue |
| HeaderOrder.Sort | main.py:904-910 | the loop ends with an empty queue and correct degrees |
| HeaderOrder.EmitOne | main.py:904-910 | emitting a header keeps degrees and queue right and the order topological |
| HeaderOrder.EmittedNoCycle | main.py:904-919 | no walk along includes from an emitted header comes back |
| HeaderOrder.LeftLeadsToCycle | main.py:904-919 | from a header left over, includes lead into a cycle |
| SourceEpochs.Partition | main.py:984-1108 | batches within both budgets, epochs of consecutive batches within their size limits, each listed largest first; a single epoch's byte budget is the fair share of all bytes, between the threshold and the limit |
| SourceEpochs.BudgetIsFair | main.py:1039-1042 | the byte budget is just enough for the given number of batches to hold all bytes, unless the threshold or the limit says otherwise |
| SourceEpochs.MakeBatches | main.py:1044-1074 | batches concatenate to the input and respect both budgets; with a large source file they are short, and a batch is closed early only for bytes or for a large source |
| SourceEpochs.MakeEpochs | main.py:1084-1108 | consecutive batches up to the last; an epoch closes at the first change of directory once it has the target, or past the hard limit, and not before; it stays below the hard limit plus one batch |
| SourceEpochs.OneMore | main.py:1044-1074 | a file that is not too much keeps a batch within its budgets |
| SourceEpochs.InsertKeeps | main.py:1076-1079 | the order by falling size keeps ties in id order |
| SourceEpochs.Order | main.py:1076-1079 | every id of an epoch once, largest first |
| CompressedDict.CompressedChangeSetDict.Run | core/GreatProcessor.py:46-225 | any sequence of calls, changes in place right after a read included, gives the answers and contents of a plain dictionary; the cache stays within its bound |
| CompressedDict.CompressedChangeSetDict.Do | core/GreatProcessor.py:46-225 | so does one call |
| CompressedDict.CompressedChangeSetDict.Place | core/GreatProcessor.py:86-98 | stores one entry in the right store and shadows every older copy |
| CompressedDict.CompressedChangeSetDict.EvictLru | core/GreatProcessor.py:100-110 | ends within the bound, changes no answer, and keeps the newest entry |
| CompressedDict.CompressedChangeSetDict.Load | core/GreatProcessor.py:127-147 | answers from the contents and changes none; what it hands out is live |
| CompressedDict.CompressedChangeSetDict.Set | core/GreatProcessor.py:149-151 | the contents with the key set, within the bound |
| CompressedDict.CompressedChangeSetDict.Get | core/GreatProcessor.py:153-160 | the entry or the default; contents unchanged |
| CompressedDict.CompressedChangeSetDict.Edit | core/GreatProcessor.py:127-147 | a change made at once is read back if and only if the cache has room for an entry or the entry has executed |
| CompressedDict.CompressedChangeSetDict.LateEdit | core/GreatProcessor.py:46-52 | a change of an object handed out earlier is read back if and only if that object is still the one under the key |
| CompressedDict.CompressedChangeSetDict.HoldAndChange | core/GreatProcessor.py:46-225 | read an entry, make any calls, change it: kept exactly if the object is still live, which it is if besides fewer other keys were used than the cache has room for and none replaced it |
| CompressedDict.CompressedChangeSetDict.Delete | core/GreatProcessor.py:162-166 | no store keeps a copy; an absent key is no error |
| CompressedDict.CompressedChangeSetDict.Clear | core/GreatProcessor.py:180-184 | empties every store |
| CompressedDict.CompressedChangeSetDict.Pop | core/GreatProcessor.py:204-211 | the entry, the default or an error; the key is gone |
| CompressedDict.CompressedChangeSetDict.SetDefault | core/GreatProcessor.py:213-217 | sets only an absent key and returns what is there |
| CompressedDict.CompressedChangeSetDict.Update | core/GreatProcessor.py:197-202 | the items in order, evicting on the way |
| CompressedDict.CompressedChangeSetDict.Flush | core/GreatProcessor.py:112-115 | every cached entry gets a current compressed copy; answers unchanged |
| CompressedDict.CompressedChangeSetDict.Pickled | core/GreatProcessor.py:117-125 | the dictionary read back has the same contents without a cache |
| CompressedDict.CompressedChangeSetDict.Copy | core/GreatProcessor.py:219-225 | a copy has the same contents and holds the same objects |
| CompressedDict.CompressedChangeSetDict.Items | core/GreatProcessor.py:193-195 | every key with its entry, though reading evicts |
| CompressedDict.PlacedOk | core/GreatProcessor.py:86-98 | storing keeps the stores disjoint as they must be, and changes one key |
| CompressedDict.EvictedOk | core/GreatProcessor.py:100-110 | an eviction overwrites the stale compressed copy and changes no answer |
| CompressedDict.LoadedOk | core/GreatProcessor.py:127-147 | bringing an entry back changes no answer |
| CompressedDict.RemovedOk | core/GreatProcessor.py:162-166 | removing a key from all stores removes it from the contents |
| CompressedDict.EditedOk | core/GreatProcessor.py:127-147 | a change in place changes the contents although a compressed copy stays stale |
| CompressedDict.FlushedOk | core/GreatProcessor.py:112-125 | after a flush the cache may be dropped without changing an answer |
| CompressedDict.LoadAnswer | core/GreatProcessor.py:127-147 | the store in which a read finds its answer always has the current one |
| CompressedDict.StillHeld | core/GreatProcessor.py:86-147 | calls that use fewer other keys than the cache has room for, and do not replace the entry, leave the object live |
| CompressedDict.ReadingEvicts | core/GreatProcessor.py:100-147 | with room for one entry, reading another takes the object out of its holder's hands |
| CompressedDict.LateChangeIsLost | core/GreatProcessor.py:100-147 | store two entries, read the first, read the second: a change of the first is lost |
| ChangeSetExecute.ChangeSet.Execute | core/TableHandling.py:648-751 | every pending operation gets one turn in order; finished ones keep their results; true exactly when all are done |
| ChangeSetExecute.ChangeSet.Store | core/TableHandling.py:754-770 | queueing an operation between calls keeps the invariant |
| ChangeSetExecute.OneCallFinishes | core/TableHandling.py:648-751 | if every reference is to an earlier operation or can be looked up, one call finishes |
| ChangeSetExecute.SubmittedOnce | core/TableHandling.py:648-751 | when all are done, each operation of a submitted kind was submitted once and no other was |
| ChangeSetExecute.SubmittedData | core/TableHandling.py:598-646 | every submission gives, column by column: a plain value as it is; for another file what could be looked up, not null; for an operation submitted before what the engine answered in that column, otherwise its own plain value, null only if the operation came done |
| ChangeSetExecute.PendingWasBlocked | core/TableHandling.py:648-751 | an operation stays pending exactly if, at its turn, one of its columns was a reference with nothing to show |
| ChangeSetExecute.RoundOk | core/TableHandling.py:648-751 | a call keeps the record of submissions, never changes a result, and touches nothing outside its turns |
| ChangeSetExecute.TurnOk | core/TableHandling.py:648-751 | one turn keeps the invariant |
| ChangeSetExecute.ResolveEach | core/TableHandling.py:598-646 | data resolves exactly when every column does, column by column |
| KbuildConditions.NotBuiltIsSkipped | parser/kbuild_conditions.py:240-267 | "n" only if make skips the line, however unknown conditions turn out, in both stack modes |
| KbuildConditions.BuiltIsRead | parser/kbuild_conditions.py:240-267 | a built verdict only if make reads the line, unless an unknown frame was skipped |
| KbuildConditions.ExactWhenKnown | parser/kbuild_conditions.py:240-267 | with nothing unknown, exactly "y" where make reads and "n" where it skips |
| KbuildConditions.StackTracksMake | parser/kbuild_conditions.py:406-417 | along any directives the stack follows make's open conditionals |
| KbuildConditions.FrameVerdict | parser/kbuild_conditions.py:249-256 | the condition of one frame is right about make's branch |
| KbuildConditions.FoldingKeepsValue | parser/kbuild_conditions.py:62-103 | folding, flattening and dropping repeated terms keep the value in every configuration; a negation is "y" of "n", unknown of unknown, otherwise "n" |
| KbuildConditions.ComparisonIsMakes | parser/kbuild_conditions.py:122-132 | a comparison is unknown exactly if a symbol in it is, otherwise true exactly if the expanded texts are equal without the blanks around them |
| KbuildConditions.SymbolIsItsValue | parser/kbuild_conditions.py:109-121 | a symbol is built in, a module or unknown by its raw value, and defined unless that is empty or "n" |
| KbuildConditions.FoldAnd | parser/kbuild_conditions.py:62-76 | the loop folds as `AndOf`, whose value is the minimum |
| KbuildConditions.FoldOr | parser/kbuild_conditions.py:79-93 | the loop folds as `OrOf`, whose value is the maximum |
| KbuildConditions.LowestOf | parser/kbuild_conditions.py:106-151 | a conjunction's value is the least of its terms' |
| KbuildConditions.HighestOf | parser/kbuild_conditions.py:106-151 | a disjunction's value is the greatest |
| KbuildConditions.VerdictsAreStable | parser/kbuild_conditions.py:106-151 | definite verdicts survive any resolution of unknown symbols and conditions |
| KbuildConditions.KnownIsDefinite | parser/kbuild_conditions.py:230-237 | without unknown parts a complete configuration gives a definite verdict |
| KbuildConditions.BooleanIsNotModule | parser/kbuild_conditions.py:106-151 | conditions without tristate symbols are never "m" |
| KbuildConditions.CondStack.Push | parser/kbuild_conditions.py:258-259 | opens a frame, as `StackTracksMake` follows it |
| KbuildConditions.CondStack.OrElse | parser/kbuild_conditions.py:261-263 | adds a branch to the innermost frame; without one nothing happens |
| KbuildConditions.CondStack.Pop | parser/kbuild_conditions.py:265-267 | closes the innermost frame, if any |
| KbuildConditions.CondStack.CurrentCond | parser/kbuild_conditions.py:249-256 | the condition `NotBuiltIsSkipped` and `ExactWhenKnown` are about |
| KbuildConditions.ParseGates | parser/kbuild_conditions.py:388-426 | every plain line, and only those, gets the condition of the directives before it |
| IncludeGraph.Reachable | parser/include_graph.py:74-91 | every file found is reached from a root and included by its recorded parent, in the fewest steps; below the limit every file reached is found |
| IncludeGraph.ReachedIsFound | parser/include_graph.py:74-91 | once the queue is empty, exactly what walks of includes reach has been found |
| IncludeGraph.EverythingFound | parser/include_graph.py:74-91 | in a complete search every file on a walk of includes from a root is found |
| IncludeGraph.WalkTo | parser/include_graph.py:74-91 | every file found is reached by its parent links from a root, in as many steps as its depth |
| IncludeGraph.DepthIsShortest | parser/include_graph.py:74-91 | no walk is shorter, also in a search that stopped early |
| IncludeGraph.FoundAlong | parser/include_graph.py:74-91 | along any walk files are found in time, up to the first unexpanded one |
| IncludeGraph.IncludeChain | parser/include_graph.py:94-101 | real includes, no file twice, ending at the file and starting at a root unless cut at 64; empty for a file not found |
| IncludeGraph.Materialize | parser/include_graph.py:41-54 | the tree file at the end of the links, within the hop limit |
| IncludeGraph.FollowsToTheEnd | parser/include_graph.py:41-54 | more hops than a chain of links has change nothing |
| IncludeGraph.LongestLink | parser/include_graph.py:34-54 | the longest directory link that fits is taken |
| IncludeGraph.Resolve | parser/include_graph.py:56-72 | nothing for an empty or absolute name; a quoted name beside the including file wins, otherwise the first include directory below which the name designates a tree file decides |
| IncludeGraph.InsideTheTree | parser/include_graph.py:65-71 | a name that leaves the tree reads nothing below a directory, any other what its path designates |
| IncludeGraph.DesignatedAtTheEnd | parser/include_graph.py:41-54 | a path designates the tree file at the end of its hops, at most eight: each through a generated wrapper, else a link of the file, else the first directory link that is a prefix |
| ArchLayoutRows.RoundTrip | parser/arch_layout.py:79-108 | any shuffling of a layout's rows reads back as the layout, if and only if its source architecture is the derived one |
| ArchLayoutRows.BuiltLayoutsReadBack | parser/arch_layout.py:47-108 | layouts whose first source directory is `arch/<srcarch>/` read back unchanged |
| ArchLayoutRows.ListBack | parser/arch_layout.py:88-108 | a list comes back in its order |
| ArchLayoutRows.MapBack | parser/arch_layout.py:88-108 | a map comes back from rows in any order |
| ArchLayoutRows.OneOrder | parser/arch_layout.py:88-108 | rows with distinct priorities have one sorted order |
| ArchLayoutRows.ArchDirectory | parser/arch_layout.py:47-56 | `arch/<a>/` belongs to `<a>`, for every `<a>` without a slash |
| ArchLayoutRows.OtherDirectories | parser/arch_layout.py:47-56 | `include/asm-<a>/` belongs to `<a>` other than `generic`, and no other second-level directory belongs to a tree |
| ArchLayoutRows.TopLevel | parser/arch_layout.py:47-56 | a file at the top or in a top-level directory belongs to none |
| ArchLayoutRows.Rows | parser/arch_layout.py:79-85 | the rows encode the layout: lists by position, maps one row per entry |
| ArchLayoutRows.FromRows | parser/arch_layout.py:88-108 | sorting each role's rows decodes as `Decoded`, which `RoundTrip` inverts |
| ArchLayoutRows.Sort | parser/arch_layout.py:94-95 | rows in order of priority, then path, then target, none lost |

## Left out

- SymbolModel.SymbolViewRows: rows come out in placement order, because the order in which the database lists placements and the ids of per-blob rows carry no meaning.
- `flush_pending_refs`, the schema of the database views and their SQL (core/SymbolRows.py:168-180, 505-560).
- `_shared_item` and `_tag_row` appear as functions without a row of their own: they only compute.
- RollbackPlan.ChildFirstOrder: takes a rank as a ghost witness that the tables are acyclic, because acyclicity is a fact about the schema.
- IngestState.Ingest.RollbackVersion: foreign keys always hold a value, because nullable references need no parent and are never in the way of a delete.
- IngestState.Ingest.RollbackVersion: the code returns false for both a run without marks and a stale one; the model tells them apart.
- RollbackPlan.AddBlobs: blobs are taken in any order, not sorted, because which chunk a blob is in does not matter.
- VersionHistory: runs of different versions do not overlap, ids may be reused after a rollback, and `get_status`, `updated_at`, the purges and SQL transactions are not part of this model.
- Waves.Execute: no deadline, no chunk commits, and a forced file is executed whether or not its stubs resolve; the retry with stubs of a file that failed unforced is one step.
- Scheduler.DependencyScheduler.IngestBatch: a file without foreign references arrives once, as the worker stage delivers it; the code would execute it again if it arrived twice.
- MerkleFingerprint.FingerprintsTellApart: operations that reach a cycle have fingerprints too, but what those tell apart depends on which operation was asked for first.
- Scheduler.DependencyScheduler.Attempt: a file that cannot resolve stays so until a wave pass; the engine behind it is an oracle.
- Scheduler.DependencyScheduler.ResolveHeaders: deadlines, after which unexecuted files are recorded as completed, are left out; so are chunk commits and memory reclaim.
- WorkerStage.Round: deadlines, early stops, time accounting and the content of frames are left out; a frame may be a result, a last frame, a failed start or an end of file.
- WorkerStage.Ingest: which files a result parsed is what it says; that a worker reports every other file of the batch is assumed. An exception while ingesting is noted once for the batch; the model notes each of its files.
- HeaderOrder.OrderChangedFiles: paths are distinct and what the headers include is an input, as git and the file system are outside the model.
- SourceEpochs.Partition: the products of the target with 1.3 and 1.35 are inputs, because only their order matters; file sizes are inputs; `largest_first` is on.
- CompressedDict: a failing compression is left out; keys are numbers.
- CompressedDict.CompressedChangeSetDict.Copy: a change made through one of the two dictionaries is not followed into the other, as each has its own state in the model.
- ChangeSetExecute: schema views, route scopes, forced stubs and re-entrant calls are left out; references name existing columns; which of several blocking files is named is left to `Scheduler`.
- KbuildConditions: expanding variables, reading a directive's arguments, `define` blocks, and directory and file conditions are left out; a directive's condition is an input.
- KbuildConditions.ParseGates: lines come classified, because joining and matching text is outside the model; only ASCII white space is stripped in comparisons.
- IncludeGraph.Resolve: the directory of a path and the normalized join of a directory and a name are inputs.
- Database access, packet splitting, reconnects, git, ssh, logging, profiling, the table engine and the language parsers.
