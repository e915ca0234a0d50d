# Chaintracks: the header store and its protocols

Dafny models of the header store of a block-header service (rows in a SQL table, one served chain) and of the protocols around it, with proofs about every run of them. `dafny verify dfyconfig.toml` checks the whole project.

## What is modelled

**The store** (`HeaderTable`, `Storage`, `StorageBulk`, `StorageRepair`). A table is a sequence of rows (header, parent link, active flag, tip flag, stored work); a row's id is its position, so the newest ingest is the last row. Every SQL write is a `Stmt` and `Exec` is its effect on the whole table; a D1 batch is `Run`, one atomic step. `Storage.HeaderStore` is the store as the source has it: an object whose methods update the rows in place, statement by statement and batch by batch. Each of its methods is proved equal to a specification on values (`Live`, `Bulk`, `Push`, `Sweep`, `Revalidate`, `Ancestor`), errors and the list of committed batches included, and the properties below are proved of those specifications.

- `Rules`, `Admission`, `Vetted`: the context rules told apart from the code that checks them (the listed hash, the bits the rule asks for over the ancestry), which headers and runs the writers let in by those rules alone, and what every stored header has met over every run.
- `Ancestor`: the two-pointer walk to the common ancestor, and the reorg transaction.
- `CleanStore`, `Live`, `Growth`, `PushClean`, `Runs`: the clean store (active rows are exactly the tip's stored ancestry by hash, on an anchor the rules vouch for) and what every transaction, every call and every run of calls keeps.
- `MostWork`, `MostWorkTop`, `MostWorkPush`, `MostWorkLinks`, `MostWorkRuns`: the most-work rule over runs of inserts, relinks and pushes, and exactly which pushes keep it. `MostWorkStages`, `MostWorkFails`, `MostWorkLinkFails`: two runs on which it fails.
- `Settlement` (with `Edge`): the bound of a reorg, and the line below which the edge cache calls a height settled.
- `Push`, `PushStored`, `Heal`, `PendingFork`: the operator's push under the child that names it, when it becomes active and what it heals; the pending fork with its compare-and-set clear.
- `PushAgain`, `PushCut`: a push cut off between any two of its transactions, and the same push made again.
- `Sweep`, `LinkCheck`, `Revalidate`, `Revalidated`: the healing and checking passes, on any store; what a re-validated chain is worth by the rules alone.
- `RunWindow`, `OneAtATime`: the window loaded once for a run against the whole ancestry; a run written whole against the same run header by header.

**Around it**

- `Lease`: any number of leased writers, the clock and their fenced transactions, interleaved.
- `Journal`, `Feed`: the chain-event journal with paging, overlapping retention ticks and a floor; who is told what, and what a tick deletes.
- `Outbox`, `Delivery`: the webhook outbox with overlapping delivery ticks; one tick of the worker as a run of its steps.
- `EventStream`, `EventBlocks`: the printer of the event stream and the incremental parser that reads it back (the line and field rules of the HTML Living Standard, section 9.2.6).
- `HandOver`: the hand-off under one time budget, and the walk from a pushed header down to a stored row.
- `ConsensusWindow`: the ancestry window with its prefix sums of block proofs modulo 2^256.

**Assumptions.** Hashes are opaque, one header each, and a claimed height is one above the parent's (`HeaderTable.Sound`, `Bulk.Agree`). Heights, times and works are unbounded naturals; block work is positive, so adding work is `+` and more work is `>`. The proof of work and the difficulty rule are parameters; the rule sees the links of the last `depth(parent height)` heights that the window holds and nothing else. The checkpoint list is ascending. Bytes of the event stream are characters.

**Five findings.**

- A push whose parent is not stored (its hash vouched for by a checkpoint it carries) passes the guard of the parent, so its activation leaves, and can make, a broken link below it. `Push.ActivationMends` proves that an activation mends exactly when the parent is stored or the push starts at height 0; `Push.UnstoredParentBreaks` gives a store and a listed checkpoint with which an accepted push breaks a whole link.
- The bulk writer carries the work of the run's parent over rows that are active already, whatever these have stored (src/storage.rs:1221-1250). Where one of them was stored before its parent was relinked, the sum runs past the tip's work, the new rows store too much, and the relink of the tip takes its work back below that of a linked row. `MostWorkFails.PushedWorkFallsBack` reaches this from an empty store by ten calls that all run through. `MostWorkPush.PushClimbs` proves that a push keeps every stored work within its parent's plus its own exactly when it `Accumulates`, which is read before the call: it is refused, or goes header by header, or its sum at the header that stands on the tip is the tip's stored work.
- A served push sets the missing parent links of its span. A row that was stored without one can have more work than a tip that came to stand over it, and linking it breaks the rule that no linked row outworks the tip. `MostWorkLinkFails.PushLinksAHeavierRow` reaches this from an empty store; `MostWorkLinks.PushTop` proves that a served push keeps the rule exactly when `LinksLow` holds before it.
- Asking the link check again from `checkedThrough` comes to an end with every broken link listed once exactly when no height alone fills an answer before the end of the list; a height that does is asked for again without end (`LinkCheck.AskedExact`).
- The re-validation reads the window depth at its cursor only, so its verdict can depend on the budget where the depth jumps (the legacy retarget reads 2016 links at a boundary and 17 elsewhere). `Revalidate.BudgetFreeIsSteady` proves that the budget does not matter exactly for the depths that grow by at most one a height.

## Model

| member | source | states |
|---|---|---|
| Headers.Params.CheckpointAt | src/consensus.rs:233-238 | the listed hash at a height; none exactly when no entry has that height |
| Rules.ViewExact | src/consensus.rs:449-485 | the view the rule is handed is the one that holds, of the headers of the ancestry, exactly the links of the last `depth` heights |
| Rules.ContextExact | src/consensus.rs:517-531 | the check passes if and only if the hash is the listed one wherever the height is listed and the rule asks for exactly the bits over the ancestry; else its fault is the first broken rule: another hash, a missing link, no answer, other bits |
| HeaderTable.ChainTip | src/storage.rs:77-80 | the flagged row that is highest, then newest; none exactly when no row is flagged |
| HeaderTable.HighestActive | src/storage.rs:97-101 | the active row that is highest, then newest |
| Ancestor.CommonAncestor | src/storage.rs:746-782 | the highest common stored ancestor when it lies at most 400 below the higher row; none when no common one lies so near |
| Ancestor.CommonAncestorExact | src/storage.rs:746-782 | the answer is `c` if and only if `c` is the highest common stored ancestor and within the limit |
| Ancestor.MeetsUnique | src/storage.rs:746-782 | that description determines the answer |
| Storage.HeaderStore.FindCommonAncestor | src/storage.rs:748-782 | the two-pointer loop of at most 400 steps computes exactly that ancestor by walking parent links |
| Storage.HeaderStore.WalkBack | src/storage.rs:785-805 | by the parent id or else by the hash, the same row: the stored parent |
| Ancestor.ReorgBatch | src/storage.rs:864-887 | one transaction of at most (new height - ancestor height) + 4 statements |
| Ancestor.ReorgEffect | src/storage.rs:864-891 | after the transaction the rows above the ancestor that are active are exactly the new branch, the tip is the new row alone, the pending fork is the minimum with ancestor + 1, nothing else changed |
| Storage.HeaderStore.CountAbove | src/storage.rs:103-105 | counts the active rows above a height |
| Storage.HeaderStore.Branched | src/storage.rs:843-851 | the walk back collects the stored ancestry of the new row above the ancestor, from the top |
| Storage.HeaderStore.CollectReorg | src/storage.rs:864-887 | the collected statements, in order |
| Storage.HeaderStore.HandleReorg | src/storage.rs:814-893 | without an ancestor flags, tip and pending fork stay and nothing is committed; otherwise one batch, and the count of deactivated rows |
| Storage.HeaderStore.Execute | src/storage.rs:166-244 | a statement's effect on the whole table |
| Storage.HeaderStore.Batch | src/d1.rs:175-182 | the statements in order as one committed step |
| Storage.HeaderStore.UpdateChainTip | src/storage.rs:711-720 | clear and set in one batch |
| Storage.HeaderStore.MoveTip | src/storage.rs:689-703 | the reorg first, the tip set once more only when nothing was deactivated; a refused reorg changes nothing |
| Storage.HeaderStore.CollectChain | src/storage.rs:1925-1970 | back by hash off the active chain, then down the active rows, each the parent of the one before, at most `depth` rows |
| Storage.HeaderStore.CollectWindow | src/storage.rs:1925-1971 | the window of those rows, ascending |
| Storage.HeaderStore.JudgeHeader | src/storage.rs:601-630 | the fault of the first rule broken in the node's order, or whether the header is anchored |
| Storage.HeaderStore.InsertHeader | src/storage.rs:554-706 | the whole call: answer, new table and every transaction, on every branch; a duplicate, or a height that is not one above the stored parent's, changes nothing |
| Storage.HeaderStore.RelinkOrphan | src/storage.rs:905-968 | the whole call: answer, new table and every transaction, on every branch |
| Admission.ForkExact | src/storage.rs:1876-1917 | the fork rule answers the highest listed height above the header, at or below the tip, whose hash is stored; none exactly when there is none |
| Admission.InsertTurns | src/storage.rs:554-580 | without the proof of work a header is refused, with it a stored hash is a duplicate; nothing is written |
| Admission.BadHeightTurned | src/storage.rs:601-612 | a height that is not one above the stored parent's is refused before any rule is read |
| Admission.InsertAdmits | src/storage.rs:601-635 | a new header of sufficient work on a stored row is let in if and only if no held checkpoint bars it, its hash is the listed one wherever its height is listed and the rule asks for exactly its bits over its stored ancestry; else nothing is written and the fault is the first rule broken |
| Admission.InsertAdmitsAlone | src/storage.rs:1846-1869 | without a stored parent: not barred, the listed hash, and the genesis, or a listed height, or some tip to wait under; else the fault of the first that fails |
| Admission.AloneWaits | src/storage.rs:632-676 | such a header at a height not listed waits, inactive and unlinked, whatever its work; in a store without a tip an anchor becomes the tip |
| Admission.RelinkAdmits | src/storage.rs:905-945 | an orphan over a stored parent is linked if and only if it meets those rules over its stored ancestry; else nothing is written and the fault is the first rule broken |
| Vetted.EveryRowIsVetted | src/storage.rs:554-630 | from an empty store, after any run of inserts, relinks and pushes, each cut off anywhere, every stored row has its proof of work and, at a listed height, the listed hash |
| Storage.BatchCollector.Add | src/d1.rs:244-249 | appends a statement |
| Storage.BatchCollector.Execute | src/d1.rs:264-271 | several committed steps of at most 100 statements each, in order |
| Storage.BatchCollector.ExecuteAtomic | src/d1.rs:276-278 | one committed step, whatever its length |
| Storage.ChunksRunAlike | src/d1.rs:264-278 | run to the end, the steps of `execute` leave the table the one step of `execute_atomic` leaves |
| CleanStore.CleanIsOneLinkedChain | src/storage.rs:637-650 | a clean store is one linked chain: one tip, one active row a height, no gap, each row naming the active row below, down to an anchor with no stored parent |
| CleanStore.ReorgKeepsClean | src/storage.rs:864-893 | a reorg to a row that shares an ancestor with the tip leaves the store clean with that row its tip |
| CleanStore.ExtensionKeepsClean | src/storage.rs:667-676 | an extension of the tip leaves the store clean with the new row its tip |
| CleanStore.TipMoveKeepsClean | src/storage.rs:711-720 | moving the tip to a stored child of it leaves the store clean |
| Live.BelowAnchorRefused | src/storage.rs:1876-1897 | no header below a checkpoint that is held, at or below the tip, passes the fork rule |
| Live.AnchorGuards | src/storage.rs:1899-1917 | so no header lands right below the anchor and moves it |
| Live.InsertKeepsClean | src/storage.rs:554-706 | every state between the transactions of an insert, and the last, is a good store |
| Live.RelinkKeepsClean | src/storage.rs:905-968 | every state between the transactions of a relink, and the last, is a good store |
| Growth.BulkPlaces | src/storage.rs:1228-1286 | the bulk statements place the run header by header: insert, activate where stored inactive and nothing is active there, or leave |
| Growth.GrowRun | src/storage.rs:1228-1286 | on a clean store every header of a run on the tip ends active, the active rows are one path again, the tip flag is where it was |
| PushClean.NeverActivatesOnClean | src/storage.rs:1541-1597 | on a clean store the activation branch is unreachable |
| PushClean.CanonicalizeGrown | src/storage.rs:1526-1539 | after the bulk rows the push ends clean with its last row the tip |
| PushClean.PushKeepsClean | src/storage.rs:1480-1491 | a push standing on a stored row leaves a good store good, whatever it answers |
| Runs.CallKeeps | src/storage.rs:554-968 | an insert or relink cut off after any transaction, and a push, each with any answer, keep the store good |
| Runs.EveryRunIsOneLinkedChain | src/storage.rs:554-706 | from an empty store every run of inserts, relinks (each cut off anywhere) and pushes on a stored row ends empty or as one linked chain on a vouched anchor |
| MostWork.InsertClimbs | src/storage.rs:590-635 | every transaction of an insert: no stored work falls, the tip's work rises strictly when the tip changes |
| MostWork.RelinkClimbs | src/storage.rs:933-965 | every transaction of a relink likewise |
| MostWorkPush.PushClimbs | src/storage.rs:1215-1250 | a push on a stored row, whatever it answers: no stored work falls, and the tip's work rises strictly when the tip changes; the stored works stay within their parents' plus their own if and only if the push accumulates |
| MostWorkPush.TipPushAccumulates | src/storage.rs:1215-1250 | every push that stands on the tip accumulates |
| MostWorkPush.SumsAccumulate | src/storage.rs:1215-1250 | where every active row stores its parent's work plus its own, every push accumulates |
| MostWorkLinks.PushTop | src/storage.rs:1526-1539 | after a push that found its ancestors no linked row outworks the tip, unless it was served; served, if and only if the rows it links do not |
| MostWorkLinks.TipPushLinksLow | src/storage.rs:1526-1539 | a push that stands on the tip links no such row |
| MostWorkRuns.RunClimbs | src/storage.rs:632-635 | over any run of inserts and relinks cut off anywhere and of pushes that accumulate: no row's stored work falls; another tip has strictly more work |
| MostWorkRuns.NoLinkedRowOutworksTheTip | src/storage.rs:941-945 | after any run from an empty store whose calls all ran through, its pushes accumulating and linking no heavier row, no row with a parent link has more work than the tip, so a tie keeps the first seen |
| MostWorkFails.PushedWorkFallsBack | src/storage.rs:1221-1250 | ten calls from an empty store, all Ok, the push not accumulating: the relink of the tip takes its work from 6 to 4, under a linked row of 5 |
| MostWorkLinkFails.PushLinksAHeavierRow | src/storage.rs:1526-1539 | six inserts and an accumulating push from an empty store, all Ok: the push links a row of work 10 under a tip of work 3 |
| Edge.Parse | src/edge.rs:33-37 | no setting puts the line nearer than 400 below the tip |
| Edge.NumberIsTheLine | src/edge.rs:33-54 | a number with white space about it is read back as the line, raised to 400; past 32 bits the edge is off |
| Edge.ParseExact | src/edge.rs:33-37 | a setting is a line if and only if it spells a number a u32 holds, a plus sign and white space about it allowed; the line is the larger of it and 400; any other text turns the edge off |
| Edge.Settled | src/edge.rs:57-60 | settled if and only if more than `line` below the served tip |
| Settlement.InsertBounded | src/storage.rs:836-890 | every transaction of an insert on a clean store deactivates at most 400 rows, all above tip - 400, in at most 404 statements |
| Settlement.RelinkBounded | src/storage.rs:905-968 | every transaction of a relink likewise |
| Settlement.NoSettledRowDeactivated | src/edge.rs:48-60 | a bounded transaction deactivates no row at a height the edge calls settled, for every `HEADER_EDGE_DEPTH` |
| Settlement.LiveWritesKeepSettledRows | src/edge.rs:14-60 | no insert or relink on a clean store deactivates a settled row, at any of its transactions |
| Bulk.WindowDepth | src/storage.rs:1086-1095 | deep enough for every header of the run, less the ancestors the run supplies |
| RunWindow.ViewSuffix | src/consensus.rs:449-485 | a shorter window that still holds `depth` links shows what a longer one shows |
| RunWindow.WindowIsSuffix | src/storage.rs:1925-1971 | the loaded window is the end of the linked stored ancestry, shorter only when it holds `depth` links |
| RunWindow.BulkWindowIsEnough | src/storage.rs:1083-1096 | loaded once and grown by push, the window gives every header of the run the verdict its whole stored ancestry gives |
| RunWindow.LiveWindowIsEnough | src/storage.rs:622-626 | the window of one live header likewise |
| RunWindow.LiveJudged | src/storage.rs:559-666 | a new header over a stored parent is refused, nothing written, if and only if it breaks a rule over its whole stored ancestry; accepted, its row is the first write, linked, its work on top of the parent's |
| RunWindow.RelinkJudged | src/storage.rs:910-939 | an orphan is linked if and only if it meets the context rules over its whole stored ancestry; refused, nothing is written |
| RunWindow.CleanAncestry | src/storage.rs:1919-1924 | on a clean store that ancestry is the whole stored path by hash |
| OneAtATime.TipJudged | src/storage.rs:1046-1166 | on the tip of a clean store the bulk writer accepts a run if and only if every header passes over its whole stored ancestry |
| OneAtATime.PassedIsAccepted | src/storage.rs:1314-1367 | a run the read-through passes on the tip is accepted by the bulk writer |
| OneAtATime.PushSplit | src/storage.rs:1480-1541 | pushing a run on the tip is pushing its first header, then the rest: the same table |
| OneAtATime.EachIsWhole | src/storage.rs:1480-1541 | a run on the tip pushed header by header leaves the table pushing it whole leaves, its last header the tip |
| OneAtATime.AcceptedIsEach | src/storage.rs:1046-1166 | a linked run on the tip is accepted by the bulk writer if and only if each of its headers, pushed alone in turn, is |
| OneAtATime.PassedRunLands | src/storage.rs:1314-1367 | a run the read-through passes is served when pushed whole, and header by header every one lands active, the last the tip |
| StorageBulk.JudgeContext | src/storage.rs:1144-1166 | the loop over the growing window finds the first fault |
| StorageBulk.JudgeBatch | src/storage.rs:1046-1166 | why a run is refused, if it is: work, links, parent or anchor, checkpoints, bits |
| Admission.FaultExact | src/storage.rs:1144-1166 | over the growing window no fault is found if and only if every header obeys over the ancestry and the run before it: the listed hash alone up to the vouched height, all the rules above, served already where a checkpoint bars it |
| Admission.RunAdmits | src/storage.rs:1046-1166 | a run over a stored row is accepted if and only if every header has its work, each is the parent of the next from one above that row, and every header so obeys |
| Admission.LooseRunAdmits | src/storage.rs:1098-1166 | a run whose parent is not stored is accepted if and only if it is such a chain that starts with the genesis or has a listed height inside it, and every header obeys, vouched for up to that height |
| PushStored.PathExact | src/storage.rs:1168-1191 | an accepted run goes header by header if and only if its parent is stored off the active chain, or it starts at or below the tip and an active row contests it; else it is written in bulk; a refused one changes nothing |
| PushStored.EachEnds | src/storage.rs:1184-1190 | header by header: each on the store the one before left, all of them, or up to the first that fails, whose answer is the answer |
| StorageBulk.WriteRun | src/storage.rs:1212-1286 | batches of at most 100 statements, no header split over two, the cumulative work carried along: what is committed, in order, and the table it leaves |
| StorageBulk.InsertOneByOne | src/storage.rs:1185-1189 | inserted one at a time up to the first error, and every transaction |
| StorageBulk.InsertHeadersBatch | src/storage.rs:1034-1289 | the whole call: judged whole and refused for any heights claimed, the live path when the run competes, else the bulk rows; every transaction in order |
| StorageBulk.SoleAt | src/storage.rs:1519-1525 | whether the header's row is the only active row at its height |
| StorageBulk.ChildAbove | src/storage.rs:1542-1545 | the active row at the next height that names the last header, if there is one |
| StorageBulk.LowestRivalHeight | src/storage.rs:1587-1589 | the lowest height a rival of the run is active at, if there is one |
| StorageBulk.UpdateChainTipToHighest | src/storage.rs:723-742 | the tip flag moves to the highest active row in one transaction |
| StorageBulk.CollectActivation | src/storage.rs:1570-1589 | the statements of an activation, in order |
| StorageBulk.Decide | src/storage.rs:1519-1568 | served, activated under the child that names the push, or stored inactive; the guards in the source's order |
| StorageBulk.CanonicalizePushed | src/storage.rs:1493-1597 | the whole call: verdict, new table and every transaction; the activation is one |
| StorageBulk.IngestPushed | src/storage.rs:1480-1491 | the whole push: refused for any heights claimed, or inserted and then decided; every transaction in order |
| Push.ActivationEffect | src/storage.rs:1570-1590 | at the run's heights exactly the pushed rows are active, the child's link is set, every other row, the tip and the works are as they were |
| Push.VerdictExact | src/storage.rs:1493-1597 | "active" or "activated" if and only if every pushed row ends as the only active row at its height; "storedInactive" changes nothing |
| Heal.DecidesExactly | src/storage.rs:1526-1569 | in terms of the table before the call: served if and only if each pushed row is the one active row at its height; else activated if and only if an active row names the last header, the parent is not stored off the chain and there are at most 400 headers; else nothing changes |
| Heal.ServedLeaves | src/storage.rs:1526-1539 | a served push links exactly the unlinked active rows from its first height to the height above its last, each to the row it names, and leaves the highest active row the one tip |
| Heal.RepairHeals | src/storage.rs:1456-1597 | on any sound store with one active row a height: a stored linked run of at most 400 headers that starts the chain or stands on an active row, its last header named by an active row above, is served or activated; then each pushed row is the one active row at its height and no link from the parent to the row above is broken |
| Push.ActivationMends | src/storage.rs:1541-1597 | an activation on a store with one active row a height breaks no link and mends every break from the parent up to the child if and only if the parent is stored or the push starts at height 0; the rows above are left alone in every case |
| Push.UnstoredParentBreaks | src/storage.rs:1553-1562 | a sound store and a listed checkpoint with which a push without a stored parent is accepted, activated and breaks a whole link |
| PushStored.PushVerdictExact | src/storage.rs:1480-1491 | on any sound store the push answers "active" or "activated" if and only if every pushed row ends as the only active row at its height; refused or stored inactive, the table is as the insert left it |
| Heal.PushHeals | src/storage.rs:1480-1597 | the same of the whole push on the table before it, for every run the rules let in |
| PushStored.PushMends | src/storage.rs:1480-1597 | on any sound store with one active row a height once the run is in, an activating push mends its links if and only if its parent was stored before the push or it starts at height 0 |
| PushAgain.AcceptedAgain | src/storage.rs:1046-1191 | on the rows a cut-off bulk push left, the same run is accepted again, on the bulk path and over the same work |
| PushCut.PushIsTxs | src/storage.rs:1480-1491 | the transactions of a push run in order are the push |
| PushCut.LivePushGood | src/storage.rs:1168-1191 | every transaction boundary of a push through the live writer is a good store |
| PushCut.BulkPushCut | src/storage.rs:1248-1286 | a bulk push cut off before its last transaction: the tip where it was, one path of active rows up from it, the run's headers and nothing else new; the same push made again leaves what the uncut push leaves |
| PushCut.PushCutAnywhere | src/storage.rs:1480-1491 | any push cut off anywhere leaves a good store or such a path, and the same bulk push made again leaves the store of the uncut push |
| PendingFork.StepCovered | src/storage.rs:895-897 | a reorg, an activation or a clear keeps every height taken off at or above the pending fork |
| PendingFork.PendingForkCovers | src/storage.rs:864-890 | under any order of them, every height taken off since the last clear that took effect is at or above the pending fork |
| PendingFork.ClearIsExact | src/statement_pins.rs:133-134 | a clear takes effect only with the recorded fork; a shallower one never does, and changes nothing |
| Sweep.SweepSettlesTheHighest | src/storage.rs:1617-1640 | on any store a sweep only takes rows off, keeps an active row at every height that had one, and leaves dual exactly the heights past the highest thousand |
| Sweep.SweepKeepsTheChain | src/storage.rs:237-244 | the row kept at the highest active height keeps its whole unbroken active ancestry |
| Sweep.SweepIsOnce | src/storage.rs:1617-1640 | with at most 1000 dual heights one active row is left at every height that had one, and a second sweep changes nothing |
| StorageRepair.DualHeights | src/storage.rs:231-235 | the heights with more than one active row, highest first |
| StorageRepair.DedupeActiveHeights | src/storage.rs:1617-1640 | the loop is the sweep, the next height settled first |
| LinkCheck.LinkCheckSpans | src/storage.rs:1766-1833 | for every span the report of one read, the cut at 1000 entries and `checkedThrough` included |
| LinkCheck.LinkedMeans | src/storage.rs:1679-1683 | with an active row at `to`, "linked" if and only if every height in [from, to) holds exactly one active row and every active row above names it |
| LinkCheck.BrokenExact | src/storage.rs:1675-1683 | a range lists an entry if and only if it tells of an active row of those heights that names a parent other than what is active one below, or where nothing is |
| LinkCheck.ReportExact | src/storage.rs:1766-1833 | a report lists every such entry, or the first thousand and where it stopped, exactly when there are more |
| LinkCheck.LinkedRows | src/storage.rs:1791-1796 | then the rows are (to - from) + the active rows at `to` |
| LinkCheck.CutAnswer | src/storage.rs:1669-1672 | a cut answer lists every broken link below `checkedThrough`, and some of those at it |
| LinkCheck.AskedExact | src/storage.rs:1669-1672 | asked again from `checkedThrough` until an answer is not cut: every broken link once and in order, if and only if no height alone fills an answer before the end of the list |
| Revalidate.ChunkIsWalk | src/storage.rs:2239-2292 | where the depth is steady the growing window answers every row as its whole active ancestry does |
| Revalidate.StepsAreWalk | src/storage.rs:2161-2300 | `n` steps of a budget land where one walk of n * budget rows over the whole ancestry lands |
| Revalidate.AnyBudgetSameEnd | src/storage.rs:2161-2300 | every budget of at least 1 ends in the same verdict, fault and validated row |
| Revalidate.StepsToComplete | src/storage.rs:2161-2300 | a pass that completes does so in exactly ceil((tip - start) / budget) steps |
| Revalidate.AdmittedRowsPassed | src/storage.rs:2027-2047 | at every step each height the ceiling admits above the start holds a row that passed every rule |
| Revalidated.AdmittedRowsAreSure | src/storage.rs:2268-2292 | at every step of every budget each height the ceiling admits above the start is reached by active rows that name the row below, have their proof of work and the listed hash, and carry the bits the rule asks for over their whole active ancestry |
| Revalidated.CeilingIsExact | src/storage.rs:2013-2047 | with one active row a height, after `n` steps the ceiling admits exactly the heights such rows lead to, at most n * budget rows up |
| Revalidated.CompletesExactly | src/storage.rs:2161-2300 | with one active row a height the steps complete if and only if such rows lead to the tip's height |
| Revalidated.FaultIsReal | src/storage.rs:2272-2292 | a pass that does not complete stops above a row such rows lead to, and records the reason: no active row names it, or the row that does breaks that rule, the proof of work first |
| Revalidated.AnchorExact | src/storage.rs:2178-2202 | the anchor is the newest active row at the last listed height, not above the tip, that holds one; another hash there, or no such height, is the fault |
| Revalidated.ResumeExact | src/storage.rs:2204-2228 | a pass resumes at the recorded row while it is active above the anchor, from a row off the chain at its nearest active ancestor not below the anchor and at most 400 back, else at the anchor |
| Revalidate.CeilingStopsAtTheFault | src/storage.rs:2013-2047 | the ceiling never rises past the last row before the refused one |
| Revalidate.StepCutOff | src/storage.rs:2229-2233 | a step cut off after it recorded its cursor, made again, ends where the uncut one ends, wherever it resumes at the anchor or above it |
| Revalidate.BudgetDecides | src/storage.rs:2239-2242 | over any jump of the depth: a chain that steps of one row complete and steps of two rows refuse |
| Revalidate.BudgetFreeIsSteady | src/storage.rs:2239-2242 | for every store, rule and start the end is free of the budget if and only if the depth grows by at most one a height (up to the whole ancestry) |
| StorageRepair.AnchorOf | src/storage.rs:2178-2202 | the highest listed checkpoint at or below the tip whose height is held, or the fault |
| StorageRepair.ForkPointOf | src/storage.rs:2211-2224 | at most 400 parents back to the first active row at or above the anchor |
| StorageRepair.ResumeAt | src/storage.rs:2204-2228 | the stored cursor while it is active, the fork point after a reorg, else the anchor |
| StorageRepair.WindowUnder | src/storage.rs:2239-2266 | the run of active ancestors that ends at the cursor, at most `depth` of them |
| StorageRepair.CheckRows | src/storage.rs:2268-2292 | the last row that passed and the fault of the next |
| StorageRepair.RevalidateStep | src/storage.rs:2161-2300 | the whole step: answer, new validation state and every record on the way, only that state changed |
| Lease.LeftIsFence | src/statement_pins.rs:613-658 | the remaining term is positive if and only if the fence passes |
| Lease.SyncState.Take | src/statement_pins.rs:576-577 | the row and the changed count of a take |
| Lease.SyncState.Release | src/statement_pins.rs:578-579 | only the owner's release frees the row |
| Lease.SyncState.Fence | src/statement_pins.rs:658-659 | passes exactly for the owner whose term has not run out |
| Lease.HoldsAreSerial | src/sync.rs:245-390 | for every interleaving the table equals the holds run one after another, and their transactions landed contiguously in that order |
| Lease.HoldsArePrefixes | src/sync.rs:311-336 | each hold that counts is a prefix of what its holder made |
| Lease.LapsedStays | src/sync.rs:311-336 | once a holder's fence does not pass, no later transaction of it lands |
| Lease.SuccessorUntouched | src/sync.rs:392-410 | whatever a former holder does, its release included, leaves its successor's lease and the table alone |
| Lease.LapsedIsTakenOver | src/statement_pins.rs:576-577 | at any point of any run a fresh token's take succeeds if and only if no holder's fence passes; its writes then land exactly until its term is over |
| Lease.ReleasedIsTaken | src/statement_pins.rs:578-579 | a lease given back is the next token's |
| Journal.Store.Append | src/events.rs:673 | the row is appended under a higher cursor |
| Journal.Store.Retain | src/events.rs:504-543 | the floor and the rows after a tick's transaction, both statements picking the same rows |
| Journal.HeadNotPicked | src/events.rs:504-512 | the head row is never deleted |
| Journal.OnlyOldPicked | src/events.rs:498-520 | a tick deletes at most 1000 rows: chain rows older than 90 days, `tipAge` rows older than a day, no other kind |
| Journal.RetainKeeps | src/events.rs:522-543 | a tick, its floor read stale, deletes no chain row above the new floor, keeps the head and never lowers the floor |
| Journal.PageIsWhole | src/events.rs:424-496 | the chain rows of a page from a cursor at or above the floor are all those ever appended between its ends |
| Journal.ReplayHasNoGap | src/events.rs:424-496 | for every interleaving the client has every chain row between its start and its cursor exactly once and in order, or was told its cursor expired; the floor never falls |
| Journal.AnyClientAnyRun | src/events.rs:424-496 | the same for a client that joins a journal with any past at any cursor |
| Feed.ReadExact | src/events.rs:424-496 | expired exactly below the floor and not ahead; ahead exactly when every stored row is below the cursor; else the first `limit` rows above the cursor in order, the last of them as the next cursor, and more exactly when a row lies above that |
| Feed.ToldExactly | src/events.rs:960-985 | over every interleaving a client is told it expired if and only if some read found its cursor below the floor |
| Feed.ReaderReachesHead | src/events.rs:424-496 | a reader between floor and head that takes in whole pages, no row deleted between, has received every row above its cursor and stands at the head as soon as its pages hold them |
| Feed.TickDeletes | src/events.rs:498-520 | a tick deletes exactly the old rows below the head, the lowest thousand of them when there are more |
| Feed.FloorIsExact | src/events.rs:522-543 | the floor after a tick is the old one or the cursor of a chain row it deleted, none deleted above it |
| Outbox.Deliveries.PostEvents | src/events.rs:731-758 | rows posted in order up to the first refusal, each accepted one raising the cursor |
| Outbox.Deliveries.Deliver | src/events.rs:774-829 | one tick over every target, those at the head, ahead or below the floor passed over, the rows of each other read when its turn comes |
| Outbox.StepMoves | src/events.rs:745-746 | no step moves a target's cursor back, and only a post it accepted moves it |
| Outbox.NothingSkipped | src/events.rs:685-829 | over overlapping ticks no cursor moves back, and every row between a target's start and its cursor was accepted by it |
| Outbox.AnyRunSkipsNothing | src/events.rs:685-829 | the same from an empty store at any point of any run |
| Outbox.TargetsApart | src/events.rs:748-755 | a refusal by one target changes nothing for another |
| Delivery.DeliverEnds | src/events.rs:774-829 | a tick serves the listed targets at or above the floor and below the head: each ends at the last row of its page before the first refusal, at the end of the page without one; no other cursor changes |
| Delivery.DeliverSkipsNothing | src/events.rs:731-758 | every row the journal holds between where a target stood and where the tick leaves it was accepted by it |
| Delivery.DeliverIsRun | src/events.rs:774-829 | whatever is answered and appended on the way, a tick is a run of the outbox's steps, each of them enabled, that leaves the same cursors |
| EventStream.Parser.ReadLine | src/sse.rs:88-123 | the parser state and the item after one line |
| EventStream.Parser.Take | src/sse.rs:65-86 | the parser state and the items after one chunk, or the fault of a line past the bound |
| EventStream.DrainSplit | src/sse.rs:65-86 | reading a text is reading its first part, then the second |
| EventStream.CuttingIndependent | src/sse.rs:61-86 | every cutting into feeds is read without a fault if and only if every line fits; all that are read give the same items and the same state |
| EventBlocks.BlockReads | src/sse.rs:88-122 | a block of any fields and comments in any order, its lines ended in LF or CR LF: a comment each, then, if a field that counts came, one event with the last id, the last type or `message`, and all data joined by line feeds |
| EventStream.ReadsFrame | src/events.rs:656-666 | a frame reads back as its cursor and its data; the frame of a row without data, its id alone, as its cursor and no data |
| EventStream.PrintedReadsBack | src/events.rs:561-572 | frames, heartbeats and ends in any order and cut in any way read back exactly the events in order, the parser idle again |
| EventStream.CursorBack | src/events.rs:591-611 | a printed cursor parses back to itself within the bound, and past it is refused |
| HandOver.Timed | src/push.rs:199-212 | how long a send takes and whether it was answered |
| HandOver.AskDoor | src/push.rs:311-315 | one ask: its sends one after another |
| HandOver.HandOverRun | src/push.rs:287-355 | the loops over the run and the asks against the moving clock |
| HandOver.HandOverWithinBudget | src/push.rs:287-355 | ends inside its budget, asks again at most `tries` times over the run, what landed is a prefix of the run in order |
| HandOver.SendIs | src/push.rs:199-212 | a send is answered if and only if budget is left and its answer takes at most 5 s and comes by the deadline; else it is given up after 5 s or at the deadline |
| HandOver.HandOverStops | src/push.rs:287-355 | goes on until all landed, its 20 s are spent, the door dropped a header, or it is still busy when its asks, or all but 2 s, are used up; every repeat waits 2 s |
| HandOver.ParentWalk | src/push.rs:370-400 | the run from the first stored ancestor up to the header, or which parent is missing or too deep |
| HandOver.WalkFinds | src/push.rs:370-400 | the walk finds the run whenever at most 36 ancestors lead to a stored row |
| HandOver.WalkShortest | src/push.rs:370-400 | it stops at the first stored ancestor: none of the run's inner parents is stored |
| HandOver.PushedWalk | src/push.rs:370-400 | on the rows fetched: the run, its oldest row the first on a stored row; too deep exactly with 36 ancestors fetched and none on a stored row; or the parent no courier has |
| HandOver.HonestRunIsLinked | src/push.rs:391-403 | answers to the hashes asked for make the linked run the writers take |
| ConsensusWindow.Window.Push | src/consensus.rs:467-474 | the link is appended, the prefix sums kept |
| ConsensusWindow.Window.Index | src/consensus.rs:476-479 | the position of a height, none exactly outside the window |
| ConsensusWindow.Window.WorkBetween | src/consensus.rs:487-497 | the missing ancestor named exactly when an end is outside, the first end first; otherwise the work over (first, last] |
| ConsensusWindow.DifferenceIsSum | src/consensus.rs:467-497 | the wrapped difference of two prefix sums is the plain sum of the proofs between them modulo 2^256 |
| ConsensusWindow.ConsecutiveWork | src/consensus.rs:487-497 | over consecutive pushes that is the sum over the links of those heights |

## Left out

- The HTTP routes, CORS, admin authentication, JSON bodies, caches and purges (`src/routes.rs`, the rest of `src/edge.rs`): plumbing.
- The export and the file host (`src/r2.rs`), build identity and health fields: I/O.
- The couriers and their ladder (`src/couriers.rs`, `src/woc.rs`): first valid answer, easy members.
- Hashing, compact bits, 256-bit limbs and the difficulty formulas: bsv-rs is not part of this model; the rule is a parameter.
- The webhook claim and retry of the tip announce, the heal's walk and the poll loop of `src/sync.rs`: only the pending fork's record and clear are modelled.
- The triggers and views of the migrations that write the journal: an append is a step of the journal model.
- `repair_cumulative_work`, the stream's query budget and loop, the compatibility views, JSON decoding of payloads, `with_checkpoints`, link state records and logging.
- Reads that fail and D1's numeric conventions: a call may stop between transactions, its reads answer.
- Runs.EveryRunIsOneLinkedChain: a header's claimed height is its true height, because an orphan's is not checked until it is relinked; pushes stand on a stored row and run to their end (PushCut.PushCutAnywhere says what one cut off leaves, and that the same push mends it).
- Storage.HeaderStore.InsertHeader: a new header whose height contradicts the height claimed by a stored orphan that names it as parent is not covered.
- Storage.HeaderStore.RelinkOrphan: an orphan stored with a false claimed height (its refusal is the first branch of the call, but no sound table reaches it).
- StorageBulk.InsertOneByOne: headers have their true heights.
- StorageBulk.InsertHeadersBatch: a run that is not refused has headers of true heights.
- StorageBulk.IngestPushed: likewise.
- MostWorkRuns.RunClimbs: the run's pushes accumulate; MostWorkFails.PushedWorkFallsBack shows that this is needed.
- MostWorkRuns.NoLinkedRowOutworksTheTip: likewise, and its served pushes link no row that outworks the tip; MostWorkLinkFails.PushLinksAHeavierRow shows that this is needed.
- PushStored.PushMends: one active row a height is asked of the table the insert left.
- Revalidate.StepCutOff: not claimed where two rows are active at the anchor's height and the step resumes at the other one.
- Revalidate.AnyBudgetSameEnd: from the row the pass resumes at up to the tip the depth is steady; the store does not change during the pass. Revalidate.BudgetFreeIsSteady shows that the first is needed.
- Revalidate.AdmittedRowsPassed: the same two conditions.
- Revalidated.AdmittedRowsAreSure: the same two conditions.
- Revalidated.CompletesExactly: the same two, and one active row a height above the start, because a pass follows the first of two rows that name the same parent.
- Heal.PushHeals: for runs the rules let in (Admission.RunAdmits and Admission.LooseRunAdmits say which).
- Delivery.DeliverIsRun: a target's answers depend on the row alone within one tick; the journal only grows while the tick runs.
- Feed.ReaderReachesHead: nothing is appended or deleted between the reads.
- Lease.HoldsAreSerial: every header transaction goes through the fence and a take asks with a fresh token; writers without a lease and faults of the store itself are not modelled.
- Outbox.NothingSkipped: no retention runs while a delivery tick is open; a row that is not a chain row and was deleted before a target read it is not claimed.
- EventStream.PrintedReadsBack: the data of a frame holds no line feed and does not end in a carriage return; invalid UTF-8 and its lossy decoding are not modelled.
- HandOver.HandOverWithinBudget: only sends and sleeps take time, so the writes between them are not counted.
- HandOver.HonestRunIsLinked: the couriers' headers have their true heights; a courier's other lies are met by the writers' rules.
- LinkCheck.LinkCheckSpans: rows at one height are listed by id; the query leaves their order open.
