# Tarseer, verified in Dafny

Tarseer walks a directory tree and writes a manifest of it: a sequence of parts, each a run of the walk, and an
index of where each part starts. This project models how it does that and proves that the parts, the files made of
them and the listings below them are what the documentation promises. `dafny verify dfyconfig.toml` verifies all
of it.

## What is modelled

**Where parts end.** The documentation states the rule: a directory that fits the budget is never split, one that
does not is cut into sibling runs, and its own row goes into the first part of its contents. That rule knows the
size of every subtree (`Rule.dfy`). The walk does not: it visits the tree once, measures directories while it is in
them and splits them after the fact. `Cutter.dfy` has the walk as a class with the fields and methods of the original.
The proof is a simulation. `OnePass.dfy` has an abstract state and the parts the rule would still cut from it,
and each step keeps that. `Levels.dfy` says how the fields stand for the abstract state, `Steps.dfy` and `Marking.dfy`
that every step keeps it, and `Reading.dfy` what is still to be read. `RuleFacts.dfy`, `RuleRuns.dfy` and `Pieces.dfy`
prove what the rule promises of its parts. `Peaks.dfy` has a recursion over the tree for the most that ever waits, and
that each step keeps it, `Traces.dfy` the states that steps lead to; `Roots.dfy` finds the open directories again in
the whole tree; `Weights.dfy` and `Bounds.dfy` bound what waits by the tree and the budget alone, and give trees that
reach the bound.

**How a tree is delivered.** `Delivery.dfy` has the units the walk takes in: a directory scan by scan, or a whole
subtree as the list of its scans. The parts depend only on the tree that a unit delivers: `Deliveries.dfy` says which
deliveries are alike, and `Disks.dfy` that the scans of a disk deliver its tree. `CutLists.dfy` has the rows by
reference, as ranges of scans and as subtrees.

**Building a part.** `Tape.dfy`, `Part.dfy` and `Assemble.dfy` have the three tables, node ids and interned names,
and the unfolding of cut lists into them.

**Walk order.** `Order.dfy`, `Recovery.dfy`, `Index.dfy` and `Manifest.dfy` prove what the order of paths is, that a
part's order comes back from its tables, and that a search over the index is exact. `Manifests.dfy` puts all of it
together, from the scans of a disk to the entries that a reader of the manifest gets.

**Encoding in parallel.** `Pipeline.dfy` has the walker, the workers, the orderer, the bounded queue and its lock as
a state machine whose scheduler may choose any step.

**Bytes.** `Seek.dfy` and `ManifestFile.dfy` have the file and its seek table, in the format of zstd's seekable format
(Seek_Table_Entries and Seek_Table_Footer inside a skippable frame, section 3.1.2 of RFC 8878). `Records.dfy` has the
chain of directory records that Windows writes.

**Scans.** `Listings.dfy` has the names of a directory in one buffer, their sort and their search, and `Utf8.dfy`
which of them are text (UTF-8, sections 3 and 4 of RFC 3629). `Windows.dfy` has the windows a listing is read in.
`Scan.dfy` reads the entries of a window, with names as spans of one growing text and both the short and the long way
of reading a file; `Scanning.dfy` puts the windows of a directory together and counts what was skipped. `Handles.dfy`
has the held directory handles and `Timestamps.dfy` modification times. `Sorting.dfy` stands for the standard
library's sorts.

**Metadata later.** `Fill.dfy` has the chain of open directories that reads metadata of a part's rows, and
`LaterMetadata.dfy` that a walk of kinds filled in that way gives what a walk that reads all metadata gives.

What comes from outside is a parameter: the file system's answers, the filter, whether the sink accepts a part,
whether the walk is cancelled, and what a codec encodes and decodes.

## Model

| member | source | states |
|---|---|---|
| `Cutter.Walker.Run` | src/walk/cut.rs:118-170 | For every tree, budget and delivery: the cut lists handed to the sink mean, in order, exactly the parts of the size-knowing rule for the tree that the root unit reads; when the walk is done they are all of them and nothing waits. After a refusal, a failure or a cancellation they are a prefix of those parts. The sink took every one of them, but for the last of them exactly if it refused; a root that cannot be read is always an error, with nothing handed out; and the walk is cancelled exactly if the flag was set at one of the visits it came to, the first such visit ending it `trace` are states that steps of the walk lead to, and in one of them, between two steps, exactly `heaviest` is held back: never more than `Peak` of the tree, and just that once a walk is done in which every directory was read scan by scan |
| `Cutter.Walker.Visit` | src/walk/cut.rs:173-204 | One item is taken in: the invariant holds again and less is left to read; a failure stops the walk only under `OnError::Fail`, a refusal exactly if the sink refused the last list |
| `Cutter.Walker.Leaf` | src/walk/cut.rs:207-214 | A file or symlink is added to the waiting rows, and every measuring level is within the budget again, or the sink refused a prefix of the rule's parts |
| `Cutter.Walker.Enter` | src/walk/cut.rs:217-287 | A directory is entered, as one unit that fits or as a level of its own, and the invariant holds again in both cases |
| `Cutter.Walker.ReadOn` | src/walk/cut.rs:322-340 | The next scan of a large directory replaces the used-up one, and what the walk will still see does not change |
| `Cutter.Walker.Finished` | src/walk/cut.rs:367-379 | A finished child goes into the open run of a split level, or among the finished children of a measuring one, at its own place |
| `Cutter.Walker.AddToRun` | src/walk/cut.rs:382-397 | A child joins the open run if it fits; otherwise the run is handed out with the carried rows before it, and the child starts the next run |
| `Cutter.Walker.CheckBudget` | src/walk/cut.rs:401-409 | Levels are split, outermost measuring one first, until each measuring level is within the budget; nothing else of the walk's state changes meaning |
| `Cutter.Walker.Split` | src/walk/cut.rs:411-440 | Splitting a measuring level after the fact closes the run outside it, opens its own and replays its finished children, and the state stands for the same remaining parts |
| `Cutter.Walker.CloseRun` | src/walk/cut.rs:411-440 | The run before a child that does not fit is handed out if it holds anything, and every later cut stays possible |
| `Cutter.Walker.OpenRun` | src/walk/cut.rs:411-440 | The split level's finished children are exactly the first marks, and next in line for its run; what is left of the marks belongs to the deeper levels, with shifted offsets |
| `Cutter.Walker.Replay` | src/walk/cut.rs:411-440 | Offering the finished children to the new run one by one seals the parts the rule cuts among them |
| `Cutter.Walker.FinishLevel` | src/walk/cut.rs:442-472 | A directory that is done hands out what it must, is popped and becomes a finished child of the one above; at the root everything is handed out |
| `Cutter.Walker.Stem` | src/walk/cut.rs:475-488 | The names cut out of the path text by the recorded lengths are the names of the open directories down to that depth |
| `Levels.JoinIsSlashed` | src/walk/cut.rs:217-236 | While no name is empty, the path text of the walk is the components with a slash between each two |
| `Cutter.Walker.TakeFront` | src/walk/cut.rs:490-505 | Exactly the first waiting rows are taken, whole sources first and then the front of a range; a part never ends inside a subtree kept as one source |
| `Cutter.Walker.Seal` | src/walk/cut.rs:475-510 | The cut list handed to the sink means exactly the given rows, its stem being the directories above the first of them, and the rows behind it stay waiting; it goes on exactly if the sink took that list, and those before it had all been taken; no `expect` or `unreachable!` is reached |
| `CutLists.SplitOffFront` | src/walk/assemble.rs:27-44 | The two ranges hold the first `count` rows and the rest, items that are no rows included, with nothing lost between them; no rows and all of them are as good a count as any |
| `CutLists.Extend` | src/walk/cut.rs:343-363 | One row is added behind the waiting rows, lengthening the last range only when it goes on there, and every possible cut stays possible |
| `CutLists.LinkedOnce` | src/walk/assemble.rs:80-90 | A stem and the depths of the rows leave no choice: two row sequences with the same lines below the same chain are equal |
| `OnePass.TakenKeeps` | src/walk/cut.rs:207-214 | Taking in a leaf leaves the parts still to come unchanged |
| `OnePass.EnteredKeeps` | src/walk/cut.rs:217-287 | Entering a directory leaves the parts still to come unchanged |
| `OnePass.PoppedKeeps` | src/walk/cut.rs:442-472 | Popping a measured directory that fits leaves the parts still to come unchanged |
| `OnePass.AbsorbedKeeps` | src/walk/cut.rs:382-397 | Offering a finished child to the open run seals a part exactly where the rule does |
| `OnePass.OpenedKeeps` | src/walk/cut.rs:411-440 | Splitting the outermost measuring level once it is over budget is what the rule would have done on arrival |
| `OnePass.LeftKeeps` | src/walk/cut.rs:442-472 | Leaving a split directory closes its last run, its own row included, as the rule does |
| `RuleFacts.PartsAreTheWalk` | src/walk.rs:35-47 | The parts one behind the other are the preorder of the tree, each row once |
| `RuleFacts.PartsAreRuns` | src/walk.rs:38-47 | Every part comes apart into the own rows of directories over the budget, each inside the one before, and one run of consecutive siblings with whole subtrees that fits the budget or is a single file or symlink; none is empty. Where the runs of two neighbouring parts lie side by side, the first could not have taken one more child |
| `Pieces.PieceOnce` | src/walk.rs:38-47 | A part of a sorted tree comes apart like that in one way only |
| `Pieces.NeighboursAreTight` | src/walk.rs:42-44 | For any two neighbouring parts of any sorted tree, whatever lies over the budget in it: if the second one's run starts right behind the first one's among the children of one directory, then the first run and the first child of the second are over the budget together |
| `RuleRuns.FittingSubtreesStayWhole` | src/walk.rs:41 | Anywhere in the tree, a directory whose whole subtree fits comes in one part, its rows side by side |
| `RuleRuns.FittingChildrenAreGreedy` | src/walk.rs:42-44 | Children that all fit are cut into runs none of which could have taken the next child as well, and each run is one part |
| `RuleRuns.GreedyOnce` | src/walk.rs:42-44 | There is only one way to cut children into such runs |
| `RuleRuns.OversizeStandsAlone` | src/walk.rs:45-46 | A child over the budget closes the run before it and is cut by itself, and what follows starts anew |
| `RuleRuns.SmallTreeIsOnePart` | src/walk.rs:41 | A tree that fits the budget is one part |
| `Bounds.WaitingIsBounded` | src/walk.rs:52-59 | Between any two steps the waiting rows weigh at most `Peak` of the tree, and so at most `MostWaiting`: the heaviest chain of directories over the budget, one inside the other, by their own rows, then the budget or the largest file or symlink row, whichever is more, then the budget again. With the rows that are carried in place of the chain the same holds. Each carried row is the own row of an open directory that is over the budget in the tree |
| `Weights.StateIsBounded` | src/walk.rs:52-59 | The same of the one-pass state: the carried rows weigh no more than such a chain, and everything that waits no more than `MostWaiting` |
| `Bounds.TwoBudgetsAreEnough` | src/walk.rs:54-55 | The documented two budgets are kept by every walk of a tree in which no directory at the top is over the budget and no file or symlink row anywhere is |
| `Bounds.WalkTree` | src/walk.rs:52-59 | For every tree a walk, to its end, comes to a state that holds back exactly `Peak` of the tree between two steps |
| `Traces.NothingPassesThePeak` | src/walk.rs:52-59 | And no state that any steps of a walk of the tree lead to holds back more than that between two steps, however its directories are delivered |
| `Bounds.BoundIsReached` | src/walk.rs:54-55 | For every number of directories inside one another, every budget with room for a directory and a file, and every file as heavy as the budget or heavier, there is a tree whose `Peak` is `MostWaiting` |
| `Weights.PeakWithin` | src/walk.rs:52-59 | However much is carried and in the run already, no more waits on top of it than the chain, the leaf and the budget allow |
| `Peaks.TakenPeaked` | src/walk/cut.rs:207-214 | Taking in a file or symlink leaves the larger of what waited so far and what is still to come unchanged |
| `Peaks.EnteredPeaked` | src/walk/cut.rs:217-287 | So does entering a directory |
| `Peaks.PoppedPeaked` | src/walk/cut.rs:442-472 | So does popping one that fits |
| `Peaks.AbsorbedPeaked` | src/walk/cut.rs:382-397 | So does offering a child to the run: what waited with it had been counted |
| `Peaks.OpenedPeaked` | src/walk/cut.rs:411-440 | So does splitting a level: exactly what fitted of it had been counted |
| `Peaks.LeftPeaked` | src/walk/cut.rs:442-472 | So does leaving a split directory |
| `Bounds.CarriedRowsPassAnyMultiple` | src/walk.rs:54-55 | For every budget and multiple there is a tree whose `Peak`, and whose single part, weigh more than that multiple |
| `Delivery.WholeIsDirectory` | src/walk/cut.rs:238-286 | A subtree flattened to its scans in entry order, taken as one unit, holds what walking it as a directory gives |
| `Delivery.ParsesUnit` | src/walk/assemble.rs:205-244 | Reading the flattened scans back gives the subtree, continuation scans at any nesting included, consumes each scan once and leaves exactly what follows unread |
| `Delivery.ScansJoin` | src/walk/cut.rs:322-340 | However the items of a directory are spread over later scans, its children are those of one long scan |
| `Delivery.SubdirsSame` | src/walk.rs:49-50 | Exchanging the units of one level of subdirectories for others that deliver the same children changes nothing |
| `Deliveries.EveryTreeIsDelivered` | src/walk/cut.rs:238-286 | Every tree whose files and symlinks have nothing below them is what some unit delivers, one that the walk accepts |
| `Deliveries.AlikeDeliverTheSame` | src/walk.rs:49-50 | Anywhere in a unit, and in as many places as may be, a directory walked scan by scan may be exchanged for the whole of its flattened scans, and its items spread over other scans: the children are the same |
| `Deliveries.ManyChanges` | src/walk.rs:49-50 | So they are after any number of such exchanges, one after the other |
| `Disks.ScansAreMade` | src/walk/scan.rs:621-741 | The scans of that unit are those a scanner makes of the directory, one for each window: their items, and where the next window starts |
| `Disks.ScansDeliverTheTree` | src/walk/scan.rs:621-741 | The scans of a directory and of all below it, each in its windows, make a unit that the walk accepts, and its children are the tree that is read of the disk, failures and unreadable directories left out |
| `Disks.TheTreeIsSorted` | src/walk.rs:30-33 | If every listing is sorted and has no name twice, that tree is sorted |
| `Disks.SortedNamesAscend` | src/walk/reader.rs:207-252 | A listing that was sorted is in the order that the walk relies on |
| `Manifest.SchedulesAgree` | src/walk.rs:49-50 | Two walks of one tree, however each was delivered and whatever their sinks and cancel flags are: if both end well they hand out as many cut lists, and those at the same place mean the same rows and no others. Then the sinks took every list, no flag was set at a visit, and nothing failed to be read that the setting does not skip. And both end well if the sinks take everything, the flags are never set and nothing fails to be read, or only entries below the root do and errors are skipped |
| `Assemble.Assemble` | src/walk/assemble.rs:93-135 | For any cut list that stands for some rows, the part holds exactly those rows, each kind in walk order and every row with its true path; the tables and the text take exactly the room counted beforehand; it fails exactly if the part outgrows 32-bit indexes |
| `Assemble.CountRoom` | src/walk/assemble.rs:93-109 | The counted room is that of the rows, whether they come as ranges or as subtrees, plus the text of the stem |
| `Assemble.Push` | src/walk/assemble.rs:171-203 | An item of the directory at a depth becomes a row below that directory's node, and a directory replaces the nodes from its depth on |
| `Assemble.PushRange` | src/walk/assemble.rs:123-130 | The items of a range give its rows, items that are no rows giving none |
| `Assemble.Unfold` | src/walk/assemble.rs:208-244 | The explicit stack and the one `unread` counter give the rows of the subtree in preorder with their depths; every scan is read once and the loop ends |
| `Assemble.EstimateIsWhatTheWalkAdded` | src/manifest/part.rs:310-316 | The estimate of a part that holds some rows is the sum of the walk's estimates of those rows, with the text of the stem on top, if and only if the part's text is just as long as that of the stem and the rows |
| `Tape.StrTape.Push` | src/tape.rs:68-73 | The string is appended behind the others, which do not change, or nothing changes if the text would pass 4 GiB |
| `Tape.StrTape.Get` | src/tape.rs:78-82 | An index gives the string that was pushed under it, and none past the end |
| `Tape.StrTape.Iter` | src/tape.rs:103-107 | Every string in the order it was pushed |
| `Part.TreePart.PushStem` | src/manifest/part.rs:338-347 | A stem component is appended below the previous one, before any directory row |
| `Part.TreePart.PushDirectory` | src/manifest/part.rs:354-371 | The new row is the last one and its node id is the next one, or nothing changes, exactly if an id, an index or the text would pass a `u32` |
| `Part.TreePart.PushFile` | src/manifest/part.rs:377-394 | The new row is the last one of its table and everything before keeps its id |
| `Part.TreePart.PushSymlink` | src/manifest/part.rs:400-418 | As for a file, with the target; it is refused exactly if the two strings do not fit, and when only the target does not, the name stays in the text and no row is added |
| `Part.TreePart.Estimate` | src/manifest/part.rs:310-316 | A fixed width for each row of the three tables and the length of the text |
| `Part.TreePart.Path` | src/manifest/part.rs:196-206 | Following parents up to node 0 ends and gives the components of the row's directory and its name, joined with slashes |
| `Part.TreePart.Node` | src/manifest/part.rs:215-224 | Every node's parent has a smaller id; the name is the node's own |
| `Part.PathStays` | src/manifest/part.rs:354-418 | Appending rows changes the path of no node |
| `Part.HoldsDirectory` | src/manifest/part.rs:354-371 | A directory row pushed below a node adds exactly the row with that node's path, and its own node leads to its path |
| `Order.WalkOrderIsByComponent` | src/manifest/part.rs:421-434 | On joined paths of names that are not empty and hold neither slash nor NUL, mapping the slash to the lowest byte and comparing bytewise is comparing component by component |
| `Order.SlashedOnce` | src/manifest/part.rs:193-206 | Joining such names with slashes loses nothing |
| `Order.PreIncreases` | src/walk.rs:30-33 | The preorder of a tree whose directories are sorted by name strictly increases in walk order |
| `Part.TreePart.Entries` | src/manifest/part.rs:250-269 | The three tables, one behind the other and each row with its path, sorted |
| `Part.TreePart.FirstPath` | src/manifest/part.rs:229-246 | The earliest in walk order of the first rows of the three tables |
| `Recovery.EntriesAreTheRows` | src/manifest/part.rs:248-269 | What sorting the three tables gives is the rows in exactly the order the walk emitted them |
| `Recovery.FirstIsTheFirstRow` | src/manifest/part.rs:226-246 | The first path is that of the first row the walk emitted into the part |
| `Index.PartsOfAWalk` | src/manifest.rs:19-30 | Over the parts of any walk of a sorted tree the first paths strictly increase in walk order |
| `Index.TouchedPartsAreContiguous` | src/manifest.rs:43-46 | The parts that hold a directory's row or anything below it are one contiguous run |
| `Index.SearchIsExact` | src/manifest.rs:43-46 | For every directory of the walk, a search over the first paths alone decides of each part whether it holds its row or anything below it, in both directions |
| `Index.TextUnderIsUnder` | src/manifest.rs:43-46 | A path lies in a directory exactly when its text starts with the directory's and ends there or goes on with a slash |
| `Manifest.Collect` | src/walk.rs:393-400 | Every part a walk handed out is built, in order, until one outgrows its indexes |
| `Manifest.EntriesAreTheWalk` | src/manifest/part.rs:248-269 | The entries of all parts of a walk, part after part, are every entry of the tree in walk order, and the index entry of each part is the path it starts with |
| `Manifests.FromDisk` | src/walk.rs:393-400 | From scans to manifest, for a disk whose listings are sorted, with errors skipped: the walk ends early exactly if the sink refuses a list, the flag is set at a visit or the root cannot be read, and after a refusal nothing more is handed out. Otherwise every one of the rule's parts of the disk's tree is built up to one that outgrows its indexes, and if there is none, the entries of the parts are every entry of the tree in walk order, and each first path is where the part starts. A walk that is done came to a state that holds back exactly `Peak` of that tree |
| `Pipeline.SinkSeesWalkOrder` | src/frames.rs:175-236 | In every interleaving of walker, workers and orderer the sink has at all times seen parts 0 to some k in order, and the index only behind all parts |
| `Pipeline.SuccessSeesAll` | src/frames.rs:175-236 | On success the walk succeeded, every part was encoded, no step of the run failed in any way, and the sink saw all of them in order and then the index |
| `Pipeline.NoSuccessAfterAFault` | src/frames.rs:212-224 | From the step on in which an encoder cannot be set up, a part does not encode, a frame is refused, or the index is not written or refused, no run ends in success, whatever follows |
| `Pipeline.NothingAfterARefusal` | src/frames.rs:294-298 | Once the sink refused a frame it sees nothing more, and the failure that is reported is the sink's |
| `Pipeline.ThreadsDoNotMatter` | src/frames.rs:152-158 | Frames and index are the same for every number of threads and every schedule |
| `Pipeline.FailureHasItsCause` | src/frames.rs:212-224 | A reported failure took place in the run: an encoder that could not be set up was tried, a part that could not be encoded was, the sink refused a frame, the index was not written, the walk failed by itself and not because the orderer stopped. If the orderer broke off, its cause is the one reported. No part ever fails to arrive |
| `Pipeline.ConservedKept` | src/frames.rs:175-210 | While the orderer listens, each part sent is in exactly one place: queued, being encoded, on its way, held back or handed out |
| `Pipeline.SomeThreadCanStep` | src/frames.rs:178-224 | From every reachable state some thread can take a step until the whole has ended and every worker has stopped, encoder, encode and sink failures included: no deadlock, no worker is left behind, and the walk does not block forever on a full queue |
| `Pipeline.StepsEnd` | src/frames.rs:178-224 | Every step leaves less to do, so no run goes on forever |
| `Pipeline.RunsAreBounded` | src/frames.rs:178-182 | The job queue never holds more parts than there are threads, and a run has at most seven steps a part and four a thread, and three more |
| `Pipeline.FaultlessRunsSucceed` | src/frames.rs:150-160 | A run that cannot go on, whatever its schedule, ended in success if and only if the walk succeeded and no step of it was a failure: no encoder that cannot be set up, no part that does not encode, no refused frame, no index that is not written or refused; the sink then saw everything |
| `Pipeline.HandOutInOrder` | src/frames.rs:284-309 | Whatever arrives, parts are handed out as 0, 1, 2 and so on, each as it arrived; it succeeds only if no error arrived and every frame was accepted, and then, if no number arrived twice, exactly the arrived parts were handed out; a part is reported missing only if what arrived is not 0 to some n, each once. If errors arrived, the first of them is reported, unless the sink refused a frame before |
| `Seek.SeekTable` | src/zstd.rs:193-216 | The table is the skippable frame of zstd's seekable format with one entry a frame, and is refused exactly if a number does not fit its four bytes |
| `Seek.Locate` | src/zstd.rs:232-283 | The loop over the entries computes the specified spans, or none, on every byte string |
| `Seek.LocatesExactlyTheFormat` | src/zstd.rs:232-283 | A file is accepted exactly if it ends in a well-formed seek table, with or without per-entry checksums, whose frames fill what is before it; each frame gets the place and the sizes of its entry |
| `Seek.EntriesBack` | src/zstd.rs:265-275 | Reading the entries of a table gives back the entries it was made of |
| `Seek.FrameByBytes` | src/zstd.rs:193-216 | The bytes around the entries of a table, by place and value: the skippable frame's magic number and length, the count, the descriptor and the seekable magic number |
| `Seek.EntryByBytes` | src/zstd.rs:262-275 | Entry after entry of eight bytes, or twelve with checksums: the frame's length, the length of its text, the checksum |
| `Seek.DescriptorByBits` | src/zstd.rs:246-256 | Which bit of the descriptor tells of checksums and which five have to be unset |
| `LittleEndian.LeForth` | src/zstd.rs:289-291 | Four bytes and the number they stand for determine each other |
| `ManifestFile.WriteFile` | src/file.rs:152-185 | The file is the frames in order and then the table of their sizes, and the counts are those of the file and of the text |
| `ManifestFile.RawTotalIsTheTexts` | src/file.rs:152-185 | The count of the text is the length of all frames' texts one behind the other |
| `ManifestFile.FramesComeBack` | src/file.rs:243-246 | Every frame of a written file is found again byte for byte, with its recorded length |
| `ManifestFile.PartsComeBack` | src/file.rs:206-246 | A written file whose index lists the parts before it opens, and each of its frames is the one that was written |
| `ManifestFile.Parse` | src/file.rs:206-238 | A file opens exactly if its frames are located, there is an index frame, and the index lists as many parts as the file holds |
| `ManifestFile.PartJson` | src/file.rs:253-268 | A part's text is given exactly if the part exists, decodes, ends in a newline and has the recorded length; it is what was decoded without the newline |
| `ManifestFile.AcceptedFramesTile` | src/zstd.rs:265-282 | The frames of any accepted file, one behind the other, are everything before its seek table: no gap and no overlap |
| `Fill.Chain.Stat` | src/walk/fill.rs:101-109 | A successful read is made in the directory the row's parent chain names; while the file system answers alike, the kept chain gives what opening everything anew from the root gives, also after opens that failed midway |
| `Fill.Chain.Enter` | src/walk/fill.rs:111-134 | The chain stays one directory longer than its nodes, each open directory being its node's path; it fails only if a directory on the way cannot be opened |
| `Fill.ReadMetadata` | src/walk/fill.rs:24-62 | Every row gets what opening its directories anew would give, the rows that cannot be read stay as they are, and the result is how many those are |
| `Fill.FailuresAreCounted` | src/walk/fill.rs:24-62 | How many those are: each row of each table whose read has no answer once |
| `LaterMetadata.FilledPartsAreTheFull` | src/walk.rs:18-24 | A walk of kinds whose parts are filled in later gives the parts of a walk that reads all metadata, row for row and field for field, where the file system answers alike both times |
| `LaterMetadata.PartsLater` | src/walk.rs:18-24 | The parts of the tree are cut at the same rows with and without metadata |
| `LaterMetadata.FilledHolds` | src/walk/fill.rs:24-62 | A filled part holds the same rows in the same tables, each with the fields the read gave: time and mode of a directory, size, time and mode of a file, the time of a symlink |
| `Listings.PrefixFirstIsExact` | src/walk/reader.rs:255-268 | Comparing eight-byte zero-padded prefixes and then names is comparing names bytewise, whatever they hold |
| `Listings.Listing.Sort` | src/walk/reader.rs:207-252 | Sorting by prefix and place and then each run of one prefix by name leaves a permutation of the entries in bytewise order of the full names, and the buffer is taken for text exactly if it is UTF-8 (`Utf8.TextIsCharacters`) |
| `Listings.BufferIsText` | src/walk/reader.rs:34-44 | The buffer of all names is text if and only if the name of every entry is |
| `Listings.NamesCanBeCut` | src/walk/reader.rs:196-205 | In a buffer that is text, each name starts and ends between two characters |
| `Utf8.BlocksAreText` | src/walk/reader.rs:34-44 | Names with a NUL behind each are UTF-8 if and only if each of them is |
| `Utf8.TextIsCharacters` | src/walk/reader.rs:196-205 | Bytes are taken for text if and only if they are some Unicode characters, surrogates excepted, one behind the other, each in the one to four bytes that its number asks for |
| `Utf8.BoundariesCutText` | src/walk/reader.rs:196-205 | A place in text is between two characters if and only if what is before it and what is behind it are text |
| `Listings.SortKeys` | src/walk/reader.rs:216-244 | The keys end up in order of the names, each still naming its entry |
| `Listings.Find` | src/walk/reader.rs:255-268 | The binary search finds an entry with the name exactly if there is one |
| `Listings.Listing.Add` | src/walk/reader.rs:92-110 | A listed name keeps its place in the buffer and its key, and is refused exactly if a place would pass a `u32` |
| `Records.ReadRecords` | nt/src/records.rs:59-98 | On every byte string the loop ends, reads only inside the data, and gives the entries of the chain until the callback wants no more |
| `Records.TruncationGivesAPrefix` | nt/src/records.rs:272-284 | Parsing any truncation of any data gives a prefix of parsing the whole |
| `Records.Chain.Push` | nt/src/records.rs:128-176 | After a record is pushed, parsing gives the entries before and then that entry with its fields, unless its name is `.` or `..`; every record starts at a multiple of eight, the first one behind the record before |
| `Records.RecordStays` | nt/src/records.rs:59-98 | A record is what its bytes behind the offset of the next one say |
| `Records.RecordByOffsets` | nt/src/records.rs:59-98 | Where each field of a record lies, how wide it is and when the reparse tag counts, by the offsets of FILE_FULL_DIR_INFORMATION; a record counts only if it lies in the data with its whole name |
| `Records.ChainByOffsets` | nt/src/records.rs:59-98 | The entries from any whole record on are it, unless it is named `.` or `..` in UTF-16, and those its first four bytes lead to |
| `Windows.WindowEnd` | src/walk/scan.rs:37-49 | A window ends after 1,024 entries or 64 directories, whichever comes first, and no earlier unless the listing does |
| `Windows.WindowsAreUnique` | src/walk/scan.rs:34-49 | The two limits leave no choice of where a window ends |
| `Windows.DirectoriesAreCounted` | src/walk/scan.rs:37-49 | What is counted against the second limit are the entries listed as directories |
| `Windows.Rest` | src/walk/scan.rs:700-710 | The windows tile the listing from its start to its end, and the loop ends |
| `Scanning.ScansAreOneScan` | src/walk/scan.rs:714-741 | The scans of all windows of a directory note, one behind the other, what one scan of the whole listing would, under both ways of treating errors |
| `Scanning.NextIsAnnounced` | src/walk/scan.rs:700-741 | The start of the next window that a scan leaves behind is that of the next of the scans announced by the first one, and there is none behind the last |
| `Scan.Reading.ReadFile` | src/walk/scan.rs:744-767 | The fast path for a listed file, taken only if the buffer of all names is text and there is no filter, notes what the general path would, the name being the span of the listing moved to where the buffer was copied |
| `Scan.NameTextIsExact` | src/walk/reader.rs:196-205 | Cutting a name out of the text of all names, or checking it by itself where there is none, gives the name exactly if it is UTF-8; so where the fast path is taken no name is to be skipped |
| `Scan.CopiedName` | src/walk/scan.rs:683-691 | The place of a name in the listing, moved by where the buffer was copied to, reads back the name |
| `Scan.MeaningsStay` | src/walk/scan.rs:317-338 | Text added behind changes nothing that was noted before |
| `Scan.Reading.ReadEntry` | src/walk/scan.rs:903-991 | An entry is noted as the specification of one entry says, by whichever of the two ways its directory could be read; if the text has no room it is noted not at all and the text passes 4 GiB |
| `Scan.FileNoted` | src/walk/scan.rs:903-991 | What is noted of a file under both settings of metadata, with and without a filter: the name, and size, time and mode as the lookup gave them or not at all |
| `Scan.DirectoryNoted` | src/walk/scan.rs:903-991 | Of a directory: time and mode as its own metadata says, by whichever way they were read, and no time or mode in a scan of kinds |
| `Scan.SymlinkNoted` | src/walk/scan.rs:903-991 | Of a symlink: its target and its time; it is left out if the target is not UTF-8 |
| `Scan.UnknownNoted` | src/walk/scan.rs:788-871 | An entry whose listing does not tell its kind is looked up, and noted as the kind the lookup gives |
| `Scan.OthersNoted` | src/walk/scan.rs:788-871 | A name that is not UTF-8 and anything that is no file, directory or symlink are left out, each for its own reason; the filter sees every other entry |
| `Scan.AheadDoesNotMatter` | src/walk/scan.rs:876-899 | Whether a directory could be opened ahead changes nothing that is noted, as long as the directory says of itself what a lookup of its name says |
| `Scan.SchedulesNoteTheSame` | src/walk/scan.rs:876-899 | So two scans of the same entries that opened different directories ahead note the same |
| `Scan.Reading.ReadOne` | src/walk/scan.rs:714-741 | The short way and the long way note the same, and a failure is seen by the count of errors |
| `Scan.Reading.Offered` | src/walk/scan.rs:788-871 | An entry is skipped, failed, refused by the filter or offered with its kind, as the specification of one entry says; a name that is not UTF-8 is skipped whatever kind was listed |
| `Scan.Reading.Entries` | src/walk/scan.rs:714-741 | A window is read to its end or, under `OnError::Fail`, to the first failure, and the next window's start is noted if there is one; the jobs are the directories noted, in order; something is left out only if the text passes 4 GiB |
| `Scanning.Fill` | src/walk/scan.rs:621-710 | A directory that cannot be opened or listed notes nothing; otherwise its listing failures come first, under `OnError::Fail` only one of them, then its first window, and the scans of its rest start at the windows that tile the listing; something is left out only if the text passes 4 GiB |
| `Scanning.CopyNames` | src/walk/scan.rs:672-691 | The names are copied in one piece exactly if the listing is one window, they are text and there is room for them |
| `Scanning.Scanner.ScanInto` | src/walk/scan.rs:534-600 | Reporting only scans that found more than rows counts every skip exactly once, as reporting every scan would |
| `Scanning.CountsAreNumbers` | src/walk/scan.rs:575-617 | Each of the four counts goes up by just the number of items that were left out for its reason |
| `Handles.Waiting.Directory` | src/walk/scan.rs:876-899 | Opening ahead, a failed open and a failed read of the metadata all keep the count of held directories exact and within the limit; the limit falls to the count exactly when the process ran out, and the job found says what it holds |
| `Handles.Waiting.Take` | src/walk/scan.rs:642-650 | A job that is taken up gives its directory to its scan, and the count follows |
| `Handles.Waiting.Release` | src/walk/cut.rs:298-311 | Every directory that a waiting job holds is closed and nothing else of the jobs changes, the count is zero, and the answer says whether there was one |
| `Handles.Waiting.Open` | src/walk/scan.rs:770-783 | A second attempt is made exactly if the first ran out of handles and some waiting job held a directory; then every such directory was closed before it, and its answer is the result. The limit never rises above 128 |
| `Timestamps.ExactWithinReach` | src/manifest/part.rs:60-86 | The conversion is exact exactly for times at most `i64::MAX` seconds from the epoch; the nanoseconds are always those of a second |
| `Timestamps.OrderIsKept` | src/manifest/part.rs:60-86 | For such times the order of the fields is the order of the times |
| `Timestamps.OneUnixTimeIsOutOfReach` | src/manifest/part.rs:60-86 | Of the times a Unix system can hold, each comes out with its own seconds and nanoseconds, except exactly the one 2^63 seconds before the epoch |
| `Timestamps.OrderIsLostAtTheFirstTime` | src/manifest/part.rs:61-62 | That time comes out later than the one a nanosecond after it |

## Where the code and its documentation differ

- The documentation bounds the rows that wait by about two budgets (src/walk.rs:54-55). The code also holds the own rows of split directories, and a run of one file may pass the budget. `Peaks.Peak` is the exact value: no walk holds more between two steps (`Bounds.WaitingIsBounded`, `Traces.NothingPassesThePeak`), and a walk that reads every directory scan by scan holds just that at some time (`Cutter.Walker.Run`, `Bounds.WalkTree`); so such a walk keeps two budgets if and only if `Peak` is at most two budgets. It never passes `MostWaiting`, a bound that some trees reach (`Bounds.BoundIsReached`). Two budgets are enough wherever nothing is over the budget (`Bounds.TwoBudgetsAreEnough`), but for every budget some tree passes any multiple of it (`Bounds.CarriedRowsPassAnyMultiple`).
- The walk joins names with a slash unless what is before it is empty (src/walk/cut.rs:227-234), a part joins all components (src/manifest/part.rs:193-206). The two differ for a path that starts with an empty name; `Levels.JoinIsSlashed` says that they are the same for all names that operating systems give.
- The documentation says that a time more than `i64::MAX` seconds from the epoch saturates (src/manifest/part.rs:61-62). Of the times a Unix system can hold that is the very first one, 2^63 seconds before the epoch, and it does not saturate downwards: it comes out a second later, and so later than the time a nanosecond after it. `Timestamps.OneUnixTimeIsOutOfReach` says that no other one is affected, `Timestamps.OrderIsLostAtTheFirstTime` has the two times, and `Timestamps.ExactWithinReach` the reach for any distance.

## Left out

- Totals of estimates and positions in `u64` and `usize`: they are unbounded here, so a tree whose estimates pass 2^64 is not modelled.
- Cutter.Walker.Enter: the scan of a subdirectory is not made here; the unit it yields is given with the tree.
- Cutter.Walker.Seal: building the part and handing it to the sink are one question, whether the sink accepts; `Assemble.Assemble` has the building.
- Bounds.WaitingIsBounded: between two steps; inside a step one more row, or one subtree delivered as a whole, waits until the budget is checked.
- Cutter.Walker.Run: buffers that are used again, the progress receiver and the texts of error reports have no part in it.
- Assemble.Assemble: depths are unbounded; a stem of 2^32 names, which would pass 4 GiB of text unless names were empty, is not refused separately.
- Delivery.ScansJoin: names are values here; that the spans of a scan's text stand for them is proved in `Scan`.
- Disks.ScansDeliverTheTree: for `OnError::Skip` and texts below 4 GiB; under `OnError::Fail` the first failure ends the walk.
- Scan.Reading.ReadEntry: what a filter sees of the whole listing is not modelled; it answers for the place of an entry.
- Pipeline.SuccessSeesAll: an encoder that answers differently for the same part, and a thread that panics, are not modelled.
- ManifestFile.WriteFile: errors of the output and the header, which this format does not have, are not modelled.
- Fill.Chain.Stat: a directory handle is the path it was opened by; a directory renamed while it is open is not modelled.
- Handles.Waiting.Open: one thread at a time, on systems whose directories hold a handle; the atomics of `Held` under several threads are not modelled.
- Listings.Listing.Add: the entries of one listing are fewer than 2^64, as an address space has it.
- Listings.Find: if two entries had one name, either may be found.
- Part.TreePart.Entries: the sort is a plain insertion, standing for the standard library's; with no two paths alike every sort gives the same.
- Records.Chain.Push: names are given in UTF-16; the conversion is not modelled.
- The compression itself, the JSON text of parts and index, the other file format under `examples/lz4`, and the command line.
- Calls of the operating systems: `statx`, `getdents64`, `readlinkat`, the native Windows calls and `std::fs`.
- `read_file_metadata`: one read of an open file and three assignments.
