# Verified models of TermiPod's protocols and transformations

TermiPod is a control plane for agents: a hub, a desktop application and a terminal client. This
project models the logic around its user interface in Dafny and proves what the code relies on.
JavaScript is single-threaded, so asynchronous code is modelled as a state machine whose steps are
the stretches between two `await`s, with every other actor free to act at each `await`. Each
machine is a pure `Step` function with an invariant; beside it a class holds the module's variables
and each method is proved to make exactly that step. Code that only transforms data is a method
with its loops, proved against a specification whose laws are lemmas.

| files | what they model |
|---|---|
| `AnnotationStore`, `AnnotationSync`, `AnnotationQuiet`, `AnnotationDevice`, `AnnotationHomes`, `AnnotationLimits` | the offline annotation store, its sync with the hub, the references its links keep to, and the undo stack |
| `SseFraming`, `AgentFeed`, `AgentFollower`, `AgentRun` | event-stream framing, the resumable agent feed, closing and reconnecting, and every run of the follower |
| `ArchSchematic`, `ArchLayout` | the compiler from layer patterns to cycles to a laid-out figure |
| `CodexToml`, `SshConfig`, `SshExport` | splicing a table into foreign TOML; reading and writing an OpenSSH client config |
| `AxTree`, `SnapshotRefs` | the accessibility outline of a page and the references it hands out |
| `HubRelay`, `ServerQueue` | the generation-guarded hub relay; the queued managers of the two companion servers |
| `RerunCache`, `MediaRange` | the content-addressed recording cache; byte ranges |
| `Approval`, `AuthorWrites` | approval cards, session leases and writes into the user's documents |
| `RateLimit`, `Navigation` | the sliding windows on highlights and on navigations |
| `Options`, `Text`, `Decimals`, `Sorting` | optional values, JavaScript strings, numerals and the stable sort |

## Where the code does less than it says

Each of these is a concrete run or input, with the exact condition under which the law does hold.

- A push clears `dirty`, but the hub merges a PATCH and so never clears a column. An undo that
  withdraws a column, or an edit that sets one to `undefined`, leaves a clean row that differs from
  its hub row (`AnnotationLimits.UndoCanWithdrawAColumn`); a push leaves the two in step exactly
  when the row still defines every column the hub row holds, or the hub holds just the
  reading-order key that a device would compute (`AnnotationLimits.PushOutcomeExactly`). An edit or
  an undo keeps the invariant of the sync exactly when the rows it leaves still fit the hub and the
  sync under way (`AnnotationSync.OutsideKeepsExactly`).
- An undo while a listing is in flight duplicates a row, and pushing an edit of one twin then belies
  the other's clean flag (`AnnotationLimits.UndoInPullBreaksTheFlag`, a run from a fresh device).
  While pulling, an undo that lacks no column is harmless exactly when the sync knows every hub row
  the restored rows are linked to (`AnnotationLimits.UndoWhilePullingExactly`).
- The stream reader alone still hands over the rest of a chunk after `close()`
  (`AgentRun.ReaderHandsOn`); the follower's own guard is what keeps the consumer silent
  (`AgentRun.SilentAfterClose`).
- The hub answers a cursor with 500 entries at most and then with what is published live. It skips
  nothing exactly when no more than 500 were missing when the client subscribed, or nothing is
  published on that connection (`AgentFeed.BacklogCapExactly`).
- `tomlString` leaves U+007F unescaped, which TOML v1.0.0 does not allow in a basic string
  (`CodexToml.StringRoundTripExactly`, `CodexToml.DeleteIsNotReadBack`). Splice then remove gives a
  source back exactly when it has no such table and is empty or ends in one newline after other
  text; a lone newline is not restored (`CodexToml.SpliceThenRemove`).
- A jump host with a colon and a port is printed without brackets and is not read back
  (`SshConfig.JumpRoundTripExactly`, `SshConfig.ColonsAndPortAreLost`).
- If the loopback server fails to start while the relay is already up, the toggle is rolled back
  without a reconcile and the relay stays (`HubRelay.FailedStartLeavesTheRelay`); the consent of the
  toggle is kept by every other step (`HubRelay.ConsentKeptExactly`).
- A session lease approved on a card that was open when sharing was turned off stands the next time
  sharing is on (`AuthorWrites.AGrantOutlivesSharing`), although author.ts:78-80 says the toggle
  leaves none behind; the exact condition is `AuthorWrites.LeasesEndWithSharingExactly`.
- Orders that overlap are not counted against one another, so any number of navigations passes the
  limit of three (`Navigation.OverlapPassesTheLimit`). A step keeps the limit exactly when it does
  not push an order while those charged and those in flight already fill the window
  (`Navigation.LimitKeptExactly`), and over a run the limit holds throughout exactly when no order
  is pushed so (`Navigation.LimitHoldsExactly`); the bound that always holds is three plus the
  overlap (`Navigation.NavigationsAreBounded`).
- `readCardDecision` treats a row that is no object, or that has no status, as undecided, where its
  comment (uicapture.ts:167-170) says that it denies; the model follows the code.

## Model

| member | source | states |
|---|---|---|
| AnnotationStore.CreateInStep | desktop/src/state/annotationSync.ts:25-40 | a row inserted from a pushed body says on every device, column by column, what the pushed row says, and keeps none of its columns back |
| AnnotationStore.PullInStep | desktop/src/state/annotationSync.ts:42-66 | a row read from a hub row, its geometry usable or not, is in step with it column by column and lacks none of its columns |
| AnnotationStore.PulledIsReadFrom | desktop/src/state/annotationSync.ts:42-66 | a pulled row has the kind, page, tags and every text column of the hub body, the shape of its geometry on the page of the column, and at most the reading-order key added |
| AnnotationStore.AddAppends | desktop/src/state/annotations.ts:165-183 | add appends one row with a new id that has every column of the payload, the reading-order key computed if it had none |
| AnnotationStore.UpdateEdits | desktop/src/state/annotations.ts:185-194 | update changes the row with that id and no other, and in it exactly the columns the patch sets or clears, the link it writes and the dirty flag |
| AnnotationStore.WithoutKeepsOrder | desktop/src/state/annotations.ts:196-201 | remove keeps the other rows in their order |
| AnnotationStore.UndoTakesBack | desktop/src/state/annotations.ts:91-96 | at most fifty adds, updates and removes, undone one by one, leave the rows as they were before the first, each marked dirty |
| AnnotationStore.PatchInStepExactly | hub/internal/server/handlers_reference_annotations.go:150-175 | a PATCH brings the hub row in step with the pushed row if and only if the row defines every column the hub row holds, save a reading-order key a device would compute itself |
| AnnotationStore.PushPast | desktop/src/state/annotations.ts:91-96 | the undo stack keeps the newest 50 snapshots in their order with the new one last |
| AnnotationSync.StepKeeps | desktop/src/state/annotationSync.ts:94-158 | the invariant of store, hub and in-flight push survives every step of the sync, every restart and every allowed edit and undo at every await |
| AnnotationSync.OutsideKeepsExactly | desktop/src/state/annotations.ts:165-212 | an add, edit, remove, undo or foreign hub row, at any moment of a sync, keeps the invariant if and only if the rows it leaves fit the hub and the sync: no linked row short of a column its hub row holds, or of one still to be pushed, and while pulling no row linked to a hub row the sync does not know |
| AnnotationSync.SettingIsAllowed | desktop/src/state/annotations.ts:185-194 | an edit that sets columns and clears none always fits, whatever is in flight |
| AnnotationSync.RunKeeps | desktop/src/state/annotationSync.ts:94-158 | the invariant holds after every allowed run |
| AnnotationSync.DirtyFlagSound | desktop/src/state/annotationSync.ts:94-135 | at every moment of every allowed run, with add, update, remove and undo at any await and restarts from the saved rows at any time, a linked row not marked dirty says, column by column, what its hub row says |
| AnnotationHomes.LinksStayWithinReferences | desktop/src/state/annotationSync.ts:88-158 | over every run, whatever users, other writers and failures do, a row is linked only to a hub row of its own reference: nothing is pushed to or pulled from another document |
| AnnotationQuiet.PushQuietly | desktop/src/state/annotationSync.ts:108-135 | an undisturbed push step leaves the row linked and clean and the others as they were |
| AnnotationQuiet.PullQuietly | desktop/src/state/annotationSync.ts:137-158 | an undisturbed pull step leaves every hub row of the reference on the device and adds nothing that was there |
| AnnotationQuiet.PullRowsAreRead | desktop/src/state/annotationSync.ts:144-154 | one listing appends exactly the counted rows, each clean, linked and read column by column from a listed hub row the device lacked, and touches no row that was there |
| AnnotationQuiet.SyncCounts | desktop/src/state/annotationSync.ts:100-160 | an undisturbed sync counts each dirty linked row as pushed, each unlinked row as created, each added row as pulled, and nothing else |
| AnnotationQuiet.SecondSyncDoesNothing | desktop/src/state/annotationSync.ts:102-160 | with all parents synced, one undisturbed sync leaves every row linked, clean and in step with its hub row column by column, and every hub row of a synced reference linked from exactly one row; a second one right after it pushes, creates, pulls, defers and fails nothing and changes neither store |
| AnnotationDevice.Device.Add | desktop/src/state/annotations.ts:165-183 | add appends one fresh row, dirty unless it was pulled, and records the state before it |
| AnnotationDevice.Device.Update | desktop/src/state/annotations.ts:185-194 | update replaces the one row by a new object, dirty unless the patch says otherwise |
| AnnotationDevice.Device.Remove | desktop/src/state/annotations.ts:196-201 | remove drops exactly the rows with that id and records the state before it |
| AnnotationDevice.Device.Undo | desktop/src/state/annotations.ts:203-212 | undo restores the last snapshot with every row marked dirty, and does nothing without one |
| AnnotationDevice.Device.PushRow | desktop/src/state/annotationSync.ts:108-135 | one turn of the push loop, with any edits around its request, is a stretch of the machine's run |
| AnnotationDevice.Device.SyncAnnotations | desktop/src/state/annotationSync.ts:76-160 | whatever happens at its awaits the call is a stretch of the run; undisturbed it settles a device whose parents are all synced: every row in step with its hub row column by column, every row beyond those that were there read from the hub under its own reference, every row counted once; it leaves the device ready to sync again, and counts and changes nothing on a settled one |
| AnnotationDevice.Device.Restart | desktop/src/state/annotations.ts:100-117 | the saved rows come back as they were, with an empty undo stack and no sync under way |
| AnnotationDevice.Device.SoundNow | desktop/src/state/annotationSync.ts:89-100 | at any time a device that went through any schedules has a truthful dirty flag |
| AnnotationLimits.PushOutcomeExactly | desktop/src/state/annotationSync.ts:94-135 | a finished push leaves the row clean, and in step if and only if it defined every column the hub row held, save a reading-order key a device would compute itself |
| AnnotationLimits.UndoCanWithdrawAColumn | desktop/src/state/annotations.ts:203-212 | a run of syncs, one edit and two undos after which a clean linked row differs from its hub row |
| AnnotationLimits.UndoWhilePullingExactly | desktop/src/state/annotationSync.ts:137-158 | while pulling, an undo that lacks no column keeps the invariant if and only if the sync knows every hub row the restored rows are linked to |
| AnnotationLimits.UndoInPullBreaksTheFlag | desktop/src/state/annotationSync.ts:137-158 | a run from a fresh device, allowed up to an undo between a listing and its answer, after which two rows are linked to one hub row and a pushed edit of one makes the other's clean flag false |
| SseFraming.FramesSplit | desktop/src/hub/sse.ts:68-77 | framing a text in two parts, the rest of the first before the second, gives the frames and the rest of the whole |
| SseFraming.FramingIsChunkIndependent | desktop/src/hub/sse.ts:68-77 | for every split into chunks the frames and the leftover are those of the whole text |
| SseFraming.FrameBuffer.Feed | hub-tui/src/sse.ts:42-58 | one chunk yields exactly the frames it completes and leaves the rest in the buffer |
| SseFraming.CollectData | hub-tui/src/sse.ts:66-79 | the payload is the data lines joined, without their optional space, and none when there is no data line |
| AgentFeed.FrameReadBack | desktop/src/hub/sse.ts:50-66 | the desktop reads from a written frame exactly the event it carries, and nothing from a ping |
| AgentFeed.TerminalReadBack | hub-tui/src/sse.ts:66-79 | the terminal client extracts from a written frame exactly the event's JSON |
| AgentFeed.ConnectionEvents | desktop/src/hub/sse.ts:79-93 | a connection cut anywhere, in any chunks, yields the events of the frames that arrived whole |
| AgentFeed.ConnectionKeepsSegment | desktop/src/state/agentSource.ts:131-135 | after any connection the view is still one stretch of the log and the cursor lies in it |
| AgentFeed.AppendKeeps | desktop/src/state/agentSource.ts:123-135 | whatever arrives in whatever order: what is shown stays, each event without a number is appended every time it comes, and each number that came is shown once |
| AgentFeed.ExactlyOnce | desktop/src/state/agentSource.ts:152-195 | after a backfill in any order and any number of cut connections the view is a contiguous, strictly increasing stretch of the log, nothing missing and nothing twice |
| AgentFeed.BacklogCapExactly | hub/internal/server/handlers_agent_events.go:578-646 | the hub's answer skips no entry if and only if at most 500 were missing when the client subscribed or nothing is published on the connection |
| AgentFollower.Follower.HistoryResolved | desktop/src/state/agentSource.ts:168-176 | a page that resolves after close shows nothing; otherwise it is shown sorted and the cursor is its last number |
| AgentFollower.Follower.EmitFrame | desktop/src/hub/sse.ts:50-66 | each event advances the cursor and reaches the consumer unless the feed is closed |
| AgentFollower.Follower.Feed | desktop/src/hub/sse.ts:68-77 | a chunk hands over the events of the frames it completes |
| AgentFollower.Follower.ReadViaFetch | desktop/src/hub/sse.ts:79-93 | a connection starts with an empty buffer and is the run of its chunks, with a close while any of them is awaited or from inside a callback, up to the one after which the feed is closed |
| AgentRun.EveryRun | desktop/src/state/agentSource.ts:164-195 | over every run of page, connections, cuts and close in any order the view is one stretch of the log; what had been called back when the feed was closed is all that ever is; and an open feed can resume |
| AgentRun.StepKeeps | desktop/src/hub/sse.ts:68-93 | the page, a new connection, a chunk and a close each keep the view a stretch and an open feed's cursor inside it |
| AgentRun.SilentAfterClose | desktop/src/state/agentSource.ts:175-177 | from a closed feed on no run fires a callback |
| AgentRun.ReaderHandsOn | desktop/src/hub/sse.ts:68-77 | after the close a chunk makes the stream reader call back if and only if it completes an event, and the consumer hears of none |
| AgentRun.ShownStays | desktop/src/state/agentSource.ts:131-135 | once the page is in, what is shown stays shown over every run |
| AgentFollower.NothingAfterTheClosingCall | desktop/src/state/agentSource.ts:175-177 | a close from inside a callback makes it the last callback |
| AgentFollower.ReadKeepsSegment | desktop/src/hub/sse.ts:79-93 | with cuts and closes anywhere the consumer's view stays a stretch of the log, and an open feed can resume |
| AgentFollower.Run | desktop/src/hub/sse.ts:95-117 | every reconnect waits, for the base delay after a clean end and doubling to 15 s with errors in a row, with less than three tenths of jitter; nothing is tried or waited for once the feed is closed |
| ArchSchematic.RunLengthAttn | desktop/src/state/archSchematic.ts:175-190 | runs expand to the pattern, tile it, and are maximal |
| ArchSchematic.RunsAreCanonical | desktop/src/state/archSchematic.ts:175-190 | maximal runs of a pattern are unique |
| ArchSchematic.DetectCycle | desktop/src/state/archSchematic.ts:192-207 | the result covers the most runs, then starts earliest, then is shortest; null exactly when nothing repeats |
| ArchSchematic.MaximalRunsNeverRepeatAlone | desktop/src/state/archSchematic.ts:192-207 | on maximal runs no repeated unit has length one |
| ArchSchematic.BuildGroups | desktop/src/state/archSchematic.ts:210-223 | groups expand to the runs' pattern, tile it, count its layers, and fold the best cycle |
| ArchSchematic.BuildLayerLayout | desktop/src/state/archSchematic.ts:254-267 | the layout expands to the per-layer pattern and its block counts sum to the layers; it is null exactly for uniform models |
| ArchSchematic.IntervalRecovered | desktop/src/state/archSchematic.ts:150-155 | an interval k with at least 2k layers is recovered as k-1 linear and 1 full, floor(N/k) times, with N mod k linear layers left |
| ArchSchematic.ListedLayersAreFull | desktop/src/state/archSchematic.ts:138-148 | with an explicit list a layer attends fully if and only if the list names it counted from one, and is of the linear kind otherwise |
| ArchSchematic.UnlistedLayers | desktop/src/state/archSchematic.ts:150-161 | without one the multiples of the interval, counted from one, attend fully, the linear scheme before the sliding one; without either the stack is uniform |
| ArchSchematic.DenseLayers | desktop/src/state/archSchematic.ts:167-172 | a layer is dense if and only if the model has no experts or it is one of the first the config keeps dense |
| ArchLayout.FfnForRange | desktop/src/state/archLayout.ts:169-178 | the block's feed-forward kind is that of its range of layers |
| ArchLayout.OneFfnIsShown | desktop/src/state/archLayout.ts:169-178 | a range with one feed-forward kind is shown with it |
| ArchLayout.PlaceGroupsSound | desktop/src/state/archLayout.ts:247-280 | cards are stacked a gap apart, boxes disjoint or nested, each run box holds its own block and each cycle box exactly its blocks, and each block shows the count, the operator and the feed-forward kind of its own run |
| ArchLayout.PlaceGroupsLayers | desktop/src/state/archLayout.ts:247-280 | the counts in the drawn block boxes, times the repeats of the boxes around them, sum to the layers of the groups |
| ArchLayout.SkipsResolve | desktop/src/state/archLayout.ts:286-293 | the residual edges of a block go to its second norm and to what follows the block |
| ArchLayout.SkipsLaid | desktop/src/state/archLayout.ts:286-293 | both ends of every residual edge are laid cards |
| ArchLayout.PlacePanels | desktop/src/state/archLayout.ts:130-147 | the placed panels are, in order, the attention panels if there is an attention card and the others if there is a mixture-of-experts card; each stands beside the first such card or below the panel before, and its leader comes from that card |
| ArchLayout.RowsOfPanel | desktop/src/state/archLayout.ts:113-116 | a panel has one row for each plain item and one more for all its chips together |
| ArchLayout.PanelsApart | desktop/src/state/archLayout.ts:130-147 | panels placed so are pairwise disjoint, a gap apart |
| ArchLayout.LayoutGrouped | desktop/src/state/archLayout.ts:213-298 | the whole figure: stacked cards, fine boxes, every block showing its run, counts times repeats summing to the layers, the strip spanning exactly the blocks, panels clear of the stack, every edge between laid cards or panels |
| ArchLayout.FoldedGroupsHaveBlocks | desktop/src/state/archSchematic.ts:210-223 | groups that tile their layers contain no empty cycle, which is what the layout asks |
| ArchLayout.NamedNodesAreShown | desktop/src/state/archLayout.ts:221-287 | embedding, final norm and head, where the schematic has them, have cards that show them as what they are |
| ArchLayout.ContainerHoldsTheBlock | desktop/src/state/archLayout.ts:189-210 | the container of a uniform figure holds exactly the block's cards if and only if they are contiguous |
| ArchLayout.LayoutUniform | desktop/src/state/archLayout.ts:189-210 | a uniform figure is a stack with one container, its main and residual edges and its panels |
| CodexToml.TomlString | desktop/electron/src/usermcp.ts:193-206 | the printed string is the quoted form the laws below are about |
| CodexToml.StringRoundTripExactly | desktop/electron/src/usermcp.ts:193-206 | the basic-string decoding of the String section of TOML v1.0.0 gives the value back if and only if it has no U+007F |
| CodexToml.DeleteIsNotReadBack | desktop/electron/src/usermcp.ts:193-206 | the value that is a lone U+007F is printed as it is and not read back |
| CodexToml.QuotedIsOneLine | desktop/electron/src/usermcp.ts:193-206 | a printed string has no raw newline |
| CodexToml.OutsideOpenings | desktop/electron/src/usermcp.ts:258-269 | dropping our table takes exactly one opening away |
| CodexToml.DropOurTable | desktop/electron/src/usermcp.ts:258-269 | one table or none is dropped with its lines; two or more are refused |
| CodexToml.SpliceTomlEntry | desktop/electron/src/usermcp.ts:245-256 | the splice is refused for unsupported sources and otherwise the text the laws below are about |
| CodexToml.UnsupportedExactly | desktop/electron/src/usermcp.ts:236-243 | a line makes the source refused if and only if it assigns to `mcp_servers` itself or to a dotted key of it, with any white space around the name |
| CodexToml.OurKeyOpens | desktop/electron/src/usermcp.ts:224-229 | a header with the name bare, in double or in single quotes opens our table |
| CodexToml.OpensOneTable | desktop/electron/src/usermcp.ts:224-229 | a line opens the table of one bare name at most |
| CodexToml.SpliceTomlWithout | desktop/electron/src/usermcp.ts:271-277 | removal leaves exactly the lines outside our table |
| CodexToml.SpliceKeepsOutside | desktop/electron/src/usermcp.ts:245-256 | every line outside our old table is kept in order, up to trailing newlines |
| CodexToml.SpliceLeavesOne | desktop/electron/src/usermcp.ts:245-256 | the result has exactly one table of ours and is accepted again |
| CodexToml.SpliceIsIdempotent | desktop/electron/src/usermcp.ts:245-256 | splicing twice is splicing once |
| CodexToml.SpliceThenRemove | desktop/electron/src/usermcp.ts:271-277 | splice then remove restores the source if and only if it had no table of ours and is empty or ends in exactly one newline after other text |
| CodexToml.CodexBlockIsOurs | desktop/electron/src/usermcp.ts:213-217 | the block that is installed is a table the splice recognises, for every relay path |
| CodexToml.CodexBlockLines | desktop/electron/src/usermcp.ts:213-217 | the installed block is the header, the command and the argument as quoted strings, and nothing else |
| SshConfig.JumpRoundTripExactly | desktop/src/ssh/format.ts:23-48 | an exported jump is read back if and only if it has no comma or stray `@`, no brackets, and no colon beside a port |
| SshConfig.ColonsAndPortAreLost | desktop/src/ssh/format.ts:128-132 | the jump to port 2222 of ::1 is not read back from its exported text |
| SshConfig.ParseSshConfig | desktop/src/ssh/format.ts:54-96 | the hosts are those of the line-by-line machine |
| SshConfig.HostSection | desktop/src/ssh/format.ts:67-92 | a `Host` line ends the host before it and opens that of its first pattern without wildcards, on port 22 and reached by that pattern except as the options of the section say, of each keyword the last one; with wildcards only it opens none |
| SshConfig.MatchEndsTheHost | desktop/src/ssh/format.ts:76-79 | a `Match` line ends the host before it, and the options after it change no host |
| SshConfig.SectionReads | desktop/src/ssh/format.ts:79-92 | of host name, user, identity file and jump the last value in a section counts, of the port the last positive number; without an open host nothing changes |
| SshConfig.DirectiveReadsBackExactly | desktop/src/ssh/format.ts:60-68 | a directive line gives keyword and value back if and only if the value is not quoted and does not start with an equals sign before more text |
| SshExport.PickAlias | desktop/src/ssh/format.ts:114-123 | the alias is the name if free, else the least free suffix; the search ends because suffixes outnumber the aliases in use |
| SshExport.TriedSuffixesFit | desktop/src/ssh/format.ts:118-121 | no more suffixes are tried in vain than aliases are in use |
| SshExport.AliasesAreDistinct | desktop/src/ssh/format.ts:114-123 | the aliases of an export are pairwise distinct |
| SshExport.FirstUserKeepsTheName | desktop/src/ssh/format.ts:114-123 | a connection keeps its own name unless it was given away before it |
| SshExport.ExportSshConfig | desktop/src/ssh/format.ts:106-143 | the printed text is the one the round trip is about |
| SshExport.EntryReads | desktop/src/ssh/format.ts:124-140 | one printed entry closes the host before it and opens exactly the connection it was printed from |
| SshExport.ExportReadsBack | desktop/src/ssh/format.ts:106-143 | parsing the export of well-formed connections gives the same hosts, users, ports and jumps in order, jump port null and 22 identified, under distinct aliases |
| AxTree.VisitExtends | desktop/electron/src/browserbridge.ts:386-412 | a subtree adds walks below its node, in preorder |
| AxTree.Root | desktop/electron/src/browserbridge.ts:375-378 | the root is the first node that no node lists as a child, and the first node when every one is listed |
| AxTree.VisitCovers | desktop/electron/src/browserbridge.ts:386-412 | a subtree not cut short contains every walk below its node |
| AxTree.VisitReason | desktop/electron/src/browserbridge.ts:386-412 | truncation is marked only when the budget is spent or a walk is too deep |
| AxTree.OutlineNests | desktop/electron/src/browserbridge.ts:394-402 | a line's closest shown ancestor is listed one step further left and every line between is at least as far right |
| AxTree.LineSays | desktop/electron/src/browserbridge.ts:384-403 | a line is the indentation, the role and after it the clipped name in quotes, the clipped value and the reference, each if there is one, and nothing else |
| AxTree.RefsFollowLines | desktop/electron/src/browserbridge.ts:397-401 | references are @e1, @e2, ... in line order, each resolving to its own line's backend node |
| AxTree.RefIsOnALine | desktop/electron/src/browserbridge.ts:397-401 | every reference is printed on a listed interactive node |
| AxTree.CyclesAreCut | desktop/electron/src/browserbridge.ts:386-412 | on a page whose child links come round the outline says that it was cut |
| AxTree.Compactor.Walk | desktop/electron/src/browserbridge.ts:386-412 | the recursive walk ends on every graph and makes exactly the visits in preorder |
| AxTree.CompactAxTree | desktop/electron/src/browserbridge.ts:368-416 | text, references and flag are those of the visits from the root |
| AxTree.OutlineIsTrue | desktop/electron/src/browserbridge.ts:368-416 | at most maxNodes lines and one note; every line in its place; uncut, every reachable shown node has a line; cut, the budget is spent or a walk is too deep |
| SnapshotRefs.LiveRefsStay | desktop/electron/src/browserbridge.ts:978-1006 | until its tab is snapshotted again or closed a live reference keeps its element, whatever pointers are registered |
| SnapshotRefs.ReplacedRefs | desktop/electron/src/browserbridge.ts:967-976 | after a snapshot its tab resolves the references of the snapshot and no others, after a close none, and every other tab what it did |
| SnapshotRefs.PointerIsGood | desktop/electron/src/browserbridge.ts:996-1006 | a pointer reuses the reference the agent holds, or gets one no live map and no earlier pointer has used |
| SnapshotRefs.RunSound | desktop/electron/src/browserbridge.ts:967-1006 | references stay distinct in every map over every run, and pointer numbers are never minted twice |
| SnapshotRefs.References.TakeSnapshot | desktop/electron/src/browserbridge.ts:1297-1303 | a snapshot replaces the tab's references by those of its outline |
| SnapshotRefs.References.RegisterAnnotationRef | desktop/electron/src/browserbridge.ts:996-1006 | the returned reference resolves to the element and no live reference of any tab changes |
| SnapshotRefs.References.PruneSnapshotRefs | desktop/electron/src/browserbridge.ts:974-976 | closing a tab forgets that tab's references and no others |
| HubRelay.StepKeeps | desktop/electron/src/browserbridge_host.ts:431-502 | the relay invariant survives toggles, context changes, token reads and registration replies in any order |
| HubRelay.OneRelayAlive | desktop/electron/src/browserbridge_host.ts:456-502 | at most one relay is un-aborted with a live heartbeat, and it is of the newest generation, for the context and the remote consent of the moment |
| HubRelay.SupersededNeverInstalls | desktop/electron/src/browserbridge_host.ts:472-502 | over every run no relay of an older generation is installed later |
| HubRelay.StoppedRelaysAreSilent | desktop/electron/src/browserbridge_host.ts:574-613 | every tunnel poll is sent by the relay installed at that moment |
| HubRelay.ConsentKeptExactly | desktop/electron/src/browserbridge_host.ts:644-653 | nothing relays with the toggle off, and a step keeps this if and only if it is not the roll-back of a failed toggle with a relay or a start on its way |
| HubRelay.WantedIsDriven | desktop/electron/src/browserbridge_host.ts:451-461 | once the server is up, or remote driving or the hub context is set: with all three wanted the relay that already serves the context stays and otherwise the newest start registers for it; with any of the three missing neither a relay nor a start is left |
| HubRelay.OffIsSilent | desktop/electron/src/browserbridge_host.ts:400-407 | after switching off or quitting every relay is aborted without a heartbeat and no start can become one |
| HubRelay.FailedToggleFollowsTheServer | desktop/electron/src/browserbridge_host.ts:644-653 | a failed toggle leaves the switch where the server is, a successful one where the user put it |
| HubRelay.AnsweredStartInstalls | desktop/electron/src/browserbridge_host.ts:472-495 | the newest start, given a bearer, a good status and an id, becomes the relay of its context with that bearer and id, beating and polling |
| HubRelay.FailedStartEnds | desktop/electron/src/browserbridge_host.ts:474-499 | a start that is superseded while it waits, or gets no bearer, a bad status or no id, ends and changes nothing else |
| HubRelay.AnsweredRound | desktop/electron/src/browserbridge_host.ts:574-613 | an envelope is dispatched and answered, and the loop polls again with the backoff reset |
| HubRelay.BackoffDoubles | desktop/electron/src/browserbridge_host.ts:591-597 | after k failed polls in a row the next wait is 2^k times the first, at most 15 s, k more polls were sent and no other relay moved |
| HubRelay.KeyTellsApart | desktop/electron/src/browserbridge_host.ts:438-440 | the joined key tells contexts apart as long as no address and no team id holds the separator |
| HubRelay.FailedStartLeavesTheRelay | desktop/electron/src/browserbridge_host.ts:644-653 | a run in which the server fails to start and the relay stays up |
| HubRelay.BridgeHost.SyncHubRelay | desktop/electron/src/browserbridge_host.ts:456-461 | reconcile keeps a relay for the same context, and otherwise stops and starts anew |
| HubRelay.BridgeHost.ResumeStart | desktop/electron/src/browserbridge_host.ts:472-502 | a start goes on after each await only while it is the newest |
| HubRelay.BridgeHost.ResumeLoop | desktop/electron/src/browserbridge_host.ts:574-613 | the poll loop polls, dispatches, answers and backs off as the machine says |
| HubRelay.BridgeHost.Take | desktop/electron/src/browserbridge_host.ts:644-718 | any event at any time keeps the invariant and makes the machine's step; once the server is up or a switch is turned the relay is up or starting for exactly the context that is wanted, and otherwise neither is left |
| ServerQueue.StepKeeps | desktop/electron/src/kimiweb.ts:252-370 | the queue and child invariant survives queueing, start, stop, banner, timeout and child exit |
| ServerQueue.AtEveryMoment | desktop/electron/src/kimiweb.ts:244-370 | over every run, for both managers: operations chained each to the tail of its moment never overlap, at most one child is alive and it is the current one, users is the floored count of starts minus stops, no users means no live child |
| ServerQueue.SettledWithTheTruth | desktop/electron/src/rerun.ts:138-165 | an address handed out is that of the living child, and for `rerun` the child serves the recording asked for |
| ServerQueue.StopEndsTheServer | desktop/electron/src/rerun.ts:159-165 | a stop settles at once; a stop of `rerun`, or one that takes the last user of `kimi web`, leaves no child alive and no address, and any other stop leaves the server untouched |
| ServerQueue.StartFindsTheServer | desktop/electron/src/rerun.ts:138-157 | a start that may share the living server settles at once with its address and touches nothing, a file `rerun` does not accept is refused and touches nothing, and any other start goes on with no child alive |
| ServerQueue.StartSpawns | desktop/electron/src/kimiweb.ts:285-342 | a start that finds its binary spawns one child and hands out the address in that child's banner; without the binary it is refused and nothing is spawned |
| ServerQueue.FailedStartIsRefused | desktop/electron/src/kimiweb.ts:308-330 | a start whose child fails or exits before its banner is refused with no child alive and no address |
| ServerQueue.ExitForgets | desktop/electron/src/kimiweb.ts:275-280 | the exit of the serving child forgets it, and the exit of any other changes nothing else |
| ServerQueue.SettlesOnce | desktop/electron/src/kimiweb.ts:252-256 | an operation settles once |
| ServerQueue.TheDeadStayDead | desktop/electron/src/kimiweb.ts:267-280 | a killed or exited child is never alive again |
| ServerQueue.Server.Run | desktop/electron/src/kimiweb.ts:349-370 | an operation that leaves the queue makes the machine's step: a stop of `rerun` or of the last user ends the server, a start that may share it gets its address at once, and neither touches it otherwise |
| ServerQueue.ReplacedForGood | desktop/electron/src/rerun.ts:138-157 | once another recording is asked for, no child from before is alive at any later moment, so the new server never stands beside the old one |
| ServerQueue.Server.ChildExited | desktop/electron/src/kimiweb.ts:275-280 | an exit forgets the child if it is current and fails the start that waits for it |
| RerunCache.PruneVictims | desktop/electron/src/rerun_cache.ts:91-103 | the victims are the cut of the oldest candidates |
| RerunCache.EvictionIsMinimal | desktop/electron/src/rerun_cache.ts:91-103 | the kept file is never a victim, victims are oldest first, the cache ends under the cap or all others are chosen, and one fewer would leave it over |
| RerunCache.StepKeeps | desktop/electron/src/rerun_cache.ts:157-240 | the cache invariant survives every step of every fetch and eviction |
| RerunCache.CacheTellsTheTruth | desktop/electron/src/rerun_cache.ts:157-240 | with any number of fetches, corrupt transfers and evictions every file under a digest's name hashes to it, and each source is closed exactly once |
| RerunCache.FetchEndsExactly | desktop/electron/src/rerun_cache.ts:165-240 | a fetch ends as cached if and only if it finds the file, with that file's size; as fetched if and only if its eviction is done, with the bytes that came; as failed if and only if the size or the directory is refused or it has cleaned up; and stays as it ended |
| RerunCache.CallAnswers | desktop/electron/src/rerun_cache.ts:165-166 | a call that names no digest fails at once, and any other begins |
| RerunCache.GoodTransfer | desktop/electron/src/rerun_cache.ts:187-224 | a transfer of bytes that hash to the digest adds exactly that recording to the directory and nothing else |
| RerunCache.BadTransfer | desktop/electron/src/rerun_cache.ts:211-228 | a transfer of any other bytes fails and leaves the directory as it was |
| RerunCache.RecordingsGoByEviction | desktop/electron/src/rerun_cache.ts:231 | a recording disappears only as the next victim of an eviction, and never the one the evicting fetch brought |
| RerunCache.NothingStaysBehind | desktop/electron/src/rerun_cache.ts:221-224 | a corrupt or broken transfer leaves no temporary file unless its removal failed |
| RerunCache.Recordings.Rename | desktop/electron/src/rerun_cache.ts:220-224 | a verified temporary file takes the digest's name in one step, or is cleaned up |
| Sorting.SortIsStable | desktop/electron/src/rerun_cache.ts:96 | the sort keeps the order of equal keys |
| Approval.ApprovalsAreExplicit | desktop/electron/src/uicapture.ts:183-196 | a card approves if and only if it is closed and its last decision is `approve`; an option comes with an approval only |
| Approval.AwaitCard | desktop/electron/src/uicapture_hub.ts:73-96 | on any clock on which a decision or the deadline comes at all, the first decision read counts, no round begins at or after the deadline and failed requests decide nothing; on a clock not set back the number of rounds is bounded |
| Approval.ApproveViaCardWithOption | desktop/electron/src/uicapture_hub.ts:153-171 | an approval was read from the raised card in a round begun before the deadline, a denial was read too, and nothing had been decided before; a time-out waited for the deadline with nothing decided; at most 80 rounds on a clock not set back |
| AuthorWrites.KeysTellApart | desktop/electron/src/author.ts:49-53 | lease keys of agents without NUL determine agent and document |
| AuthorWrites.RevokeTakesTheAgentsOwn | desktop/electron/src/author.ts:69-76 | a revocation takes away the leases of that agent and of no other |
| AuthorWrites.LeasesExactly | desktop/electron/src/author.ts:55-83 | a lease begins with an approval for the session of a call of that agent on that document and with nothing else, and ends when sharing is turned off or that agent is revoked and with nothing else |
| AuthorWrites.RevokedStaysRevoked | desktop/electron/src/author.ts:69-83 | over every run a lease that does not stand stands again only after a new approval for the session on that agent and document |
| AuthorWrites.StepKeeps | desktop/electron/src/author_host.ts:200-270 | the consent invariant survives every step |
| AuthorWrites.WritesAreAuthorised | desktop/electron/src/author_host.ts:200-270 | over every run each write order is hub-relayed, under a lease on exactly that agent and document, or follows an approval read from the call's own card; each lease traces to an approval for the session; a call orders at most one write and none without consent |
| AuthorWrites.WrittenMeansConfirmed | desktop/electron/src/author_host.ts:246-256 | over every run a call is reported as written if and only if the reply to its own write order was a success; a refusal of it, or no answer, is reported as a failure |
| AuthorWrites.EndsExactly | desktop/electron/src/author_host.ts:200-270 | a call ends with each result if and only if its cause happens, from no sharing to a denial to a missing window, and an ended call stays as it is |
| AuthorWrites.WritesTheResolvedDocument | desktop/electron/src/author_host.ts:200-256 | over every run a write is ordered only to the document the renderer named for this very call |
| AuthorWrites.NoCardNeeded | desktop/electron/src/author_host.ts:212-222 | a call the hub relayed, or one under a held lease, orders its write at once with no card; any other waits for a card or is refused, and orders nothing |
| AuthorWrites.ApprovalOrders | desktop/electron/src/author_host.ts:217-255 | a call whose card is approved in time orders its write after one card and one consent; its agent then holds the lease it held, or the one on this document if the approval was for the session |
| AuthorWrites.ArrivesExactly | desktop/electron/src/author_host.ts:272-282 | a call that arrives while sharing is off is refused before the renderer is asked; otherwise it asks under a number of its own |
| AuthorWrites.LeasesEndWithSharingExactly | desktop/electron/src/author.ts:78-83 | with sharing off no lease stands, kept by a step if and only if it is not a late session approval |
| AuthorWrites.AGrantOutlivesSharing | desktop/electron/src/author_host.ts:238-240 | a run in which a lease granted after sharing went off stands when it is on again |
| AuthorWrites.AuthorLeaseStore.RevokeAgent | desktop/electron/src/author.ts:71-76 | the loop over the held keys removes exactly the agent's |
| AuthorWrites.AuthorHost.Result | desktop/electron/src/author_host.ts:70-80 | an unknown or answered number changes nothing; a known one resumes its call once, and every call has then ended with a result if and only if it had before or this reply is the cause of it |
| AuthorWrites.AuthorHost.Resolved | desktop/electron/src/author_host.ts:212-222 | a hub call or a lease goes straight to the write, anything else to a card or a refusal |
| AuthorWrites.AuthorHost.Row | desktop/electron/src/author_host.ts:230-258 | a denial ends without a write; an approval orders it, granting a lease only for the option `session` |
| RateLimit.PruningDecidesNothing | desktop/electron/src/uihighlight.ts:127-129 | pruning never changes a later decision |
| RateLimit.PrunedRunDecidesAlike | desktop/electron/src/uihighlight_host.ts:29-62 | over every run with a non-decreasing clock the pruned store decides like one that never forgets |
| RateLimit.AtMostSix | desktop/electron/src/uihighlight.ts:103-109 | no interval shorter than 60 s holds more than six highlights of one agent |
| RateLimit.DrawnExactly | desktop/electron/src/uihighlight_host.ts:29-62 | every request of a run gets the ruling on what was drawn before: drawn if and only if the host is ready, the reference passes and fewer than six of the agent's highlights lie in the last 60 s |
| RateLimit.HighlightHost.Highlight | desktop/electron/src/uihighlight_host.ts:29-62 | a refused highlight leaves only the pruned history, a drawn one adds its time |
| Navigation.StepKeeps | desktop/electron/src/desktopopen_host.ts:40-119 | the store counts in each window exactly the charged orders, and the table holds exactly the unanswered ones |
| Navigation.ChargeCounts | desktop/electron/src/desktopopen_host.ts:98-104 | a charge adds itself and erases no other that still counts |
| Navigation.AnsweredOnce | desktop/electron/src/desktopopen_host.ts:40-50 | an order is answered once |
| Navigation.DecidedByCharges | desktop/electron/src/desktopopen_host.ts:52-88 | an order goes through if and only if the desktop is ready, the reference passes and fewer than three charged orders of the agent lie in the last 60 s |
| Navigation.StepSettles | desktop/electron/src/desktopopen_host.ts:88-118 | an order that goes through is pushed and waits, one that does not leaves no trace; an answer settles its own order, free if nothing was resolved and charged otherwise, and no other |
| Navigation.LimitKeptExactly | desktop/electron/src/desktopopen_host.ts:66-96 | a step keeps the limit of three in every window if and only if it does not push an order while the charged orders and those in flight fill the window |
| Navigation.LimitHoldsExactly | desktop/electron/src/desktopopen_host.ts:52-119 | over every run the limit holds at every moment if and only if no order is pushed without such room |
| Navigation.NavigationsAreBounded | desktop/electron/src/desktopopen_host.ts:52-119 | no interval shorter than 60 s holds more than three navigations of an agent plus the overlap of its orders; no charge is lost |
| Navigation.OverlapPassesTheLimit | desktop/electron/src/desktopopen_host.ts:66-96 | for every n a run in which n overlapping orders go through at one moment |
| Navigation.OpenHost.Result | desktop/electron/src/desktopopen_host.ts:40-50 | an unknown number resolves nothing; a known one is charged unless the renderer resolved nothing |
| MediaRange.ParseRange | desktop/electron/src/media_policy.ts:89-120 | a range is answered if and only if it selects a byte in the sense of section 14.1.2 of RFC 9110, with the beginning of what it selects, all of it or as much as the cap allows |
| MediaRange.MatchRangeExactly | desktop/electron/src/media_policy.ts:93-95 | a header is a range if and only if it is `bytes=`, digits, a dash and digits, the first run being the start and the second the end |
| MediaRange.ReadAll | desktop/electron/src/media_policy.ts:71-120 | asking for the rest again and again tiles the file exactly, in ceil(size/cap) answers within the file and the cap |

## Left out

- Annotation attachments, delete propagation and conflict merging are not part of the sync code's promise and are not modelled; neither is the order in which the hub lists rows, nor a reference library that changes during a sync.
- AnnotationSync.DirtyFlagSound: holds for runs whose clearing edits and undos fit where they happen; the condition is exact for the invariant (AnnotationSync.OutsideKeepsExactly) and the failing families are shown in AnnotationLimits.
- AnnotationHomes.LinksStayWithinReferences: edits that would move a row to another reference are not modelled; no caller makes one.
- AnnotationDevice.Device.Restart: does not model a request that reaches the hub only after the device was restarted.
- AgentFeed.ExactlyOnce: assumes a hub that answers a cursor with the log entries above it in order, live entries perhaps twice; AgentFeed.BacklogCapExactly says when the hub's cap of 500 lets it.
- UTF-8 decoding, JSON parsing, hashing and `Number` of anything but digits are parameters; strings are sequences of characters, so lone surrogates do not occur; error callbacks of the follower are not modelled.
- SshConfig.ParseSshConfig: splits at the newline alone, which trimming makes equal to the optional carriage return before it.
- SshExport.ExportReadsBack: well-formed connections only (fields a directive line can carry, single aliases without wildcards or a leading equals sign, positive ports, readable jumps); what happens to others is stated per field by the two exact lemmas.
- AxTree.OutlineIsTrue: a node reachable by two walks is listed once for each, as in the code; the truncation note is one more line.
- HubRelay.OneRelayAlive: contexts are compared by the joined key, as the code compares them; heartbeat posts, dispatching of envelopes and capability refreshes are reduced to their waits.
- The loopback server of the bridge is one flag: two overlapping starts that leave a server unclosed are not modelled.
- ServerQueue.AtEveryMoment: does not model the synchronous teardown when the application quits, nor the text of banners and errors.
- RerunCache.CacheTellsTheTruth: assumes that a temporary name's random suffix meets no other file or running fetch, and that only fetches write into the cache directory; progress ticks are left out.
- Approval.AwaitCard: an answer read in a round begun before the deadline counts even if the clock passes the deadline during that round, as in the code; on a clock set back for ever with no decision the code would poll for ever.
- AuthorWrites.WritesAreAuthorised: agent ids contain no NUL, as author.ts assumes; the renderer's replies are a refusal or a document id, and reading and rendering are left out.
- Navigation.NavigationsAreBounded: orders are numbered by their place in the log instead of by time and counter.
- MediaRange.ParseRange: digits are read as unbounded numbers where the code reads doubles; whole-file answers to requests without a range are not capped, as in the code.
- ArchSchematic.BuildLayerLayout: attention intervals and the dense prefix of a config are whole numbers, where the code would also take fractions.
- The bounded audit ring, folding of remote sessions, tool dispatch, click and type resolution in browserbridge.ts: field copying and table look-ups.
- Panels are lists of shapes with a height; labels, colours, notes and edge ids of figures are not modelled, nor is `archDiff.ts`.
- Windows, sessions, sockets, processes, keychain, timers and file writes appear only as the moments at which they answer.
