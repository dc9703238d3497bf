# Verification of the XENEON EDGE agent portal

A Dafny model of the agent daemon, the Micro controller bridge, the installer
and the portal's contrast repair, with proofs about whole runs of them. The
files verify together: `dafny verify dfyconfig.toml`.

## What is modelled

**The daemon's shared state** (`PortalModel`, `ReviewLatch`, `T3Code`,
`HerdrRefresh`, `PortalState`, `OrderProtocol`, `PortalRuns`, `PortalSteps`,
`LatchRuns`, `Ordering`). One `RuntimeState` is driven by refreshes of two managers (Herdr
and T3 Code), manager switches, an ordering transaction over several Herdr
sessions, review acknowledgements and client commands. Each section under the state's write lock is a method of the
class `RuntimeState` and equals a function of the old state. `PortalRuns` makes
one step of each lock-protected section, and of each answer that arrives while
the `order_operation` mutex is held, and proves its theorems for every run of
these steps: nothing of an earlier manager survives a switch, cards without a
private target offer no action, the review badge of T3 cards means what their
statuses mean, and a sequence number names one roster, target map and ordering.
`PortalSteps` says of every commit what the portal's own fields show afterwards.
`ReviewLatch` proves the imperative latch against a statement about a card's
whole observation history, and `LatchRuns` carries it, and the age a card
shows, to every run. An ordering
command is one step for each answer of a session (`OrderProtocol`), where a
failed SET may or may not have taken effect; `Ordering` has the source's loops,
which perform these steps, and what every run publishes about the sessions.

**Voice** (`Voice`, `VoiceOwnership`, `ReplyPipeline`). The marker file is a
write-ahead record of a recording. Each operation is a trace of the states it
passes through, so a crash is a prefix of a trace. `ReplyPipeline` models one
client connection: its command loop, its writer and the channel between them;
`VoiceOwnership` runs any number of them against the voice handlers.

**The Micro bridge** (`KeySelection`, `MicroBridge`, `SelectionRuns`,
`Takeover`). The choice of an agent by a key, the dial or the attention key; the
protocol of two lighting acknowledgements that gates every action, proved
against what the device, the portal and the bridge said on the wire; which opens
a series of touches sends in a run; and the takeover of the device from the
Herdr bridge service, with its restore marker, through crashes and restarts.

**The installer** (`Manifest`, `HyprlandEntry`, `Install`). Files are a map from
paths, a hash is collision free and stands for the content. Commissioning may
break at any effect and then rolls back; the user may edit anything before an
uninstall.

**Window choice and contrast** (`Desktop`, `ThemePalette`). The bounded walk
over process parents and the two window selectors; the bisection for a readable
colour, over real arithmetic, with relative luminance and contrast ratio as in
WCAG 2.2 (Success Criterion 1.4.3).

## What the proofs found

- A voice start that is applied without an answer, and whose single cancel is
  not applied, leaves a live recording without a marker. This is the only way a
  start breaks the write-ahead rule (`Voice.StartIsWriteAhead`).
- A restore marker that outlives its start makes a later release start a
  service that was inactive at that takeover (`Takeover.ALeftoverMarkerStartsAgain`);
  this happens exactly when a marker is left (`Takeover.InactiveStaysInactive`).
- With nothing selected, a dial step forth and one back end on the last agent,
  and a step back alone picks the last agent but one
  (`KeySelection.NothingSelectedIsNotRestored`); otherwise steps back undo steps
  forth (`KeySelection.DialUndoes`).
- An agent that needs attention but cannot be opened stops the attention key:
  no further press opens anything (`SelectionRuns.AnUnopenableAgentBlocks`). A
  full turn opens every waiting agent exactly if all can be opened
  (`SelectionRuns.AttentionOpensEach`).
- After a withdrawn ordering the roster keeps the order it had, and a cleared
  badge does not move its card, until the next commit
  (`PortalSteps.RosterIsInOrder`, `PortalSteps.WithdrawalLeavesTheOrder`,
  `PortalSteps.AClearedBadgeStaysPut`).
- A directory at the path of either seeded config stops an install that has
  already written every managed file: seeds are not part of the preflight that
  is meant to leave no partial installation, scripts/install.sh:310-311. Without
  activation and input or output errors an accepted install is refused exactly
  then (`Install.Machine.Commission`), and the files are as before exactly if
  all managed files were in place and there was a config
  (`Install.WhenAStoppedInstallIsPartial`); on a concrete home they are not
  (`Install.ABlockedSeedLeavesAPartialInstall`).
- Installing and uninstalling adds a final newline to a `hyprland.lua` that had
  none, and a rolled-back Hyprland module gets mode 0644
  (`Install.InstallThenUninstall`, `Install.AFinalNewlineIsAdded`,
  `Install.RollbackPutsBack`, `Install.ARolledBackModuleIsRemoded`).

Where the documentation and the code disagree, the model follows the code:
docs/protocol.md says that opening a T3 Code thread acknowledges its review
badge, while the code leaves that to T3 Code's own visit and settle records;
docs/architecture.md says that a running session is working, while the code
shows a running session as done, idle or blocked once its last turn completed
or failed.

## Assumptions

- Portal ids are UUIDv5 hashes. They are taken to be injective and are
  represented by what they are derived from; ties in an order are broken by
  that text instead of by the hash.
- Session names of one discovery are distinct, and so are the threads of one T3
  read and the terminals of one Herdr session.
- No other program sets Herdr's ordering, deletes the voice marker, or edits
  the installer's manifest and marker.
- Request ids of the Micro bridge (random UUIDs) are distinct; a counter stands
  for them.
- Time, answers of other programs, and failures of files and sockets are inputs.

## Model

| member | source | states |
|---|---|---|
| PortalModel.OrderIsTotal | crates/xeneon-agent-core/src/model.rs:237-255 | both roster comparators are antisymmetric and tie only cards of one id |
| PortalModel.OrderIsTransitive | crates/xeneon-agent-core/src/model.rs:237-255 | both roster comparators are transitive |
| PortalModel.CompareMeaning | crates/xeneon-agent-core/src/model.rs:237-255 | the priority comparator puts Blocked before awaiting review before Working before resting before Unknown, the newer change first within a rank; the grouped one is discovery order |
| PortalModel.PriorityShowsUrgentFirst | crates/xeneon-agent-core/src/model.rs:237-245 | in a roster in priority order no card stands above one it may not precede by status and review, and equals stand newest first |
| PortalModel.SortContents | crates/xeneon-agent-core/src/model.rs:237-245 | sorting keeps exactly the cards there were |
| PortalModel.SortOrders | crates/xeneon-agent-core/src/model.rs:237-245 | the sorted roster is in order throughout |
| PortalModel.SortIgnoresInputOrder | crates/xeneon-agent-core/src/runtime.rs:116-126 | either order depends only on the cards, not on the order they arrive in |
| PortalModel.TogglingLosesNothing | crates/xeneon-agent-core/src/runtime.rs:116-126 | after any toggles the roster is what the last mode makes of the original cards |
| PortalModel.GroupedOrderPlacesEveryCard | crates/xeneon-agent-core/src/runtime.rs:116-126 | a roster numbered 0..n-1 shows card i at position i when grouped |
| PortalModel.SortAgents | crates/xeneon-agent-core/src/model.rs:237-245 | the slice sorted in place is the specified sort of its old contents |
| PortalModel.ApplyAgentOrder | crates/xeneon-agent-core/src/runtime.rs:116-126 | grouped only when ordering is available and grouped, by priority otherwise |
| ReviewLatch.AttentionMemory.AcknowledgeFocus | crates/xeneon-agent-core/src/runtime.rs:1404-1414 | acknowledges exactly the agents newly focused in a known session and keeps only connected sessions |
| ReviewLatch.AttentionMemory.ReadFocus | crates/xeneon-agent-core/src/runtime.rs:1387-1402 | the focus of each connected session is its last focused card that has a target |
| ReviewLatch.AttentionMemory.ApplyAgentObservations | crates/xeneon-agent-core/src/runtime.rs:1380-1459 | cards and both maps, updated in place, equal the specified reconciliation |
| ReviewLatch.ApplyIsPerCard | crates/xeneon-agent-core/src/runtime.rs:1416-1458 | one reconciliation is one event for each card; cards do not interfere, and a card shows what is remembered of it |
| ReviewLatch.LatchHistory | crates/xeneon-agent-core/src/runtime.rs:1424-1471 | the latch is set exactly if some observation of this stay armed it and nothing at or after that cleared it |
| ReviewLatch.SinceHistory | crates/xeneon-agent-core/src/runtime.rs:1441-1447 | `since` is the time of the observation that began the current unchanged run |
| ReviewLatch.FocusIsHistory | crates/xeneon-agent-core/src/runtime.rs:1387-1414 | the remembered focus is that of the latest roster since the last switch |
| ReviewLatch.RemainingFocusedNeverClears | crates/xeneon-agent-core/src/runtime.rs:1404-1414 | a card that merely stays focused, or is focused when its session first appears, is not acknowledged |
| ReviewLatch.LatchRefinesHistory | crates/xeneon-agent-core/src/runtime.rs:1356-1471 | after any run of reconciliations, opens and switches every latch is what the history of rosters says, focus transitions included |
| LatchRuns.MemoryOfRun | crates/xeneon-agent-core/src/runtime.rs:378-726 | the memory of any run of the daemon is what its commits, opens and switches leave |
| LatchRuns.BadgeInEveryRun | crates/xeneon-agent-core/src/runtime.rs:1380-1459 | in every run a card on show is review-ready exactly if its history armed it and nothing since cleared it |
| LatchRuns.SinceInEveryRun | crates/xeneon-agent-core/src/runtime.rs:1441-1447 | in every run what is remembered of a card dates from the commit that began its current unchanged run |
| LatchRuns.AgeInEveryRun | crates/xeneon-agent-core/src/runtime.rs:1441-1458 | and the age on the card is the time from that commit to the latest one, through reorderings, opens, failed discoveries and stale reads |
| T3Code.FeedThreadMeaning | crates/xeneon-agent-core/src/t3code.rs:147-198 | the status each feed thread gets through both translations, in both directions, and when it is hidden |
| T3Code.AcknowledgedIsIdle | crates/xeneon-agent-core/src/t3code.rs:758-874 | only an idle card carries a recorded acknowledgement |
| T3Code.ThreadMeaning | crates/xeneon-agent-core/src/t3code.rs:758-874 | for every thread row: when it is hidden, which status it gets, and when that counts as reviewed |
| T3Code.ThreadSequence | crates/xeneon-agent-core/src/t3code.rs:758-874 | and since which of its times |
| T3Code.FeedSequence | crates/xeneon-agent-core/src/t3code.rs:147-198 | since when a feed thread is as it is |
| T3Code.RosterIsBounded | crates/xeneon-agent-core/src/t3code.rs:454-525 | the roster is the first 64 of the rows that are not hidden |
| T3Code.ObservationFromRows | crates/xeneon-agent-core/src/t3code.rs:454-525 | the roster and targets are those of the first 64 rows that classify, numbered in order |
| T3Code.RosterMeetsContract | crates/xeneon-agent-core/src/t3code.rs:454-525 | distinct threads give distinct cards, targets for exactly these cards, and acknowledgements on idle cards only |
| HerdrRefresh.StaleFromPrevious | crates/xeneon-agent-core/src/runtime.rs:663-673 | a stale session keeps its previous cards without actions, renumbered from the offset |
| HerdrRefresh.Reconcile | crates/xeneon-agent-core/src/runtime.rs:542-638 | which snapshot of a session counts, and as connected, stale or incompatible |
| HerdrRefresh.SessionCards | crates/xeneon-agent-core/src/runtime.rs:536-675 | what one session adds to the roster for every answer it can give |
| HerdrRefresh.CollectHerdr | crates/xeneon-agent-core/src/runtime.rs:526-676 | the collection loop equals the specified fold over the sessions' outcomes |
| HerdrRefresh.CollectWell | crates/xeneon-agent-core/src/runtime.rs:534-676 | through any mix of failures: distinct cards numbered 0..n-1, no actions without a target, no target without a card |
| HerdrRefresh.CollectShows | crates/xeneon-agent-core/src/runtime.rs:534-676 | whatever the sessions answer, the roster has of each, in order, the cards of its last answer, or its previous ones without actions if it failed, or none if it is incompatible |
| HerdrRefresh.CollectLists | crates/xeneon-agent-core/src/runtime.rs:534-676 | every session is listed with its state, and those that answer are counted |
| HerdrRefresh.ReportedOrderMeaning | crates/xeneon-agent-core/src/runtime.rs:542-638 | the mode that counts is that of the last compatible answer of a session that stays in touch |
| HerdrRefresh.OrderPublishedIffUniform | crates/xeneon-agent-core/src/runtime.rs:696-707 | a mode is published exactly when every discovered session is connected and reported it |
| PortalState.RuntimeState.DiscoveryFailed | crates/xeneon-agent-core/src/runtime.rs:499-521 | the whole state after a failed discovery |
| PortalState.RuntimeState.CommitHerdr | crates/xeneon-agent-core/src/runtime.rs:685-724 | the whole state after a Herdr refresh, and that a late one changes nothing |
| PortalState.RuntimeState.CommitT3 | crates/xeneon-agent-core/src/runtime.rs:423-468 | the whole state after a T3 Code refresh, stale or not |
| PortalState.RuntimeState.SwitchBackend | crates/xeneon-agent-core/src/runtime.rs:1217-1249 | fails on a stale number, changes nothing on a repeat, otherwise clears all of the previous manager |
| PortalState.RuntimeState.AcknowledgeReviewReady | crates/xeneon-agent-core/src/runtime.rs:1356-1377 | clears one badge and its latch together, or changes nothing |
| PortalRuns.StepKeeps | crates/xeneon-agent-core/src/runtime.rs:378-726 | every step keeps the roster, isolation and attention invariants |
| PortalRuns.EveryRunIsSound | crates/xeneon-agent-core/src/runtime.rs:378-726 | those invariants hold in every state of every interleaving |
| PortalRuns.OnlyTheCurrentManager | crates/xeneon-agent-core/src/runtime.rs:1228-1242 | every card, routed target, latch and focus was reported as such by an observation of the current manager begun after the latest switch |
| PortalRuns.T3AttentionIsExact | crates/xeneon-agent-core/src/runtime.rs:409-470 | under T3 Code every Done card is review-ready and no Blocked, Working or Unknown card is, also while stale |
| PortalRuns.GroupedPlacesInEveryRun | crates/xeneon-agent-core/src/runtime.rs:526-708 | in every reachable state grouping puts card i at position i |
| PortalRuns.SequenceIdentifies | crates/xeneon-agent-core/src/runtime.rs:904-910 | two states with one number below the maximum have equal cards, targets, ordering and manager |
| PortalRuns.DispatchMatchesCitedSnapshot | crates/xeneon-agent-core/src/runtime.rs:888-989 | an action goes to the target, and under the capability, that the cited number named |
| PortalRuns.GrantedIsDispatched | crates/xeneon-agent-core/src/runtime.rs:888-989 | in every run a command is dispatched exactly if it cites the current number and the card on show has a target and offers the action, guarded ones under the capability supplied; T3 Code only opens |
| PortalRuns.RejectionMeaning | crates/xeneon-agent-core/src/runtime.rs:904-948 | which refusal a command gets |
| PortalSteps.RosterIsInOrder | crates/xeneon-agent-core/src/runtime.rs:116-126 | in every run the roster is in the published order, by priority if none is published, until a badge is cleared or the ordering is withdrawn |
| PortalSteps.WithdrawalLeavesTheOrder | crates/xeneon-agent-core/src/runtime.rs:1177-1183 | after a withdrawal the roster is by priority exactly if it was before, and a roster for which it is not |
| PortalSteps.AClearedBadgeStaysPut | crates/xeneon-agent-core/src/runtime.rs:1356-1377 | a roster in which an acknowledged card stays above work that outranks it |
| PortalSteps.PublishingSorts | crates/xeneon-agent-core/src/runtime.rs:1193-1207 | an ordering command that succeeds shows the same cards in the mode it publishes, and changes nothing else |
| PortalSteps.FinishHerdrShows | crates/xeneon-agent-core/src/runtime.rs:526-724 | after a refresh the portal shows every session as its outcome says, with its targets, and no other session |
| PortalSteps.FinishHerdrPublishes | crates/xeneon-agent-core/src/runtime.rs:685-724 | the connection and the sessions listed follow from which sessions answered |
| PortalSteps.FinishHerdrOrders | crates/xeneon-agent-core/src/runtime.rs:696-707 | a mode is published exactly if every session answered with it |
| PortalSteps.FailedSessionsKeepTheirCards | crates/xeneon-agent-core/src/runtime.rs:663-673 | in every run a card on show of a session whose snapshot failed stays on show, badge included, without actions or target |
| PortalSteps.DiscoverFailsLeaves | crates/xeneon-agent-core/src/runtime.rs:499-521 | a failed discovery keeps the cards without actions and marks every session stale |
| PortalSteps.FinishT3Shows | crates/xeneon-agent-core/src/runtime.rs:423-468 | a T3 Code read replaces the cards and targets; a stale one leaves the cards without actions |
| PortalSteps.FinishT3Publishes | crates/xeneon-agent-core/src/runtime.rs:440-468 | and what it publishes of the connection, the ordering and the session |
| PortalSteps.SwitchClears | crates/xeneon-agent-core/src/runtime.rs:1217-1249 | an accepted switch leaves nothing of the manager before; any other leaves everything |
| PortalSteps.OpenClearsBadge | crates/xeneon-agent-core/src/runtime.rs:1356-1377 | a successful open takes the badge off that card alone, in place, and its latch |
| PortalSteps.MutexIsExclusive | crates/xeneon-agent-core/src/runtime.rs:1042-1052 | refreshes, ordering commands and switches begin only while nobody holds the mutex, the last two only on the current number |
| PortalSteps.OnlyOpensAreAwaited | crates/xeneon-agent-core/src/runtime.rs:983-1003 | only a dispatched open of a Herdr card can clear a badge when it is answered |
| OrderProtocol.MoveKeeps | crates/xeneon-agent-core/src/runtime.rs:1080-1191 | what the command has read and set is as its locals say, after every answer, lost or ambiguous ones included |
| OrderProtocol.SessionEndKeeps | crates/xeneon-agent-core/src/runtime.rs:1080-1191 | and stays so when a session ends |
| OrderProtocol.AnsweredCommandPublishes | crates/xeneon-agent-core/src/runtime.rs:1099-1207 | a command whose requests are all answered publishes its mode, and every session holds it |
| OrderProtocol.AnsweredUndoRestores | crates/xeneon-agent-core/src/runtime.rs:1139-1191 | an undo whose requests are all answered leaves every session as it was and withdraws nothing |
| Ordering.ReadPriorModes | crates/xeneon-agent-core/src/runtime.rs:1099-1126 | the mode every session really holds, or nothing; it performs the moves of the protocol |
| Ordering.TrySets | crates/xeneon-agent-core/src/runtime.rs:1128-1137 | sets each session up to the first that fails, and which may have changed |
| Ordering.Compensate | crates/xeneon-agent-core/src/runtime.rs:1139-1176 | reports success only if every session holds its prior mode again; it performs the moves of the protocol |
| Ordering.SetEach | crates/xeneon-agent-core/src/runtime.rs:1128-1191 | all set, all as before, or reported as not restored; it performs the moves of the protocol |
| Ordering.ProcessAgentOrderCommand | crates/xeneon-agent-core/src/runtime.rs:1042-1208 | with other sections running during its awaits: success means every discovered session holds the mode, and the cards are shown in it; failure leaves the sessions as they were or withdraws the ordering; and the command is a sequence of protocol moves |
| Ordering.StepHolds | crates/xeneon-agent-core/src/runtime.rs:487-726 | every step of every interleaving, those of an ordering command included, keeps what is published of the sessions' modes true |
| Ordering.PublishedOrderIsHeld | crates/xeneon-agent-core/src/runtime.rs:1042-1208 | in every run, outside an ordering command, published ordering is what every session it was published for holds |
| Ordering.OrderCommandEnds | crates/xeneon-agent-core/src/runtime.rs:1177-1207 | in every run a command that ends published a mode all discovered sessions hold and shows the cards in it, or changed nothing, or withdrew the ordering |
| Voice.VoiceController.ClaimMarker | crates/xeneon-agent-core/src/voice.rs:139-159 | claims only an absent marker, and every state on the way |
| Voice.VoiceController.Start | crates/xeneon-agent-core/src/voice.rs:88-119 | its result and every state it passes through |
| Voice.VoiceController.Finish | crates/xeneon-agent-core/src/voice.rs:121-137 | its result and every state it passes through |
| Voice.CleanupOwnedDictation | crates/xeneon-agent-core/src/voice.rs:184-202 | its result and every state it passes through |
| Voice.StartMeaning | crates/xeneon-agent-core/src/voice.rs:88-119 | when a start succeeds and what it then leaves, why it fails, and that a refused one changes nothing |
| Voice.FinishMeaning | crates/xeneon-agent-core/src/voice.rs:121-137 | when a stop or cancel succeeds, that it ends the recording as its name says, and that it touches no other |
| Voice.CleanupMeaning | crates/xeneon-agent-core/src/voice.rs:184-202 | what a cleanup leaves, and that it acts only on a marker |
| Voice.StartIsWriteAhead | crates/xeneon-agent-core/src/voice.rs:88-119 | a start leaves an unmarked recording exactly when it was applied unanswered, its cancel failed and the marker was removed |
| Voice.AnUnansweredStartCanOrphan | crates/xeneon-agent-core/src/voice.rs:108-113 | a concrete start that does |
| Voice.FinishIsWriteAhead | crates/xeneon-agent-core/src/voice.rs:121-137 | a stop or cancel is marked throughout and on success leaves neither marker nor recording |
| Voice.CleanupIsWriteAhead | crates/xeneon-agent-core/src/voice.rs:184-202 | a cleanup is marked throughout and on success leaves neither marker nor recording |
| Voice.EveryStateIsMarked | crates/xeneon-agent-core/src/voice.rs:88-202 | through any operations, crashes and restarts a live portal recording has its marker |
| Voice.CleanupAfterAnyCrash | crates/xeneon-agent-core/src/voice.rs:184-202 | a successful cleanup after any crash leaves nothing behind |
| VoiceOwnership.VoiceHandlers.ProcessVoiceCommand | crates/xeneon-agent-core/src/runtime.rs:1278-1322 | the owner, error latch and shown voice state after a command |
| VoiceOwnership.VoiceHandlers.CancelForDisconnectedClient | crates/xeneon-agent-core/src/runtime.rs:1324-1354 | cancels only the recorded owner's recording and forgets the owner |
| VoiceOwnership.VoiceHandlers.RefreshVoice | crates/xeneon-agent-core/src/runtime.rs:472-485 | shows what was read under the voice mutex, or the latched error, after any sections of other handlers in between, without touching ownership |
| VoiceOwnership.OwnerHoldsMarker | crates/xeneon-agent-core/src/runtime.rs:1278-1354 | with every client on its own connection: a recorded owner is still being served and the marker holds this daemon's token |
| VoiceOwnership.CommandMeaning | crates/xeneon-agent-core/src/runtime.rs:1278-1322 | the owner, recorder, marker and shown state after a command that succeeds or fails |
| VoiceOwnership.DisconnectCancels | crates/xeneon-agent-core/src/runtime.rs:1324-1354 | in every run the owner's disconnect silences the recording and removes its marker, or latches and shows the error |
| VoiceOwnership.RefreshMeaning | crates/xeneon-agent-core/src/runtime.rs:472-485 | a refresh shows the recorder as read, or the latched error |
| VoiceOwnership.GoneClientsNeverOwn | crates/xeneon-agent-core/src/runtime.rs:738-811 | once a client's handler has returned, however its connection ended, no later state has its command in flight or names it as owner |
| ReplyPipeline.RepliesAreAPrefix | crates/xeneon-agent-core/src/runtime.rs:745-811 | in every interleaving the replies answer the first lines sent, in order |
| ReplyPipeline.HalfCloseLosesNothing | crates/xeneon-agent-core/src/runtime.rs:757-800 | a half-closed connection without failures has answered every line when it ends |
| ReplyPipeline.HalfClosedDrains | crates/xeneon-agent-core/src/runtime.rs:757-800 | and from every state of one there is a way to its end |
| ReplyPipeline.EveryScheduleDrains | crates/xeneon-agent-core/src/runtime.rs:757-800 | no schedule sticks: effective steps are bounded, nothing is enabled exactly when the handler has returned, and then every line is answered |
| ReplyPipeline.EndingEnds | crates/xeneon-agent-core/src/runtime.rs:757-809 | after a half-close or any failure the handler's own effective steps are bounded |
| ReplyPipeline.NothingLeftMeansReturned | crates/xeneon-agent-core/src/runtime.rs:757-809 | and when none is left it has returned |
| ReplyPipeline.ReturnsSettled | crates/xeneon-agent-core/src/runtime.rs:769-809 | the handler returns with no command in flight |
| ReplyPipeline.NothingStartsAfterStop | crates/xeneon-agent-core/src/runtime.rs:761-809 | no command starts after a writer failure is signalled |
| KeySelection.LightsIdentifyStates | config/bin/xeneon-micro-bridge:22-34 | equal lights mean as many agents in the same states, and conversely |
| KeySelection.LightMeaning | config/bin/xeneon-micro-bridge:18-34 | the colour and effect of each light by the status and review of the agent in its place |
| KeySelection.RingMeaning | config/bin/xeneon-micro-bridge:37-42 | the ring shows the microphone, or else the most urgent of all agents |
| KeySelection.AttentionMeaning | config/bin/xeneon-micro-bridge:22-28 | an agent needs attention exactly if it is blocked, or awaits review and is not working |
| KeySelection.ChooseAgent | config/bin/xeneon-micro-bridge:45-61 | the chosen agent for every control, without the index arithmetic |
| KeySelection.AttentionIsFair | config/bin/xeneon-micro-bridge:56-60 | k acknowledged attention presses open the k agents that need attention once each, in roster order from the selected one |
| KeySelection.DialVisitsEveryAgent | config/bin/xeneon-micro-bridge:52-55 | n clockwise steps visit all n agents once each: a rotation of the roster that starts after the selected one |
| KeySelection.DialUndoes | config/bin/xeneon-micro-bridge:52-55 | m steps forth and m back return to the selection exactly if a shown agent was selected |
| KeySelection.NothingSelectedIsNotRestored | config/bin/xeneon-micro-bridge:52-55 | a concrete roster on which a step forth and one back from nothing selected end on the last agent |
| MicroBridge.Bridge.Release | config/bin/xeneon-micro-bridge:159-164 | forgets the frame, both requests, the acknowledged slots and the pending open |
| MicroBridge.Bridge.SendFrame | config/bin/xeneon-micro-bridge:199-215 | a changed frame is sent as two requests; what is recorded of them and of a failed send |
| MicroBridge.Bridge.Update | config/bin/xeneon-micro-bridge:186-217 | the state and the messages of one update, with its timeouts |
| MicroBridge.Bridge.OnPortal | config/bin/xeneon-micro-bridge:219-229 | a snapshot replaces the roster; only the pending open's result selects and settles |
| MicroBridge.Bridge.OnMicro | config/bin/xeneon-micro-bridge:231-255 | what answers of the device settle, and which control acts |
| MicroBridge.Bridge.Handle | config/bin/xeneon-micro-bridge:257-287 | one event of the loop, and the release and disconnection on any error |
| MicroBridge.EveryRunIsPermitted | config/bin/xeneon-micro-bridge:159-287 | in every run the fields match what the device, the portal and the bridge said on the wire, and everything the bridge said was permitted |
| MicroBridge.SettledFrameIsAcknowledged | config/bin/xeneon-micro-bridge:205-245 | a frame with no request outstanding was sent as two requests, the device answered each by name and with success, and the acknowledged slots are its ids |
| MicroBridge.OpensAreGated | config/bin/xeneon-micro-bridge:245-255 | every open names an agent the device acknowledged at the slot it has now, cites the number last heard, at most four seconds before, and every earlier open was answered, expired or dropped with its session |
| MicroBridge.SlotKeyOpensItsLight | config/bin/xeneon-micro-bridge:45-51 | in any run a slot key opens the agent the device acknowledged on that key's light |
| MicroBridge.RequestsAreDistinct | config/bin/xeneon-micro-bridge:206-214 | no two requests of a run share a name |
| MicroBridge.LateAnswersCountForNothing | config/bin/xeneon-micro-bridge:231-245 | an answer to a request of a superseded frame acknowledges nothing |
| MicroBridge.FramesAreSent | config/bin/xeneon-micro-bridge:199-215 | in every run the frame the bridge takes to be shown, lights, agents and ring, is the one it sent last |
| MicroBridge.StaleUpdatesLetGo | config/bin/xeneon-micro-bridge:186-192 | in every run an update more than four seconds after the last snapshot heard, or without T3 Code, releases the device and sends nothing |
| MicroBridge.StaleControlsDoNothing | config/bin/xeneon-micro-bridge:245-247 | and no control acts then |
| MicroBridge.FreshUpdatesShow | config/bin/xeneon-micro-bridge:186-217 | an update that goes well shows exactly the agents heard, waits no longer than allowed for answers, and keeps a shown selection |
| MicroBridge.SettledIsPublished | config/bin/xeneon-micro-bridge:216-217 | such an update publishes the status whenever the frame of the agents heard is acknowledged |
| MicroBridge.UnansweredLightingEnds | config/bin/xeneon-micro-bridge:196-197 | a lighting request unanswered for five seconds ends the session |
| MicroBridge.LightingAnswers | config/bin/xeneon-micro-bridge:231-244 | what a positive, negative or foreign answer does |
| MicroBridge.ResultsSettleTheirOpen | config/bin/xeneon-micro-bridge:226-229 | only its own result ends a pending open, and only success selects |
| SelectionRuns.ReadyIsReached | config/bin/xeneon-micro-bridge:186-245 | from any first T3 Code snapshot two positive answers lead to a lit session without an open outstanding |
| SelectionRuns.AttentionOpensEach | config/bin/xeneon-micro-bridge:219-255 | in any run that is so, k attention presses answered with success send one open for each of the k waiting agents, in order, up to the first that cannot be opened; for all exactly if all can be |
| SelectionRuns.DialOpensEach | config/bin/xeneon-micro-bridge:219-255 | and n clockwise steps one open for each of the n agents, under the same condition |
| SelectionRuns.AnUnopenableAgentBlocks | config/bin/xeneon-micro-bridge:246-255 | while the chosen agent cannot be opened, no number of touches opens anything |
| Takeover.HerdrOwner.Acquire | config/bin/xeneon-micro-bridge:77-106 | every state a takeover passes through, and whether it raised |
| Takeover.HerdrOwner.TakeMicro | config/bin/xeneon-micro-bridge:193-195 | the same with the connection to the device |
| Takeover.HerdrOwner.Restore | config/bin/xeneon-micro-bridge:108-115 | every state a restore passes through, and whether it raised |
| Takeover.HerdrOwner.Release | config/bin/xeneon-micro-bridge:159-168 | the same for a release, whose failed restore is only reported |
| Takeover.EveryStateIsRestorable | config/bin/xeneon-micro-bridge:64-115 | a stop not undone is marked, a start follows an observed active service, a connected device is locked, through any crashes |
| Takeover.ConnectsOnlyAlone | config/bin/xeneon-micro-bridge:77-106 | exactly when a takeover connects: inactive service or answered stop, the lock, no other bridge, the device reached |
| Takeover.ConnectedMeansAlone | config/bin/xeneon-micro-bridge:83-104 | in any run a takeover that connects leaves the service inactive and found no other bridge |
| Takeover.ReleaseMeaning | config/bin/xeneon-micro-bridge:159-168 | what a release leaves of device, lock, service and marker |
| Takeover.RestoreAfterAnyCrash | config/bin/xeneon-micro-bridge:301-314 | a successful restore after any crash leaves no marker, no lock and the owed service running |
| Takeover.InactiveStaysInactive | config/bin/xeneon-micro-bridge:77-115 | a service inactive at takeover is running after the next release exactly if an earlier marker was left |
| Takeover.InactiveInEveryRun | config/bin/xeneon-micro-bridge:64-115 | an inactive service without a marker stays inactive through any takeovers, releases, crashes and restarts unless somebody else starts it |
| Takeover.ALeftoverMarkerStartsAgain | config/bin/xeneon-micro-bridge:112-115 | a concrete run in which it is |
| HyprlandEntry.RemoveUndoesInsert | scripts/install.sh:572-579 | removing the inserted require gives back every file |
| HyprlandEntry.InsertedCounts | scripts/install.sh:394-411 | each input require gains one module require directly below it |
| HyprlandEntry.DroppedKeepsLines | scripts/uninstall.sh:162-169 | a removal keeps every other line, in order |
| Manifest.WriteThenRead | scripts/lib.sh:136-153 | a written hash is read back and every other record is unchanged |
| Manifest.PutAllMeaning | scripts/install.sh:535-551 | installing changes its targets and their records and nothing else |
| Install.Machine.ManifestHash | scripts/lib.sh:136-140 | the last recorded hash of a target |
| Install.Machine.PreflightManagedTarget | scripts/lib.sh:168-188 | accepts exactly an absent target or one with its recorded content |
| Install.Machine.InstallManagedFile | scripts/lib.sh:190-208 | writes the file and its record, or refuses an unclaimed identical file |
| Install.Machine.SeedUserFile | scripts/lib.sh:210-228 | never replaces what the user has, and refuses exactly a non-file |
| Install.Machine.InstallAll | scripts/install.sh:535-551 | after the preflight no target is refused, and no other path changes |
| Install.Machine.SnapshotArtifacts | scripts/install.sh:238-251 | each tracked file is saved, or that there is none |
| Install.Machine.Rollback | scripts/install.sh:149-199 | the state after a rollback |
| Install.RollbackPutsBack | scripts/install.sh:149-199 | a rollback after any disturbance of tracked files restores files, entry point, marker and manifest, and wholly so exactly when the module had the installer's mode or was absent |
| Install.ARolledBackModuleIsRemoded | scripts/install.sh:173-180 | a recorded module of mode 0600 on an accepted home that a rollback does not restore |
| Install.Machine.Commission | scripts/install.sh:310-653 | what the preflight refuses changes nothing, a failed activation is undone, committed is the whole install with obsolete files swept; without activation or errors an accepted install is refused exactly if a seed is blocked, and what it then leaves |
| Install.WhenAStoppedInstallIsPartial | scripts/install.sh:310-311 | an install stopped by a seed leaves the files as they were exactly if every managed file was in place and there was a config |
| Install.ABlockedSeedLeavesAPartialInstall | scripts/lib.sh:210-228 | an accepted home for either seed where a directory there stops the install after a managed file was written |
| Install.Machine.InsertRequire | scripts/install.sh:572-582 | the entry point and marker after the insertion |
| Install.Machine.RemoveRequire | scripts/uninstall.sh:154-180 | the entry point and marker after the removal |
| Install.Machine.Sweep | scripts/uninstall.sh:182-196 | the removal loop equals the specified fold, and where it stops when a removal fails |
| Install.Machine.Uninstall | scripts/uninstall.sh:70-196 | when it refuses, and that it then changes nothing; otherwise the whole state, also when it breaks off |
| Install.UninstallKeepsUserFiles | scripts/uninstall.sh:182-196 | removes exactly the files with their recorded content and keeps exactly the records of modified ones |
| Install.BrokenUninstallKeepsUserFiles | scripts/uninstall.sh:182-196 | an uninstall that breaks off has removed nothing but files with their recorded content |
| Install.RetryCompletes | scripts/uninstall.sh:182-196 | sweeping again after a break ends exactly where an unbroken sweep does |
| Install.NoReferenceIsLeft | scripts/uninstall.sh:119-127 | an uninstall that is not refused leaves no mention of the module in the entry point |
| Install.EditsSurvive | scripts/uninstall.sh:182-196 | after an install and any edits, an installed file goes exactly if it still has its content |
| Install.EditsSurviveAnUpgrade | scripts/install.sh:625-653 | the same after an upgrade and its sweep of obsolete files |
| Install.UpgradeThenUninstall | scripts/install.sh:535-653 | on any home, installing and uninstalling leaves every path and record as uninstalling at once would have |
| Install.ProductionEntry | scripts/install.sh:572-599 | an activated production install leaves exactly one require of the module, below the input require; one not activated leaves the entry point alone |
| Install.WrittenMeaning | scripts/install.sh:535-599 | what an install writes at each path: managed files, in production both configs and the module, otherwise a config only where there is nothing |
| Install.ModifiedUnitsRefuse | scripts/uninstall.sh:70-110 | a modified unit stops the uninstall |
| Install.InstallThenUninstall | scripts/install.sh:535-653 | on a fresh home both together are the identity up to a final newline, and when the uninstall is refused |
| Install.AFinalNewlineIsAdded | scripts/install.sh:572-580 | a concrete entry point without a final newline that both together change |
| Desktop.IsDescendant | crates/xeneon-agent-core/src/desktop.rs:565-584 | exactly whether the ancestor is among the first 32 processes of the parent chain |
| Desktop.CycleAddsNothing | crates/xeneon-agent-core/src/desktop.rs:571-573 | the cycle guard never changes the answer on any table |
| Desktop.DescendsByPath | crates/xeneon-agent-core/src/desktop.rs:565-584 | a process descends from another exactly if a path of at most 32 processes, each the parent of the one before, leads to it |
| Desktop.ClientHostsSession | crates/xeneon-agent-core/src/desktop.rs:500-510 | exactly whether some process of the session descends from the window |
| Desktop.HintMeaning | crates/xeneon-agent-core/src/desktop.rs:250-314 | a hint is satisfied by any of a window's four names, whatever the case |
| Desktop.ClassMeaning | crates/xeneon-agent-core/src/desktop.rs:316-385 | which windows are an application's, and which have its main title |
| Desktop.SelectHerdrMeaning | crates/xeneon-agent-core/src/desktop.rs:250-314 | the chosen window hosts the session, satisfies the hint if any does, and is strictly the most recent; and conversely |
| Desktop.RefusalMeaning | crates/xeneon-agent-core/src/desktop.rs:284-314 | why no window is chosen: one was never focused, or several were focused last alike |
| Desktop.SelectHerdrIgnoresOrder | crates/xeneon-agent-core/src/desktop.rs:250-314 | the same window or refusal for every order of the client list |
| Desktop.SelectDesktopIgnoresOrder | crates/xeneon-agent-core/src/desktop.rs:326-385 | the same for the desktop applications |
| Desktop.SelectDesktopMeaning | crates/xeneon-agent-core/src/desktop.rs:316-385 | the chosen window is the application's, has the main title and is tiled as far as any does, and is strictly the most recent; and conversely |
| ThemePalette.ColorString | quickshell/state/ThemePalette.js:90-97 | the text of the rounded and clamped channels |
| ThemePalette.ToByteRounds | quickshell/state/ThemePalette.js:90-97 | a channel is rounded to the nearest value, halves upwards, and kept in range |
| ThemePalette.ColorTextRoundTrip | quickshell/state/ThemePalette.js:80-97 | a written colour is valid and reads back as its channels |
| ThemePalette.PrimaryLuminance | quickshell/state/ThemePalette.js:117-122 | the three primaries have the weights of the standard |
| ThemePalette.TargetIsBest | quickshell/state/ThemePalette.js:131-139 | no colour has more contrast with a background than the better of black and white |
| ThemePalette.TargetReachesBodyText | quickshell/state/ThemePalette.js:131-139 | the ratios of black and white multiply to 21, so one of them reaches 4.5 |
| ThemePalette.MeetsIsMonotone | quickshell/state/ThemePalette.js:142-150 | for a candidate that fails, once a mix meets the minimum every mix further along does |
| ThemePalette.EnsureContrast | quickshell/state/ThemePalette.js:131-153 | the result meets the minimum exactly if some colour does, always up to 4.5, and mixes no more than 1/4096 beyond what is needed |

## Left out

- Ordering.PublishedOrderIsHeld: while an ordering command is between its SETs the sessions differ from what is published; the claim is for the states outside commands. A SET that reaches Herdr after its timeout and after the re-read is not modelled, nor is a session that ends and returns with another mode.
- PortalRuns.SequenceIdentifies: says nothing at the maximum of the 64-bit counter, which saturates.
- PortalRuns.GroupedPlacesInEveryRun: does not say that the roster is sorted at all times; an acknowledgement does not re-sort it.
- Voice.EveryStateIsMarked: assumes an accurate recorder state file, that nobody else starts a portal recording, that a start command in flight ends with the daemon, and rules out the one orphaning start.
- MicroBridge.OpensAreGated: compares ids, as the code does; between a snapshot and the next update a key can act while a light still shows the agent's earlier state.
- Install.Machine.Commission: the checks before the changes, other than the preflight and the entry point's counts, are one flag, and so are those after them; the rollback itself does not fail, and directories and service states are not part of it.
- Desktop.ClientHostsSession: the reading of `/proc` and the parser of Herdr command lines are a parameter.
- ThemePalette.EnsureContrast: over real numbers; rounding of the floating-point evaluation is not modelled, and the transfer curve is any that rises from 0 to 1.
- PortalModel.SortAgents: the standard library's stable sort is specified by insertion, not modelled step by step.
- Delivery of snapshots to clients (cloning and sending are two steps, so their numbers need not rise), heartbeats, and the persisted manager file.
- The transports: sockets, subprocesses, SQLite queries, JSON and TOML, systemd, hyprctl. The adapter of Herdr is reduced to its contract: cards and targets share ids, and `source_order` is the offset plus the index.
- Validation of command fields other than the capability of a guarded action; the desktop and focus commands; subscription handles.
- Health, usage and battery collectors, configuration, hardware detection, `xeneon-edge-reconcile`, `check.sh`, `xeneon-agentctl`, `xeneon-t3-status`, and all QML views.
