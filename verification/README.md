# Verification model of the card automation

The application is a task board whose cards work themselves: a card dragged into a
column may start an agent, a deploy or a browser test, and a route carries it from
stage to stage as each ends. This project models that engine in Dafny and proves what
it keeps: over every interleaving of its goroutines, over every run of its state
machines, over every board it reads.

The modules follow the program's components.

| module | component | kind of model |
|---|---|---|
| `Text` | trimming, case folding, substring search | functions |
| `Policy` | tool permissions, the `*` patterns of a policy | loop against a relation |
| `Hook` | the shell command a CLI runs as its hook | functions, and a scanner for sections 2.2.1, 2.2.2 and 2.3 of the POSIX Shell Command Language (IEEE Std 1003.1) |
| `Trace` | the reader that records a byte stream line by line | class |
| `Rendezvous`, `Questions`, `StageReport`, `StageWaits` | one-slot channels between somebody who waits and many who answer, and whom a report reaches | state machine, classes and methods |
| `Tailnet` | the generation protocol behind the tailnet switch | state machine, class |
| `Session`, `SessionEnds` | a session's flags, set by its runner, its cancellers and those who ask it for permission, and what it ends as | state machine, class |
| `Flows`, `Tools`, `Routing` | routes: validation in place, the tool servers a stage hands over, and where an event sends a card | methods over arrays and maps, functions |
| `Engine` | the card on its route: journal, visited stages, the cascade of failed starts | class with mutually recursive methods |
| `Targets` | what the folder watcher polls, and whom its events reach | loops against a grouping, class |
| `Agents`, `Crew` | names of agents, who works a stage, rosters of names turned into ids | functions, methods |
| `Admission`, `Stranding`, `Straying` | column limits, folders, the queue of waiting cards, who comes back for one that waits, and what happens when it is moved meanwhile | state machines, class |
| `Registry`, `Proxies` | the registries and the tables they are written through to, and the network configurations agents run through | classes |
| `Columns`, `Binding`, `Adoption`, `BoardSeed`, `Ownership`, `Behaviour`, `Boards`, `Healing`, `Losses` | a board's own columns and routes: read into the registry, held back, edited, written back | a general argument over rules, two sets of rules, class |

Time, git, the board's server, processes and the network appear as answers from
outside: parameters, oracles indexed by the moment they are asked, or events that may
come at any time.

## What turned out not to hold

Each of these is a lemma or a run of the class with the failing case, beside the exact
condition under which the code does what it promises.

- A merge is latched by folder, branch and kind under a marker that says which branch
  landed where, so the card that comes to wait for that merge second, or a card that
  comes round its route again, is never offered it (`Targets.SecondCardWaitsInVain`);
  an event is offered exactly when its marker is not that of the last one latched there
  (`Targets.NoMarkerTwiceRunning`).
- A cancellation can be lost: an agent that asks for permission before its turn begins
  makes the session look as if it were already working, so a cancellation then sets no
  pending flag, and the turn that follows clears the one it did set
  (`Session.CancellationCanBeLost`; it holds whenever nothing was asked before the
  turn, `Session.CancellationHolds`).
- A second, refused report of a stage has already written its fields onto the card by
  the time it is refused, and the route then reads those
  (`StageReport.RefusedReportRewritesTheCard`; from any state with a second caller past
  the look-up, `StageReport.LateReportRewrites`). With one caller, and nobody else at
  the properties it named, the card says what the report said
  (`StageReport.OneCallersReportStands`).
- A stage that takes over its card's terminal while the stage before it still waits
  there is forgotten when that one ends, and no report reaches it
  (`StageWaits.SecondStageIsUnheard`); a waiting stage is heard exactly when no other
  began or ended in its terminal since it began
  (`StageWaits.WaitingStageHearsExactlyWhen`).
- A start-up begun while a door is held overwrites it and nothing closes it
  (`Tailnet.StartOverADoorLosesIt`); two settings changes at once get there
  (`Tailnet.OverlapLosesADoor`). A run whose start-ups all find no door held loses none
  (`Tailnet.CleanRunsLoseNothing`).
- Two waiting places share a look-up text when a path holds a NUL byte
  (`Targets.ConfusedPlaceIsMissed`); otherwise the grouping is exact.
- A stage with a crew of its own, standing on a column nobody configured, is queued
  under no column's key and thrown out of the queue unstarted
  (`Admission.UnconfiguredStageIsDropped`).
- A card dragged to another stage keeps its place in the queue of the one it left, and
  is started there when its turn comes (`Straying.DraggedCardIsStartedWhereItWas`). It
  waits where it stands exactly until it is moved elsewhere otherwise than off any route
  into a column that runs nothing (`Straying.StaysExactlyWhen`), and until then whatever
  is started from the queue is the stage's it stands on
  (`Straying.QueuedStartIsTheStages`).
- A session can end cancelled and send its card on all the same, by the verdict its turn
  gave (`Session.CancelledAndMovedOn`).
- A card that left its route and came back shows the stages of this trip, or of all
  trips when it has left none on this one: the visited list and the journal agree
  exactly when every stage left on an earlier trip was left again on this one
  (`Engine.BothWaysAgree`, `Engine.ComingBackForgets`).
- A column's queue is looked at once after each of the column's own sessions. A card
  refused because its crew is busy in another column may wait beside an idle crew with
  nobody to come for it (`Stranding.CrewOfTwoColumnsStrands`, `Stranding.NobodyComes`),
  and a look that starts nobody leaves whoever is next in the same place.
  `Stranding.StaysAttendedExactlyWhen` says of every step whether it does either.
- Rows are saved one at a time, so a registry can stop saving although no two of its
  entries have one name: a save is refused exactly when an entry's name is still on
  another's row (`Registry.Registry.Persist`), and once refused it is refused again until
  the registry is edited. Two renames made while the table could not be written are
  enough, and a third leaves the two names swapped (`Registry.SwapIsNeverSaved`,
  `Registry.SwappedNamesAreRefused`). The comment at `internal/acp/registrymove.go:76-80`
  says the whole registry is written so that no edit is left half-applied.
- An entry added under an id that is somebody's leaves the table without that
  somebody (`Registry.Registry.Add`).
- An agent added under a configuration id that is nobody's, with a name that is a
  configuration's in another case, has a network, and its save is refused; it stays in
  the registry all the same. The configuration it runs through is not counted as used,
  and can be removed from under it (`Proxies.RefusedAgentLosesItsNetwork`). An agent that
  was saved never falls back on a name (`Proxies.SavedFallsBackOnNothing`), and a removal
  that is itself saved is seen by nobody (`Proxies.Manager.RemoveProxy`).
- An agent that points at one configuration and names another runs through the first
  until it is saved and through the second from then on
  (`Proxies.TheNameWinsOnceSaved`); saving keeps what an agent runs through exactly when
  its name is not another configuration's than its id (`Proxies.SavingKeepsTheNetwork`).
- Route ids are compared without the board, so a copy of a board that kept its routes'
  ids loses the routes the first time it is read (`Boards.CopiedRouteIsLost`). Over a
  whole reading a route is lost exactly when it would be accepted and nobody of its own
  board answers for it, neither there before nor joining with it
  (`Losses.RouteIsKeptExactlyWhen`).
- A board that could not be read is marked as read all the same. The next edit writes
  it what the edit put in and nothing else, and it is not read again
  (`Boards.UnreadBoardIsWrittenOver`). An edit keeps whatever else a board said exactly
  when the board has been read, or said nothing else
  (`Ownership.EditLosesOnlyUnread`).
- What is held back of a board is not kept exactly as it came, as the comments at
  `internal/acp/boardseed.go:472-478` and `internal/acp/boardseed.go:626-630` have it:
  a column is when nothing in it can be bound
  (`Healing.ColumnIsHeldVerbatimWhen`), a route when besides it was in its normal form
  up to where it was refused (`Healing.RouteIsHeldVerbatimWhen`).
- An edit of a route that carries no id is given a new one before the route is looked
  up, and so finds none (`Ownership.EditWithoutAnIDFindsNothing`); the comment at
  `internal/acp/flows.go:626-627` has it matched by board and name.
- A roster bound in two steps can lose its order, which is the order a crew is tried in
  (`Crew.LateNameGoesLast`); it keeps it exactly when no name overtakes another
  (`Crew.OrderIsKeptExactlyWhen`).

## Model

| member | source | states |
|---|---|---|
| Policy.MatchPattern | internal/acp/policy.go:103-125 | true exactly when the text is the pattern with every `*` replaced by some string, whatever the stars' number and place |
| Policy.MatchesIsFloats | internal/acp/policy.go:103-125 | filling the stars is the same as finding the literal pieces in order, without overlap, the first at the start and the last at the end |
| Policy.LeftmostSuffices | internal/acp/policy.go:112-121 | taking the leftmost place for each piece never loses a match |
| Policy.NoStarIsLiteral | internal/acp/policy.go:107-111 | a pattern without stars matches itself only |
| Policy.SplitEntryRoundTrip | internal/acp/policy.go:60-69 | an entry written as name and bracketed pattern reads back as the two |
| Policy.Allows | internal/acp/policy.go:37-58 | a call is allowed exactly when some entry names its tool and, if it has a pattern, the argument it is about matches |
| Policy.PolicyIsAUnion | internal/acp/policy.go:37-58 | two lists of entries allow together what either allows |
| Hook.HookCommandParses | internal/acp/hookcommand.go:37-50 | a command is written exactly when all its parts are there, and a shell reads it as the executable, `hook`, origin and token exactly when none holds a NUL |
| Hook.QuotedWord | internal/acp/hookcommand.go:48-50 | a quoted word, quotes and spaces included, is one word to the shell, the word that was quoted |
| Hook.NulIsNeverAWord | internal/acp/hookcommand.go:48-50 | no quoting carries a NUL |
| Trace.TracingReader.Read | internal/acp/tracepipe.go:33-53 | one read passes its bytes through and records the lines they complete, of those that fit |
| Trace.ReadAll | internal/acp/tracepipe.go:33-53 | however the stream is cut into reads, exactly the non-empty lines that fit are recorded, in order, and every byte is passed on |
| Trace.LinesSplitTheStream | internal/acp/tracepipe.go:33-53 | the lines and what is left after the last newline put together are the stream, and no line holds a newline |
| Trace.FilterTakesWhatFits | internal/acp/tracepipe.go:40-50 | a line is recorded exactly when it is not empty and no longer than the bound |
| Rendezvous.FirstAcceptedWins | internal/acp/question.go:130-180 | in every interleaving what is acted on is the first value accepted, and of the accepted ones at most one is lost |
| Rendezvous.DecidedOnce | internal/acp/question.go:130-180 | what was decided never changes, whatever comes after |
| Rendezvous.LateCallerIsRefused | internal/acp/question.go:165-180 | a call begun after the waiting is over is refused |
| Rendezvous.OneCanBeLost | internal/acp/question.go:145-160 | one accepted value can be lost: a second is taken between the receive and the removal |
| Questions.OneReply | internal/acp/question.go:130-180 | every question ends in one reply, the first accepted answer or a refusal, and stays so |
| Questions.Manager.Offer | internal/acp/question.go:165-180 | an answer is accepted exactly when its question is there with room for it, and takes that place |
| Questions.Manager.Await | internal/acp/question.go:140-160 | the answer acted on is the one in the slot, or a refusal when the question was withdrawn or the application closed first |
| StageReport.FieldsHave | internal/acp/stageterminal.go:362-375 | a property is found exactly when a field has its name in any case, and the value is one of such a field's |
| StageReport.FinishWork | internal/acp/stageterminal.go:320-360 | the refusals in the source's order: no stage; the first required property no field names a value for, in any case; a column it may not write; a board that refuses. Each leaves the card and the slot as they were; a report that gets past them names a value for every required property, its fields are on the card before it is offered, and it is in the slot exactly when that was free |
| StageReport.StageActsOnACompleteReport | internal/acp/stageterminal.go:84-175 | whatever the interleaving, a stage acts on at most one report, the first accepted, which carried every required property and was on the card before it was delivered |
| StageReport.UnchangedPropertyIsTheReports | internal/acp/stageterminal.go:338-360 | a property the stage's report named is the report's while no event of the run changed it after the report was written |
| StageReport.OverwrittenExactlyWhen | internal/acp/stageterminal.go:338-360 | what the state remembers as overwritten is exactly what an event after the write changed |
| StageReport.OneCallersReportStands | internal/acp/stageterminal.go:320-360 | over any run in which one caller looks the stage up and nobody edits the properties it reports, the card gives the report's values |
| StageReport.LateReportRewrites | internal/acp/stageterminal.go:338-360 | from any reachable state in which the stage has acted and another caller is past the look-up, a complete report of theirs that gives one of the properties another value can replace it, the stage having acted on the first |
| StageReport.RefusedReportRewritesTheCard | internal/acp/stageterminal.go:338-360 | a run in which a refused report's fields replace those of the report acted on |
| StageWaits.Desk.AwaitStage | internal/acp/stageterminal.go:292-301 | a stage that begins to wait takes its terminal's place, whoever had it |
| StageWaits.Desk.ForgetStage | internal/acp/stageterminal.go:303-308 | a stage that ends takes its terminal's entry away, whoever's it is |
| StageWaits.Desk.Find | internal/acp/stageterminal.go:325-331 | a report reaches the stage the history of the terminal says |
| StageWaits.HearerIsLast | internal/acp/stageterminal.go:292-308 | which is the last to begin there with nothing begun or ended since |
| StageWaits.WaitingStageHearsExactlyWhen | internal/acp/stageterminal.go:84-93 | a stage that waits is heard exactly when no other began or ended in its terminal since it began |
| StageWaits.SecondStageIsUnheard | internal/acp/stageterminal.go:292-308 | two stages in one terminal: the second waits and no report reaches anybody |
| Tailnet.StepKeepsInv | tsnetdoor.go:144-286 | every open door is held, or somebody has it in hand to close it, at every step that does not start over a held door |
| Tailnet.AtMostOneDoor | tsnetdoor.go:184-286 | with settings changed one at a time at most one door is held, of the current generation, and with the switch off and nothing pending none is open |
| Tailnet.WhatWasAskedComesAbout | tsnetdoor.go:144-286 | with settings changed one at a time and nothing pending, the door of the last start-up is open, and it alone, exactly when the switch was last turned on, the front door was handed over, that start-up did not fail and nobody closed it all since; else none is |
| Tailnet.EveryoneCanGoOn | tsnetdoor.go:184-286 | every call and every start-up in progress can take its next step |
| Tailnet.StaleIsNeverPublished | tsnetdoor.go:226-267 | in every interleaving, calls overlapping as they like, a start-up that has been overtaken is never published |
| Tailnet.LostExactlyWhen | tsnetdoor.go:144-286 | over any run, calls overlapping as they like, a door is open with nobody to close it exactly when a node was published over it, and stays so |
| Tailnet.LostForGood | tsnetdoor.go:144-286 | a door that is lost at some moment of a run is still open, and still nobody's, at its end |
| Tailnet.CleanRunsLoseNothing | tsnetdoor.go:212-224 | no run whose start-ups all find no door held loses one |
| Tailnet.StartOverADoorLosesIt | tsnetdoor.go:212-224 | every run that comes to a start-up with a door held can go on to lose that door |
| Tailnet.OverlapLosesADoor | tsnetdoor.go:184-207 | two settings changes at once reach such a start |
| Tailnet.Controller.Start | tsnetdoor.go:212-224 | the locked part of a start takes the next generation and spawns a start-up of it exactly when there is a front door, the door left as it was |
| Tailnet.Controller.Stop | tsnetdoor.go:270-279 | the locked part of a stop takes the door away and moves the generation on by one, the settings left as they were |
| Tailnet.Controller.Check | tsnetdoor.go:240-267 | a node that is up is published exactly when its generation is still the current one, and otherwise the door is as it was |
| Session.HeardCancellationWins | internal/acp/session.go:470-498 | in every interleaving a session whose outcome check saw the cancellation ends cancelled and hands its route no event |
| Session.CancellationHolds | internal/acp/manager.go:576-601 | if nobody asked for permission before the turn began, a cancellation whose section ran before the outcome check is seen by it |
| Session.CancellationCanBeLost | internal/acp/session.go:566-600 | a run in which the agent asks before its turn, the person cancels, and the session still ends done |
| Session.UnheardEndsByWhoeverWasFirst | internal/acp/session.go:470-498 | a session whose outcome check read no cancellation is cancelled exactly when a canceller finished it in its turn before the runner did, which takes a question asked before the turn; its event is the verdict, or none, or how its turn ended |
| Session.CancelledAndMovedOn | internal/acp/session.go:176-193 | a run that ends cancelled and hands its route a verdict |
| Session.UncancelledEndsAsItsTurnDid | internal/acp/session.go:470-498 | a session nobody cancelled ends as its turn did, with the event that goes with it |
| Session.RunKeepsInv | internal/acp/session.go:265-324 | what ties the flags, the runner's place, the status and the outcome together, over every run; with the run's events it gives `SessionEnds.EndsWithoutItsTurn` and `SessionEnds.EndsAfterItsTurn` |
| SessionEnds.EndsWithoutItsTurn | internal/acp/session.go:265-324 | over every run a session over without its turn is failed, and tells its route so, exactly when preparing its folder or connecting failed and no canceller finished it first; else it is cancelled and tells it nothing, which is exactly when the application was closing, the folder was busy or dirty, or a canceller finished it first |
| SessionEnds.EndsAfterItsTurn | internal/acp/session.go:458-498 | over every run a session over after its turn is cancelled, and tells its route nothing, when the application closed before its outcome was looked at or it was stopped in time: by the last press before the look, in the turn or before anything was asked, by a deadline, or by the agent's own word; else it is cancelled when a canceller finished it in the turn, failed when the turn ended in an error, done otherwise, and tells its verdict if it gave one |
| SessionEnds.WhatIsBegunCanEnd | internal/acp/manager.go:576-601 | a deadline that passes can mark the turn, a canceller with no turn to interrupt can finish the session, and what was asked can be answered |
| SessionEnds.RunnerGoesOn | internal/acp/session.go:265-324 | a session that is not over can always go on by itself |
| Session.AgentSession.Cancel | internal/acp/manager.go:576-601 | the cancelling section: the cancellation is sent, it is pending exactly when the session is not working, status and verdict stay, and there is a turn to interrupt exactly when one was begun and the session is working |
| Session.AgentSession.BeginTurn | internal/acp/session.go:583-597 | the turn's own section, which may find a terminal status and writes over it |
| Session.AgentSession.HandOver | internal/acp/session.go:176-193 | what the route is handed: the verdict if there is one, success or failure as the session ended, and nothing exactly when there is no verdict and it ended neither way; that a cancellation that was heard leaves no verdict is `Session.HeardCancellationWins` |
| Flows.CheckRoster | internal/acp/flows.go:499-512 | a roster is accepted exactly when every id is known, and becomes its ids without the blanks around them, once each, in the order they are first listed |
| Tools.ValidateTools | internal/acp/columns.go:206-220 | a set of tool servers is accepted exactly when each is named as a tool may be and as nothing built in is, is started by a command here, and no two have one name; it becomes the same servers under their trimmed names, commands and arguments, in whatever order the map is gone through |
| Tools.ToolsTwice | internal/acp/agents.go:63-108 | an accepted set is accepted again, unchanged |
| Flows.CheckNodes | internal/acp/flows.go:472-527 | the stages are accepted exactly when each is well-formed, its tool servers included, and no two share an id or a column; those before the first refused are normalised in place |
| Flows.CheckEdge | internal/acp/flows.go:532-590 | a transition is well-formed exactly when its stages are there, its trigger is known and its condition asks one thing the trigger can answer; a chosen option has to be named |
| Flows.CheckEdges | internal/acp/flows.go:529-567 | the transitions are accepted exactly when each is well-formed and no two are fallbacks for one event of one stage |
| Flows.ValidateFlow | internal/acp/flows.go:439-567 | a route is accepted exactly when it fits: named, in a folder there is, with stages named apart on columns apart that do what there is to do and refer to agents and deploys there are, and transitions between them on known triggers, each with a condition that can be asked and no two fallbacks for one event; what is accepted is the same route with its words trimmed, its rosters folded and its servers tidied, under the id it had or a new one; of a refused one each part is as it was or tidied so |
| Flows.AcceptedExactlyWhenItFits | internal/acp/flows.go:439-590 | a route is acceptable exactly when it fits, said of all its parts at once and in no order |
| Flows.AcceptedRouteIsSound | internal/acp/flows.go:439-590 | an accepted route has unique stage ids and columns, transitions between its own stages on known triggers, at most one fallback per stage and event, and words asked only of outcomes |
| Flows.ValidationIsIdempotent | internal/acp/flows.go:439-590 | an accepted route is accepted again, unchanged |
| Flows.RefusedRouteStaysRefused | internal/acp/flows.go:439-590 | a refused route as it is left is refused again and left as it is |
| Flows.KeySaysBoth | internal/acp/flows.go:555-563 | the key fallbacks are told apart by names both the stage and the event, because no trigger holds a bar |
| Flows.TriggersAre | internal/acp/flows.go:24-83 | which triggers there are, which the folder is polled for, and which carry an agent's own words |
| Routing.Next | internal/acp/flows.go:339-361 | the first conditional transition of the stage and event whose words occur somewhere in what was said, in any case, or whose property has the value asked, blanks and case aside, an absent property reading as blank; else the first fallback; else nothing; and the stage is the transition's |
| Routing.HoldsExactlyWhenMet | internal/acp/flows.go:251-276 | a condition holds exactly when its words are somewhere in what was said, letter for letter in either case, or the card's value under its property is the value asked |
| Routing.TakenIsChosen | internal/acp/flows.go:339-361 | the transition so described is the one chosen, and something is chosen only if there is one |
| Routing.AnotherValueIsNotTaken | internal/acp/flows.go:251-260 | a card whose value differs never takes a transition that asks for it |
| Routing.OtherPropertiesDoNotMatter | internal/acp/flows.go:339-361 | changing a property that no transition of the stage and event asks about never changes the choice |
| Routing.ChoiceIsFirst | internal/acp/flows.go:339-361 | what is chosen fires and nothing before it does, or nothing fires at all |
| Routing.FallbackMayStandAnywhere | internal/acp/flows.go:339-361 | on an accepted route the fallback may be moved anywhere in the list and nothing changes |
| Routing.FallbackAlwaysLeads | internal/acp/flows.go:339-361 | while there is a fallback the event always leads to a stage of the route |
| Routing.ChoiceIsAnEdge | internal/acp/flows.go:339-371 | a choice is made only for a stage and event the route has a transition for, and on an accepted route leads to one of its stages |
| Routing.WaitsFor | internal/acp/flows.go:376-384 | exactly the polled triggers a stage has transitions for |
| Engine.CardRoute.EnterNode | internal/acp/flowengine.go:62-114 | coming to a stage keeps the journal a walk, every automatic entry explained and the visited list what was left; the card then stands where the journal ends, which is the stage come to unless its start was refused and led on; the last stage come to is started, or runs nothing, and that is what says whether the card is stuck or queued; nothing happens but the stall when the board cannot be moved |
| Engine.CardRoute.RunNodeAction | internal/acp/flowengine.go:176-234 | a stage moves the card on at once exactly when its start is refused, its failure leads somewhere, that was not claimed before and the board moves; else the card stays, stuck or queued as the start came out |
| Engine.CardRoute.AdvanceFlow | internal/acp/flowengine.go:237-312 | an event moves the card exactly when it leads somewhere, is unclaimed and the board moves, and then along the transition the route chose for the card as it was read, to where the journal then ends; else the card stays where it was, and why it is stuck is said unless the event is one nobody waits to hear of |
| Engine.CardRoute.MoveOn | internal/acp/flowengine.go:292-312 | the transition is claimed before it is made, the card stands where the journal ends once it is, and the claims still to be made measure the cascade |
| Engine.CardRoute.HandleFlowMove | internal/acp/flowengine.go:23-57 | a drag within the route enters the stage and leaves the card there, or where its refused start led; one off it forgets the position and the stall, and nothing else does; a repeated one leaves position and journal as they were |
| Engine.CardRoute.HandleCardChanged | internal/acp/flowengine.go:321-356 | an option is the route's business exactly when one was chosen and the card's stage has a transition on that property; the card then moves on `card.changed` as any event moves it, and otherwise nothing does |
| Engine.DestinationIsExact | internal/acp/flowengine.go:244-290 | where an event leads a card is the stage of the transition the event takes, for the card as it was read; and nowhere exactly when it takes none, or the card cannot be read, or its route or its stage is gone |
| Engine.CardRoute.DoneStages | internal/acp/cardflow.go:50-66 | the stages shown as done, from the visited list or, when it is empty, the journal, and when those are this trip's and when every trip's |
| Engine.BothWaysAgree | internal/acp/cardflow.go:44-66 | the visited list and the journal say the same exactly when every stage left on an earlier trip was left again on this one, so always for a card that never left its route |
| Engine.ShownIsThisTrips | internal/acp/cardflow.go:50-66 | what is shown is this trip's stages exactly when the card has left one on it or never left any, and the journal's exactly when it has left none on it or the two agree |
| Engine.ComingBackForgets | internal/acp/cardflow.go:44-66 | arrivals after which the two differ |
| Engine.ArrivalIsLocated | internal/acp/flowengine.go:62-90 | an arrival keeps the journal a walk that ends at the position, and the visited list the stages left on this trip |
| Engine.CascadeIsBounded | internal/acp/flowengine.go:176-312 | a cascade of failed starts is no longer than the claims that were still to be made, on any route |
| Targets.FlowTargets | internal/acp/flowengine.go:436-472 | one target for each place, no trigger twice, and exactly the triggers waited for, if and only if no two places share a look-up text |
| Targets.WaitsExactlyWhen | internal/acp/flowengine.go:436-454 | a card waits for a trigger exactly when its work is on a branch of a folder, its stage has a transition on it, and it is one the folder is polled for |
| Targets.OrdinaryPathsStayApart | internal/acp/flowengine.go:455-460 | no two do while no path holds a NUL |
| Targets.ConfusedPlaceIsMissed | internal/acp/flowengine.go:455-460 | two places that do |
| Targets.OnVCSEvent | internal/acp/flowengine.go:400-424 | an event is offered to exactly the cards whose folder is its folder and whose branch is its branch in any case, in the order their places are stored |
| Targets.Watcher.Claim | internal/acp/store.go:128-149 | an event is new exactly when the store can be asked and written and what was last latched for that folder, branch and kind is not its marker, which then is |
| Targets.Watcher.Deliver | internal/acp/vcsloop.go:78-95 | an event is offered to exactly the cards it concerns, or to nobody when its spot holds its marker or the store fails |
| Targets.Watcher.Poll | internal/acp/vcsloop.go:49-75 | an event seen on a target reaches every card that asked for it and is still where it was exactly when it is not latched already and the store takes it, or its folder is in no registry, or nobody asks |
| Targets.NoMarkerTwiceRunning | internal/acp/store.go:128-149 | over any sequence of events, one is let through at its spot exactly when its marker is not that of the last one there |
| Targets.FirstIsLetThrough | internal/acp/store.go:128-149 | an event is let through when nothing of its kind has happened yet on its branch of its workspace |
| Targets.LateCardIsPassedOver | internal/vcs/git.go:76-86 | a merge that was latched is offered to nobody afterwards, however many cards have come to wait for it |
| Targets.SecondCardWaitsInVain | internal/acp/vcsloop.go:78-95 | two cards on one folder, branch and trigger, one after the other: the second is never offered the merge |
| Targets.OnlyTheWaitingMove | internal/acp/flowengine.go:244-275 | a card it moves was waiting for it |
| Agents.AccountNamesItsAgent | internal/acp/agents.go:398-434 | the account an agent is provisioned under is, read back from the board, that agent's name |
| Agents.HumanAssignee | internal/acp/agents.go:614-631 | a card is somebody's exactly when it names a person and no agent, and then the first person named |
| Agents.CrewDecides | internal/acp/agents.go:460-590 | a stage with a crew is worked by a member of it, idle unless the card names them; it is busy only when every member is; and nobody works it only when no id of it is registered |
| Agents.WithoutACrew | internal/acp/agents.go:503-547 | with no crew a stage is worked by the agent the card names, else by the only agent there is, else by nobody, or by the fallback while there is no agent at all; it is never busy |
| Agents.WithACrew | internal/acp/agents.go:460-590 | with one, by the member the card names, else the first idle one; busy exactly when there is a member, none named and none idle; by nobody exactly when no id of it is registered |
| Agents.AssigneeIsPicked | internal/acp/agents.go:503-512 | the agent a card names is the first its accounts give, and only when none of them is one, the first its shown names give |
| Agents.CrewIsItsIDs | internal/acp/agents.go:551-570 | a crew is the agents of its ids, each the first with that id, in the roster's order, and blanks and strangers left out |
| Agents.TakenExactlyWhen | internal/acp/agents.go:614-631 | a card is taken exactly when it names somebody and no name on it is an agent's |
| Agents.AccountsBeforeNames | internal/acp/agents.go:503-512 | the worker a card names is the first of its accounts on the crew, before any name it shows |
| Agents.NameKeepsItsAgent | internal/acp/bindrefs.go:220-228 | agents registered later never take a name over |
| Crew.BindCrew | internal/acp/bindrefs.go:102-125 | the loop binds and keeps as the specification says, and reports a change exactly when some name is gone |
| Crew.BoundAdds | internal/acp/bindrefs.go:102-125 | what was bound stays in its place, and behind it, once each, comes exactly what the names stand for |
| Crew.BindingInTwoStepsAgrees | internal/acp/bindrefs.go:102-125 | binding before and after agents are added keeps the same names and binds the same ids as binding once after |
| Crew.OrderIsKeptExactlyWhen | internal/acp/bindrefs.go:96-125 | and in the same order exactly when there are no two names, one resolved late and one known from the start, such that the single pass reaches the late one's id first and the first of the two passes the other's |
| Crew.LateNameGoesLast | internal/acp/bindrefs.go:96-125 | of two names, a late one listed first and an early one, the order is lost exactly when both stand for new and different ids |
| Crew.BindingIsIdempotent | internal/acp/bindrefs.go:102-125 | binding a bound roster changes nothing |
| Admission.EveryRunKeepsInv | internal/acp/manager.go:366-573 | over every run of serialised starts, releases and drains: no column over its limit, no ordinary folder with two sessions, every card's entry a live session of that card, one queue entry a card |
| Admission.LeavesForAReason | internal/acp/stagequeue.go:77-154 | a drain takes only the card that has waited longest for the column, and only when it started, was taken, could not start, had nothing to run, or no configured column has its key |
| Admission.QueueStaysConfigured | internal/acp/stagequeue.go:47-66 | and never when every stage that queues stands on a configured column |
| Admission.UnconfiguredStageIsDropped | internal/acp/flowengine.go:176-211 | a crewed stage on a column nobody configured is queued under no column's key and dropped unstarted |
| Admission.NobodyIsOvertaken | internal/acp/store.go:532-562 | while a card waits for a column, nobody queued after it gets in front of it and no drain of the column takes one of them, over every run |
| Stranding.RefusedByLimitOrCrew | internal/acp/manager.go:366-573 | a card told to wait while its column has no session has a crew, and every member of it is busy in another column |
| Stranding.StaysAttendedExactlyWhen | internal/acp/session.go:262-272 | a column somebody waits for has a session, or a look at its queue due, after a step that found it so, exactly when the step neither queues the first card beside no session nor is a last look that starts nobody and leaves somebody |
| Stranding.RunStaysAttended | internal/acp/stagequeue.go:74-154 | and so over every run without such a step |
| Stranding.NobodyComes | internal/acp/session.go:262-272 | a card waiting for a column with no session and no look due waits on over any run, until a session of the column starts otherwise or the card is moved away |
| Stranding.CrewOfTwoColumnsStrands | internal/acp/agents.go:572-587 | a run with one agent on the crews of two columns that gets there, the agent idle and able to start the card |
| Straying.StaysExactlyWhen | internal/acp/trigger.go:26-56 | a card that waits for the stage it stands on goes on doing so over a move exactly when the move does not take it, waiting, anywhere else, other than off any route from a column that runs something into one that does not |
| Straying.RunStays | internal/acp/store.go:532-540 | and so over every run without such a move |
| Straying.QueuedStartIsTheStages | internal/acp/stagequeue.go:77-154 | in such a run what a drain starts is a session of the column the card stands on |
| Straying.DraggedCardIsStartedWhereItWas | internal/acp/flowengine.go:23-57 | a run in which a card dragged along its route is started at the stage it left |
| Admission.Manager.StartSession | internal/acp/manager.go:366-573 | each outcome exactly, by the first thing that stands against the start: taken if and only if it is neither a deploy nor a test and the card is a person's; failed without its folder or anybody to work it; busy when the crew is or the column is full; and so on to started, with the worker's name, when nothing does. A start adds that session alone, and the card's entry is it unless it is a deploy beside one alive; anything else changes nothing |
| Admission.OutcomeIsExact | internal/acp/manager.go:366-573 | the same of a start in any state of the office, for every request and every answer of the world |
| Admission.EnteredIsExact | internal/acp/manager.go:551-563 | the session a start enters, and which session the card's entry names after it |
| Admission.FateIsExact | internal/acp/stagequeue.go:77-154 | what becomes of the card that waited longest: it stays, begins, or is dropped as its start comes to, the column being the first with its key and the action the stage's or else the column's |
| Admission.QueuedRequestIs | internal/acp/stagequeue.go:96-140 | what is started for it: the stage's action and crew where the stage says, else the column's |
| Admission.NobodysOwnCardIsWorked | internal/acp/manager.go:374-382 | over every run, a session that appears was asked for by the event at which it does, and it is a deploy or a test, or its card names an agent or nobody |
| Admission.Manager.ReleaseSession | internal/acp/manager.go:769-776 | a release takes the session away, and the card's entry only if it is this session |
| Admission.Manager.DrainColumn | internal/acp/stagequeue.go:77-154 | the drain as the state machine has it |
| Admission.Manager.RunningInColumn | internal/acp/stagequeue.go:16-29 | the number of live sessions of a column |
| Admission.Manager.FreeAgent | internal/acp/agents.go:572-587 | the first member of the crew with no live session |
| Registry.Registry.Persist | internal/acp/registrymove.go:84-181 | the save succeeds exactly when every row with an entry's name is claimed by that entry or by one saved before it; each entry that is the first of its name then has the id it had, else that of the row with its name, else a new one, and the others are as they were; the table is then a row for each such entry and no other exactly when no two claim one row; a refused save has written the entries before the one refused, deleted nothing, and is refused again |
| Registry.ObstructedExactlyWhen | internal/acp/registrystore.go:281-296 | an entry is refused exactly when it has an id and its name is on the row of another id, which no entry before it has |
| Registry.ApartExactlyWhen | internal/acp/registrymove.go:84-181 | no two entries claim one row exactly when no two have one id, and the row named as one that has no id is not another's |
| Registry.Registry.Identify | internal/acp/registrymove.go:93-104 | an entry is saved under its own id, else that of the row with its name, else one new to everything |
| Registry.Registry.Add | internal/acp/agents.go:147-180 | an entry is added exactly when it has a name nobody has, under the id it carries or else one no row has, and the table is the registry again exactly when that id was nobody's |
| Registry.Registry.Update | internal/acp/deploys.go:73-94 | an edit changes the first entry it means and no other: its id and its account stay, its name is the edit's, trimmed, and the rest what the edit says; it is refused exactly when it means nobody or takes a name |
| Registry.MeansExactlyWhen | internal/acp/agents.go:635-640 | an edit is about the first entry with the id it carries, or, carrying none, the first its name means |
| Registry.AcceptedExactlyWhen | internal/acp/deploys.go:73-94 | it is accepted exactly when it has a name and means an entry that is called that already, in any case, or nobody is |
| Registry.Registry.Remove | internal/acp/deploys.go:105-120 | exactly the named entry goes, from the registry and from the table |
| Proxies.Manager.SaveAgents | internal/acp/registrymove.go:125-145 | the save succeeds exactly when the configuration each pickable agent is saved under is a row; agents before the first that is not have their id folded and their name cleared, and after a success none falls back on a name |
| Proxies.Manager.AddAgent | internal/acp/agents.go:147-180 | an agent joins exactly when its name is nobody's and its network resolves, and stays when the save is refused |
| Proxies.Manager.RemoveProxy | internal/acp/proxies.go:93-114 | a configuration goes exactly when it is there and no agent uses it; every agent then runs through what it ran through before, but for exactly those that fell back on its name, and a removal that is saved had none |
| Proxies.SavedFallsBackOnNothing | internal/acp/registrystore.go:190-215 | a saved agent falls back on no name, whatever the registry |
| Proxies.SavingKeepsTheNetwork | internal/acp/registrystore.go:190-215 | saving keeps what an agent runs through exactly when its id and its name are not two configurations' |
| Proxies.TheNameWinsOnceSaved | internal/acp/registrymove.go:136 | an agent whose id and name are two configurations' |
| Proxies.FellBackDoesNotFit | internal/acp/registrystore.go:217-227 | an agent that fell back on a configuration cannot be saved once that is gone |
| Proxies.RefusedAgentLosesItsNetwork | internal/acp/agents.go:162-165 | the run: an add whose save is refused, a removal of the configuration the agent runs through, and an agent without a network |
| Proxies.RemovalIsSeenBy | internal/acp/proxies.go:116-161 | a removal changes what an agent runs through exactly when the agent uses it, or falls back on its name |
| Proxies.ResolvesExactlyTo | internal/acp/proxies.go:127-141 | an agent runs through the configuration with its id, else through the first of its name in any case, else through nothing; and through the application's own network exactly when it carries neither |
| Proxies.SavedPointsAt | internal/acp/registrymove.go:125-145 | saved, it points at the configuration of exactly its name if there is one, else where it pointed, and carries a name only while it points nowhere |
| Registry.Registry.Load | internal/acp/registrymove.go:27-67 | loading gives the same entries back |
| Registry.Registry.EditAll | internal/acp/registrymove.go:68-181 | over any sequence of saved edits the table is exactly the registry and ids are distinct |
| Registry.LoadedIsInStep | internal/acp/registrystore.go:231-264 | the rows, in whatever order, are the entries, each once |
| Registry.RemovedKeys | internal/acp/registrymove.go:242-273 | a removal deletes its row and no other |
| Registry.SwappedNamesAreRefused | internal/acp/registrystore.go:281-296 | in any registry in step with its table, swapping any two names makes the save refused at the first of them |
| Registry.SwapIsNeverSaved | internal/acp/proxies.go:60-89 | the edits that get there, for any two entries: two renames while the table cannot be written, a save refused, a third rename, and a save refused again with nothing written |
| Registry.StillObstructed | internal/acp/registrymove.go:84-181 | a save that was refused is refused again while nobody edits the registry |
| Columns.ValidateColumn | internal/acp/columns.go:146-204 | a spec is accepted exactly when it fits: it names its property and its option, does one of the things there are to do, refers by id to agents and deploys there are, limits itself to no less than none, and its servers can be given; and what is accepted is the same column, bound as it was, with its limit, prompt, inputs and outputs, its words trimmed, its roster folded, its servers tidied and a blank action said to be none |
| Columns.SameColumnExactlyWhen | internal/acp/columns.go:257-265 | two specs are one column exactly when they have one option of one board, or, one of them having none, one name in any case on boards that may be one |
| Columns.AcceptedColumnStays | internal/acp/columns.go:146-204 | an accepted spec is accepted again, unchanged, by any registry that knows as much |
| Binding.ColumnRefsTwice | internal/acp/bindrefs.go:21-33 | binding a column's references twice is binding them once |
| Binding.NodeRefsTwice | internal/acp/bindrefs.go:36-55 | and a stage's |
| Binding.BindStages | internal/acp/bindrefs.go:36-55 | every stage of a route is bound in place |
| Binding.EntryNamedIsFirst | internal/acp/bindrefs.go:75-84 | a deploy or a folder named is the first entry of that name, in any case and blanks aside, or there is none |
| Binding.OptionNamedIsFirst | internal/acp/bindrefs.go:277-289 | and so is an option, but that a blank name is nobody's |
| Adoption.ReadingNeverShrinks | internal/acp/boardseed.go:352-490 | under the laws, reading loses no entry of a board while no stranger answers for one |
| Adoption.SurvivesExactlyWhen | internal/acp/boardseed.go:378-402 | one entry, as it is read, survives exactly when it is held back, or nobody answers for it, or who answers is the board's, or somebody of the board stood for it |
| Losses.RouteIsKeptExactlyWhen | internal/acp/boardseed.go:417-462 | over a whole reading a route is still on the board exactly when it was refused and held back, or a route of the board's there was answers for it, or one of those that joined |
| Losses.BoardLosesNothingExactlyWhen | internal/acp/boardseed.go:417-462 | a board keeps every route exactly when none is lost in that way |
| Losses.OnlyToStrangers | internal/acp/flows.go:597-603 | and one is lost only to a route that was registered before |
| Adoption.ReadingTwiceIsReadingOnce | internal/acp/boardseed.go:352-490 | under the laws, a second reading leaves registry, held-back entries and board as the first did |
| Adoption.ReReadingHeals | internal/acp/boardseed.go:173-185 | under the laws, a re-read by a machine that knows more loses nothing and adopts what it can use now |
| BoardSeed.ColumnsAreLawful | internal/acp/columns.go:146-265 | adopting, binding and comparing columns obey those laws |
| BoardSeed.RoutesAreLawful | internal/acp/boardseed.go:417-460 | so do routes |
| BoardSeed.SameRouteExactlyWhen | internal/acp/flows.go:597-603 | a registered route answers for a board's exactly when both have one id, whatever board, or one name in any case on boards that may be one |
| Boards.Registry.AdoptColumns | internal/acp/boardseed.go:352-412 | the loop registers and hands back what the specification says |
| Boards.Registry.AdoptFlows | internal/acp/boardseed.go:417-462 | likewise for routes, bound and validated in place |
| Boards.Registry.PersistBoard | internal/acp/boardseed.go:620-694 | the board is written the registry's own entries of it and what is held back, if it takes the write |
| Boards.Registry.SeedFromBoard | internal/acp/boardseed.go:186-259 | which boards are read, what a reading leaves, that a failed one marks the board as read and changes nothing else, and that every board that took its last write still says what the registry says of it |
| Ownership.ReadingLeavesTheOthers | internal/acp/boardseed.go:352-462 | reading one board leaves what the registry says of every other as it was, while its routes name nothing any more |
| Ownership.ReadingKeepsIDsApart | internal/acp/boardseed.go:417-462 | reading never gives two routes of the registry one id |
| Ownership.EditWithoutAnIDFindsNothing | internal/acp/flows.go:626-655 | an edit of a route that carries no id is about no route there is |
| Ownership.EditLosesOnlyUnread | internal/acp/boardseed.go:157-171 | of each board that takes the write of an edit, everything it said but what the edit takes out is on it still exactly when the board has been read or written before and was level with the registry, or it said nothing but what the edit puts in; other boards, and those that refuse, are as they were |
| Boards.Registry.SaveColumn | internal/acp/columns.go:222-239 | a column is put in the place of the one it is, or added, registry and the boards that take the write agree again, and what else the boards said is lost only as `Ownership.EditLosesOnlyUnread` says |
| Ownership.PutIsInPlace | internal/acp/columns.go:222-239 | a saved column takes the place of the first that is the same one and leaves every other where it is, else comes last |
| Boards.Registry.RemoveColumn | internal/acp/columns.go:243-255 | the first spec of the column goes, registry and the boards that take the write agree again, and nothing else is lost but of a board never read |
| Boards.Registry.AddFlow | internal/acp/flows.go:606-624 | a route is added exactly when no route has its id or, where it would be seen, its name, registry and the boards that take the write agree again, and nothing is lost but of a board never read |
| Boards.Registry.UpdateFlow | internal/acp/flows.go:628-655 | the route with the id is replaced and keeps it, exactly when its new name clashes with no other, registry and whichever of both boards take the write agree again, and nothing else is lost but of a board never read |
| Boards.Registry.RemoveFlow | internal/acp/flows.go:659-674 | the route with the id goes, whichever board has it, registry and the boards that take the write agree again, and nothing else is lost but of a board never read |
| Boards.ReadingABoardLosesNothing | internal/acp/boardseed.go:246-253 | every column and route the board carried is on the board that is written back: as the board said it, with its prompt, limit, action, servers, targets, roster and transitions, when nobody answered for it; as the first registered entry that was the same one, doing what that did, when somebody did; or held back, as it could be bound |
| Behaviour.ColumnsAreAccountedFor | internal/acp/boardseed.go:352-412 | the same of one column, against the registry as it was when the column came up |
| Behaviour.RoutesAreAccountedFor | internal/acp/boardseed.go:417-462 | and of one route, stage by stage and transition by transition |
| Behaviour.ColumnsKeepWhatTheyDo | internal/acp/boardseed.go:380-402 | a registered column keeps its prompt, limit, action, servers, name and option over any reading; only names on it that mean somebody become ids, behind those there were, and only a column on no option is put on one |
| Behaviour.RoutesKeepWhatTheyDo | internal/acp/boardseed.go:440-458 | a registered route keeps its stages and transitions over any reading; only names on it that mean somebody become ids |
| Behaviour.PreparedColumnIs | internal/acp/bindrefs.go:21-33 | what of a board's column is looked up before it is checked: a name that means a deploy, once, and if nothing is pinned by id; those of its roster that mean an agent; and its option, if it is on none |
| Behaviour.PreparedRouteIs | internal/acp/bindrefs.go:36-55 | and of a route's stages, and its folder |
| Boards.OtherBoardsColumnsAreSilent | internal/acp/columns.go:257-265 | another board's column never answers for this one's; only an entry of no board can |
| Boards.OtherBoardsRoutesAreSilent | internal/acp/flows.go:597-603 | nor does another board's route, unless it has the same id |
| Boards.RouteSurvivesExactlyWhen | internal/acp/flows.go:597-603 | a route survives exactly when it is held back, or nobody answers for it, or somebody of this board does |
| Boards.CopiedRouteIsLost | internal/acp/flows.go:597-603 | a copied board's route with the original's id is on the board no longer |
| Boards.UnreadBoardIsWrittenOver | internal/acp/boardseed.go:186-215 | the run: a board that could not be read, an edit of it that leaves it with that edit alone, and a second reading that is refused |
| Boards.ReadingABoardTwice | internal/acp/boardseed.go:167-185 | with nothing of the board registered at first, a second reading changes nothing |
| Healing.ReReadingHealsColumns | internal/acp/boardseed.go:173-185 | after more is registered a re-read adopts the held-back columns it can use and loses no other |
| Healing.ReReadingHealsRoutes | internal/acp/boardseed.go:173-185 | and the same for routes |
| Healing.HeldColumnIsAdoptedWhen | internal/acp/columns.go:146-154 | a column with nothing against it but names is adopted exactly when each is an agent now |
| Healing.RegisteringAgentsIsLearning | internal/acp/agents.go:147-180 | appending agents to the registry only adds to what a machine knows |
| Healing.ColumnIsHeldVerbatimWhen | internal/acp/boardseed.go:364-378 | a column is handed back as it came exactly when it is on its board, its option is there or unknown to the board, and neither its target nor any name on its roster means anything here |
| Healing.RouteIsHeldVerbatimWhen | internal/acp/boardseed.go:417-462 | a route likewise, if what of it is looked at before it is refused is in its normal form |
| Healing.HeldBackIsNotVerbatim | internal/acp/boardseed.go:364-378 | so a refused column with a name that resolved beside one that did not is not as it came |

## Left out

- Text: letters outside ASCII fold to themselves and every one of them counts as a letter of a username; the places where lower-casing and case-insensitive comparison differ are not modelled.
- Session.CancellationHolds: says what the outcome check sees, not that a turn ends; deadlines and slots are events that may come, and nothing is proved about whether they do.
- Engine.CardRoute.EnterNode: one engine step per card at a time, and claims are kept while a cascade lasts; a window short enough to expire inside one is not modelled, nor is a cascade that crosses it.
- Engine.CardRoute.HandleFlowMove: which route a card resolves to, and whether a drag was seen before, are parameters.
- Admission.EveryRunKeepsInv: starts are one at a time, although the checks and the insertion are separate sections of the lock; the table of columns does not change during a run; a key that stands for two limits is shut out by a condition on the table.
- Admission.Manager.DrainColumn: the prompt, the declared inputs and outputs, the tools and the place to run are not modelled, and a drained start does not carry the stage's; the queue is in order of arrival, so two arrivals in one millisecond are told apart here.
- Registry.Registry.EditAll: is about entries added without an id of their own; `Registry.Registry.Add` says what one with an id does.
- Registry.Registry.Persist: the three registries are saved one after another, of which only the configurations before the agents is modelled (`Proxies.Manager.Save`); the folders' registry, which is saved the same way, is not.
- Registry.Registry.Add: an agent whose network does not resolve is refused before it is added (`Proxies.Manager.AddAgent`), which is not part of the registry's own rules here.
- Proxies.Manager.SaveAgents: the agents' own ids and names as rows are `Registry.Registry.Persist`; whether the settings of a configuration suit the kind of agent is not modelled, nor is an edit of an agent; configurations' names and ids are taken to be stored without blanks around them, as they are once validated.
- Losses.RouteIsKeptExactlyWhen: is about routes; of columns, another board's never answers (`Boards.OtherBoardsColumnsAreSilent`), and which are lost to a column of no board is exact for one column only.
- Straying.StaysExactlyWhen: that a start at another stage leaves the card in the queue it was in is among the moves here; what the two sessions then do to each other is not followed.
- Ownership.EditLosesOnlyUnread: of a board that refused an earlier write it says nothing but that the next write it takes makes it say what the registry says.
- Boards.Registry.AddFlow: takes the route as validation left it; that a board is read before it is edited is a separate call here (`Boards.Registry.SeedFromBoard`). The same holds for `Boards.Registry.UpdateFlow` and for the edits of columns.
- Boards.Registry.SeedFromBoard: a registry starts empty, so what the settings file still holds of a board is not modelled; the board's prompt, its old keys, the record of the property its columns are on, and the index of its parked cards are left out; every column is placed on its option as it is adopted rather than all of them before.
- Tools.ValidateTools: what a server's environment holds is passed through; the JSON forms it may be written in are not modelled.
- Stranding.StaysAttendedExactlyWhen: a look at a queue comes some time after the session of the column has been released, and the event the session's end sends along its route comes as an arrival of its own; queues left over from an earlier run of the application are not modelled.
- StageWaits.Desk.Find: the table of waiting stages by terminal alone; the channel each waits on is `StageReport.StageActsOnACompleteReport`.
- Healing.ReReadingHealsRoutes: the other boards' routes have ids of their own, none of them on the board or given to it at either reading.
- Tailnet.AtMostOneDoor: about doors, not about the status word, which can be out of step with them.
- Error messages, comments on cards, logging, prompts, SQL and JSON are not modelled: tables are maps, encodings the identity.
- Spawning processes, git, ssh, the agent protocol and the board's server are outcomes from outside.
- The windows, the tray, the updater, the setup wizard and the importer are not modelled.
