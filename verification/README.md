# Model of the campus UAV/UGV mission system

A Dafny model of the five cores of the system, with proofs of what each promises. `dafny verify dfyconfig.toml`
checks everything. Code that works by changing state is modelled by classes and loops, each proved against a
specification function; the theorems are about those functions, over every input or every run.

**Plan text and snapshot text (C++).** `JsonGrammar` gives derivation trees for the JSON grammar of RFC 8259 with the
parser's four restrictions. `JsonScanner` is the specification of the parser, `JsonParser` the cursor-moving class,
`JsonStrings`, `JsonNumbers`, `JsonCompleteness`, `JsonSoundness` and `JsonTheorems` prove that it accepts exactly the
restricted grammar. `Unicode` treats the UTF-8 encoder and the surrogates. `SnapshotPrinter` is the dashboard's
hand-written printer; `SnapshotTrees` and `SnapshotRoundTrip` prove that what it prints is read back, `SnapshotRows` says
what a reader finds in each row. Some strings are not read back: `escape` leaves bytes below 0x20 other than LF, CR and
TAB as they are, and the parser throws on them.

**Plan validation.** `PlanRules` states what a plan must be; `CppPlanValidator` and `PythonPlanValidator` follow the two
implementations branch by branch and are proved to accept exactly that.

**Auction (C++).** `CoordinatorAgent` and `VehicleAgents` model the two agents. `AuctionSystem` runs any number of them
over shared topics: messages may be late, reordered, repeated or lost, but not forged, and requests for one id agree.
`AuctionInvariant` and `AuctionSteps` carry the invariant, `AuctionSafety`, `AuctionOptimality`, `AuctionBids`,
`AuctionExecution` and `AuctionPrices` draw the conclusions; the last says what bids cost and hence who wins. `DemoFacts` and `DemoScript` run the script of `main` for every accepted plan.
A vehicle records the epoch of an assignment before it looks for the task, so an assignment for a task it does not know is
lost for good. `AuctionExecution` proves that this cannot happen to a vehicle that keeps its memory, which executes every
assignment it handles, and that it does happen to one started anew that hears of the assignment before the request.

**Missions (Python).** `DeviceRegistries` is the device directory with the nearest-device choice, `MissionControl` the
state machine, `MissionRuns` whole runs. `MissionBounds` bounds retries and phase changes, `MissionWitness` shows the
bounds are reached, `MissionSelection` says who is chosen. `MissionOutcomes` states what every input does to a
mission, in phases, inputs and messages: when it is completed, when it fails, what is announced. `MissionConfirmation` treats the promise that a pickup follows
a positive inspection: failure feedback whose task id is null matches a pickup task that does not exist yet, so the
promise is broken exactly in that case, which is characterised both ways and shown by a run of four inputs.

**Inspection flight and supervisor (Python).** `Polygons` has the even-odd test and its laws, `Triangles` what it means
for points, `FlightPaths` the sampled path check and what it covers, `InspectionPlans` and `Inspections` the flight with its recovery, for every pattern of
exceptions. A take-off that raises is followed by no recovery, and a device that is busy when a flight is asked for is
reset to idle; both are in the contract of `Execute`. `SafetySupervisors` and `SupervisorRuns` treat the latching
supervisor; `SupervisorConditions` says which histories of samples lead to which decision. In the air a task can be refused
too, when one is offered while the battery is unknown or too low for it.

**Task service (Python).** `TaskServices` models one payload step by step over the durable store, `TaskServiceRuns` any
sequence of payloads, crashes and restarts, `TaskReports` what is reported and recorded. A result that is not ok but whose
own status is COMPLETED is reported as COMPLETED; a run shows it, and the exact condition is proved.


## Model

| member | source | states |
|---|---|---|
| JsonTheorems.AcceptsExactlyTheGrammar | src/task_plan.cpp:32-138 | the parser accepts a text with value v exactly when the text derives v in the grammar of sections 2 to 7 of RFC 8259 restricted to distinct member names, depth at most 64, paired surrogate escapes and numbers in range; an accepted text is read to its last byte |
| JsonTheorems.GrammarIsUnambiguous | src/task_plan.cpp:32-298 | a text derives at most one value |
| JsonTheorems.RejectsExactlyTheRest | src/task_plan.cpp:32-46 | an exception is thrown exactly for the texts that derive nothing |
| JsonCompleteness.DocumentComplete | src/task_plan.cpp:32-97 | every well-formed derivation tree within the limits is read back to the value it denotes |
| JsonSoundness.DocumentSound | src/task_plan.cpp:32-97 | for every accepted text there is a well-formed derivation tree that spells it and denotes the result |
| JsonStrings.StringComplete | src/task_plan.cpp:179-232 | any spelling of a string (raw bytes, short escapes, code units, surrogate pairs) is read to the bytes it stands for |
| JsonStrings.StringSound | src/task_plan.cpp:179-232 | what the string loop accepts is a well-formed spelling of the bytes it returns |
| JsonNumbers.NumberComplete | src/task_plan.cpp:234-275 | every number of the grammar is read to its last character |
| JsonNumbers.NumberSound | src/task_plan.cpp:234-275 | what the number scanner accepts is a number of the grammar, without leading zeros |
| JsonScanner.HexQuad | src/task_plan.cpp:158-177 | four hexadecimal digits are accepted exactly when there are four, with the value they spell |
| JsonParser.Parser.Parse | src/task_plan.cpp:32-46 | the cursor-moving parser computes the scanner function of the whole text, on which the grammar theorems are proved |
| JsonParser.Parser.SkipWhitespace | src/task_plan.cpp:48-54 | the cursor moves past exactly the four whitespace bytes |
| JsonParser.Parser.Consume | src/task_plan.cpp:56-63 | skips whitespace and takes the character exactly when it stands there |
| JsonParser.Parser.Expect | src/task_plan.cpp:65-69 | the same, throwing otherwise |
| JsonParser.Parser.ParseValue | src/task_plan.cpp:71-97 | the value reader advances the cursor and fails exactly as the scanner function says, with the same position and text |
| JsonParser.Parser.ParseObject | src/task_plan.cpp:99-122 | objects: names, colons, duplicates, commas, closing brace; the depth limit is passed on |
| JsonParser.Parser.ParseMembers | src/task_plan.cpp:106-121 | the loop over members, refusing a repeated name after its value has been read |
| JsonParser.Parser.ParseArray | src/task_plan.cpp:124-138 | the loop over items |
| JsonParser.Parser.ParseHexQuad | src/task_plan.cpp:158-177 | the digit loop with its three ranges |
| JsonParser.Parser.ParseString | src/task_plan.cpp:179-232 | the byte loop of strings, appending to the result |
| JsonParser.Parser.ParseEscape | src/task_plan.cpp:196-229 | one escape, with the surrogate rules |
| JsonParser.Parser.ParseNumber | src/task_plan.cpp:234-286 | sign, whole, fraction, exponent, then the range test |
| JsonParser.Parser.SkipDigits | src/task_plan.cpp:248-250 | runs to the end of the digits |
| JsonParser.Parser.ParseWhole | src/task_plan.cpp:242-253 | a zero not followed by a digit, or digits without leading zero |
| JsonParser.Parser.ParseFraction | src/task_plan.cpp:254-262 | a point and at least one digit, or nothing |
| JsonParser.Parser.ParseExponent | src/task_plan.cpp:263-274 | the exponent with its sign and at least one digit, or nothing |
| JsonParser.Parser.ParseLiteral | src/task_plan.cpp:288-298 | true, false and null |
| JsonParser.AppendUtf8 | src/task_plan.cpp:140-156 | pushes the bytes of the UTF-8 form |
| Unicode.BitsAreSums | src/task_plan.cpp:140-156 | the shifts, masks and ors of the encoder are the quotients, remainders and sums used in the model |
| Unicode.EncodeThenDecode | src/task_plan.cpp:140-156 | every scalar value is encoded as one well-formed sequence that carries it (sections 3 and 4 of RFC 3629) |
| Unicode.DecodeThenEncode | src/task_plan.cpp:140-156 | every well-formed sequence is the encoder's output for the scalar value it carries |
| Unicode.ShortestForm | src/task_plan.cpp:140-156 | no lead-and-tails sequence carrying the code point is shorter than the encoder's output, and one of the same length is that output |
| Unicode.EncodeAllDecodes | src/task_plan.cpp:140-156 | a decoder per section 3 of RFC 3629 inverts the encoder on whole texts |
| Unicode.DecodeAllEncodes | src/task_plan.cpp:140-156 | and the encoder inverts the decoder on every text it accepts |
| Unicode.SurrogateBijection | src/task_plan.cpp:210-227 | the surrogate arithmetic is a bijection between pairs and 0x10000..0x10FFFF, as in section 2.2 of RFC 2781 |
| SnapshotPrinter.EscapeText | src/main.cpp:899-912 | the escaping loop computes the escaped form character by character |
| SnapshotPrinter.WriteRows | src/main.cpp:840-871 | the rows of a list are joined by commas, without one before the first |
| SnapshotPrinter.WriteSnapshot | src/main.cpp:822-876 | the printer, row by row with its separators, writes the text the round trip is about |
| SnapshotRoundTrip.ParseStringUndoesEscape | src/main.cpp:899-912 | the string reader undoes the escaping wherever the quoted text stands exactly when the string holds no byte below 0x20 other than LF, CR and TAB; otherwise it throws |
| SnapshotRoundTrip.SnapshotIsDocText | src/main.cpp:822-876 | the printed text is the spelling of a derivation tree |
| SnapshotRoundTrip.PrintThenParse | src/main.cpp:822-876 | for any numbers of tasks, vehicles and events with finite numbers: the printed text is accepted exactly when all strings are clean, and then yields exactly what was printed |
| SnapshotRoundTrip.ListsAreFound | src/main.cpp:822-876 | in the value read back, the three lists stand under their names, row by row and in order |
| SnapshotRows.SnapshotShowsAll | src/main.cpp:822-950 | a reader of the printed text finds, for each task, vehicle and event, its fields, names and numbers: a task at its transform and assigned to its vehicle, or at its target, the corner of the sandbox, and nobody |
| PlanRules.SwapInvariant | src/task_plan.cpp:449-487 | acceptance does not depend on the order of the two tasks |
| PlanRules.AcceptedPlan | src/task_plan.cpp:392-487 | an accepted plan holds one SURVEY without predecessor and payload and one DELIVERY of at most 12 kg that depends on it, with different ids |
| PlanRules.TaskOkExactly | src/task_plan.cpp:392-447 | the rules for one task in one piece: the twelve fields, their ranges, the identifier pattern, kind with capability and payload |
| PlanRules.PlanOkExactly | src/task_plan.cpp:449-487 | the rules across the two tasks in one piece |
| PlanRules.TaskIsRead | src/task_plan.cpp:392-447 | what is read from an accepted task is what its fields say |
| CppPlanValidator.RequireString | src/task_plan.cpp:333-345 | a text property is accepted exactly when it is there, a string, and within its length |
| CppPlanValidator.RequireNumber | src/task_plan.cpp:347-359 | a number property is accepted exactly when it is there and in range |
| CppPlanValidator.RequireInteger | src/task_plan.cpp:361-372 | an integer property is accepted exactly when it is in range and has no fraction |
| CppPlanValidator.IsSafeIdentifier | src/task_plan.cpp:374-384 | the character loop decides the identifier pattern |
| CppPlanValidator.RequireSafeIdentifier | src/task_plan.cpp:386-390 | throws exactly for the other texts |
| CppPlanValidator.ParseTarget | src/task_plan.cpp:426-430 | the target is accepted exactly when its three numbers are there and in range, and read |
| CppPlanValidator.CheckKind | src/task_plan.cpp:432-446 | accepted exactly when the priority is known and kind, capability and payload agree |
| CppPlanValidator.FetchFields | src/task_plan.cpp:392-411 | the fields are read with their lengths and ranges; every valid task passes |
| CppPlanValidator.ParseTask | src/task_plan.cpp:392-447 | a value is accepted exactly when it meets the common rules for one task, and is read to that task |
| CppPlanValidator.ValidatePlan | src/task_plan.cpp:449-487 | the loop and the cross checks accept exactly the ordered pairs |
| CppPlanValidator.PlanFromJson | src/task_plan.cpp:491-503 | the C++ side accepts exactly the plans of the common rules |
| CppPlanValidator.ParseJson | src/task_plan.cpp:491-503 | from text: accepted exactly when the text derives a value that is a plan |
| PythonPlanValidator.FullMatchIsSafeId | llm_planner.py:203-208 | the regular expression matches exactly the safe identifiers |
| PythonPlanValidator.SafeIdOf | llm_planner.py:203-208 | an identifier field is accepted exactly when it is short and safe, or empty where that is allowed |
| PythonPlanValidator.IntegerOf | llm_planner.py:219-228 | accepted exactly when it has moreover no fraction |
| PythonPlanValidator.CheckTexts | llm_planner.py:231-308 | the texts of a task are checked field by field |
| PythonPlanValidator.CheckTarget | llm_planner.py:231-308 | the target object is accepted exactly when its keys and ranges are right |
| PythonPlanValidator.ParseTask | llm_planner.py:231-308 | one round of the loop accepts exactly the values the common rules accept |
| PythonPlanValidator.CrossRules | llm_planner.py:231-308 | the rules across tasks accept exactly the two orders of a survey and its delivery |
| PythonPlanValidator.ValidatePlan | llm_planner.py:231-308 | the Python side accepts exactly the plans of the common rules and returns its argument |
| PythonPlanValidator.BothValidators | llm_planner.py:187-308 | on every JSON value with finite numbers both validators give the same answer |
| CoordinatorAgent.BestIsOptimal | src/main.cpp:702-721 | the winner was eligible when scanned; no bid eligible when scanned is lexicographically smaller in cost, ETA and id; there is no winner exactly when no bid was eligible |
| CoordinatorAgent.NoLiveBidIsBetter | src/main.cpp:702-721 | with a clock that does not go back, no bid still live at the end of the scan beats the winner |
| CoordinatorAgent.ArrivalOrderIsIrrelevant | src/main.cpp:702-721 | with the clock fixed and ids distinct the winner depends only on which bids there are |
| CoordinatorAgent.Coordinator.SynchronizeInputs | src/main.cpp:664-682 | the samples are taken into the maps, the bid list and the completed set, one by one |
| CoordinatorAgent.Coordinator.ChooseCandidate | src/main.cpp:702-721 | the scan, rereading the clock for each bid, finds the optimal bid as specified |
| CoordinatorAgent.Coordinator.PublishAssignment | src/main.cpp:723-743 | publishes the assignment with the next epoch, then the event |
| CoordinatorAgent.Coordinator.ScheduleReadyTasks | src/main.cpp:684-698 | assigns the ready tasks one after the other and remembers them |
| VehicleAgents.BidIdsTellVehicles | src/main.cpp:545-546 | the id of a bid tells the vehicle |
| VehicleAgents.DerivedIdsFit | src/main.cpp:545-560 | with the nine-byte names of the demo the derived ids fit their bounded strings exactly for ids of at most 50 bytes |
| VehicleAgents.EarlyAssignmentIsLost | src/main.cpp:564-583 | an assignment taken before the request is known is lost for good, however often it is redelivered; one taken afterwards is executed |
| VehicleAgents.VehicleAgent.PublishCapability | src/main.cpp:507-522 | announces the capability as available, and the idle state |
| VehicleAgents.VehicleAgent.SynchronizeInputs | src/main.cpp:524-531 | requests and transforms are taken into the maps, later ones replacing earlier ones |
| VehicleAgents.VehicleAgent.SubmitCandidateBids | src/main.cpp:533-562 | bids once for each task it can do, with the ETA and cost of its position and battery |
| VehicleAgents.VehicleAgent.HandleAssignment | src/main.cpp:566-582 | an assignment is refused, noted, or executed, by the guards in their order |
| VehicleAgents.VehicleAgent.ProcessAssignments | src/main.cpp:564-583 | all assignments taken are handled in order |
| VehicleAgents.VehicleAgent.Execute | src/main.cpp:603-624 | publishes the four phases and their events in order, and arrives at the target |
| AuctionInvariant.InitInv | src/main.cpp:1013-1019 | the invariant holds before anything is published |
| AuctionSteps.ScheduleDecides | src/main.cpp:684-698 | a scheduling call makes only justified decisions, numbered on from the ones before |
| AuctionSteps.HandledIsOk | src/main.cpp:564-583 | handling an assignment keeps what is known about the vehicle: at most one start per task, each after an assignment to it |
| AuctionSteps.StepKeepsInv | src/main.cpp:507-743 | every action of every node keeps the invariant, whatever is delivered when |
| AuctionSafety.DependencySafety | src/main.cpp:674-698 | on every run a task with a predecessor starts only after the predecessor was executed from start to PHASE_COMPLETED |
| AuctionSafety.EpochsCountDecisions | src/main.cpp:684-698 | the published decisions carry epochs 1, 2, 3, ... and are for different tasks |
| AuctionSafety.ExecutedAtMostOnce | src/main.cpp:564-583 | even with redelivered assignments a task is started at most once in all, by the vehicle its only assignment selects |
| AuctionSafety.StartsAreBacked | src/main.cpp:702-735 | behind every start stand a published request, a feasible bid and the announced capability that is asked for, all before the assignment |
| AuctionOptimality.ScheduleChoosesBest | src/main.cpp:684-721 | each assignment of a scheduling call is for a ready task among the keys and a bid that, in the scan the call makes for that key, was eligible when looked at and is beaten by no bid eligible when looked at nor, when the clock does not go back, by any live at the end of the scan |
| AuctionOptimality.AssignmentsAreOptimal | src/main.cpp:684-721 | on every run each published assignment was published by a scheduling call of the run, in a world the run passes through, and its bid is unbeaten in that sense in the scan of that call, among all bids received by then |
| AuctionBids.OneBidPerVehicleAndTask | src/main.cpp:533-562 | on every run two published bids for one task with one vehicle or one id are the same bid |
| AuctionBids.ChoiceIgnoresArrival | src/main.cpp:702-721 | so in every reachable state, with the clock fixed, the choice does not depend on the order or repetition of arrivals |
| AuctionPrices.BidsAreComplete | src/main.cpp:533-562 | a vehicle bids for every known task that asks for its capability, is light enough, and that it has not bid for |
| AuctionPrices.EveryBidIsPriced | src/main.cpp:533-562 | on every run each published bid was made by a call in which ETA times cruise speed is the distance from the pose to the last transform handed over for the task, or to the request's target when there was none, and the cost is that ETA plus 0.35 for each percent of charge missing |
| AuctionPrices.PricesCompare | src/main.cpp:541-542 | at equal battery the sooner of two bids costs less, at equal ETA the one of the fuller battery, 0.35 s for one percent |
| AuctionPrices.AssignmentsAreCheapest | src/main.cpp:684-735 | on every run each published assignment gives the task to a bid that no bid still live at the end of the call's scan undercuts in cost, then ETA, then id, when the clock of the call does not go back; so at equal ETA to the fullest battery |
| AuctionPrices.ReadyIsAssigned | src/main.cpp:684-721 | a scheduling call assigns every key not assigned yet whose predecessor is completed and for which some bid is live when the scan comes to it |
| AuctionPrices.ExecutionArrives | src/main.cpp:564-624 | handling an assignment leaves pose and charge alone or takes the vehicle to the target and costs 2.7 percent |
| AuctionPrices.ChargeIsSpent | src/main.cpp:603-624 | over a run a vehicle loses 2.7 percent for each task it executes |
| Text.LessIsLexicographic | src/main.cpp:716 | the order of ids is the lexicographic one |
| AuctionExecution.SelectedVehicleKnowsTask | src/main.cpp:533-583 | on every run the vehicle a published assignment selects exists and knows the task, because it bids only for tasks it knows; so no assignment of a run is too early |
| AuctionExecution.HandledMeansExecuted | src/main.cpp:564-624 | on every run, an assignment handled by the vehicle it selects leads to exactly one start by it, counting what it has yet to publish, and when it has published everything, start and completion are in the log |
| AuctionExecution.LostForGood | src/main.cpp:564-583 | from every world that satisfies the invariant: an assignment taken before the task is known is the only one for the task, and however the run goes on no vehicle ever starts it |
| AuctionExecution.RestartKeepsInv | src/main.cpp:564-583 | starting a vehicle anew that is idle and has executed nothing leads to such a world |
| DemoScript.CompletedTaskCount | src/main.cpp:878-886 | counts the different tasks with a completion event |
| DemoScript.PublishIncidentPlan | src/main.cpp:368-422 | publishes a request and an event for each task of the plan |
| DemoScript.OfferBid | src/main.cpp:1028-1029 | each vehicle bids exactly for the one task it can do |
| DemoScript.GatherBids | src/main.cpp:1013-1029 | the opening of the script up to the bids |
| DemoScript.FirstRound | src/main.cpp:1032 | in the first round only the survey is assigned, exactly when its bid is looked at within 5000 ms |
| DemoScript.SecondRound | src/main.cpp:1036 | in the second round the delivery is assigned exactly when the survey is done and its bid is looked at within 5000 ms |
| DemoScript.SurveyRound | src/main.cpp:1032-1035 | first scheduling and the UAV's turn |
| DemoScript.DeliveryRound | src/main.cpp:1036-1039 | second scheduling and the UGV's turn |
| DemoScript.RunScript | src/main.cpp:1013-1048 | for every plan of a survey and its delivery, any order of reliable delivery and any transforms: both tasks are completed exactly when both bids are looked at in time, at the readings that the order of delivery decides, and then the survey by the UAV is executed from start to end before the delivery by the UGV |
| DemoScript.Demo | src/main.cpp:1003-1048 | the same from the text of the plan |
| DeviceRegistries.NearestIsFirstMinimum | master_agent/master_agent/scheduler.py:25-61 | the chosen device is a candidate, none is nearer and none listed before is as near; none is chosen exactly when there is no candidate |
| DeviceRegistries.DeviceRegistry.OnState | master_agent/master_agent/registry.py:40-48 | a report creates or replaces the entry and brings the device back online |
| DeviceRegistries.DeviceRegistry.Tick | master_agent/master_agent/registry.py:50-55 | entries unheard of for more than 5000 ms are flagged; flags are not taken back |
| DeviceRegistries.DeviceRegistry.Snapshot | master_agent/master_agent/registry.py:58-69 | lists the entries in order, flagged ones shown offline |
| DeviceRegistries.DeviceRegistry.SelectNearest | master_agent/master_agent/scheduler.py:25-61 | the filtering loop and the minimum find the first nearest candidate |
| DeviceRegistries.CandidatesAmong | master_agent/master_agent/scheduler.py:38-48 | dropping non-candidates does not change the choice |
| DeviceRegistries.FirstMinimum | master_agent/master_agent/scheduler.py:53 | the minimum taken is the first one |
| MissionControl.MissionFSM.CreateMission | master_agent/master_agent/mission_fsm.py:72-77 | creates the mission and assigns an inspection, or fails it |
| MissionControl.MissionFSM.OnFeedback | master_agent/master_agent/mission_fsm.py:79-110 | feedback moves the one mission named as the transition function says and leaves all others alone |
| MissionControl.MissionFSM.Advance | master_agent/master_agent/mission_fsm.py:89-110 | feedback that reports no failure |
| MissionControl.MissionFSM.OnInspectionResult | master_agent/master_agent/mission_fsm.py:112-130 | an inspection result is taken exactly when awaited |
| MissionControl.MissionFSM.HandleFailure | master_agent/master_agent/mission_fsm.py:184-205 | failures exclude the device, spend the budget, and reassign the task named |
| MissionControl.MissionFSM.AssignUavTo | master_agent/master_agent/mission_fsm.py:133-153 | assigns an inspection to the chosen device, or fails the mission |
| MissionControl.MissionFSM.AssignUgvTo | master_agent/master_agent/mission_fsm.py:155-175 | assigns a pickup to the chosen device, or fails the mission |
| MissionControl.MissionFSM.Select | master_agent/master_agent/mission_fsm.py:177-182 | asks for the nearest device, excluding those that failed |
| MissionControl.MissionFSM.FailMission | master_agent/master_agent/mission_fsm.py:207-215 | the mission fails and says so |
| MissionRuns.StepOnMission | master_agent/master_agent/mission_fsm.py:79-130 | in every run a step changes one mission and publishes only about it |
| MissionBounds.StepKeepsBudget | master_agent/master_agent/mission_fsm.py:133-205 | every handler keeps the potential: assignments so far, plus budget left, plus a confirmation that may still come, stay within 4 for each kind |
| MissionBounds.TallyNext | master_agent/master_agent/mission_fsm.py:79-205 | one more input publishes at most one more assignment |
| MissionBounds.BoundedRetries | master_agent/master_agent/mission_fsm.py:72-205 | on every run a mission publishes at most 4 inspections and at most 4 pickups |
| MissionWitness.EightAssignments | master_agent/master_agent/mission_fsm.py:72-205 | one run, with a new task id offered by every input, reaches both bounds |
| MissionBounds.PhaseStep | master_agent/master_agent/mission_fsm.py:79-215 | what one input can do to budget and phase |
| MissionBounds.ChangesDecrease | master_agent/master_agent/mission_fsm.py:79-130 | every phase change strictly decreases the pair of max(0, 4 - reassign_count) and phases left |
| MissionBounds.ReopeningNamesTask | master_agent/master_agent/mission_fsm.py:184-205 | a terminal phase is left only by failure feedback naming the current inspect or pickup task, with budget left |
| MissionBounds.PhaseChangesAreBounded | master_agent/master_agent/mission_fsm.py:79-215 | a mission changes phase at most 29 times and leaves a terminal phase at most 3 times |
| MissionBounds.SpentIsFinal | master_agent/master_agent/mission_fsm.py:184-215 | FAILED with reassign_count at least 4 stays so, and no assignment follows |
| MissionSelection.DirectoryIsRight | master_agent/master_agent/registry.py:40-69 | the directory holds exactly the last report of each device, and flags only reports once found too old |
| MissionSelection.ExcludedAreNamed | master_agent/master_agent/mission_fsm.py:184-188 | the excluded devices are exactly those named in an earlier failure of the mission |
| MissionSelection.SelectionIsSound | master_agent/master_agent/mission_fsm.py:177-182 | every assignment of every run goes to a device named in no earlier failure of the mission, with a last report at most 5000 ms old, eligible, in the target's frame, and no other such device is nearer |
| MissionOutcomes.AssigneeIsNearest | master_agent/master_agent/scheduler.py:25-61 | the same with the conditions on device, report and distance written out |
| MissionOutcomes.AssigneeIsFirstHeard | master_agent/master_agent/scheduler.py:53-61 | no other eligible device equally near was first heard of before the assignee |
| MissionOutcomes.FoundExactly | master_agent/master_agent/scheduler.py:25-61 | a device is found exactly when some last report makes one serviceable and it is not excluded |
| MissionConfirmation.PickStep | master_agent/master_agent/mission_fsm.py:112-205 | exactly when a mission publishes a pickup |
| MissionConfirmation.PickupWithoutConfirmation | master_agent/master_agent/mission_fsm.py:184-205 | a run sends a pickup without an earlier positive inspection result exactly when it holds, without one, failure feedback with a null task id while an inspection but no pickup is assigned, budget is left and a device can be chosen |
| MissionConfirmation.NamedFailuresKeepThePromise | master_agent/master_agent/mission_fsm.py:112-120 | when failure feedback always names its task, every pickup follows a positive inspection result |
| MissionConfirmation.NullTaskIdSendsPickup | master_agent/master_agent/mission_fsm.py:184-205 | a run of four inputs in which a pickup is sent without any inspection result |
| MissionOutcomes.TasksAreOpen | master_agent/master_agent/mission_fsm.py:133-205 | the tasks a mission holds are the last ones published, until a failure with budget left names them; the reassignment count is the number of failures heard |
| MissionOutcomes.MissionMoves | master_agent/master_agent/mission_fsm.py:79-215 | on every run each input does to phase, record, event list and published messages exactly what is stated, in terms of the messages published and the failures and reports heard so far |
| MissionOutcomes.CompletedExactly | master_agent/master_agent/mission_fsm.py:102-130 | a mission enters COMPLETED exactly by the awaited negative result or by the open pickup being reported COMPLETED while assigned or executed |
| MissionOutcomes.FailedExactly | master_agent/master_agent/mission_fsm.py:184-215 | it enters FAILED exactly by a failure with three behind it, a failure naming no open task, or a task to be assigned for which there is no device |
| MissionOutcomes.EndsAreAnnounced | master_agent/master_agent/mission_fsm.py:102-130 | each entry publishes exactly one result, COMPLETED exactly for COMPLETED |
| MissionOutcomes.CreationOutcome | master_agent/master_agent/mission_fsm.py:72-77 | a new mission is given to a device when there is one and fails otherwise |
| Polygons.PointInPolygon | devices/uav/group4/behaviors/inspect_target.py:89-103 | the toggling loop decides whether the number of crossed edges is odd |
| Polygons.RotationInvariant | devices/uav/group4/behaviors/inspect_target.py:89-103 | the starting vertex does not matter |
| Polygons.ReversalInvariant | devices/uav/group4/behaviors/inspect_target.py:89-103 | the direction does not matter |
| Polygons.DiagonalSplits | devices/uav/group4/behaviors/inspect_target.py:89-103 | cut along any diagonal, the answer is the exclusive or of the answers for the parts |
| Polygons.InsideIsInBox | devices/uav/group4/behaviors/inspect_target.py:89-103 | points inside lie in the half-open bounding box |
| Polygons.RectangleIsItsBox | devices/uav/group4/behaviors/inspect_target.py:89-103 | for a rectangle the half-open box is all of the inside |
| Triangles.InsideCountsHits | devices/uav/group4/behaviors/inspect_target.py:89-103 | the answer is whether the ray to the right meets an odd number of edges, an edge being met at a point of the segment at that height strictly to the right, one end above and the other not |
| Triangles.TriangleInside | devices/uav/group4/behaviors/inspect_target.py:89-103 | off its boundary a triangle holds exactly the points on the same side of its three edges |
| Triangles.InsideByTriangles | devices/uav/group4/behaviors/inspect_target.py:89-103 | off their boundaries a polygon of any shape holds exactly the points that an odd number of the triangles from its first vertex hold |
| FlightPaths.ValidatePose | devices/uav/group4/behaviors/inspect_target.py:237-255 | a pose passes exactly when it is in the box, in the polygon if there is one, and in no zone; the failure code says which |
| FlightPaths.PoseOkExactly | devices/uav/group4/behaviors/inspect_target.py:237-255 | the conditions of box, polygon and zones written out over coordinates and rays |
| FlightPaths.ValidatePath | devices/uav/group4/behaviors/inspect_target.py:257-270 | a path passes exactly when all samples do |
| FlightPaths.SamplesAreClose | devices/uav/group4/behaviors/inspect_target.py:257-270 | the samples include both ends and are at most 0.05 m apart horizontally |
| FlightPaths.SamplesAreEven | devices/uav/group4/behaviors/inspect_target.py:257-270 | the samples divide the straight way evenly |
| FlightPaths.CountIsLeast | devices/uav/group4/behaviors/inspect_target.py:257-270 | fewer samples would be more than 0.05 m apart |
| FlightPaths.PathIsCovered | devices/uav/group4/behaviors/inspect_target.py:257-270 | when the check passes, every point of the way is in the flight box and within 0.025 m horizontally of one of the samples of that way, which passed all checks |
| InspectionPlans.ObservationAtDistance | devices/uav/group4/behaviors/inspect_target.py:106-138 | the observation point lies at the inspection distance from the target, at the given height |
| InspectionPlans.ObservationOnTheWay | devices/uav/group4/behaviors/inspect_target.py:106-138 | it lies on the line from the target to the home, on the home's side, and looks along it; when it is refused and with which code |
| InspectionPlans.HomeExactly | devices/uav/group4/behaviors/inspect_target.py:272-306 | the home pose is the point about which usable samples within the jitter limits balance, with frame and yaw of the first |
| Inspections.InspectionBehavior.RunPreflight | devices/uav/group4/behaviors/inspect_target.py:206-235 | passes exactly when the task fits and the device is ready; otherwise the first check that fails gives its failure code |
| Inspections.InspectionBehavior.Feedback | devices/uav/group4/behaviors/inspect_target.py:168-204 | one message with the next number; whether it got through is logged |
| Inspections.InspectionBehavior.SettleHome | devices/uav/group4/behaviors/inspect_target.py:286-306 | the mean, and the two jitter tests |
| Inspections.InspectionBehavior.Prepare | devices/uav/group4/behaviors/inspect_target.py:313-329 | preflight is passed exactly when task and device fit; the home pose is the mean of the readings from the second after the preflight reading on; which call raised, or which check refused |
| Inspections.InspectionBehavior.RecordHomePose | devices/uav/group4/behaviors/inspect_target.py:272-306 | returns the mean of the samples exactly when all are usable and steady |
| Inspections.InspectionBehavior.MakePlan | devices/uav/group4/behaviors/inspect_target.py:327-361 | a plan is made exactly when the observation point, the cruise start and the whole way out pass the checks |
| Inspections.InspectionBehavior.Ground | devices/uav/group4/behaviors/inspect_target.py:313-370 | take-off is reached only with preflight passed, home recorded and the plan validated; when nothing raised and it is not reached, there is no such plan |
| Inspections.InspectionBehavior.FlyOut | devices/uav/group4/behaviors/inspect_target.py:371-403 | the calls from take-off to the picture: how far they got, and that the vehicle is in the air after the first |
| Inspections.InspectionBehavior.TakePicture | devices/uav/group4/behaviors/inspect_target.py:382-403 | the calls at the observation point |
| Inspections.InspectionBehavior.Confirm | devices/uav/group4/behaviors/inspect_target.py:404-448 | detection and upload: a detector that raises, a target that is not found and a confidence that is no number end the flight, each in its own way |
| Inspections.InspectionBehavior.FlyHome | devices/uav/group4/behaviors/inspect_target.py:450-478 | the calls from the return to the ground: airborne and recovered change with the landing |
| Inspections.InspectionBehavior.TouchDown | devices/uav/group4/behaviors/inspect_target.py:459-478 | the landing and what follows it |
| Inspections.InspectionBehavior.Flight | devices/uav/group4/behaviors/inspect_target.py:371-478 | from take-off to landing: how far the calls got, and whether the vehicle is in the air |
| Inspections.InspectionBehavior.TryHome | devices/uav/group4/behaviors/inspect_target.py:515-521 | return and landing, the second only when the first returns |
| Inspections.InspectionBehavior.Recover | devices/uav/group4/behaviors/inspect_target.py:511-527 | the recovery: whether the position is valid, whether the return returns and whether the landing returns decide its calls and the work state |
| Inspections.InspectionBehavior.RunScript | devices/uav/group4/behaviors/inspect_target.py:313-478 | the whole try block: it stops at the first call that raises, or where a check refuses |
| Inspections.InspectionBehavior.Conclude | devices/uav/group4/behaviors/inspect_target.py:480-510 | the message and result for each kind of exception |
| Inspections.InspectionBehavior.TryAndTell | devices/uav/group4/behaviors/inspect_target.py:313-510 | the try block with its except blocks |
| Inspections.InspectionBehavior.Execute | devices/uav/group4/behaviors/inspect_target.py:308-527 | for every pattern of exceptions: a run succeeds exactly when a plan is cleared, the target confirmed and none of its calls raises; otherwise it stops at the first call that raises or the first check that refuses; position, return and landing decide the recovery; the calls made are the script as far as it got, the message and the cleanup; a run whose take-off returned ends with a landing that returned as the last motion or with the pilot asked to take over; the work state ends idle or manual; a device that was not idle is refused and reset |
| InspectionPlans.RunIsSafe | devices/uav/group4/behaviors/inspect_target.py:512-527 | the safety of the last motion, for every such log |
| InspectionPlans.RunIsNumbered | devices/uav/group4/behaviors/inspect_target.py:168-204 | the feedback messages of a run are numbered 1, 2, 3, ... |
| InspectionPlans.FlightInOrder | devices/uav/group4/behaviors/inspect_target.py:308-527 | every call of every run is in its place: the picture after going to the observation point and holding for the stable time, the upload after the detection, a landing after a return home; messages claim only what has been done |
| SafetySupervisors.SafetySupervisor.PositionHealth | devices/uav/group4/agent/safety_supervisor.py:119-144 | validity, staleness, jumps and the recovery clock |
| SafetySupervisors.SafetySupervisor.ResetAfterSafeLanding | devices/uav/group4/agent/safety_supervisor.py:100-104 | everything remembered is forgotten |
| SafetySupervisors.SafetySupervisor.RoutineDecision | devices/uav/group4/agent/safety_supervisor.py:224-243 | admission of a new task, and warnings joined in order |
| SafetySupervisors.SafetySupervisor.Evaluate | devices/uav/group4/agent/safety_supervisor.py:146-243 | the decision of highest priority, latched when it ends the flight |
| SafetySupervisors.SafetySupervisor.Latch | devices/uav/group4/agent/safety_supervisor.py:106-117 | the first latched decision is repeated |
| SafetySupervisors.PostInit | devices/uav/group4/agent/safety_supervisor.py:55-68 | exactly which thresholds are accepted |
| SupervisorRuns.FinalDecisionsAgree | devices/uav/group4/agent/safety_supervisor.py:106-117 | between resets all RETURN_HOME, LAND_NOW and MANUAL_TAKEOVER decisions share action and code, and of two the later is marked latched |
| SupervisorRuns.OnlyTheFirstIsFresh | devices/uav/group4/agent/safety_supervisor.py:106-117 | such a decision is marked latched exactly when an earlier one followed the last reset |
| SupervisorRuns.ClockIsRight | devices/uav/group4/agent/safety_supervisor.py:119-144 | the recovery clock was set at a sample from which the stream is unbroken |
| SupervisorRuns.ReturnFollowsStablePosition | devices/uav/group4/agent/safety_supervisor.py:119-222 | a first RETURN_HOME (or LAND_NOW with blind landing off) ends a window of at least position_recovery_stable_s in which every sample was valid, fresh and within the jump limit of the one before |
| SupervisorRuns.LatchedReturnOutlivesPosition | devices/uav/group4/agent/safety_supervisor.py:106-117 | a latched RETURN_HOME is repeated after the position has been lost |
| SupervisorConditions.StateIsHistory | devices/uav/group4/agent/safety_supervisor.py:119-144 | what the supervisor remembers is the position of the last sound sample and the time the steady stretch began |
| SupervisorConditions.FirstAction | devices/uav/group4/agent/safety_supervisor.py:146-222 | in terms of sample, thresholds and history: exactly when a first LAND_NOW, RETURN_HOME or MANUAL_TAKEOVER is given, and HOLD_POSITION |
| SupervisorConditions.FinalExactly | devices/uav/group4/agent/safety_supervisor.py:146-222 | exactly when one of these ends the flight, first or again, and exactly when HOLD_POSITION is given |
| SupervisorConditions.Refusals | devices/uav/group4/agent/safety_supervisor.py:224-243 | no final action on the ground; exactly when a task is refused, in the air only one offered with the battery unknown or too low; exactly when there is a warning or nothing |
| SupervisorConditions.RefusedInTheAir | devices/uav/group4/agent/safety_supervisor.py:224-231 | a sample in flight for which a task is refused |
| SupervisorConditions.FirstReport | devices/uav/group4/agent/safety_supervisor.py:146-243 | code and severity of every first decision; the code of a warning names the delayed readings |
| SupervisorConditions.LowerBatteryIsNoMilder | devices/uav/group4/agent/safety_supervisor.py:146-243 | with everything else equal and nothing latched, a lower battery never gives a milder action |
| TaskServices.JsonTaskStore.Put | devices/uav/group4/agent/task_store.py:32-40 | memory and file get the record |
| TaskServices.DroneAgentService.Settle | devices/uav/group4/agent/drone_agent_service.py:255-271 | a result is published before it is stored |
| TaskServices.DroneAgentService.HandlePayload | devices/uav/group4/agent/drone_agent_service.py:142-271 | one payload makes exactly the listed steps, in order, and leaves memory and file equal |
| TaskServices.DroneAgentService.AcceptTask | devices/uav/group4/agent/drone_agent_service.py:195-271 | a new task is recorded, refused or recorded again and executed, and settled |
| TaskServiceRuns.HandlingInvokes | devices/uav/group4/agent/drone_agent_service.py:195-271 | the executor is invoked at most once, and only after the task is in the file |
| TaskServiceRuns.InvokedExactlyWhenReady | devices/uav/group4/agent/drone_agent_service.py:119-247 | in every run an attempt invokes the executor exactly when the task is new and for this service, the snapshot taken was in order, the mode and the executor are there, and the process does not die before |
| TaskServiceRuns.RecordsAreKept | devices/uav/group4/agent/task_store.py:32-40 | no record is ever lost, wherever the crashes fall |
| TaskServiceRuns.AtMostOnce | devices/uav/group4/agent/drone_agent_service.py:142-271 | over any payloads, crash points and restarts the executor is invoked at most once for each task id, and never for one recorded before |
| TaskServiceRuns.DeathBeforeInvocationIsFinal | devices/uav/group4/agent/drone_agent_service.py:195-247 | a task recorded before a crash but not yet executed is never executed; one that got through is executed exactly once |
| TaskReports.ResultsAreTrue | devices/uav/group4/agent/drone_agent_service.py:195-271 | over any run a result is published exactly for a new task that ends so: refused for the first thing out of order, the mode or a missing executor, or reported as its execution went, if the process lives until then |
| TaskReports.CompletedIsPublished | devices/uav/group4/agent/drone_agent_service.py:239-262 | COMPLETED is published exactly for a task whose executor has been invoked and has returned ok, or a result without ok whose own status is COMPLETED |
| TaskReports.CompletedIsRecorded | devices/uav/group4/agent/drone_agent_service.py:239-271 | a record becomes COMPLETED exactly when an attempt went through in that way |
| TaskReports.CompletedMeansOk | devices/uav/group4/agent/drone_agent_service.py:239-271 | as long as executors say COMPLETED only together with ok, a record is COMPLETED exactly when the executor was invoked, returned ok and the process lived to store it |
| TaskReports.CompletedWithoutOk | devices/uav/group4/agent/drone_agent_service.py:247-253 | otherwise it need not: a result without ok that says COMPLETED is published and stored as such |
| TaskReports.ExceptionsFail | devices/uav/group4/agent/drone_agent_service.py:263-269 | an exception is reported as FAILED and nothing else |
| TaskReports.DuplicatesRepeat | devices/uav/group4/agent/drone_agent_service.py:174-187 | the answer to a task seen before repeats the result published for it, or how far the interrupted attempt got |
| TaskReports.OtherAnswers | devices/uav/group4/agent/drone_agent_service.py:142-187 | any other payload gets its one answer |

## Left out

- DDS entities, QoS, `drain` loans, type support, string allocation and KEEP_LAST depths of src/main.cpp: replaced by message sequences; the middleware is not part of this model.
- The coordinate service and the WGS84 projection: its transforms reach the agents as arbitrary poses.
- `stod`, rounding and the formatting of doubles: numbers are lexemes in texts and reals elsewhere; `fits` says whether a lexeme is in range, `num` what it is read as, and both are arbitrary.
- SnapshotRoundTrip.PrintThenParse: numbers are compared as lexemes, so the digits lost by stream formatting are not modelled.
- Raw bytes in JSON strings are not checked to be UTF-8, because the parser does not check them either.
- CppPlanValidator.ParseTask: the texts of error messages are not modelled, only whether an exception is thrown; the same holds for the Python validator.
- Lone surrogates, which Python's JSON reader lets through and the C++ parser refuses, do not occur in the strings of the model.
- Duplicate keys in plan text: the C++ parser refuses them, Python's keeps the last; the agreement of the validators is about JSON values.
- The iteration order of `std::map` in the agents' methods is a parameter `order`; in the demo it is the order of the keys.
- CoordinatorAgent.Coordinator.SynchronizeInputs: the map of targets is not kept, because the coordinator never reads it.
- Restarts of agents are no actions of `AuctionSystem`; of a vehicle started anew before it has executed anything, `AuctionExecution.RestartKeepsInv` and `LostForGood` speak. One that has executed something would execute it again on redelivery, because what it has executed is only in its memory.
- VehicleAgents.VehicleAgent.Execute: progress percentages, incident ids and event ids are not in the messages, and the pauses between phases are left to the interleaving of publications.
- VehicleAgents.VehicleAgent.SubmitCandidateBids: the cruise speed is not zero; with doubles a zero speed would give an infinite ETA.
- `DashboardBridge.collect`: it files the samples in maps and sorts the events; the snapshot is modelled from the lists on.
- DemoScript.RunScript: the fixed pauses are not modelled; instead every reliable message published before a call has arrived at it.
- DemoScript.Demo: the 64- and 80-byte bounds of idl/mission.idl are not enforced on messages; `DerivedIdsFit` says that task ids of at most 50 bytes keep within them, and what the middleware does with longer ones is not modelled.
- The rest of the master agent (bus, API, dashboard, `DeviceAgent`, demo loops): plumbing; a subscriber that calls back into the state machine during a publication would reorder the event list but not the steps.
- MissionControl.MissionFSM.OnFeedback: message texts and times in the event list are left out, the names of the events are kept.
- MissionSelection.SelectionIsSound: mission ids are assumed fresh and the clock nondecreasing; distances are compared by their squares.
- `battery`, `control_mode` and `current_task_id` of device states beyond `battery_ok`: the choice does not read them.
- Polygons.PointInPolygon: over the reals; with floating point the crossing computed for an edge and for its reverse may differ in the last bit.
- Inspections.InspectionBehavior.Execute: image paths and message texts are left out, of a detection its result and whether its confidence is a number are kept; sleeping between home samples takes no step; exceptions outside `Exception` (interrupts) are not modelled.
- `math.hypot` is any function with its defining equation; `atan2`, `cos`, `sin` and the angular difference are parameters.
- SafetySupervisors.SafetySupervisor.Evaluate: messages are left out of decisions; values that are not finite numbers are missing values.
- SafetySupervisors.PostInit: the exception of `__post_init__` is the answer `false`; the constructor requires thresholds that are accepted.
- TaskServices.DroneAgentService.HandlePayload: parsing of payloads is a parameter; a publication or a store operation that raises outside the executor ends the process and counts as a crash; one that raises while the result is published is not modelled separately.
- TaskServices.JsonTaskStore.Put: the temporary file, `fsync` and `os.replace` are one atomic step; a file damaged by others, on which the service refuses to start, is not modelled.
- The state monitor, the transports, the web server and gateway, the LLM clients, the regex fallback parser, cameras, ROS and MAVLink code, `approach_grasp_c1.py`: hardware and I/O.
