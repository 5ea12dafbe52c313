# Direct connection and write-around cache tick, modelled in Dafny

This project models two sequential pieces of the Akita simulation kernel and
proves their contracts.

**The direct connection** (`DirectConnection.dfy`, built on the message and
tick-event values of `Sim.dfy`). The connection keeps one *end* per registered
port, in registration order. Each end holds a bounded buffer of the messages
that port has sent and a `busy` flag.

- `PlugIn` registers a port with an empty end of a given capacity.
- `Send` aborts the simulation on a wiring error. It refuses a message whose
  sender's end is full, and it marks that end busy. Otherwise it appends the
  message to the sender's end and asks the engine for one secondary tick at
  the message's send time. The connection keeps the set of times whose ticks
  it asked for and that have not fired yet. If a tick at that time is already
  pending, it asks for none.
- `Handle` runs when such a tick fires. Each non-empty end, in registration
  order, offers its head to the destination's `Recv`. An accepted head is
  stamped with the receive time and popped. If that end was busy, its port is
  told through `NotifyAvailable`. A refused head stays and marks the end busy.
  A tick that delivered anything, or after which some end still holds a
  message, asks for a tick one cycle later. So a refused head is retried on
  the next cycle.

The pure functions `SendStep` and `HandleStep` are the specification. The
class `Connection` holds the ends and is proved to follow them. Its ghost
logs record every `Schedule`, `NotifyAvailable` and accepted `Recv`.

**The ticking agent and conservation** (`Integration.dfy`). The test file's
agent retrieves at most one incoming message and offers the head of its
outgoing list, stamped with the current time. It drops the head once the
connection accepts it. A whole run is any interleaving of agent ticks and
connection ticks, with any `Recv` answers. Over every such run:

- no message is lost or duplicated: the multiset of message identities held
  in the outgoing lists, the ends' buffers, the ports' incoming queues and
  the agents' `msgsIn` is the same after every step;
- starting as the integration scenario does, every message an agent has
  received is one that was to be sent, and it was received at most as often
  as it was to be sent. So the agents receive at most agents ×
  messages-per-agent messages in total. Once nothing is left to send, deliver
  or retrieve, they have received exactly the messages that were to be sent.

**The write-around cache tick** (`WriteAroundCache.dfy`). The stages are
opaque, and the class `Comp` records each stage call in a ghost trace. What a
call answers comes from an oracle indexed by the number of calls made
before it.

- `Tick` runs the pipeline unless the cache is paused, then ticks the control
  stage.
- The pipeline ticks, in this order:
  - the respond stage, `numReqPerCycle` times;
  - the bottom parser, `numReqPerCycle` times;
  - each bank stage once;
  - the directory once;
  - the coalescer, `numReqPerCycle` times.
- Every call is made, and the result is the OR of all answers.

The methods are proved against the call sequences `PipelineCalls` and
`TickCalls`. Lemmas prove the order, the multiplicities and the meaning of the
returned flag for those sequences.

Time is a natural number of cycles. At frequency 1 the next cycle is `now + 1`.

## Model

| member | source | states |
|---|---|---|
| DirectConnection.Connection.constructor | sim/directconnection/directconnection_test.go:29 | A new connection has no ends, no pending ticks and empty logs, and satisfies the connection invariant. |
| DirectConnection.Connection.PlugIn | sim/directconnection/directconnection_test.go:31-35 | Registering succeeds exactly when the port is not registered yet. On success the port gets an empty, idle end of the given capacity, placed last in registration order. Otherwise nothing changes. The invariant (distinct ports, no end over capacity) is kept. |
| Sim.Ids | sim/directconnection/directconnection_test.go:244-245 | The identities of a list of messages, one entry per message. |
| Sim.IdsAppend | sim/directconnection/directconnection_test.go:244-245 | The identities of two lists joined are those of both lists together. |
| DirectConnection.Find | sim/directconnection/directconnection_test.go:31-35 | Looking up a port in the ends finds the index of an end of that port, or reports that no end belongs to it. |
| DirectConnection.Check | sim/directconnection/directconnection_test.go:42-65 | The wiring check passes exactly when the source is set and plugged in, the destination is set, and the two differ. It reports a send to oneself only for a plugged-in source, and a nil destination only for a plugged-in source sending elsewhere. |
| DirectConnection.ScheduleTick | sim/directconnection/directconnection_test.go:73-76 | After asking for a tick at `t`, a tick at `t` is pending and every other pending tick still is. An event is requested exactly when no tick at `t` was pending, and it is then one secondary event at `t`. |
| DirectConnection.SendStep | sim/directconnection/directconnection_test.go:42-65 | Send aborts exactly when the source is nil, not plugged in, equal to the destination, or the destination is nil. An aborted send changes nothing and schedules nothing. Any other send touches only the sender's end. It is refused with BufferFull exactly when that end is at capacity, and a refusal marks the end busy and schedules nothing. Otherwise the message is appended to the sender's end and a secondary tick at its send time is scheduled, unless one is pending at that time. No end ever goes over capacity. |
| DirectConnection.Connection.Send | sim/directconnection/directconnection_test.go:67-81 | The object's Send leaves the state SendStep gives and returns SendStep's result. The Schedule log grows by exactly the requested tick events, and the invariant is kept. |
| DirectConnection.Connection.TickAt | sim/directconnection/directconnection_test.go:73-76 | Asks for a secondary tick at the given time unless a tick at that time is pending, adds the time to the pending ones, and records the request in the Schedule log. |
| DirectConnection.SendAll | sim/directconnection/directconnection_test.go:99-100 | Sends made one after another give one result per message. They keep the ends' number and ports, and keep the invariant. |
| DirectConnection.SameTimeSendsTickOnce | sim/directconnection/directconnection_test.go:83-100 | Any number of sends with one send time request at most one tick. They request exactly one, secondary and at that time, when some send was buffered and no tick at that time was pending; afterwards that time is pending. |
| DirectConnection.SendFromEnd | sim/directconnection/directconnection_test.go:106-126 | A correctly wired send from a registered end is accepted exactly when that end has room. Accepted, the message is appended; refused, the end is marked busy. No other end changes. |
| DirectConnection.SendsFillThenRefuse | sim/directconnection/directconnection_test.go:106-132 | Backpressure: of a run of sends from one end, exactly the first `cap - len(buf)` are accepted and every later one returns BufferFull. The end ends up busy exactly when it was busy or some send was refused. Its capacity and every other end are unchanged. |
| DirectConnection.SendsBufferInOrder | sim/directconnection/directconnection_test.go:125-129 | After such a run the end's buffer is its old contents followed by exactly the accepted messages, in send order; a refused message is not buffered. |
| DirectConnection.SendsReachEnd | sim/directconnection/directconnection_test.go:125-129 | What a run of sends from one end leaves in that end is `Fill` of the end and the messages. |
| DirectConnection.FillKeepsOrder | sim/directconnection/directconnection_test.go:128-129 | Filling an end appends the longest prefix of the messages that fits into its free room, and nothing else. |
| DirectConnection.FillMarksBusy | sim/directconnection/directconnection_test.go:126-131 | Filling an end marks it busy exactly when more messages arrive than it has room for. Port and capacity are kept. |
| DirectConnection.SendsResults | sim/directconnection/directconnection_test.go:130-131 | The k-th send of such a run is accepted exactly when k is below the end's free room. |
| DirectConnection.SendsLeaveOthers | sim/directconnection/directconnection_test.go:106-132 | A run of sends from one end changes no other end. |
| DirectConnection.Connection.Handle | sim/directconnection/directconnection_test.go:134-166 | The object's Handle leaves the state HandleStep gives. It logs exactly the accepted messages, the NotifyAvailable calls and the Schedule calls of that step, returns whether anything was delivered, and keeps the invariant. |
| DirectConnection.ForwardAll | sim/directconnection/directconnection_test.go:147-159 | The loop over the ends in registration order computes the same ends, delivered messages, notices and progress flag as the round specification. |
| DirectConnection.ForwardHead | sim/directconnection/directconnection_test.go:147-163 | One end's share of a tick keeps the end's port and capacity. It makes progress exactly when the end is non-empty and its head is accepted. It then pops exactly the head, delivers it stamped with the tick's time, clears `busy`, and notifies the port exactly when the end was busy. Otherwise the buffer is kept and nothing is delivered, and a refused head marks the end busy. |
| DirectConnection.HandleStep | sim/directconnection/directconnection_test.go:134-166 | A tick keeps the number of ends. Afterwards the tick at `now` is no longer pending, every other pending tick still is, and at most `now + 1` has been added. It requests at most one secondary event, at `now + 1`, and only when no tick at `now + 1` was pending. |
| DirectConnection.RoundUpTo | sim/directconnection/directconnection_test.go:159 | A round keeps the number of ends. |
| DirectConnection.RoundEnds | sim/directconnection/directconnection_test.go:159-163 | Each end is changed only by its own step of the round, and that step sees the end as the tick found it. |
| DirectConnection.RoundAdvance | sim/directconnection/directconnection_test.go:159-163 | The round after `k + 1` steps is the round after `k` steps followed by the next end's step. |
| DirectConnection.RoundUntouched | sim/directconnection/directconnection_test.go:159-163 | Ends not yet reached by a round are unchanged. |
| DirectConnection.RoundStep | sim/directconnection/directconnection_test.go:159-163 | The k-th step of a round forwards the k-th end as the tick found it. |
| DirectConnection.RoundIsolated | sim/directconnection/directconnection_test.go:151-153 | Handling the ends one after another delivers the same heads, in registration order, as handling each end against the starting state. It notifies the same ports, and makes progress exactly when some non-empty end's head is accepted. |
| DirectConnection.RoundDelivers | sim/directconnection/directconnection_test.go:151-152 | A round delivers exactly the accepted heads of the starting ends, in registration order. |
| DirectConnection.RoundNotifies | sim/directconnection/directconnection_test.go:153 | A round notifies exactly the busy ends whose head was accepted, in registration order. |
| DirectConnection.RoundProgress | sim/directconnection/directconnection_test.go:154-157 | A round makes progress exactly when some non-empty end's head is accepted. |
| DirectConnection.HeadsStamped | sim/directconnection/directconnection_test.go:164-165 | Every delivered message carries the tick's time as its receive time, and every accepted head is among them. |
| DirectConnection.NotifiedExactly | sim/directconnection/directconnection_test.go:149-163 | An end's port is notified, at the tick's time, exactly when its head was accepted and it was busy. A port that was not busy is not notified. |
| DirectConnection.NotifiedFrom | sim/directconnection/directconnection_test.go:149-153 | Every notice is at the tick's time and goes to the port of an end that was busy. |
| DirectConnection.BufferedUpdate | sim/directconnection/directconnection_test.go:147-148 | Replacing one end changes the number of buffered messages by that end's difference. |
| DirectConnection.RoundConserves | sim/directconnection/directconnection_test.go:159-162 | A tick keeps the number of messages: as many leave the ends as are delivered. |
| DirectConnection.Held | sim/directconnection/directconnection_test.go:147-165 | The identities of every buffered message, one entry per message. |
| DirectConnection.HeldUpdate | sim/directconnection/directconnection_test.go:147-148 | Replacing one end changes the held identities by exactly that end's difference. |
| DirectConnection.ForwardKeepsIds | sim/directconnection/directconnection_test.go:159-162 | One end's share of a tick hands over exactly the message it removes, under the same identity. |
| DirectConnection.RoundKeepsIds | sim/directconnection/directconnection_test.go:159-165 | A tick loses and duplicates no message: the identities that leave the ends are exactly those of the delivered messages. |
| DirectConnection.SendKeepsIds | sim/directconnection/directconnection_test.go:106-131 | A well-wired send from a registered end adds the message's identity to what the connection holds exactly when it is accepted, and changes nothing held otherwise. |
| DirectConnection.HandleKeepsWellFormed | sim/directconnection/directconnection_test.go:159 | A tick keeps the invariant. |
| DirectConnection.HandleUpdatesEnds | sim/directconnection/directconnection_test.go:147-165 | After a tick, an empty end is unchanged. A non-empty end whose head is accepted loses exactly its head and is no longer busy; the stamped head is delivered, and the port is notified exactly when the end was busy. A refused end keeps its buffer, becomes busy and is not notified. |
| DirectConnection.HandleDelivers | sim/directconnection/directconnection_test.go:151-165 | A tick stamps every delivered message with its time and notifies only ports whose end was busy. The buffered count drops by exactly the number delivered, and the identities that leave the buffers are exactly those delivered. |
| DirectConnection.HandleReschedules | sim/directconnection/directconnection_test.go:154-157 | A tick delivers something exactly when some non-empty end's head is accepted. Afterwards some end still holds a message exactly when some non-empty end was refused or held more than one message. A tick that delivered something or left something buffered leaves a secondary tick pending at `now + 1`, requested unless one was already pending there. Any other tick requests nothing. Either way the tick at `now` stops being pending and the other pending ticks stay. |
| DirectConnection.SendAfterTick | sim/directconnection/directconnection_test.go:67-81 | A message sent at `now` after the tick at `now` has been handled, and buffered, asks for one new secondary tick at `now`, so it never waits with no tick to deliver it. |
| DirectConnection.Step | sim/directconnection/directconnection_test.go:67-166 | A Send or a fired tick requests a tick only at a time with no pending tick, which is pending afterwards. A pending tick stays pending until the tick at that time fires. |
| DirectConnection.FiredBetween | sim/directconnection/directconnection_test.go:134-166 | A time that stops being pending between two points of a run had its tick fire in between. |
| DirectConnection.NoDoubleRequest | sim/directconnection/directconnection_test.go:83-100 | Over any sequence of sends and fired ticks, two requests for a tick at the same time have the tick at that time fire between them, so the engine never holds two ticks of the connection for one time. |
| DirectConnection.RoundLeavesPending | sim/directconnection/directconnection_test.go:154-157 | After a tick some end still holds a message exactly when some non-empty end was refused or held more than one message. |
| Integration.Outgoing | sim/directconnection/directconnection_test.go:194-197 | An agent has a message to offer exactly when its outgoing list is non-empty. The message is the head, stamped with the tick's time and otherwise unchanged. |
| Integration.AgentStep | sim/directconnection/directconnection_test.go:185-205 | An agent tick appends the retrieved message, if any, to `msgsIn`. It offers the head of `msgsOut`, stamped with `now`, to Send. The head is dropped exactly when Send accepts it; otherwise the list keeps its length, with the stamped head in front. The tick reports progress exactly when it received or sent a message. It aborts exactly when Send does, and it keeps the connection invariant. |
| Integration.Agent.constructor | sim/directconnection/directconnection_test.go:169-183 | A new agent owns the given port and outgoing messages and has received nothing. |
| Integration.Agent.Tick | sim/directconnection/directconnection_test.go:185-205 | The object's tick leaves the agent and the connection as AgentStep gives. It returns AgentStep's progress and fault, logs exactly the ticks Send requested, and keeps the invariant. |
| Integration.AgentTickSound | sim/directconnection/directconnection_test.go:194-202 | In a world whose agents hold only well-wired messages, an agent's tick never aborts. The messages it keeps plus the connection's buffered ones are as many as before. Only its own end changes, and everything the agent and its end hold stays well wired or addressed. |
| Integration.KeptWired | sim/directconnection/directconnection_test.go:196-200 | What an agent keeps after a send attempt, the stamped head included, is still well wired. |
| Integration.AgentTickConserves | sim/directconnection/directconnection_test.go:185-205 | An agent tick keeps the world invariant and the total number of messages in the world. |
| Integration.AgentTickCounts | sim/directconnection/directconnection_test.go:188-201 | An agent tick moves messages between outgoing list, end buffer, port queue and `msgsIn`, and keeps their total. |
| Integration.AgentTickKeepsInv | sim/directconnection/directconnection_test.go:194-201 | An agent tick keeps the world invariant. |
| Integration.OutsStayWired | sim/directconnection/directconnection_test.go:244 | Replacing one agent's outgoing list with well-wired messages keeps every agent's list well wired. |
| Integration.EndsStayAddressed | sim/directconnection/directconnection_test.go:197 | A send that adds only well-wired messages to the sender's end keeps every buffered message addressed to a plugged-in port. |
| Integration.HeadsAddressed | sim/directconnection/directconnection_test.go:151-152 | A tick hands over only messages the ends held, so only addressed ones. |
| Integration.HandleKeepsAddressed | sim/directconnection/directconnection_test.go:161-162 | A tick only removes buffer heads, so whatever stays buffered is still addressed. |
| Integration.Route | sim/directconnection/directconnection_test.go:151-152 | Delivering messages keeps one queue per port, and each port's queue grows by exactly the delivered messages addressed to that port, in delivery order. |
| Integration.ToPort | sim/directconnection/directconnection_test.go:151-152 | The messages routed to one port are no more than the delivered ones. |
| Integration.ToPortFilters | sim/directconnection/directconnection_test.go:151-152 | A message is routed to a port exactly when it was delivered and is addressed to that port. |
| Integration.RouteStep | sim/directconnection/directconnection_test.go:151-152 | Routing the first message and then the rest gives each port its own messages in order. |
| Integration.RouteAdds | sim/directconnection/directconnection_test.go:151-152 | Delivery adds as many messages to the queues as were delivered. |
| Integration.SumUpdate | sim/directconnection/directconnection_test.go:251-254 | Replacing one list changes the total by exactly that list's difference. |
| Integration.ConnTickConserves | sim/directconnection/directconnection_test.go:249 | A connection tick, with any Recv answers, keeps the world invariant and the total number of messages. |
| Integration.ConnTickCounts | sim/directconnection/directconnection_test.go:249 | A connection tick keeps the total number of messages: as many enter the queues as leave the ends. |
| Integration.ConnTickKeepsInv | sim/directconnection/directconnection_test.go:249 | A connection tick keeps the world invariant. |
| Integration.Next | sim/directconnection/directconnection_test.go:249 | A step keeps the number of agents, queues and received lists. A connection tick changes no outgoing or received list. An agent tick changes no other agent's lists; it moves at most the head of its own queue to the end of its received list, keeping their order. |
| Integration.AllIds | sim/directconnection/directconnection_test.go:244-254 | The identities held by a family of lists, one entry per message. |
| Integration.Pool | sim/directconnection/directconnection_test.go:244-254 | The identities of every message of a world, one entry per message. |
| Integration.AllIdsUpdate | sim/directconnection/directconnection_test.go:251-254 | Replacing one list changes the identities held by exactly that list's difference. |
| Integration.RouteKeepsIds | sim/directconnection/directconnection_test.go:151-152 | Delivery adds to the queues exactly the identities of the delivered messages. |
| Integration.AgentSendKeepsIds | sim/directconnection/directconnection_test.go:194-201 | An agent's send moves its head, under the same identity, from its outgoing list into its end, or leaves both as they were. |
| Integration.HeadMoves | sim/directconnection/directconnection_test.go:194-201 | Sending the stamped head moves its identity into the connection; keeping it back moves nothing. |
| Integration.AgentTickKeepsIds | sim/directconnection/directconnection_test.go:185-205 | An agent tick loses and duplicates no message. |
| Integration.ConnTickKeepsIds | sim/directconnection/directconnection_test.go:249 | A connection tick loses and duplicates no message: what leaves the ends arrives in the queues. |
| Integration.StepKeepsIds | sim/directconnection/directconnection_test.go:249 | Any single step loses and duplicates no message. |
| Integration.RunKeepsIds | sim/directconnection/directconnection_test.go:249 | Any run, under any order of ticks and any Recv answers, loses and duplicates no message. |
| Integration.StepConserves | sim/directconnection/directconnection_test.go:249 | Any single step of a run keeps the world invariant, the total number of messages and the number of agents. |
| Integration.Run | sim/directconnection/directconnection_test.go:249 | A run keeps the world invariant and the number of agents. |
| Integration.RunConserves | sim/directconnection/directconnection_test.go:249 | Any run, under any order of ticks and any Recv answers, keeps the world invariant, the total number of messages and the number of agents. |
| Integration.SumConst | sim/directconnection/directconnection_test.go:234-245 | Lists of equal length `c` hold `c` messages each in total. |
| Integration.BufferedEmpty | sim/directconnection/directconnection_test.go:222-226 | Empty ends buffer nothing. |
| Integration.Conservation | sim/directconnection/directconnection_test.go:233-256 | From the scenario's start (every agent holding the same number of well-wired messages, capacity-1 ends and empty queues), any run leaves the agents' `msgsIn` totalling at most agents × messages-per-agent. Once nothing is left to send, deliver or retrieve, the total is exactly that. |
| Integration.ConservationIds | sim/directconnection/directconnection_test.go:233-256 | From the scenario's start, every message the agents have received is one that was to be sent, received at most as often as it was to be sent. Once nothing is left to send, deliver or retrieve, the agents have received exactly the messages that were to be sent. |
| WriteAroundCache.Repeat | mem/cache/writearound/cache.go:74-76 | `n` calls of one stage: `n` entries, each that stage. |
| WriteAroundCache.Banks | mem/cache/writearound/cache.go:92-94 | The bank calls of a pipeline run: one per bank, the k-th calling bank k. |
| WriteAroundCache.PipelineCalls | mem/cache/writearound/cache.go:62-70 | A pipeline run makes `numReqPerCycle` calls of each of three stages (none when that is not positive), one per bank and one directory call. |
| WriteAroundCache.TickCalls | mem/cache/writearound/cache.go:50-60 | A tick makes the pipeline's calls (none when paused) and one more. |
| WriteAroundCache.AnyProgressAppend | mem/cache/writearound/cache.go:64-68 | Two runs of calls made one after the other report progress exactly when either run does. |
| WriteAroundCache.AnyProgressIsSomeCall | mem/cache/writearound/cache.go:64-68 | No call is skipped: a run of calls reports progress exactly when some call in it answers true, whatever the calls before it answered. |
| WriteAroundCache.OccurrencesAppend | mem/cache/writearound/cache.go:62-70 | The calls of a stage in two runs add up. |
| WriteAroundCache.OccurrencesSnoc | mem/cache/writearound/cache.go:57 | One more call of a stage counts once for that stage and for no other. |
| WriteAroundCache.InOrderAppend | mem/cache/writearound/cache.go:62-70 | Two runs in order, all of the first ranked below the second, are together in order. |
| WriteAroundCache.RepeatInOrder | mem/cache/writearound/cache.go:74-76 | Repeated calls of one stage are in order and all of that stage's rank. |
| WriteAroundCache.BanksInOrder | mem/cache/writearound/cache.go:92-94 | The bank calls follow slice order. |
| WriteAroundCache.PipelineOrder | mem/cache/writearound/cache.go:62-70 | A pipeline run calls the stages in reverse pipeline order: respond, parse bottom, the banks in slice order, directory, coalesce. It never calls the control stage. |
| WriteAroundCache.TickOrder | mem/cache/writearound/cache.go:50-60 | A tick makes its calls in that order, and its last call is the control stage. |
| WriteAroundCache.RepeatCount | mem/cache/writearound/cache.go:74-76 | `n` calls of a stage call it `n` times and no other stage. |
| WriteAroundCache.BanksCount | mem/cache/writearound/cache.go:92-94 | The bank calls call each bank of the slice once and nothing else. |
| WriteAroundCache.PipelineMultiplicity | mem/cache/writearound/cache.go:72-108 | A pipeline run calls the respond, bottom-parser and coalesce stages `numReqPerCycle` times each (never when that is not positive), each bank and the directory once, and the control stage never. |
| WriteAroundCache.TickMultiplicity | mem/cache/writearound/cache.go:53-57 | A paused tick calls only the control stage. Every tick calls the control stage exactly once, and an unpaused tick calls the other stages as often as a pipeline run does. |
| WriteAroundCache.TickProgress | mem/cache/writearound/cache.go:50-60 | A tick reports progress exactly when some stage call it made answers true. So a tick whose stages all report no progress reports none, and a paused tick reports the control stage's answer. |
| WriteAroundCache.Comp.Then | mem/cache/writearound/cache.go:64-68 | Two runs of calls made one after the other grow the trace by both and report the OR of both. |
| WriteAroundCache.Comp.constructor | mem/cache/writearound/cache.go:10-41 | A new cache is not paused, has made no stage calls and keeps its width, bank count and stage answers. |
| WriteAroundCache.Comp.TickStage | mem/cache/writearound/cache.go:75 | One stage call is recorded in the trace and returns that call's answer. |
| WriteAroundCache.Comp.TickRepeatedly | mem/cache/writearound/cache.go:74-76 | The loop calls the stage `numReqPerCycle` times (none when that is not positive) and returns the OR of the answers. |
| WriteAroundCache.Comp.TickRespondStage | mem/cache/writearound/cache.go:72-78 | Calls the respond stage `numReqPerCycle` times and returns the OR of the answers. |
| WriteAroundCache.Comp.TickParseBottomStage | mem/cache/writearound/cache.go:80-88 | Calls the bottom parser `numReqPerCycle` times and returns the OR of the answers. |
| WriteAroundCache.Comp.TickBankStage | mem/cache/writearound/cache.go:90-96 | Calls each bank stage once, in slice order, and returns the OR of the answers. |
| WriteAroundCache.Comp.TickDirectoryStage | mem/cache/writearound/cache.go:98-100 | Calls the directory once and returns its answer. |
| WriteAroundCache.Comp.TickCoalesceStage | mem/cache/writearound/cache.go:102-108 | Calls the coalescer `numReqPerCycle` times and returns the OR of the answers. |
| WriteAroundCache.Comp.RunPipeline | mem/cache/writearound/cache.go:62-70 | The trace grows by exactly the pipeline's calls, in the order the lemmas above characterise. The result is the OR of every call's answer. |
| WriteAroundCache.Comp.SetPaused | mem/cache/writearound/cache.go:40 | Sets whether the cache is paused, so that a later Tick takes the paused branch exactly when it was set. |
| WriteAroundCache.Comp.Tick | mem/cache/writearound/cache.go:50-60 | The trace grows by the pipeline's calls (none when paused) followed by one control-stage call. The result is the OR of every call's answer. |

## Left out

- Conservation and ConservationIds: the received messages equal the sent
  ones only once a run has drained every queue. That some run, or the
  engine's own schedule, does drain them is not proved, because the event
  engine and its ordering are not modelled.
- The connection's implementation file is not part of this model. Its
  behaviour is taken from the unit tests in
  `sim/directconnection/directconnection_test.go`. The connection's design
  description fills in what the tests leave open:
  - a tick offers at most one head per end (every end in lines 134-166 holds
    a single message);
  - a refused `Recv` marks the end busy (no test refuses a `Recv`);
  - `PlugIn` refuses a port that is already registered (no test registers a
    port twice);
  - the ends are visited in registration order (the test's `Recv`
    expectations are unordered).
- The connection keeps a set of pending tick times, and a tick stops being
  pending once it fires. The tests pin only that sends at one time coalesce
  (lines 83-100); the set follows the design description's "if no tick is
  already pending for that exact time", for sends and ticks in any order.
- Where the design description and the tests disagree, the model follows the
  tests. A sent message is buffered in the **sender's** end (lines 80 and
  106-131). The design description instead "appends msg to the destination
  End's buffer".
- A tick asks for the next cycle when it delivered something (line 154
  expects a tick at 11 although both buffers end up empty) or when a message
  is still buffered (the design description's "if any buffer remains
  non-empty"). Both rules hold in the model, so a refused head is retried on
  the next cycle.
- Line 103 expects the first message in the second port's end, although that
  message was sent from the first port. No property is derived from it.
- Send also aborts on a nil destination. No test covers this case, but a
  delivery to a nil port could not succeed.
- Send does not check that the destination is plugged in. The design
  description's message invariant asks for a registered destination, but its
  Send failure cases name only the source. In the integration world every
  destination is a plugged-in agent port (the world invariant says so), so
  this case does not arise there.
- The end's `busy` flag is also set when Send is refused for a full buffer, so
  that the refused sender is woken by `NotifyAvailable` once room frees. The
  design description only sets it on a refused `Recv`.
- The event engine, `Run` and `CurrentTime` are not modelled. `Schedule` is a
  ghost log of `(time, secondary)` events, and a run of the integration
  scenario is any interleaving of agent and connection ticks.
- The port internals are oracles or logs:
  - `Recv` answers are an oracle indexed by the end's registration position;
  - `Retrieve` is the agent tick's `incoming` parameter;
  - `NotifyAvailable` calls are a ghost log.
  - The agent's port is a pass-through to the connection's Send.
  - The capacity-4 incoming buffer of `NewLimitNumMsgPort` is not modelled.
    Each port's incoming queue is unbounded, so `Recv` refusals come only
    from the oracle.
- `PlugIn` also calls `SetConnection` on the port (lines 31 and 34), so that the port knows
  which connection to send through. This port-side effect is not modelled:
  an agent is handed the connection directly.
- The mock-controller expectations are test harness mechanics and are not
  modelled.
- Random destination selection and seeding (lines 238-241, 259, 268) become an
  arbitrary well-wired destination. The determinism test (lines 258-299) needs
  no proof, because the model's functions are deterministic.
- `VTimeInSec` floating-point time is replaced by natural-number cycles.
- The cache stages' internals are not modelled: the coalescer, directory, bank
  stages, bottom parser, respond and control stages, the MSHR, storage and the
  low-module finder. Each stage call is opaque and answers from an oracle. The
  `now` argument passed to the stages is therefore not modelled either.
- `SetLowModuleFinder` (`mem/cache/writearound/cache.go:45-47`) is a plain
  setter and is not modelled. The control stage decides when to pause or
  continue the cache; that decision is not modelled, and `Comp.SetPaused`
  stands in for its effect on `isPaused`.
- `monitoring/monitor.go` is not part of this model. It is an HTTP
  introspection server with reflection-based field walking.
