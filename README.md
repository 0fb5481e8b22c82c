# Code-Clinic event state machine in Dafny

Code-Clinic runs a live, multi-team debugging exercise. Its server keeps one
event state: whether the event is initialized, the global round, an event
timer (running flag, start and pause instants), the round-1 and round-2
question lists, and the teams keyed by team id. Any connected client can send
an action. The server applies the action to that state in place. When the
action reports a change, it broadcasts the whole state. This project models
the action dispatcher and the elapsed-time calculation behind it, and proves
what they do.

- `wrappers.dfy` (module `Wrappers`): `Option`. It stands for the source's
  `null` timestamps and for payload lists that may be absent.
- `model.dfy` (module `EventModel`): the state as values. It holds the team,
  event-state and action types and `ElapsedTime`. Each action is a pure step
  function: `JoinOrCreate`, `FinishTeam`/`FinishQuestionStep`, `TimerStep`.
  `Step` dispatches one message and returns the new state with its change
  flag. `Run` applies a sequence of messages. `Inv` holds the invariants that
  the code actually maintains.
- `properties.dfy` (module `EventProperties`): lemmas about the value model.
  They cover invariant preservation over any run, idempotent initialization,
  and a joined user being listed exactly once. They also prove the advance rule
  on any two-member team, the dead end a team can reach, a list update
  that leaves an index out of range, and how the timer measures time.
- `server.dfy` (module `Server`): the class `EventStore`. Its fields are those
  of the source's state object, and its methods update them in place.
  `Apply(a, now)` returns the change flag that triggers a broadcast. It is
  proved to give exactly the state and flag of `Step`, and to keep `Inv`. A
  timer reset clears team progress in a loop over the team ids.

Modelling choices:
- Wall-clock time is a parameter `now`, in milliseconds.
- Timestamps are `Option<int>` milliseconds, not ISO strings.
- A team's `finishTimes` is keyed by the question index `n`, not by the
  string `"q" + n`.
- Teams are values in a map field of the store. In the source they are
  objects that are only reachable through the state, so nothing is aliased.
- An inbound message arrives already decoded, as an `Action`. A message whose
  type matches no case is `UnknownAction`. A message that fails to parse, or
  whose payload cannot be destructured, is `Malformed`. Both leave the state
  unchanged and report no change.

Behaviours of the code that are easy to misread (the model follows the code):
- `start` reads the elapsed time with the running flag already set
  (server.js:111-112), so restarting after a pause keeps the original start
  instant, up to the gap between the handler's two clock reads. The time spent
  paused is therefore counted (`PausedIntervalIsCounted`).
- `finishQuestion` does not check membership (server.js:86), so a finisher
  need not be a member of the team (`FinishAcceptsNonMember`).
- `updateQuestions` replaces the lists without touching any team
  (server.js:102-103), so a team's index can end up beyond the active list
  (`UpdateQuestionsCanLeaveIndexOutOfRange`).
- When the advance is blocked because the index is at the end of the list
  (server.js:90), the finishers stay as many as the members. Later finishes
  only make the list longer, so the equality test at server.js:88 never holds
  again. Only a join to the team or a timer reset moves it on
  (`BlockedAdvanceFillsFinishers`, `FullTeamStaysStuck`).
- A timer reset empties every team's `finishTimes` (server.js:125).

## Model

| member | source | states |
|---|---|---|
| `EventModel.ElapsedTime` | code-clinic-server/src/server.js:38-46 | zero with no start instant; while running, start + result = now; while stopped, start + result = the pause instant, or zero with no pause instant |
| `EventModel.JoinOrCreate` | code-clinic-server/src/server.js:66-80 | an absent team is created with the user as its only member, index 0, no finishers, round 1, no finish times; an existing team gets the user appended only if the user id is absent, otherwise nothing changes and no change is reported; the user is a member afterwards; other teams, an existing team's name and all non-team fields are untouched |
| `EventModel.FinishTeam` | code-clinic-server/src/server.js:86-95 | when the new finisher completes the member count and the index is inside the active list: finish time for the current index, index + 1, finishers emptied; otherwise the finisher is appended and index and finish times are unchanged; id, name, members and round never change |
| `EventModel.FinishQuestionStep` | code-clinic-server/src/server.js:83-98 | a change is reported exactly when the team exists and the user is not yet a finisher; otherwise the state is unchanged; only that team is affected, using the global round's question count and the elapsed time at `now` |
| `EventModel.ResetProgress` | code-clinic-server/src/server.js:122-126 | index 0, no finishers, no finish times; id, name, members and round kept |
| `EventModel.TimerStep` | code-clinic-server/src/server.js:108-127 | start: running, no pause instant, start instant kept if present and `now` otherwise (the two clock reads of `start` taken as one `now`); pause: stopped, pause instant `now`, start kept; reset: stopped, both instants cleared, every team's progress reset, same team ids; unknown sub-action: no change; questions, round and initialization untouched |
| `EventModel.Step` | code-clinic-server/src/server.js:58-131 | no reported change means the state is unchanged; unknown and malformed messages report none; initialize reports a change exactly when not yet initialized; updateQuestions replaces both lists (absent ones become empty) and reports a change; every timer message reports a change; teams are never removed; the round never changes; timer and question fields change only by their own actions |
| `EventModel.InitialState` | code-clinic-server/src/server.js:10-25 | definition only: the initial record |
| `EventModel.ActiveQuestions` | code-clinic-server/src/server.js:89 | definition only: round 1's list when the global round is 1, round 2's otherwise |
| `EventModel.Elapsed` | code-clinic-server/src/server.js:38-46 | definition only: `ElapsedTime` over a whole state's timer fields, as the handler calls it at server.js:91 and 112 |
| `EventModel.AdvanceFires` | code-clinic-server/src/server.js:88-90 | definition only: the advance condition, written from the team before the push: the new finisher completes the member count and the index is inside the active list |
| `EventModel.IsMember` | code-clinic-server/src/server.js:69 | definition only: some member has the given user id |
| `EventModel.ResetAllProgress` | code-clinic-server/src/server.js:122-126 | definition only: `ResetProgress` applied to every team |
| `EventModel.Run` | code-clinic-server/src/server.js:52-140 | definition only: messages handled one after another, in order |
| `Server.EventStore.ElapsedAt` | code-clinic-server/src/server.js:38-46 | definition only: `ElapsedTime` over the store's timer fields |
| `EventProperties.InitialStateSatisfiesInv` | code-clinic-server/src/server.js:10-25 | the initial state satisfies the invariant |
| `EventProperties.StepPreservesInv` | code-clinic-server/src/server.js:58-131 | every message keeps the invariant: no duplicate member ids or finishers, finish times for exactly the questions before the index, every team stored under its own id with a member, no pause instant while running |
| `EventProperties.RunPreservesInv` | code-clinic-server/src/server.js:52-140 | any sequence of messages keeps the invariant |
| `EventProperties.RunKeepsRoundInitializationAndTeams` | code-clinic-server/src/server.js:58-131 | over any sequence of messages the global round is unchanged, an initialized event stays initialized, and no team is removed |
| `EventProperties.ReachableStatesSatisfyInv` | code-clinic-server/src/server.js:10-25 | every state reachable from the initial state satisfies the invariant |
| `EventProperties.InitializeTwice` | code-clinic-server/src/server.js:59-64 | a second initialize leaves the state as the first left it and reports no change |
| `EventProperties.StepOnlyAppendsMembers` | code-clinic-server/src/server.js:66-80 | no message removes a team or reorders or removes its members |
| `EventProperties.RunKeepsMember` | code-clinic-server/src/server.js:52-140 | a member of a team stays a member through any messages |
| `EventProperties.JoinedUserStaysExactlyOnce` | code-clinic-server/src/server.js:66-80 | after a join, whatever follows (repeated joins included), the team lists that user exactly once |
| `EventProperties.TwoMemberTeamAdvances` | code-clinic-server/src/server.js:83-98 | two members finishing (with a duplicate finish ignored in between) move the team one question on, empty its finishers and record the time for the question left |
| `EventProperties.BlockedAdvanceFillsFinishers` | code-clinic-server/src/server.js:88-95 | the last finisher on a team with no question left is recorded without advancing, leaving as many finishers as members |
| `EventProperties.FullTeamStaysStuck` | code-clinic-server/src/server.js:83-98 | a team with at least as many finishers as members is not advanced by any message except a reset or a join to it |
| `EventProperties.FinishAcceptsNonMember` | code-clinic-server/src/server.js:84-87 | a finish from a user id that is not a team member is accepted and recorded |
| `EventProperties.UpdateQuestionsCanLeaveIndexOutOfRange` | code-clinic-server/src/server.js:101-105 | replacing the questions can leave a team's index beyond the active list |
| `EventProperties.PauseFreezesElapsed` | code-clinic-server/src/server.js:115-117 | after a pause, the elapsed time is the start-to-pause span whenever it is read |
| `EventProperties.FirstStartMeasuresFromNow` | code-clinic-server/src/server.js:110-114 | starting a timer with no start instant measures from that moment |
| `EventProperties.PausedIntervalIsCounted` | code-clinic-server/src/server.js:110-117 | start, pause, start, pause records last pause minus first start, the paused gap included |
| `EventProperties.ResetClearsEveryTeam` | code-clinic-server/src/server.js:118-126 | a reset keeps every team and its members and name, clears its progress, and reads zero elapsed time |
| `Server.EventStore.constructor` | code-clinic-server/src/server.js:10-25 | the store starts in the initial state, which satisfies the invariant |
| `Server.EventStore.Apply` | code-clinic-server/src/server.js:52-135 | the new state and the broadcast flag are exactly those of `Step`, and the invariant is kept |
| `Server.EventStore.HandleInitialize` | code-clinic-server/src/server.js:59-64 | initialized afterwards; a change is reported exactly when it was not before; nothing else changes |
| `Server.EventStore.HandleJoin` | code-clinic-server/src/server.js:66-80 | in-place update equal to `JoinOrCreate` |
| `Server.EventStore.HandleFinish` | code-clinic-server/src/server.js:83-98 | in-place update equal to `FinishQuestionStep` |
| `Server.EventStore.HandleUpdateQuestions` | code-clinic-server/src/server.js:101-105 | both lists replaced (absent becomes empty), nothing else changes, a change is reported |
| `Server.EventStore.HandleTimer` | code-clinic-server/src/server.js:108-129 | in-place update equal to `TimerStep`; a change is always reported |
| `Server.EventStore.ResetTeams` | code-clinic-server/src/server.js:122-126 | every team's progress is reset; the team ids and all other fields are unchanged |

## Left out

- The WebSocket server and the port taken from the environment (server.js lines 3-8). These are transport setup.
- `broadcastState` and the state snapshot sent on connect (lines 28-36, 50). These send data over the network; only the change flag that triggers a broadcast is modelled.
- JSON decoding and the `try`/`catch` around it (lines 55, 137-139). Every failure there is the `Malformed` action, which changes nothing.
- Logging (`console.log`, `console.error`) and the `close` handler, which only logs.
- The question texts (lines 17-21). Questions are opaque: the initial state keeps the five titles and leaves the contents empty.
- EventModel.TimerStep: the source's `start` reads the clock twice, once inside `getElapsedTime` (server.js:45) and once at server.js:113. It stores `start + (t2 - t1)`, so every `start` moves an existing start instant forward by the gap between the two reads. The model uses one `now` for both reads, so the gap is zero and the start instant is kept exactly.
- Clocks. `Date.now()` and `new Date()` become the parameter `now`. Timestamps are integers rather than ISO strings, so the range error `toISOString` raises for dates outside its range is not modelled.
- Payload fields that are missing or not strings inside a payload that does exist. In the source they become `undefined` and are used as such (a team keyed "undefined", for instance). Here the fields are strings.
- Team ids that name inherited properties of JavaScript objects (such as "constructor"). The source's lookup finds the inherited property and the handler then throws. Here `teams` is a plain map.
- Question-list payloads that are present but are not arrays. A falsy value counts as absent (`None`). A truthy value that is not an array is not modelled.
- Round 2 progression. No action changes the global or a team's round. The round-2 list is chosen only when the global round is not 1, which never happens.
