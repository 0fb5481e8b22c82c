/**
 * Value model of the Code-Clinic event state and of the action dispatcher that
 * the server applies to it.  Every action is a pure step from one state to the
 * next, together with the flag that decides whether the new state is broadcast.
 * Wall-clock time is an explicit `now` in milliseconds.
 */
module EventModel {
  import opened Wrappers

  type TeamId = string
  type UserId = string

  /** A question is opaque payload data. */
  datatype Question = Question(title: string, content: string)

  datatype Member = Member(userId: UserId, userName: string)

  /** `finishTimes` is keyed by the question index (the source keys it by the string "q" + index). */
  datatype Team = Team(
    id: TeamId,
    name: string,
    members: seq<Member>,
    currentQuestionIndex: nat,
    finishedMembers: seq<UserId>,
    round: int,
    finishTimes: map<nat, int>)

  /** Timestamps are milliseconds since the epoch; `None` is the source's `null`. */
  datatype EventState = EventState(
    isInitialized: bool,
    round: int,
    timerRunning: bool,
    startTime: Option<int>,
    pauseTime: Option<int>,
    round1Questions: seq<Question>,
    round2Questions: seq<Question>,
    teams: map<TeamId, Team>)

  /** The `action` field of a `timerControl` payload; any other string is `OtherTimerAction`. */
  datatype TimerAction = Start | Pause | Reset | OtherTimerAction

  /**
   * An inbound message after decoding.  `UnknownAction` is a well-formed message
   * whose type matches no case; `Malformed` is one that fails to parse or whose
   * payload cannot be destructured (the handler catches the exception).
   */
  datatype Action =
    | InitializeEvent
    | JoinOrCreateTeam(teamId: TeamId, teamName: string, userName: string, userId: UserId)
    | FinishQuestion(teamId: TeamId, userId: UserId)
    | UpdateQuestions(round1: Option<seq<Question>>, round2: Option<seq<Question>>)
    | TimerControl(timer: TimerAction)
    | UnknownAction
    | Malformed

  /** The state after an action and whether the action reported a change (and so a broadcast). */
  datatype Applied = Applied(state: EventState, changed: bool)

  /** A message together with the instant at which it is handled. */
  datatype Received = Received(action: Action, now: int)

  /** The state the server starts with: not initialized, round 1, timer stopped, five round-1 questions, no teams. */
  function InitialState(): EventState {
    EventState(false, 1, false, None, None,
      [Question("Infinite Loop", ""), Question("Off-by-One Error", ""),
       Question("Null Pointer Exception", ""), Question("Incorrect API Endpoint", ""),
       Question("CSS Z-Index Issue", "")],
      [], map[])
  }

  // ---------------------------------------------------------------------------
  // Invariants of the state (those the code actually maintains)
  // ---------------------------------------------------------------------------

  predicate IsMember(members: seq<Member>, userId: UserId) {
    exists i :: 0 <= i < |members| && members[i].userId == userId
  }

  predicate UniqueMemberIds(members: seq<Member>) {
    forall i, j :: 0 <= i < j < |members| ==> members[i].userId != members[j].userId
  }

  /** `userId` is the user id of exactly one entry of `members`. */
  predicate OccursOnce(members: seq<Member>, userId: UserId) {
    IsMember(members, userId) &&
    forall i, j :: 0 <= i < |members| && 0 <= j < |members| && members[i].userId == userId && members[j].userId == userId ==> i == j
  }

  predicate NoDuplicates(ids: seq<UserId>) {
    forall i, j :: 0 <= i < j < |ids| ==> ids[i] != ids[j]
  }

  /** `finishTimes` holds a time for exactly the questions before question `n`. */
  predicate TimesForQuestionsBefore(finishTimes: map<nat, int>, n: nat) {
    && (forall q :: q in finishTimes ==> q < n)
    && (forall q: nat :: q < n ==> q in finishTimes)
  }

  predicate TeamInv(id: TeamId, team: Team) {
    && team.id == id
    && team.round == 1
    && |team.members| > 0
    && UniqueMemberIds(team.members)
    && NoDuplicates(team.finishedMembers)
    && TimesForQuestionsBefore(team.finishTimes, team.currentQuestionIndex)
  }

  /**
   * The running timer has no pause instant, and every team is stored under its
   * own id, has a member, no duplicate user ids, no duplicate finishers, and a
   * finish time for exactly the questions it has passed.
   */
  predicate Inv(s: EventState) {
    && (s.timerRunning ==> s.pauseTime.None?)
    && forall id :: id in s.teams ==> TeamInv(id, s.teams[id])
  }

  // ---------------------------------------------------------------------------
  // Elapsed time
  // ---------------------------------------------------------------------------

  /**
   * Milliseconds on the event timer: zero before any start, the distance from
   * the start instant to the pause instant while stopped (zero when there is
   * no pause instant), and to `now` while running.
   */
  function ElapsedTime(running: bool, startTime: Option<int>, pauseTime: Option<int>, now: int): (d: int)
    ensures startTime.None? ==> d == 0
    ensures startTime.Some? && running ==> startTime.value + d == now
    ensures startTime.Some? && !running && pauseTime.Some? ==> startTime.value + d == pauseTime.value
    ensures !running && pauseTime.None? ==> d == 0
  {
    match startTime
    case None => 0
    case Some(start) =>
      if !running then
        var pause := if pauseTime.Some? then pauseTime.value else start;
        pause - start
      else
        now - start
  }

  function Elapsed(s: EventState, now: int): int {
    ElapsedTime(s.timerRunning, s.startTime, s.pauseTime, now)
  }

  /** The question list of the global round: round 1's when the round is 1, round 2's otherwise. */
  function ActiveQuestions(s: EventState): seq<Question> {
    if s.round == 1 then s.round1Questions else s.round2Questions
  }

  // ---------------------------------------------------------------------------
  // joinOrCreateTeam
  // ---------------------------------------------------------------------------

  /**
   * A first join creates the team with the joining user as its only member; a
   * later join appends the user unless the user id is already there.  No other
   * team and no other field is touched, and an existing team keeps its name.
   */
  function JoinOrCreate(s: EventState, teamId: TeamId, teamName: string, userName: string, userId: UserId): (r: Applied)
    ensures r.state == s.(teams := r.state.teams)
    ensures r.state.teams.Keys == s.teams.Keys + {teamId}
    ensures forall id :: id in s.teams && id != teamId ==> r.state.teams[id] == s.teams[id]
    ensures IsMember(r.state.teams[teamId].members, userId)
    ensures teamId !in s.teams ==>
      r.changed && r.state.teams[teamId] == Team(teamId, teamName, [Member(userId, userName)], 0, [], 1, map[])
    ensures teamId in s.teams && IsMember(s.teams[teamId].members, userId) ==>
      !r.changed && r.state == s
    ensures teamId in s.teams && !IsMember(s.teams[teamId].members, userId) ==>
      var oldTeam := s.teams[teamId];
      r.changed && r.state.teams[teamId] == oldTeam.(members := oldTeam.members + [Member(userId, userName)])
  {
    if teamId in s.teams then
      var team := s.teams[teamId];
      if !IsMember(team.members, userId) then
        var team' := team.(members := team.members + [Member(userId, userName)]);
        assert team'.members[|team.members|].userId == userId;
        Applied(s.(teams := s.teams[teamId := team']), true)
      else
        Applied(s, false)
    else
      var team := Team(teamId, teamName, [Member(userId, userName)], 0, [], 1, map[]);
      assert team.members[0].userId == userId;
      Applied(s.(teams := s.teams[teamId := team]), true)
  }

  // ---------------------------------------------------------------------------
  // finishQuestion
  // ---------------------------------------------------------------------------

  /**
   * The advance rule: the finisher being recorded completes the member count
   * and the team's index is still inside the active question list.
   */
  predicate AdvanceFires(team: Team, questionCount: nat) {
    |team.finishedMembers| + 1 == |team.members| && team.currentQuestionIndex < questionCount
  }

  /**
   * Records `userId` as having finished.  When that completes the team, the
   * elapsed time is stored for the current question, the index moves on by one
   * and the finishers are cleared; otherwise the finisher is appended and the
   * progress is untouched.  Identity and membership never change.
   */
  function FinishTeam(team: Team, userId: UserId, questionCount: nat, elapsed: int): (r: Team)
    ensures r.id == team.id && r.name == team.name && r.members == team.members && r.round == team.round
    ensures AdvanceFires(team, questionCount) ==>
      && r.currentQuestionIndex == team.currentQuestionIndex + 1
      && r.finishedMembers == []
      && r.finishTimes == team.finishTimes[team.currentQuestionIndex := elapsed]
    ensures !AdvanceFires(team, questionCount) ==>
      && r.currentQuestionIndex == team.currentQuestionIndex
      && r.finishTimes == team.finishTimes
      && r.finishedMembers == team.finishedMembers + [userId]
  {
    var finished := team.finishedMembers + [userId];
    if |finished| == |team.members| && team.currentQuestionIndex < questionCount then
      team.(finishTimes := team.finishTimes[team.currentQuestionIndex := elapsed],
            currentQuestionIndex := team.currentQuestionIndex + 1,
            finishedMembers := [])
    else
      team.(finishedMembers := finished)
  }

  /**
   * A finish for an unknown team, or by a user already among the finishers, is
   * ignored and reports no change; any other finish is recorded on that team
   * alone and reports a change, whether or not the team advances.
   */
  function FinishQuestionStep(s: EventState, teamId: TeamId, userId: UserId, now: int): (r: Applied)
    ensures r.changed <==> teamId in s.teams && userId !in s.teams[teamId].finishedMembers
    ensures !r.changed ==> r.state == s
    ensures r.state == s.(teams := r.state.teams)
    ensures r.state.teams.Keys == s.teams.Keys
    ensures forall id :: id in s.teams && id != teamId ==> r.state.teams[id] == s.teams[id]
    ensures r.changed ==>
      r.state.teams[teamId] == FinishTeam(s.teams[teamId], userId, |ActiveQuestions(s)|, Elapsed(s, now))
  {
    if teamId in s.teams && userId !in s.teams[teamId].finishedMembers then
      var team := FinishTeam(s.teams[teamId], userId, |ActiveQuestions(s)|, Elapsed(s, now));
      Applied(s.(teams := s.teams[teamId := team]), true)
    else
      Applied(s, false)
  }

  // ---------------------------------------------------------------------------
  // timerControl
  // ---------------------------------------------------------------------------

  /** A team's progress is cleared; its identity and members are kept. */
  function ResetProgress(team: Team): (r: Team)
    ensures r.currentQuestionIndex == 0 && r.finishedMembers == [] && r.finishTimes == map[]
    ensures r.id == team.id && r.name == team.name && r.members == team.members && r.round == team.round
  {
    team.(currentQuestionIndex := 0, finishedMembers := [], finishTimes := map[])
  }

  function ResetAllProgress(teams: map<TeamId, Team>): map<TeamId, Team> {
    map id | id in teams :: ResetProgress(teams[id])
  }

  /**
   * `start` marks the timer running, clears the pause instant and re-derives
   * the start instant from the elapsed time computed after the running flag is
   * already set, so an existing start instant is kept (up to the gap between
   * the handler's two clock reads, which are one `now` here) and a missing one
   * becomes `now`.  `pause` stops the timer at `now`.  `reset` clears the
   * timer and every team's progress.  Any other sub-action changes nothing.
   */
  function TimerStep(s: EventState, timer: TimerAction, now: int): (r: EventState)
    ensures r.isInitialized == s.isInitialized && r.round == s.round
    ensures r.round1Questions == s.round1Questions && r.round2Questions == s.round2Questions
    ensures timer.Start? ==>
      && r.timerRunning && r.pauseTime.None?
      && r.startTime == (if s.startTime.Some? then s.startTime else Some(now))
      && r.teams == s.teams
    ensures timer.Pause? ==>
      && !r.timerRunning && r.pauseTime == Some(now)
      && r.startTime == s.startTime
      && r.teams == s.teams
    ensures timer.Reset? ==>
      && !r.timerRunning && r.startTime.None? && r.pauseTime.None?
      && r.teams.Keys == s.teams.Keys
      && forall id :: id in r.teams ==> r.teams[id] == ResetProgress(s.teams[id])
    ensures timer.OtherTimerAction? ==> r == s
  {
    match timer
    case Start =>
      var running := s.(timerRunning := true);
      var previouslyElapsed := Elapsed(running, now);
      running.(startTime := Some(now - previouslyElapsed), pauseTime := None)
    case Pause =>
      s.(timerRunning := false, pauseTime := Some(now))
    case Reset =>
      s.(timerRunning := false, startTime := None, pauseTime := None, teams := ResetAllProgress(s.teams))
    case OtherTimerAction =>
      s
  }

  // ---------------------------------------------------------------------------
  // The dispatcher
  // ---------------------------------------------------------------------------

  /**
   * One inbound message.  Unknown and malformed messages change nothing and
   * report no change; `initializeEvent` reports a change only the first time;
   * `updateQuestions` and every `timerControl` always report one.  A reported
   * "no change" always means the state is untouched, teams are never removed,
   * and the global round is never changed.
   */
  function Step(s: EventState, a: Action, now: int): (r: Applied)
    ensures !r.changed ==> r.state == s
    ensures r.state.round == s.round
    ensures s.teams.Keys <= r.state.teams.Keys
    ensures a.UnknownAction? || a.Malformed? ==> !r.changed
    ensures a.InitializeEvent? ==> r.changed == !s.isInitialized && r.state == s.(isInitialized := true)
    ensures !a.InitializeEvent? ==> r.state.isInitialized == s.isInitialized
    ensures a.UpdateQuestions? ==>
      r.changed && r.state == s.(round1Questions := a.round1.GetOr([]), round2Questions := a.round2.GetOr([]))
    ensures !a.UpdateQuestions? ==>
      r.state.round1Questions == s.round1Questions && r.state.round2Questions == s.round2Questions
    ensures a.TimerControl? ==> r.changed
    ensures !a.TimerControl? ==>
      r.state.timerRunning == s.timerRunning && r.state.startTime == s.startTime && r.state.pauseTime == s.pauseTime
  {
    match a
    case InitializeEvent =>
      if !s.isInitialized then Applied(s.(isInitialized := true), true) else Applied(s, false)
    case JoinOrCreateTeam(teamId, teamName, userName, userId) =>
      JoinOrCreate(s, teamId, teamName, userName, userId)
    case FinishQuestion(teamId, userId) =>
      FinishQuestionStep(s, teamId, userId, now)
    case UpdateQuestions(round1, round2) =>
      Applied(s.(round1Questions := round1.GetOr([]), round2Questions := round2.GetOr([])), true)
    case TimerControl(timer) =>
      Applied(TimerStep(s, timer, now), true)
    case UnknownAction =>
      Applied(s, false)
    case Malformed =>
      Applied(s, false)
  }

  /** The state after handling `msgs` in order. */
  function Run(s: EventState, msgs: seq<Received>): EventState
    decreases |msgs|
  {
    if msgs == [] then s else Run(Step(s, msgs[0].action, msgs[0].now).state, msgs[1..])
  }
}
