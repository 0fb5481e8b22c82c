/**
 * The server's single event-state object, updated in place by the message
 * handler.  Each handler method mirrors one case of the dispatcher and is
 * proved to produce exactly the state and change flag of the value model.
 */
module Server {
  import opened Wrappers
  import opened EventModel

  class EventStore {
    var isInitialized: bool
    var round: int
    var timerRunning: bool
    var startTime: Option<int>
    var pauseTime: Option<int>
    var round1Questions: seq<Question>
    var round2Questions: seq<Question>
    var teams: map<TeamId, Team>

    /** The current state as a value. */
    ghost function Value(): EventState
      reads this
    {
      EventState(isInitialized, round, timerRunning, startTime, pauseTime, round1Questions, round2Questions, teams)
    }

    ghost predicate Valid()
      reads this
    {
      Inv(Value())
    }

    constructor ()
      ensures Value() == InitialState() && Valid()
    {
      isInitialized := false;
      round := 1;
      timerRunning := false;
      startTime := None;
      pauseTime := None;
      round1Questions := InitialState().round1Questions;
      round2Questions := [];
      teams := map[];
    }

    /** The timer reading at `now`, from the current timer fields. */
    function ElapsedAt(now: int): int
      reads this
    {
      ElapsedTime(timerRunning, startTime, pauseTime, now)
    }

    /**
     * Handles one decoded message received at `now`; `changed` is whether the
     * new state is to be broadcast.
     */
    method Apply(a: Action, now: int) returns (changed: bool)
      modifies this
      ensures Applied(Value(), changed) == Step(old(Value()), a, now)
      ensures old(Valid()) ==> Valid()
    {
      match a {
        case InitializeEvent =>
          changed := HandleInitialize();
        case JoinOrCreateTeam(teamId, teamName, userName, userId) =>
          changed := HandleJoin(teamId, teamName, userName, userId);
        case FinishQuestion(teamId, userId) =>
          changed := HandleFinish(teamId, userId, now);
        case UpdateQuestions(round1, round2) =>
          changed := HandleUpdateQuestions(round1, round2);
        case TimerControl(timer) =>
          changed := HandleTimer(timer, now);
        case UnknownAction =>
          changed := false;
        case Malformed =>
          changed := false;
      }
    }

    /** Sets the event initialized, reporting a change only if it was not yet. */
    method HandleInitialize() returns (changed: bool)
      modifies this
      ensures isInitialized && changed == !old(isInitialized)
      ensures Value() == old(Value()).(isInitialized := true)
    {
      changed := false;
      if !isInitialized {
        isInitialized := true;
        changed := true;
      }
    }

    /** Adds the user to the team, creating the team on its first join. */
    method HandleJoin(teamId: TeamId, teamName: string, userName: string, userId: UserId) returns (changed: bool)
      modifies this
      ensures Applied(Value(), changed) == JoinOrCreate(old(Value()), teamId, teamName, userName, userId)
    {
      changed := false;
      if teamId in teams {
        var team := teams[teamId];
        if !IsMember(team.members, userId) {
          team := team.(members := team.members + [Member(userId, userName)]);
          teams := teams[teamId := team];
          changed := true;
        }
      } else {
        teams := teams[teamId := Team(teamId, teamName, [Member(userId, userName)], 0, [], 1, map[])];
        changed := true;
      }
    }

    /** Records a finish and, when the whole team has finished, advances it. */
    method HandleFinish(teamId: TeamId, userId: UserId, now: int) returns (changed: bool)
      modifies this
      ensures Applied(Value(), changed) == FinishQuestionStep(old(Value()), teamId, userId, now)
    {
      changed := false;
      if teamId in teams && userId !in teams[teamId].finishedMembers {
        var team := teams[teamId];
        team := team.(finishedMembers := team.finishedMembers + [userId]);
        if |team.finishedMembers| == |team.members| {
          var questions := if round == 1 then round1Questions else round2Questions;
          if team.currentQuestionIndex < |questions| {
            team := team.(finishTimes := team.finishTimes[team.currentQuestionIndex := ElapsedAt(now)]);
            team := team.(currentQuestionIndex := team.currentQuestionIndex + 1);
            team := team.(finishedMembers := []);
          }
        }
        teams := teams[teamId := team];
        changed := true;
      }
    }

    /** Replaces both question lists; a list the payload leaves out becomes empty. */
    method HandleUpdateQuestions(round1: Option<seq<Question>>, round2: Option<seq<Question>>) returns (changed: bool)
      modifies this
      ensures changed
      ensures Value() == old(Value()).(round1Questions := round1.GetOr([]), round2Questions := round2.GetOr([]))
    {
      round1Questions := round1.GetOr([]);
      round2Questions := round2.GetOr([]);
      changed := true;
    }

    /** Starts, pauses or resets the timer; every timer message reports a change. */
    method HandleTimer(timer: TimerAction, now: int) returns (changed: bool)
      modifies this
      ensures Value() == TimerStep(old(Value()), timer, now)
      ensures changed
    {
      match timer {
        case Start =>
          timerRunning := true;
          var previouslyElapsed := ElapsedAt(now);
          startTime := Some(now - previouslyElapsed);
          pauseTime := None;
        case Pause =>
          timerRunning := false;
          pauseTime := Some(now);
        case Reset =>
          timerRunning := false;
          startTime := None;
          pauseTime := None;
          ResetTeams();
        case OtherTimerAction =>
      }
      changed := true;
    }

    /** Clears the progress of every team, one team at a time. */
    method ResetTeams()
      modifies this
      ensures teams == ResetAllProgress(old(teams))
      ensures Value() == old(Value()).(teams := teams)
    {
      ghost var before := teams;
      var pending := teams.Keys;
      while pending != {}
        invariant pending <= teams.Keys == before.Keys
        invariant forall id :: id in pending ==> teams[id] == before[id]
        invariant forall id :: id in teams && id !in pending ==> teams[id] == ResetProgress(before[id])
        invariant Value() == old(Value()).(teams := teams)
        decreases pending
      {
        var id :| id in pending;
        teams := teams[id := ResetProgress(teams[id])];
        pending := pending - {id};
      }
    }
  }
}
