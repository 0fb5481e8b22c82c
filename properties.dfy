/**
 * Properties of the event-state machine: the invariants every action keeps,
 * what repeated joins and finishes do, the advance rule and its dead end, and
 * how the timer actually measures time.
 */
module EventProperties {
  import opened Wrappers
  import opened EventModel

  // ---------------------------------------------------------------------------
  // The invariant holds initially and is kept by every message
  // ---------------------------------------------------------------------------

  lemma InitialStateSatisfiesInv()
    ensures Inv(InitialState())
  {
  }

  /** Every message keeps the invariant. */
  lemma StepPreservesInv(s: EventState, a: Action, now: int)
    requires Inv(s)
    ensures Inv(Step(s, a, now).state)
  {
  }

  /** Every sequence of messages keeps the invariant. */
  lemma {:induction false} RunPreservesInv(s: EventState, msgs: seq<Received>)
    requires Inv(s)
    ensures Inv(Run(s, msgs))
    decreases |msgs|
  {
    if msgs != [] {
      StepPreservesInv(s, msgs[0].action, msgs[0].now);
      RunPreservesInv(Step(s, msgs[0].action, msgs[0].now).state, msgs[1..]);
    }
  }

  /** Every state the server can reach from its initial state satisfies the invariant. */
  lemma ReachableStatesSatisfyInv(msgs: seq<Received>)
    ensures Inv(Run(InitialState(), msgs))
  {
    InitialStateSatisfiesInv();
    RunPreservesInv(InitialState(), msgs);
  }

  /**
   * Over any sequence of messages the global round never changes (nothing
   * moves the event to round 2), an initialized event stays initialized, and
   * no team is ever removed.
   */
  lemma {:induction false} RunKeepsRoundInitializationAndTeams(s: EventState, msgs: seq<Received>)
    ensures Run(s, msgs).round == s.round
    ensures s.isInitialized ==> Run(s, msgs).isInitialized
    ensures s.teams.Keys <= Run(s, msgs).teams.Keys
    decreases |msgs|
  {
    if msgs != [] {
      RunKeepsRoundInitializationAndTeams(Step(s, msgs[0].action, msgs[0].now).state, msgs[1..]);
    }
  }

  // ---------------------------------------------------------------------------
  // initializeEvent
  // ---------------------------------------------------------------------------

  /** Initializing twice leaves the event initialized and reports a change at most once. */
  lemma InitializeTwice(s: EventState, t1: int, t2: int)
    ensures var first := Step(s, InitializeEvent, t1);
            var second := Step(first.state, InitializeEvent, t2);
            && second.state.isInitialized
            && second.state == first.state
            && !second.changed
            && first.changed == !s.isInitialized
  {
  }

  // ---------------------------------------------------------------------------
  // joinOrCreateTeam: a joined user is a member exactly once, for ever
  // ---------------------------------------------------------------------------

  lemma UniqueMemberOccursOnce(members: seq<Member>, userId: UserId)
    requires UniqueMemberIds(members) && IsMember(members, userId)
    ensures OccursOnce(members, userId)
  {
  }

  /** Members are never removed nor reordered: a team's member list only grows at its end. */
  lemma StepOnlyAppendsMembers(s: EventState, a: Action, now: int, teamId: TeamId)
    requires teamId in s.teams
    ensures var r := Step(s, a, now).state;
            teamId in r.teams && s.teams[teamId].members <= r.teams[teamId].members
  {
  }

  lemma PrefixKeepsMember(members: seq<Member>, longer: seq<Member>, userId: UserId)
    requires members <= longer && IsMember(members, userId)
    ensures IsMember(longer, userId)
  {
  }

  lemma {:induction false} RunKeepsMember(s: EventState, msgs: seq<Received>, teamId: TeamId, userId: UserId)
    requires teamId in s.teams && IsMember(s.teams[teamId].members, userId)
    ensures teamId in Run(s, msgs).teams && IsMember(Run(s, msgs).teams[teamId].members, userId)
    decreases |msgs|
  {
    if msgs != [] {
      var next := Step(s, msgs[0].action, msgs[0].now).state;
      StepOnlyAppendsMembers(s, msgs[0].action, msgs[0].now, teamId);
      PrefixKeepsMember(s.teams[teamId].members, next.teams[teamId].members, userId);
      RunKeepsMember(next, msgs[1..], teamId, userId);
    }
  }

  /**
   * After a user joins a team, whatever messages follow (further joins by the
   * same user included), the team exists and lists that user exactly once.
   */
  lemma JoinedUserStaysExactlyOnce(s: EventState, teamId: TeamId, teamName: string, userName: string, userId: UserId,
                                   now: int, rest: seq<Received>)
    requires Inv(s)
    ensures var end := Run(Step(s, JoinOrCreateTeam(teamId, teamName, userName, userId), now).state, rest);
            teamId in end.teams && OccursOnce(end.teams[teamId].members, userId)
  {
    var joined := Step(s, JoinOrCreateTeam(teamId, teamName, userName, userId), now).state;
    StepPreservesInv(s, JoinOrCreateTeam(teamId, teamName, userName, userId), now);
    RunPreservesInv(joined, rest);
    RunKeepsMember(joined, rest, teamId, userId);
    var end := Run(joined, rest);
    assert TeamInv(teamId, end.teams[teamId]);
    UniqueMemberOccursOnce(end.teams[teamId].members, userId);
  }

  // ---------------------------------------------------------------------------
  // finishQuestion and the advance rule
  // ---------------------------------------------------------------------------

  /**
   * A two-member team on a question inside the active list: the first member
   * finishes, finishes again (ignored), then the second finishes; the team
   * moves to the next question with the elapsed time of the last finish
   * recorded for the question it left.
   */
  lemma TwoMemberTeamAdvances(s: EventState, teamId: TeamId, t1: int, t2: int, t3: int)
    requires Inv(s) && teamId in s.teams
    requires |s.teams[teamId].members| == 2 && s.teams[teamId].finishedMembers == []
    requires s.teams[teamId].currentQuestionIndex < |ActiveQuestions(s)|
    ensures var team := s.teams[teamId];
            var first := Step(s, FinishQuestion(teamId, team.members[0].userId), t1);
            var again := Step(first.state, FinishQuestion(teamId, team.members[0].userId), t2);
            var second := Step(again.state, FinishQuestion(teamId, team.members[1].userId), t3);
            && first.changed && first.state.teams[teamId].finishedMembers == [team.members[0].userId]
            && !again.changed && again.state == first.state
            && second.changed
            && second.state.teams[teamId].currentQuestionIndex == team.currentQuestionIndex + 1
            && second.state.teams[teamId].finishedMembers == []
            && second.state.teams[teamId].finishTimes == team.finishTimes[team.currentQuestionIndex := Elapsed(s, t3)]
  {
  }

  /**
   * The last missing finisher arriving when the team has no question left to
   * move to is recorded, the advance does not happen, and the finishers now
   * number as many as the members.
   */
  lemma BlockedAdvanceFillsFinishers(s: EventState, teamId: TeamId, userId: UserId, now: int)
    requires teamId in s.teams && userId !in s.teams[teamId].finishedMembers
    requires |s.teams[teamId].finishedMembers| + 1 == |s.teams[teamId].members|
    requires s.teams[teamId].currentQuestionIndex >= |ActiveQuestions(s)|
    ensures var r := Step(s, FinishQuestion(teamId, userId), now);
            && r.changed
            && r.state.teams[teamId].currentQuestionIndex == s.teams[teamId].currentQuestionIndex
            && r.state.teams[teamId].finishTimes == s.teams[teamId].finishTimes
            && |r.state.teams[teamId].finishedMembers| == |r.state.teams[teamId].members|
  {
  }

  /**
   * A team whose finishers already number at least its members is stuck: no
   * message other than a timer reset or a join to that team moves its index
   * or its finish times, and it stays that full.
   */
  lemma FullTeamStaysStuck(s: EventState, a: Action, now: int, teamId: TeamId)
    requires teamId in s.teams
    requires |s.teams[teamId].finishedMembers| >= |s.teams[teamId].members|
    requires !(a.TimerControl? && a.timer.Reset?)
    requires !(a.JoinOrCreateTeam? && a.teamId == teamId)
    ensures var r := Step(s, a, now).state;
            && teamId in r.teams
            && r.teams[teamId].currentQuestionIndex == s.teams[teamId].currentQuestionIndex
            && r.teams[teamId].finishTimes == s.teams[teamId].finishTimes
            && |r.teams[teamId].finishedMembers| >= |r.teams[teamId].members|
  {
  }

  /** The finish is accepted from a user id that is not a member of the team. */
  lemma FinishAcceptsNonMember()
    ensures var team := Team("t", "T", [Member("a", "A"), Member("b", "B")], 0, [], 1, map[]);
            var s := InitialState().(teams := map["t" := team]);
            var r := Step(s, FinishQuestion("t", "z"), 0);
            && Inv(s)
            && !IsMember(team.members, "z")
            && r.changed
            && r.state.teams["t"].finishedMembers == ["z"]
  {
  }

  // ---------------------------------------------------------------------------
  // updateQuestions
  // ---------------------------------------------------------------------------

  /**
   * Replacing the questions touches no team, so a list can shrink below a
   * team's current index: here a team that has passed one question is left
   * pointing past the end of an emptied round-1 list.
   */
  lemma UpdateQuestionsCanLeaveIndexOutOfRange()
    ensures var team := Team("t", "T", [Member("a", "A")], 1, [], 1, map[0 := 500]);
            var s := InitialState().(teams := map["t" := team]);
            var r := Step(s, UpdateQuestions(None, None), 0);
            && Inv(s)
            && team.currentQuestionIndex < |ActiveQuestions(s)|
            && r.changed && Inv(r.state)
            && r.state.teams["t"].currentQuestionIndex > |ActiveQuestions(r.state)|
  {
  }

  // ---------------------------------------------------------------------------
  // The timer
  // ---------------------------------------------------------------------------

  /** Once paused at `t`, the elapsed time stays at the span from the start instant to `t`, whenever it is read. */
  lemma PauseFreezesElapsed(s: EventState, t: int, now: int)
    requires s.startTime.Some?
    ensures Elapsed(Step(s, TimerControl(Pause), t).state, now) == t - s.startTime.value
  {
  }

  /** Starting a timer that has no start instant measures from that moment. */
  lemma FirstStartMeasuresFromNow(s: EventState, t: int, now: int)
    requires s.startTime.None?
    ensures Elapsed(Step(s, TimerControl(Start), t).state, now) == now - t
  {
  }

  /**
   * Start at `t1`, pause at `t2`, start again at `t3`, pause at `t4`: the
   * recorded time is `t4 - t1`, the pause from `t2` to `t3` included, because
   * a restart keeps the original start instant (up to the gap between the
   * handler's two clock reads, which are one `now` here).
   */
  lemma PausedIntervalIsCounted(s: EventState, t1: int, t2: int, t3: int, t4: int, now: int)
    requires s.startTime.None?
    ensures var s1 := Step(s, TimerControl(Start), t1).state;
            var s2 := Step(s1, TimerControl(Pause), t2).state;
            var s3 := Step(s2, TimerControl(Start), t3).state;
            var s4 := Step(s3, TimerControl(Pause), t4).state;
            && Elapsed(s2, now) == t2 - t1
            && Elapsed(s4, now) == t4 - t1
  {
  }

  /** A reset puts every team back at its first question, whatever its progress, and stops the timer at zero. */
  lemma ResetClearsEveryTeam(s: EventState, now: int, later: int)
    ensures var r := Step(s, TimerControl(Reset), now).state;
            && r.teams.Keys == s.teams.Keys
            && (forall id :: id in r.teams ==>
                  && r.teams[id].currentQuestionIndex == 0
                  && r.teams[id].finishedMembers == []
                  && r.teams[id].finishTimes == map[]
                  && r.teams[id].members == s.teams[id].members
                  && r.teams[id].name == s.teams[id].name)
            && Elapsed(r, later) == 0
  {
  }
}
