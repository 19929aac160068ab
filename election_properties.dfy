/**
 * What the election state machine guarantees: the majority arithmetic, the
 * counting of probe and vote replies, the effect of each inbound request,
 * the outcome of a vote round and of one timer-loop iteration, and the
 * invariant kept by any run of iterations and inbound requests.
 */
module ElectionProperties {
  import opened Election

  // ---------------------------------------------------------------------
  // Majority
  // ---------------------------------------------------------------------

  /** `countServices/2 < k` with integer division means "more than half". */
  lemma MajorityIsMoreThanHalf(countServices: nat, k: int)
    ensures Majority(countServices, k) <==> countServices < 2 * k
  {
  }

  /** The thresholds for small clusters: 1 of 1, 2 of 2, 2 of 3, 3 of 4, 3 of 5. */
  lemma MajorityThresholds(k: int)
    ensures Majority(1, k) <==> k >= 1
    ensures Majority(2, k) <==> k >= 2
    ensures Majority(3, k) <==> k >= 2
    ensures Majority(4, k) <==> k >= 3
    ensures Majority(5, k) <==> k >= 3
  {
  }

  /**
   * Two tallies over the same peer list whose counts together exceed the
   * number of peers have a peer counted in both.
   */
  lemma {:induction false} CountsOverlap<T, U>(a: seq<T>, p: T -> bool, b: seq<U>, q: U -> bool)
    requires |a| == |b|
    requires Count(a, p) + Count(b, q) > |a|
    ensures exists i :: 0 <= i < |a| && p(a[i]) && q(b[i])
    decreases |a|
  {
    var n := |a| - 1;
    if !(p(a[n]) && q(b[n])) {
      CountsOverlap(a[..n], p, b[..n], q);
      var i :| 0 <= i < n && p(a[..n][i]) && q(b[..n][i]);
      assert a[..n][i] == a[i] && b[..n][i] == b[i];
    }
  }

  /**
   * Two rounds over the same peers (probes or votes, one outcome per entry of
   * the peer list) that both pass the majority test have a peer that
   * succeeded in both rounds.
   */
  lemma QuorumsIntersect<T, U>(countServices: nat, a: seq<T>, p: T -> bool, b: seq<U>, q: U -> bool)
    requires |a| == countServices && |b| == countServices
    requires Majority(countServices, Count(a, p)) && Majority(countServices, Count(b, q))
    ensures exists i :: 0 <= i < countServices && p(a[i]) && q(b[i])
  {
    CountsOverlap(a, p, b, q);
  }

  // ---------------------------------------------------------------------
  // Counting replies
  // ---------------------------------------------------------------------

  lemma {:induction false} CountAppend<T>(a: seq<T>, b: seq<T>, p: T -> bool)
    ensures Count(a + b, p) == Count(a, p) + Count(b, p)
    decreases |b|
  {
    if b == [] {
      assert a + b == a;
    } else {
      var b' := b[..|b| - 1];
      assert (a + b)[..|a + b| - 1] == a + b';
      CountAppend(a, b', p);
    }
  }

  /** A failed call anywhere in the round adds nothing to the count. */
  lemma CountSkipsFailures<T>(a: seq<T>, x: T, b: seq<T>, p: T -> bool)
    requires !p(x)
    ensures Count(a + [x] + b, p) == Count(a + b, p)
  {
    CountAppend(a + [x], b, p);
    CountAppend(a, [x], p);
    CountAppend(a, b, p);
    assert [x][..0] == [];
  }

  /** The count reaches the number of calls exactly when every call succeeded. */
  lemma {:induction false} CountIsLengthIffAll<T>(s: seq<T>, p: T -> bool)
    ensures Count(s, p) == |s| <==> forall i :: 0 <= i < |s| ==> p(s[i])
    decreases |s|
  {
    if s != [] {
      var s' := s[..|s| - 1];
      CountIsLengthIffAll(s', p);
      if forall i :: 0 <= i < |s| ==> p(s[i]) {
        assert forall i :: 0 <= i < |s'| ==> p(s'[i]) by {
          forall i | 0 <= i < |s'| ensures p(s'[i]) {
            assert s'[i] == s[i];
          }
        }
      } else if Count(s, p) == |s| {
        assert Count(s', p) == |s'| && p(s[|s| - 1]);
        forall i | 0 <= i < |s| ensures p(s[i]) {
          if i < |s| - 1 {
            assert s'[i] == s[i];
          }
        }
        assert false;
      }
    }
  }

  /** The count is zero exactly when no call succeeded. */
  lemma {:induction false} CountIsZeroIffNone<T>(s: seq<T>, p: T -> bool)
    ensures Count(s, p) == 0 <==> forall i :: 0 <= i < |s| ==> !p(s[i])
    decreases |s|
  {
    if s != [] {
      var s' := s[..|s| - 1];
      CountIsZeroIffNone(s', p);
      assert forall i :: 0 <= i < |s'| ==> s'[i] == s[i];
    }
  }

  /** A leader whose every probe is answered keeps its quorum. */
  lemma AllAnsweredIsQuorum(countServices: nat, pings: seq<PingOutcome>)
    requires |pings| == countServices >= 1
    requires forall i :: 0 <= i < |pings| ==> Answered(pings[i])
    ensures Majority(countServices, Count(pings, Answered))
  {
    CountIsLengthIffAll(pings, Answered);
  }

  /** A leader none of whose probes is answered has no quorum. */
  lemma NoneAnsweredIsNoQuorum(countServices: nat, pings: seq<PingOutcome>)
    requires forall i :: 0 <= i < |pings| ==> !Answered(pings[i])
    ensures !Majority(countServices, Count(pings, Answered))
  {
    CountIsZeroIffNone(pings, Answered);
  }

  // ---------------------------------------------------------------------
  // Inbound handler
  // ---------------------------------------------------------------------

  /** A node's own heartbeat looping back changes nothing and earns no vote. */
  lemma OwnAnnouncementIsNoOp(self: int, s: NodeState)
    ensures Handle(self, s, LeaderAnnouncement(self)) == s
    ensures !GrantsVote(s, LeaderAnnouncement(self))
  {
  }

  /** An announcement from any other port makes the node a follower that has seen a leader. */
  lemma ForeignAnnouncementDemotes(self: int, s: NodeState, req: Request)
    requires req.serverStatus == "leader" && req.senderPort != Some(self)
    ensures Handle(self, s, req) == NodeState(Follower, true)
    ensures !GrantsVote(s, req)
  {
  }

  /** A vote request keeps the role, sets the flag, and is granted iff the node is not leader. */
  lemma VoteRequestHandling(self: int, s: NodeState, req: Request)
    requires req.serverStatus == "candidate"
    ensures Handle(self, s, req) == NodeState(s.status, true)
    ensures GrantsVote(s, req) <==> s.status != Leader
  {
  }

  /** A request whose `server_status` is neither "leader" nor "candidate" changes nothing. */
  lemma UnrecognisedStatusIsIgnored(self: int, s: NodeState, req: Request)
    requires req.serverStatus != "leader" && req.serverStatus != "candidate"
    ensures Handle(self, s, req) == s
    ensures !GrantsVote(s, req)
  {
  }

  /** The handler never promotes: it only keeps the role or demotes to follower. */
  lemma HandleNeverPromotes(self: int, s: NodeState, req: Request)
    ensures Handle(self, s, req).status == s.status || Handle(self, s, req).status == Follower
    ensures Handle(self, s, req).status == s.status <==> !ForeignLeader(self, req) || s.status == Follower
  {
  }

  /** Demoting and then handling a request is the same as handling it and then demoting. */
  lemma DemotionCommutesWithHandling(self: int, s: NodeState, req: Request)
    ensures Handle(self, s.(status := Follower), req) == Handle(self, s, req).(status := Follower)
  {
  }

  lemma AnyOfPrefix(self: int, reqs: seq<Request>)
    requires reqs != []
    ensures AnyForeignLeader(self, reqs) <==>
      AnyForeignLeader(self, reqs[..|reqs| - 1]) || ForeignLeader(self, reqs[|reqs| - 1])
    ensures AnyLiveness(self, reqs) <==>
      AnyLiveness(self, reqs[..|reqs| - 1]) || AssertsLiveness(self, reqs[|reqs| - 1])
  {
    var init := reqs[..|reqs| - 1];
    assert forall i :: 0 <= i < |init| ==> init[i] == reqs[i];
    if AnyForeignLeader(self, reqs) {
      var i :| 0 <= i < |reqs| && ForeignLeader(self, reqs[i]);
      if i < |init| {
        assert ForeignLeader(self, init[i]);
      }
    }
    if AnyLiveness(self, reqs) {
      var i :| 0 <= i < |reqs| && AssertsLiveness(self, reqs[i]);
      if i < |init| {
        assert AssertsLiveness(self, init[i]);
      }
    }
  }

  /**
   * After a batch of inbound requests the node is a follower iff some request
   * announced a foreign leader (otherwise its role is unchanged), and its flag
   * is set iff it was set before or some request asserted liveness.
   */
  lemma {:induction false} HandleAllEffect(self: int, s: NodeState, reqs: seq<Request>)
    ensures HandleAll(self, s, reqs).status == if AnyForeignLeader(self, reqs) then Follower else s.status
    ensures HandleAll(self, s, reqs).leaderIsLive == (s.leaderIsLive || AnyLiveness(self, reqs))
    decreases |reqs|
  {
    if reqs != [] {
      HandleAllEffect(self, s, reqs[..|reqs| - 1]);
      AnyOfPrefix(self, reqs);
    }
  }

  // ---------------------------------------------------------------------
  // Vote round
  // ---------------------------------------------------------------------

  /**
   * A round ends with the node leader iff the votes form a majority and no
   * foreign leader announced itself during the round; otherwise follower.
   * It never ends as candidate, and the flag records liveness seen in the round.
   */
  lemma VoteRoundOutcome(self: int, countServices: nat, s: NodeState, votes: seq<VoteOutcome>, during: seq<Request>)
    ensures VoteRound(self, countServices, s, votes, during).status ==
      if Majority(countServices, Count(votes, Granted)) && !AnyForeignLeader(self, during) then Leader else Follower
    ensures VoteRound(self, countServices, s, votes, during).leaderIsLive == (s.leaderIsLive || AnyLiveness(self, during))
  {
    HandleAllEffect(self, StartRound(s), during);
  }

  /** A foreign leader heard mid-round wins over any tally. */
  lemma MidRoundAnnouncementDemotes(self: int, countServices: nat, s: NodeState, votes: seq<VoteOutcome>,
                                    before: seq<Request>, leaderPort: int, after: seq<Request>)
    requires leaderPort != self
    ensures VoteRound(self, countServices, s, votes, before + [LeaderAnnouncement(leaderPort)] + after).status == Follower
  {
    var during := before + [LeaderAnnouncement(leaderPort)] + after;
    assert ForeignLeader(self, during[|before|]);
    VoteRoundOutcome(self, countServices, s, votes, during);
  }

  /**
   * A foreign announcement handled after the last liveness check but before
   * the round makes the node candidate is overwritten by that step.  The
   * round then ends as if a vote request had been handled at its start.
   */
  lemma AnnouncementBeforeRoundIsOverwritten(self: int, countServices: nat, s: NodeState, leaderPort: int,
                                             votes: seq<VoteOutcome>, during: seq<Request>)
    requires leaderPort != self
    ensures FinishRound(countServices, HandleAll(self, StartRound(Handle(self, s, LeaderAnnouncement(leaderPort))), during),
                        Count(votes, Granted))
            == VoteRound(self, countServices, s, votes, [VoteRequest] + during)
  {
    var with := [VoteRequest] + during;
    assert AssertsLiveness(self, with[0]);
    assert AnyForeignLeader(self, with) <==> AnyForeignLeader(self, during) by {
      forall i | 0 <= i < |with| && ForeignLeader(self, with[i])
        ensures AnyForeignLeader(self, during)
      {
        assert during[i - 1] == with[i];
      }
      forall i | 0 <= i < |during| && ForeignLeader(self, during[i])
        ensures AnyForeignLeader(self, with)
      {
        assert with[i + 1] == during[i];
      }
    }
    HandleAllEffect(self, StartRound(Handle(self, s, LeaderAnnouncement(leaderPort))), during);
    VoteRoundOutcome(self, countServices, s, votes, with);
  }

  /**
   * A foreign announcement handled after the round's closing check passed but
   * before the node is made leader is overwritten by the promotion.  The node
   * ends as a live leader, as if a vote request had been handled at the end
   * of the round.
   */
  lemma AnnouncementAfterClosingCheckIsOverwritten(self: int, countServices: nat, s: NodeState, leaderPort: int,
                                                   votes: seq<VoteOutcome>, during: seq<Request>)
    requires leaderPort != self
    requires Majority(countServices, Count(votes, Granted))
    requires HandleAll(self, StartRound(s), during).status == Candidate
    ensures Handle(self, HandleAll(self, StartRound(s), during), LeaderAnnouncement(leaderPort)).(status := Leader)
            == NodeState(Leader, true)
    ensures VoteRound(self, countServices, s, votes, during + [VoteRequest]) == NodeState(Leader, true)
  {
    HandleAllEffect(self, StartRound(s), during);
    var with := during + [VoteRequest];
    AnyOfPrefix(self, with);
    assert with[..|with| - 1] == during;
    VoteRoundOutcome(self, countServices, s, votes, with);
  }

  // ---------------------------------------------------------------------
  // One iteration of the timer loop
  // ---------------------------------------------------------------------

  /** A flag left over from the previous iteration has no effect: the iteration clears it first. */
  lemma IterationClearsLivenessFirst(self: int, countServices: nat, s: NodeState, r: Round)
    ensures Iterate(self, countServices, s, r) == Iterate(self, countServices, s.(leaderIsLive := true), r)
  {
  }

  /**
   * The iteration yields exactly when the first waits saw liveness; it then
   * changes the role only as the handled requests did.
   */
  lemma YieldOnLiveness(self: int, countServices: nat, s: NodeState, r: Round)
    ensures Iterate(self, countServices, s, r).path == Yielded <==> AnyLiveness(self, r.window)
    ensures Iterate(self, countServices, s, r).path == Yielded ==>
      Iterate(self, countServices, s, r).next == NodeState(if AnyForeignLeader(self, r.window) then Follower else s.status, true)
  {
    HandleAllEffect(self, s.(leaderIsLive := false), r.window);
  }

  /** A leader that hears no one and keeps its quorum stays leader and only broadcasts. */
  lemma LeaderWithQuorumStaysLeader(self: int, countServices: nat, s: NodeState, r: Round)
    requires s.status == Leader && !AnyLiveness(self, r.window)
    requires Majority(countServices, Count(r.pings, Answered))
    ensures Iterate(self, countServices, s, r) == StepResult(NodeState(Leader, false), Heartbeat)
  {
    HandleAllEffect(self, s.(leaderIsLive := false), r.window);
  }

  /**
   * A leader that hears no one and loses its quorum is demoted: it does not
   * broadcast, and ends leader only by winning a new vote round in the same
   * iteration.
   */
  lemma LeaderWithoutQuorumIsDemoted(self: int, countServices: nat, s: NodeState, r: Round)
    requires s.status == Leader && !AnyLiveness(self, r.window)
    requires !Majority(countServices, Count(r.pings, Answered))
    ensures Iterate(self, countServices, s, r).path != Heartbeat
    ensures Iterate(self, countServices, s, r).path == NoElection ==>
      Iterate(self, countServices, s, r).next == NodeState(Follower, true)
    ensures Iterate(self, countServices, s, r).next.status == Leader ==>
      Iterate(self, countServices, s, r).path.Election? && Majority(countServices, Count(r.votes, Granted))
  {
    var s1 := HandleAll(self, s.(leaderIsLive := false), r.window);
    HandleAllEffect(self, s.(leaderIsLive := false), r.window);
    HandleAllEffect(self, s1.(status := Follower), r.wait);
    VoteRoundOutcome(self, countServices, HandleAll(self, s1.(status := Follower), r.wait), r.votes, r.duringVote);
  }

  /**
   * A vote round runs exactly when neither wait saw liveness and the node was
   * not a leader keeping its quorum.
   */
  lemma ElectionOnlyWithoutLiveness(self: int, countServices: nat, s: NodeState, r: Round)
    ensures Iterate(self, countServices, s, r).path.Election? <==>
      !AnyLiveness(self, r.window) &&
      !(s.status == Leader && Majority(countServices, Count(r.pings, Answered))) &&
      !AnyLiveness(self, r.wait)
  {
    var s1 := HandleAll(self, s.(leaderIsLive := false), r.window);
    HandleAllEffect(self, s.(leaderIsLive := false), r.window);
    var s2 := if s1.status == Leader then s1.(status := Follower) else s1;
    HandleAllEffect(self, s2, r.wait);
  }

  /** The only way into leadership is a vote round won by a majority. */
  lemma LeadershipRequiresElection(self: int, countServices: nat, s: NodeState, r: Round)
    requires s.status != Leader
    requires Iterate(self, countServices, s, r).next.status == Leader
    ensures Iterate(self, countServices, s, r).path.Election?
    ensures Majority(countServices, Count(r.votes, Granted))
    ensures !AnyForeignLeader(self, r.duringVote)
  {
    var s1 := HandleAll(self, s.(leaderIsLive := false), r.window);
    HandleAllEffect(self, s.(leaderIsLive := false), r.window);
    HandleAllEffect(self, s1, r.wait);
    VoteRoundOutcome(self, countServices, HandleAll(self, s1, r.wait), r.votes, r.duringVote);
  }

  /** A node that is not a candidate when an iteration starts is not one when it ends. */
  lemma IterationNeverEndsCandidate(self: int, countServices: nat, s: NodeState, r: Round)
    requires s.status != Candidate
    ensures Iterate(self, countServices, s, r).next.status != Candidate
  {
    var s0 := s.(leaderIsLive := false);
    var s1 := HandleAll(self, s0, r.window);
    HandleAllEffect(self, s0, r.window);
    var s2 := if s1.status == Leader then s1.(status := Follower) else s1;
    HandleAllEffect(self, s2, r.wait);
    VoteRoundOutcome(self, countServices, HandleAll(self, s2, r.wait), r.votes, r.duringVote);
  }

  /**
   * A heartbeat delivered to every node of a cluster with distinct ports
   * leaves its sender unchanged and makes every other node a follower that
   * has seen a leader, whatever its role was.
   */
  lemma HeartbeatSettlesCluster(peers: seq<int>, leader: nat, states: seq<NodeState>)
    requires |states| == |peers| && leader < |peers|
    requires forall i, j :: 0 <= i < j < |peers| ==> peers[i] != peers[j]
    ensures forall i :: 0 <= i < |peers| ==>
      Handle(peers[i], states[i], LeaderAnnouncement(peers[leader])) ==
        if i == leader then states[i] else NodeState(Follower, true)
  {
  }

  /**
   * In a cluster of three, a follower that hears nothing, gets a `voice: yes`
   * from all three peers and hears no leader mid-round becomes leader.  Its
   * own port is one of the three, so its own vote request is handled during
   * the round, which also sets its liveness flag.
   */
  lemma ThreeNodeElection(self: int, pings: seq<PingOutcome>)
    ensures Iterate(self, 3, InitialState,
                    Round([], pings, [], [VoteReply("yes"), VoteReply("yes"), VoteReply("yes")], [VoteRequest]))
            == StepResult(NodeState(Leader, true), Election(3))
  {
    var votes := [VoteReply("yes"), VoteReply("yes"), VoteReply("yes")];
    CountIsLengthIffAll(votes, Granted);
    assert HandleAll(self, NodeState(Candidate, false), [VoteRequest]) == NodeState(Candidate, true);
  }

  /** A node's own vote request, handled during its round, never costs it the round and sets its flag. */
  lemma OwnVoteRequestDuringRound(self: int, countServices: nat, s: NodeState, votes: seq<VoteOutcome>,
                                  before: seq<Request>, after: seq<Request>)
    ensures VoteRound(self, countServices, s, votes, before + [VoteRequest] + after) ==
            NodeState(VoteRound(self, countServices, s, votes, before + after).status, true)
  {
    var with := before + [VoteRequest] + after;
    var without := before + after;
    assert AssertsLiveness(self, with[|before|]);
    assert AnyForeignLeader(self, with) <==> AnyForeignLeader(self, without) by {
      forall i | 0 <= i < |with| && ForeignLeader(self, with[i])
        ensures AnyForeignLeader(self, without)
      {
        if i < |before| {
          assert without[i] == with[i];
        } else {
          assert i > |before|;
          assert without[i - 1] == with[i];
        }
      }
      forall i | 0 <= i < |without| && ForeignLeader(self, without[i])
        ensures AnyForeignLeader(self, with)
      {
        if i < |before| {
          assert with[i] == without[i];
        } else {
          assert with[i + 1] == without[i];
        }
      }
    }
    VoteRoundOutcome(self, countServices, s, votes, with);
    VoteRoundOutcome(self, countServices, s, votes, without);
  }

  // ---------------------------------------------------------------------
  // Runs of iterations and inbound requests
  // ---------------------------------------------------------------------

  /**
   * Between events a node is never a candidate: candidacy lasts only inside
   * a vote round.  This holds for every run from the initial state.
   */
  lemma {:induction false} RunNeverRestsAsCandidate(self: int, countServices: nat, s: NodeState, events: seq<Event>)
    requires s.status != Candidate
    ensures Run(self, countServices, s, events).status != Candidate
    decreases |events|
  {
    if events != [] {
      var t := Run(self, countServices, s, events[..|events| - 1]);
      RunNeverRestsAsCandidate(self, countServices, s, events[..|events| - 1]);
      match events[|events| - 1]
      case Deliver(req) =>
        HandleNeverPromotes(self, t, req);
      case Tick(r) =>
        IterationNeverEndsCandidate(self, countServices, t, r);
    }
  }

  lemma InitialNodeNeverRestsAsCandidate(self: int, countServices: nat, events: seq<Event>)
    ensures Run(self, countServices, InitialState, events).status != Candidate
  {
    RunNeverRestsAsCandidate(self, countServices, InitialState, events);
  }
}
