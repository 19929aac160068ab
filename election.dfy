/**
 * The election state machine of a RaftModule node, as pure functions.
 *
 * A node's configuration (its own port, the peer port list and its length)
 * never changes after construction; what changes is its role and the
 * liveness flag, bundled here as a NodeState.  Every network result is an
 * input: one probe outcome or vote reply per peer, and the inbound /mp
 * requests that the handler processes while the timer loop is waiting.
 * Each inbound request is handled atomically, between two steps of the loop.
 */
module Election {

  datatype Option<T> = None | Some(value: T)

  /** The three values of the `status` field: "follower", "candidate", "leader". */
  datatype Role = Follower | Candidate | Leader

  /** The fields of a node that change after construction. */
  datatype NodeState = NodeState(status: Role, leaderIsLive: bool)

  /** The state every successfully built node starts in. */
  const InitialState := NodeState(Follower, false)

  /**
   * The headers of an inbound /mp request: `server_status` (the empty string
   * when absent) and `port` (None when absent).
   */
  datatype Request = Request(serverStatus: string, senderPort: Option<int>)

  /** What a leader sends to every peer in its heartbeat. */
  function LeaderAnnouncement(port: int): Request {
    Request("leader", Some(port))
  }

  /** What a candidate sends to every peer when it asks for votes. */
  const VoteRequest := Request("candidate", None)

  /** The outcome of one /ping probe: a transport error, or a response with its status code. */
  datatype PingOutcome = PingFailed | PingReply(statusCode: int)

  /** The outcome of one vote request: a transport error, or a response with its `voice` header. */
  datatype VoteOutcome = VoteFailed | VoteReply(voice: string)

  /** A probe counts towards the quorum only when it got a 200 response. */
  predicate Answered(o: PingOutcome) {
    o.PingReply? && o.statusCode == 200
  }

  /** A vote counts only when the response carries `voice: yes`. */
  predicate Granted(o: VoteOutcome) {
    o.VoteReply? && o.voice == "yes"
  }

  /** The strict-majority test shared by the quorum check and the vote round. */
  predicate Majority(countServices: nat, k: int) {
    countServices / 2 < k
  }

  /** Number of elements of `s` that satisfy `p`, counted front to back as the loops do. */
  function Count<T>(s: seq<T>, p: T -> bool): (k: nat)
    ensures k <= |s|
    decreases |s|
  {
    if s == [] then 0 else Count(s[..|s| - 1], p) + (if p(s[|s| - 1]) then 1 else 0)
  }

  // ---------------------------------------------------------------------
  // Inbound handler (messageProcessing)
  // ---------------------------------------------------------------------

  /** A leader announcement from a port other than the node's own. */
  predicate ForeignLeader(self: int, req: Request) {
    req.serverStatus == "leader" && req.senderPort != Some(self)
  }

  /** A request after which the handler has set the liveness flag. */
  predicate AssertsLiveness(self: int, req: Request) {
    ForeignLeader(self, req) || req.serverStatus == "candidate"
  }

  /** The new state after the node with port `self` handles `req`. */
  function Handle(self: int, s: NodeState, req: Request): NodeState {
    if req.serverStatus == "leader" then
      if req.senderPort == Some(self) then s else NodeState(Follower, true)
    else if req.serverStatus == "candidate" then
      s.(leaderIsLive := true)
    else
      s
  }

  /** Whether the handler answers `req` with the header `voice: yes`. */
  predicate GrantsVote(s: NodeState, req: Request) {
    req.serverStatus == "candidate" && s.status != Leader
  }

  /** The state after handling `reqs` one after another. */
  function HandleAll(self: int, s: NodeState, reqs: seq<Request>): NodeState
    decreases |reqs|
  {
    if reqs == [] then s
    else Handle(self, HandleAll(self, s, reqs[..|reqs| - 1]), reqs[|reqs| - 1])
  }

  ghost predicate AnyForeignLeader(self: int, reqs: seq<Request>) {
    exists i :: 0 <= i < |reqs| && ForeignLeader(self, reqs[i])
  }

  ghost predicate AnyLiveness(self: int, reqs: seq<Request>) {
    exists i :: 0 <= i < |reqs| && AssertsLiveness(self, reqs[i])
  }

  // ---------------------------------------------------------------------
  // Vote round (voting)
  // ---------------------------------------------------------------------

  /** The round opens by turning the node into a candidate. */
  function StartRound(s: NodeState): NodeState {
    s.(status := Candidate)
  }

  /** The round closes: leader only with a majority and while still candidate. */
  function FinishRound(countServices: nat, s: NodeState, countVoices: nat): NodeState {
    s.(status := if Majority(countServices, countVoices) && s.status == Candidate then Leader else Follower)
  }

  /** A whole round, with the inbound requests `during` handled before it closes. */
  function VoteRound(self: int, countServices: nat, s: NodeState, votes: seq<VoteOutcome>, during: seq<Request>): NodeState {
    FinishRound(countServices, HandleAll(self, StartRound(s), during), Count(votes, Granted))
  }

  // ---------------------------------------------------------------------
  // One iteration of the timer loop (the body of sendMessage)
  // ---------------------------------------------------------------------

  /**
   * The inputs of one iteration: requests handled during the election timeout
   * and the one-second wait, probe outcomes for the quorum check, requests
   * handled during the two-second wait, vote replies, and requests handled
   * while the vote round is in progress.
   */
  datatype Round = Round(
    window: seq<Request>,
    pings: seq<PingOutcome>,
    wait: seq<Request>,
    votes: seq<VoteOutcome>,
    duringVote: seq<Request>)

  /** Which way an iteration went. */
  datatype Path =
    | Yielded                      // liveness seen after the first waits
    | Heartbeat                    // leader with quorum broadcast its announcement
    | NoElection                   // liveness seen during the two-second wait
    | Election(countVoices: nat)   // a vote round ran and got this many votes

  datatype StepResult = StepResult(next: NodeState, path: Path)

  function Iterate(self: int, countServices: nat, s: NodeState, r: Round): StepResult {
    var s1 := HandleAll(self, s.(leaderIsLive := false), r.window);
    if s1.leaderIsLive then
      StepResult(s1, Yielded)
    else if s1.status == Leader && Majority(countServices, Count(r.pings, Answered)) then
      StepResult(s1, Heartbeat)
    else
      var s2 := if s1.status == Leader then s1.(status := Follower) else s1;
      var s3 := HandleAll(self, s2, r.wait);
      if s3.leaderIsLive then
        StepResult(s3, NoElection)
      else
        StepResult(VoteRound(self, countServices, s3, r.votes, r.duringVote), Election(Count(r.votes, Granted)))
  }

  /** Something that happens to a node: a request handled between iterations, or an iteration. */
  datatype Event = Deliver(req: Request) | Tick(round: Round)

  /** The state after a sequence of events. */
  function Run(self: int, countServices: nat, s: NodeState, events: seq<Event>): NodeState
    decreases |events|
  {
    if events == [] then s
    else
      var t := Run(self, countServices, s, events[..|events| - 1]);
      match events[|events| - 1]
      case Deliver(req) => Handle(self, t, req)
      case Tick(r) => Iterate(self, countServices, t, r).next
  }
}
