/**
 * The RaftModule node as an object whose role and liveness flag its methods
 * update in place, and its construction from a range of candidate ports.
 *
 * Each method is specified by the pure functions of module Election: its
 * new state is a function of its old state and of its inputs.
 */
module RaftModule {
  import opened Election

  datatype Result<T> = Ok(value: T) | Err(message: string)

  /** One heartbeat request fired at a peer: the peer's port and the request it carries. */
  datatype Announcement = Announcement(to: int, req: Request)

  /**
   * The loop of NewRaftModule: lists `countServices` consecutive ports from
   * `minPort` and picks the first one whose probe bind succeeded
   * (`bindable[i]` says whether port `minPort + i` could be bound).
   */
  method ScanPorts(minPort: int, countServices: nat, bindable: seq<bool>)
    returns (servicesPorts: seq<int>, port: Option<int>)
    requires |bindable| == countServices
    ensures |servicesPorts| == countServices
    ensures forall i :: 0 <= i < countServices ==> servicesPorts[i] == minPort + i
    ensures port.None? <==> forall i :: 0 <= i < countServices ==> !bindable[i]
    ensures port.Some? ==> exists i :: 0 <= i < countServices && bindable[i] && port.value == minPort + i &&
                                      forall j :: 0 <= j < i ==> !bindable[j]
  {
    servicesPorts := [];
    port := None;
    ghost var first := 0;
    var i := 0;
    while i < countServices
      invariant 0 <= i <= countServices
      invariant |servicesPorts| == i
      invariant forall j :: 0 <= j < i ==> servicesPorts[j] == minPort + j
      invariant port.None? <==> forall j :: 0 <= j < i ==> !bindable[j]
      invariant port.Some? ==> first < i && bindable[first] && port.value == minPort + first &&
                               forall j :: 0 <= j < first ==> !bindable[j]
    {
      servicesPorts := servicesPorts + [minPort + i];
      if bindable[i] && port.None? {
        port := Some(servicesPorts[i]);
        first := i;
      }
      i := i + 1;
    }
  }

  /**
   * Builds a node on the first bindable port among `countServices`
   * consecutive ports from `minPort`, or fails with "Ports are busy".
   * `draw` is the value of the random draw in [0, 100).
   */
  method NewRaftModule(minPort: int, countServices: nat, bindable: seq<bool>, draw: nat)
    returns (r: Result<RaftNode>)
    requires |bindable| == countServices
    requires 0 <= minPort
    requires draw < 100
    ensures r.Err? <==> forall i :: 0 <= i < countServices ==> !bindable[i]
    ensures r.Err? ==> r.message == "Ports are busy"
    ensures r.Ok? ==> fresh(r.value) && r.value.Valid()
    ensures r.Ok? ==> r.value.State() == InitialState && r.value.timeout == draw + 100
    ensures r.Ok? ==> r.value.countServices == countServices &&
                      forall i :: 0 <= i < countServices ==> r.value.servicesPorts[i] == minPort + i
    ensures r.Ok? ==> exists i :: 0 <= i < countServices && bindable[i] && r.value.port == minPort + i &&
                                  forall j :: 0 <= j < i ==> !bindable[j]
  {
    var timeout := draw + 100;
    var servicesPorts, port := ScanPorts(minPort, countServices, bindable);
    if port.None? {
      return Err("Ports are busy");
    }
    var i :| 0 <= i < countServices && bindable[i] && port.value == minPort + i &&
             forall j :: 0 <= j < i ==> !bindable[j];
    assert servicesPorts[i] == port.value;
    var node := new RaftNode(port.value, timeout, countServices, servicesPorts);
    r := Ok(node);
  }

  class RaftNode {
    const port: int
    const timeout: int
    const countServices: nat
    const servicesPorts: seq<int>
    var status: Role
    var leaderIsLive: bool

    /**
     * A built node lists its peers, is one of them, and drew its timeout from
     * [100, 200); every peer port can be written into a request URL.
     */
    ghost predicate Valid() {
      countServices == |servicesPorts| && port in servicesPorts && 100 <= timeout < 200 &&
      PortsAddressable()
    }

    /** No peer port is negative: a negative one makes building the request to it fail and the sender crash. */
    ghost predicate PortsAddressable() {
      forall i :: 0 <= i < |servicesPorts| ==> 0 <= servicesPorts[i]
    }

    function State(): NodeState
      reads this
    {
      NodeState(status, leaderIsLive)
    }

    constructor (port: int, timeout: int, countServices: nat, servicesPorts: seq<int>)
      requires countServices == |servicesPorts| && port in servicesPorts && 100 <= timeout < 200
      requires forall i :: 0 <= i < |servicesPorts| ==> 0 <= servicesPorts[i]
      ensures Valid()
      ensures this.port == port && this.timeout == timeout
      ensures this.countServices == countServices && this.servicesPorts == servicesPorts
      ensures State() == InitialState
    {
      this.port := port;
      this.timeout := timeout;
      this.countServices := countServices;
      this.servicesPorts := servicesPorts;
      status := Follower;
      leaderIsLive := false;
    }

    /** The port the node bound, which is one of its peers' ports. */
    function GetPort(): (p: int)
      requires Valid()
      ensures p in servicesPorts
    {
      port
    }

    /** messageProcessing: handles one inbound /mp request; `voiceYes` is the `voice: yes` reply header. */
    method MessageProcessing(req: Request) returns (voiceYes: bool)
      modifies this
      ensures State() == Handle(port, old(State()), req)
      ensures voiceYes == GrantsVote(old(State()), req)
    {
      voiceYes := false;
      if req.serverStatus == "leader" {
        if req.senderPort != Some(port) {
          status := Follower;
          leaderIsLive := true;
        }
      } else if req.serverStatus == "candidate" {
        if status != Leader {
          voiceYes := true;
        }
        leaderIsLive := true;
      }
    }

    /** The handler invoked once per request of `reqs`, while the timer loop waits. */
    method Deliver(reqs: seq<Request>)
      modifies this
      ensures State() == HandleAll(port, old(State()), reqs)
    {
      var i := 0;
      while i < |reqs|
        invariant 0 <= i <= |reqs|
        invariant State() == HandleAll(port, old(State()), reqs[..i])
      {
        var voiceYes := MessageProcessing(reqs[i]);
        assert reqs[..i + 1][..i] == reqs[..i];
        i := i + 1;
      }
      assert reqs[..|reqs|] == reqs;
    }

    /** leaderMessage: one announcement of this node's leadership per peer, in list order. */
    method LeaderMessage() returns (sent: seq<Announcement>)
      requires PortsAddressable()
      ensures |sent| == |servicesPorts|
      ensures forall i :: 0 <= i < |sent| ==> sent[i] == Announcement(servicesPorts[i], LeaderAnnouncement(port))
    {
      sent := [];
      var i := 0;
      while i < |servicesPorts|
        invariant 0 <= i <= |servicesPorts|
        invariant |sent| == i
        invariant forall j :: 0 <= j < i ==> sent[j] == Announcement(servicesPorts[j], LeaderAnnouncement(port))
      {
        sent := sent + [Announcement(servicesPorts[i], LeaderAnnouncement(port))];
        i := i + 1;
      }
    }

    /** majorityIsAvailable: probes every peer and reports whether a majority answered 200. */
    method MajorityIsAvailable(pings: seq<PingOutcome>) returns (ok: bool)
      requires |pings| == |servicesPorts|
      requires PortsAddressable()
      ensures ok == Majority(countServices, Count(pings, Answered))
    {
      var countAvailable := 0;
      var i := 0;
      while i < |pings|
        invariant 0 <= i <= |pings|
        invariant countAvailable == Count(pings[..i], Answered)
      {
        assert pings[..i + 1][..i] == pings[..i];
        if pings[i].PingReply? && pings[i].statusCode == 200 {
          countAvailable := countAvailable + 1;
        }
        i := i + 1;
      }
      assert pings[..|pings|] == pings;
      ok := countServices / 2 < countAvailable;
    }

    /**
     * voting: becomes candidate, asks every peer for its vote, handles the
     * requests `during` that arrive meanwhile, then becomes leader only with
     * a majority of `voice: yes` replies and if still candidate.
     */
    method Voting(votes: seq<VoteOutcome>, during: seq<Request>) returns (countVoices: nat)
      requires |votes| == |servicesPorts|
      requires PortsAddressable()
      modifies this
      ensures countVoices == Count(votes, Granted)
      ensures State() == VoteRound(port, countServices, old(State()), votes, during)
    {
      status := Candidate;
      countVoices := 0;
      var i := 0;
      while i < |votes|
        invariant 0 <= i <= |votes|
        invariant countVoices == Count(votes[..i], Granted)
        invariant State() == StartRound(old(State()))
      {
        assert votes[..i + 1][..i] == votes[..i];
        if votes[i].VoteReply? && votes[i].voice == "yes" {
          countVoices := countVoices + 1;
        }
        i := i + 1;
      }
      assert votes[..|votes|] == votes;
      Deliver(during);
      if countServices / 2 < countVoices && status == Candidate {
        status := Leader;
      } else {
        status := Follower;
      }
    }

    /** One iteration of the timer loop of sendMessage; `sent` is the heartbeat it fired, if any. */
    method Iteration(r: Round) returns (path: Path, sent: seq<Announcement>)
      requires |r.pings| == |servicesPorts| && |r.votes| == |servicesPorts|
      requires PortsAddressable()
      modifies this
      ensures State() == Iterate(port, countServices, old(State()), r).next
      ensures path == Iterate(port, countServices, old(State()), r).path
      ensures path == Heartbeat ==> |sent| == |servicesPorts|
      ensures path == Heartbeat ==>
                forall i :: 0 <= i < |sent| ==> sent[i] == Announcement(servicesPorts[i], LeaderAnnouncement(port))
      ensures path != Heartbeat ==> sent == []
    {
      sent := [];
      leaderIsLive := false;
      Deliver(r.window);
      if leaderIsLive {
        return Yielded, sent;
      }
      if status == Leader {
        var ok := MajorityIsAvailable(r.pings);
        if ok {
          sent := LeaderMessage();
          return Heartbeat, sent;
        } else {
          status := Follower;
        }
      }
      Deliver(r.wait);
      if !leaderIsLive {
        var countVoices := Voting(r.votes, r.duringVote);
        path := Election(countVoices);
      } else {
        path := NoElection;
      }
    }
  }
}
