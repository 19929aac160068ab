# RaftModule election, modelled in Dafny

RaftModule is a small leader-election state machine in the style of Raft's
election phase, but without terms, logs or persistence. Every node has the same
port range. It binds the first free port, starts as a follower and runs a
timer loop forever. On each pass the loop clears its liveness flag and waits.
If nothing was heard during the wait, the node does one of two things:

- A leader probes every peer for a quorum. With a quorum it broadcasts a
  heartbeat; without one it steps down to follower.
- Any other node (or a leader that just stepped down) waits again. If it still
  hears nothing, it runs a vote round: it becomes candidate, asks every peer for
  a vote, and becomes leader only if a strict majority (`countServices/2 < k`)
  said yes and it is still candidate. Otherwise it ends the round as follower.

The inbound handler can run at any moment. It responds to leader announcements
and vote requests by demoting the node, setting the liveness flag, or granting
a vote.

The project has three files:

- `election.dfy` (module `Election`) holds the pure definitions:
  - the node's changing state, `NodeState(status, leaderIsLive)`;
  - the inbound `Request`, with its `server_status` and `port` headers;
  - probe outcomes and vote replies;
  - the majority test and the reply counter `Count`;
  - the handler (`Handle`, `GrantsVote`, `HandleAll`) and the vote round
    (`StartRound`, `FinishRound`, `VoteRound`);
  - one loop iteration (`Iterate`, taking a `Round` of inputs and returning the
    `Path` it took);
  - runs of iterations and handled requests (`Run`).
- `raft_module.dfy` (module `RaftModule`) holds the node as a class,
  `RaftNode`:
  - the peer list, own port, count and timeout are constants;
  - `status` and `leaderIsLive` are fields that the methods update in place;
  - each method's postcondition ties the new state to the matching function in
    `Election`;
  - the module also has the port scan and `NewRaftModule`.
- `election_properties.dfy` (module `ElectionProperties`) holds the lemmas
  about those functions.

Network results and timing are inputs:

- one probe outcome per peer, and one vote reply per peer;
- a `bindable` flag per candidate port;
- the random draw of the timeout;
- the inbound requests handled during each wait of the loop and during the vote
  round. Each request is handled atomically, between steps of the loop. Two
  places where the source can also handle a request have no slot of their own
  in the model (see "## Left out").

## Model

| member | source | states |
|---|---|---|
| `RaftModule.ScanPorts` | RaftModule.go:31-43 | The peer list is exactly `countServices` consecutive ports from `minPort`. No port is chosen iff no port is bindable. Otherwise the chosen port is the first bindable one in list order. |
| `RaftModule.NewRaftModule` | RaftModule.go:26-55 | Construction fails with "Ports are busy" iff no port is bindable. Otherwise it returns a fresh, valid node with these properties: on the first bindable port; its peers are the consecutive ports; `countServices` is their number; status follower; liveness flag off; timeout `draw + 100` in 100..199. |
| `RaftModule.RaftNode.constructor` | RaftModule.go:48-54 | Stores port, timeout, count and peer list, and yields a valid node. Starts in state (follower, not live). |
| `RaftModule.RaftNode.GetPort` | RaftModule.go:22-24 | Returns the node's own port, which is one of its peers' ports. |
| `RaftModule.RaftNode.MessageProcessing` | RaftModule.go:166-184 | The new state is `Handle` of the old state. The reply carries `voice: yes` iff the request is a vote request and the node was not leader. |
| `RaftModule.RaftNode.Deliver` | RaftModule.go:152-156 | Handling a sequence of inbound requests one by one yields `HandleAll` of the old state. |
| `RaftModule.RaftNode.LeaderMessage` | RaftModule.go:92-101 | Sends exactly one announcement to every peer in list order, including itself. Each carries `server_status=leader` and the node's own port. It changes no field (no `modifies`). |
| `RaftModule.RaftNode.MajorityIsAvailable` | RaftModule.go:103-122 | The result is true iff the number of probes answered with status 200 is a strict majority `countServices/2 < k`. Failed probes are skipped. It changes no field. |
| `RaftModule.RaftNode.Voting` | RaftModule.go:124-150 | Returns the number of `voice: yes` replies. The new state is the vote round: candidate, then the handled requests, then leader iff there is a majority and the node is still candidate, otherwise follower. |
| `RaftModule.RaftNode.Iteration` | RaftModule.go:62-89 | The new state and the path taken are those of `Iterate`. The heartbeat is sent to every peer on the heartbeat path and nothing is sent otherwise. |
| `Election.Count` | RaftModule.go:110-119 | The number of successful calls is never more than the number of peers called. |
| `ElectionProperties.MajorityIsMoreThanHalf` | RaftModule.go:121 | `countServices/2 < k` with integer division holds iff `2k > countServices`. |
| `ElectionProperties.MajorityThresholds` | RaftModule.go:145 | 1 peer needs 1 reply, 2 need 2, 3 need 2, 4 need 3, 5 need 3. |
| `ElectionProperties.QuorumsIntersect` | RaftModule.go:121 | Two rounds over the same peer list (probes or votes, one outcome per peer) that both pass the majority test have a peer that succeeded in both. |
| `ElectionProperties.CountsOverlap` | RaftModule.go:133-145 | Two tallies over the same peers whose sum exceeds the number of peers count some peer in both. |
| `ElectionProperties.CountAppend` | RaftModule.go:133-143 | Counting replies over two parts of the peer list adds up. |
| `ElectionProperties.CountSkipsFailures` | RaftModule.go:110-115 | A failed call anywhere in the round leaves the tally unchanged. |
| `ElectionProperties.CountIsLengthIffAll` | RaftModule.go:110-119 | The tally equals the number of calls iff every call succeeded. |
| `ElectionProperties.CountIsZeroIffNone` | RaftModule.go:110-119 | The tally is zero iff no call succeeded. |
| `ElectionProperties.AllAnsweredIsQuorum` | RaftModule.go:103-122 | A non-empty cluster whose every probe answers 200 has a quorum. |
| `ElectionProperties.NoneAnsweredIsNoQuorum` | RaftModule.go:103-122 | If no probe answers, there is no quorum. For example, a leader that hears 0 of 3 has none. |
| `ElectionProperties.OwnAnnouncementIsNoOp` | RaftModule.go:170-172 | A leader announcement carrying the node's own port leaves the state unchanged and earns no vote. |
| `ElectionProperties.ForeignAnnouncementDemotes` | RaftModule.go:173-177 | An announcement from any other port, or without a port, leads to (follower, live) whatever the prior role. |
| `ElectionProperties.VoteRequestHandling` | RaftModule.go:178-182 | A vote request keeps the role and sets the liveness flag. It is granted iff the node is not leader. |
| `ElectionProperties.UnrecognisedStatusIsIgnored` | RaftModule.go:167-169 | An absent or unrecognised `server_status` changes nothing and earns no vote. |
| `ElectionProperties.HandleNeverPromotes` | RaftModule.go:166-184 | The handler only keeps the role or demotes to follower. The role changes iff a foreign leader is announced to a node that is not a follower. |
| `ElectionProperties.DemotionCommutesWithHandling` | RaftModule.go:80-82 | Stepping down and handling a request give the same state in either order. |
| `ElectionProperties.HandleAllEffect` | RaftModule.go:166-184 | After a batch of requests, the node is follower iff one of them announced a foreign leader; otherwise its role is unchanged. The flag is set iff it was already set or some request was a vote request or a foreign announcement. |
| `ElectionProperties.VoteRoundOutcome` | RaftModule.go:124-150 | A round ends as leader iff there is a yes-majority and no foreign leader was announced during it; otherwise it ends as follower, never as candidate. The flag records the liveness seen during the round. |
| `ElectionProperties.AnnouncementBeforeRoundIsOverwritten` | RaftModule.go:124-125 | A foreign announcement handled just before the node becomes candidate loses its demotion. The round ends as if a vote request had been handled at its start. |
| `ElectionProperties.AnnouncementAfterClosingCheckIsOverwritten` | RaftModule.go:145-146 | A foreign announcement handled after a passed closing check loses its demotion. The node ends as (leader, live), as if a vote request had been handled at the end of the round. |
| `ElectionProperties.MidRoundAnnouncementDemotes` | RaftModule.go:145-149 | A foreign leader announced mid-round makes the round end as follower, however the tally went. |
| `ElectionProperties.IterationClearsLivenessFirst` | RaftModule.go:64 | The flag's value from before the iteration has no influence on it. |
| `ElectionProperties.YieldOnLiveness` | RaftModule.go:64-74 | The iteration yields iff a request during the first waits asserted liveness. The role then changes only as those requests changed it. |
| `ElectionProperties.LeaderWithQuorumStaysLeader` | RaftModule.go:76-79 | A leader that heard nothing and keeps its quorum stays leader, with the flag off, and only broadcasts. |
| `ElectionProperties.LeaderWithoutQuorumIsDemoted` | RaftModule.go:76-88 | A leader that heard nothing and lost its quorum does not broadcast. It ends as (follower, live) if the second wait heard something. It is leader at the end only by winning a majority vote in this same iteration. |
| `ElectionProperties.ElectionOnlyWithoutLiveness` | RaftModule.go:72-88 | A vote round runs iff neither wait heard liveness and the node was not a leader keeping its quorum. |
| `ElectionProperties.LeadershipRequiresElection` | RaftModule.go:62-89 | A non-leader becomes leader only by a vote round with a yes-majority and no foreign leader announced during it. |
| `ElectionProperties.IterationNeverEndsCandidate` | RaftModule.go:62-89 | An iteration that starts outside candidacy ends outside candidacy. |
| `ElectionProperties.HeartbeatSettlesCluster` | RaftModule.go:92-101 | When a heartbeat reaches every node of a cluster with distinct ports, the sender is unchanged and every other node becomes (follower, live). |
| `ElectionProperties.ThreeNodeElection` | RaftModule.go:124-150 | In a 3-node cluster, a follower that hears nothing, gets three yes votes and handles its own vote request during the round ends as (leader, live). |
| `ElectionProperties.OwnVoteRequestDuringRound` | RaftModule.go:133-136 | A node's own vote request, handled during its round, does not change the round's outcome role and sets the liveness flag. |
| `ElectionProperties.RunNeverRestsAsCandidate` | RaftModule.go:62-89 | Between events of any run of iterations and handled requests, a node that starts outside candidacy is never candidate. |
| `ElectionProperties.InitialNodeNeverRestsAsCandidate` | RaftModule.go:50 | A freshly built node (follower) is never candidate between events of any run. |

## Left out

- The HTTP transport is replaced by inputs: clients, request building, headers
  on the wire, `http.ListenAndServe`, the `/ping` handler and the listener's
  panic on failure. Probes and vote requests become per-peer outcome sequences.
  A heartbeat becomes the list of announcements it would fire.
- Goroutines and the unsynchronised data race on `status` and `leaderIsLive`
  are not modelled. Each inbound request is handled atomically between two
  steps of the timer loop.
- Two places inside the vote round have no slot for inbound requests:
  - gap (a): after the liveness check of RaftModule.go:85-86 and before the node
    becomes candidate at RaftModule.go:125;
  - gap (b): after the closing check of RaftModule.go:145 has passed and
    before the node becomes leader at RaftModule.go:146.

  A foreign leader announcement handled in either gap is overwritten by the
  next line (line 125 or 146). Its demotion is lost; only its liveness flag
  stays. The resulting state equals what the model gives for a `VoteRequest`
  handled during the round: at its start for gap (a)
  (`AnnouncementBeforeRoundIsOverwritten`), at its end for gap (b)
  (`AnnouncementAfterClosingCheckIsOverwritten`). So no end state is missing.
  But `VoteRoundOutcome`, `MidRoundAnnouncementDemotes` and
  `LeadershipRequiresElection` speak only of requests handled between
  RaftModule.go:125 and 145. In the source, a foreign leader announced during
  `voting` does not always end the round as follower.
- Requests that arrive while the quorum probes run are treated as arriving just
  after them: on the step-down path they join the two-second wait, and on the
  heartbeat path they become events after the iteration. For the node's own
  state the two orders agree (`DemotionCommutesWithHandling`). Only the
  `voice` reply to a vote request that arrives then can differ.
- Requests that arrive during a heartbeat or between iterations are `Deliver`
  events of a `Run`.
- Sleeps, per-call client timeouts and the random seed are not modelled.
  Timing becomes "was this request handled during this wait". The timeout draw
  is the parameter `draw < 100`.
- `net.Listen` port probing is the `bindable` flag of each port.
- `strconv.Itoa` is not modelled: ports are integers. The `port` header is
  `Some(p)` when it carries port `p` and `None` when absent.
- `fmt.Println` logging is not modelled.
- The never-ending `for` loop is not modelled as a loop. It is modelled as one
  iteration (`Iteration`, `Iterate`) and as finite runs of events (`Run`).
- `NewRaftModule`: on failure the model returns only the error, not the
  zero-valued struct that goes with it in the source.
- `NewRaftModule`: `minPort` must be non-negative. A negative start yields
  peer ports like `-2` that cannot be put into a request URL. The request
  building error is ignored in the source, so the first probe, vote request or
  heartbeat to such a peer crashes the process on a nil request. The model does
  not represent that crash. Instead, `Valid` holds only non-negative ports, and
  `MajorityIsAvailable`, `Voting`, `LeaderMessage` and `Iteration` require them.
- `NewRaftModule`: `countServices` is a natural number. A negative count makes
  the source panic in `make`.
- `NewRaftModule`: `bindable` has one entry per port, so `|bindable| ==
  countServices` is required.
- `RaftModule.RaftNode.MajorityIsAvailable`, `RaftModule.RaftNode.Voting` and
  `RaftModule.RaftNode.Iteration` take one outcome per entry of
  `servicesPorts`, so they require outcome sequences of that length.
- Port, timeout, peer count and peer list are constants of the class, because
  the source never assigns them after construction.
- The source sends probes, vote requests and heartbeats to every port in
  `servicesPorts`, its own port included. The model keeps that. A node's own
  heartbeat loops back as a no-op (`OwnAnnouncementIsNoOp`). Its own vote
  request reaches its own handler during the round. Since the node is then
  candidate or follower, never leader, the handler always grants it and sets
  the liveness flag (`OwnVoteRequestDuringRound`).
- `RaftModule.RaftNode.Voting` and `Election.VoteRound` take the node's own
  vote reply and the handling of its own vote request as independent inputs.
  The model therefore also admits two kinds of round the source cannot
  produce: a "yes" from itself while its own request is never handled, and a
  reply from itself that lacks `voice: yes`. The node's own handler always
  grants the request during a round. A round where its own request was handled
  but the reply came after the per-call timeout does occur in the source: the
  own reply is then `VoteFailed` and the request is among those handled during
  the round. What is proved holds for every round the model admits, so it also
  covers the real ones.
- `Start` is not modelled: it only launches the listener and the loop.
