/**
  A cluster of engines over a network that may lose, repeat and reorder
  messages. One step is one iteration of a node's engine loop (handle an input,
  persist, send, apply what became committed), a crash, or a restart from disk.
*/
module RaftCluster {
  import opened Raft
  import opened Options

  /** `running` is `None` while the process is down; `disk` survives. */
  datatype Host = Host(running: Option<Core>, disk: Persisted)

  /** One command handed to a node's store. */
  datatype Release = Release(node: NodeId, index: nat, command: Command)

  datatype Cluster = Cluster(hosts: map<NodeId, Host>, network: set<Envelope>, released: set<Release>)

  datatype Input = Timeout | Inbound(env: Envelope) | Client(command: Command)

  datatype Step =
    | Engine(node: NodeId, input: Input)
    | Crash(node: NodeId)
    | Restart(node: NodeId, peers: seq<NodeId>, electionTimeout: nat, heartbeatInterval: nat)

  /** The peers of a member are the other members, each once. */
  ghost predicate PeersOk(id: NodeId, peers: seq<NodeId>, members: set<NodeId>) {
    && id in members
    && |peers| + 1 == |members|
    && (forall p :: p in peers <==> p in members && p != id)
    && (forall i, j :: 0 <= i < j < |peers| ==> peers[i] != peers[j])
  }

  ghost predicate FirstBoot(id: NodeId, host: Host, members: set<NodeId>) {
    && host.running.Some?
    && var c := host.running.value;
    && PeersOk(id, c.peers, members)
    && host.disk == Persisted(0, None, [])
    && c == New(id, c.peers, c.electionTimeout, c.heartbeatInterval)
  }

  ghost predicate Init(s: Cluster, members: set<NodeId>) {
    && s.hosts.Keys == members
    && (forall n :: n in members ==> FirstBoot(n, s.hosts[n], members))
    && s.network == {}
    && s.released == {}
  }

  /** The call the engine makes on its core for one input. */
  function CoreCall(c: Core, input: Input): Outcome {
    match input
    case Timeout => Tick(c)
    case Inbound(env) => Receive(c, env)
    case Client(command) =>
      match Propose(c, command)
      case NotLeader => Done(c, [])
      case Accepted(_, o) => o
  }

  /**
    When the engine writes its state: after every message, after an accepted
    proposal, and after a tick only if term, role or vote changed.
  */
  predicate Persists(before: Core, after: Core, input: Input) {
    match input
    case Timeout => before.currentTerm != after.currentTerm || before.role != after.role
                    || before.votedFor != after.votedFor
    case Inbound(_) => true
    case Client(_) => before.role == Leader
  }

  ghost predicate Enabled(s: Cluster, step: Step) {
    && step.node in s.hosts
    && match step
       case Engine(n, input) =>
         && s.hosts[n].running.Some?
         && (input.Inbound? ==> input.env in s.network && input.env.to == n)
       case Crash(_) => true
       case Restart(n, peers, _, _) => s.hosts[n].running.None? && PeersOk(n, peers, s.hosts.Keys)
  }

  function Releases(c: Core): set<Release>
    requires CanDrain(c)
  {
    set i | c.lastApplied <= i < c.commitIndex :: Release(c.id, i + 1, c.log[i].command)
  }

  function Iterate(s: Cluster, n: NodeId, input: Input): Cluster
    requires Enabled(s, Engine(n, input))
  {
    var host := s.hosts[n];
    var c := host.running.value;
    match CoreCall(c, input)
    case Stopped => s.(hosts := s.hosts[n := host.(running := None)])
    case Done(c', out) =>
      var disk := if Persists(c, c', input) then PersistentState(c') else host.disk;
      var network := s.network + set e | e in out;
      if CanDrain(c')
      then Cluster(s.hosts[n := Host(Some(AfterDrain(c')), disk)], network, s.released + Releases(c'))
      else Cluster(s.hosts[n := Host(None, disk)], network, s.released)
  }

  function Apply(s: Cluster, step: Step): Cluster
    requires Enabled(s, step)
  {
    match step
    case Engine(n, input) => Iterate(s, n, input)
    case Crash(n) => s.(hosts := s.hosts[n := s.hosts[n].(running := None)])
    case Restart(n, peers, electionTimeout, heartbeatInterval) =>
      var disk := s.hosts[n].disk;
      s.(hosts := s.hosts[n := Host(Some(Restore(n, peers, electionTimeout, heartbeatInterval, disk)), disk)])
  }

  /** `states[i]` is the cluster before `steps[i]`; the last state is where the run stands. */
  datatype Run = Run(members: set<NodeId>, states: seq<Cluster>, steps: seq<Step>)

  ghost predicate IsRun(r: Run) {
    && |r.states| == |r.steps| + 1
    && Init(r.states[0], r.members)
    && (forall i :: 0 <= i < |r.steps| ==>
          Enabled(r.states[i], r.steps[i]) && r.states[i + 1] == Apply(r.states[i], r.steps[i]))
  }

  /** The engine iteration at step `i`, if it is one, leaves its member running. */
  ghost predicate StaysUp(r: Run, i: nat)
    requires IsRun(r) && i < |r.steps|
  {
    r.steps[i].Engine? ==>
      r.steps[i].node in r.states[i + 1].hosts && r.states[i + 1].hosts[r.steps[i].node].running.Some?
  }

  ghost predicate Leads(s: Cluster, n: NodeId, term: Term) {
    && n in s.hosts
    && s.hosts[n].running.Some?
    && s.hosts[n].running.value.role == Leader
    && s.hosts[n].running.value.currentTerm == term
  }

  /** The durable log of a member, which is also its live log while it runs. */
  function LogOf(s: Cluster, n: NodeId): seq<Entry>
    requires n in s.hosts
  {
    if s.hosts[n].running.Some? then s.hosts[n].running.value.log else s.hosts[n].disk.log
  }
}
