/**
 The replicated service: a primary, any number of secondaries and a network that may lose,
 repeat and reorder datagrams (a datagram in flight may be delivered any number of times, in
 any order, and may be dropped for good). Clients send their commands to the primary only;
 the primary may be restarted.

 `AcceptMeansReplicated` is the safety of passive replication; its limits are in `Limits`.
 */
module Replication {
  import opened Messages
  import opened Confirmation
  import opened ProfileStore
  import opened Sessions
  import opened ServerSpec
  import opened ServerInvariants
  import opened Delivery

  datatype Envelope = Envelope(from: SocketAddress, to: SocketAddress, packet: Packet)

  /** A CONNECT that a replica handled. */
  datatype Handled = Handled(packet: Packet, from: SocketAddress)

  /**
   The replicas, the datagrams in flight, the acceptances the primary sent and the CONNECTs
   each replica handled. Acceptances and `logs` are those since the primary last started;
   `past` holds what each replica handled before that.
   */
  datatype Cluster = Cluster(
    replicas: seq<State>,
    network: set<Envelope>,
    accepted: set<Envelope>,
    logs: seq<seq<Handled>>,
    past: seq<seq<Handled>>)

  datatype Action =
    | ClientSends(from: SocketAddress, packet: Packet)
    | Deliver(replica: nat, mail: Envelope)
    | WorkerRound(replica: nat)
    | Drop(mail: Envelope)
    | Restart

  /** The addresses of the replicas; the first one is the primary's. */
  type Config = seq<SocketAddress>

  predicate ValidConfig(cfg: Config) {
    cfg != [] && forall i, j :: 0 <= i < j < |cfg| ==> cfg[i] != cfg[j]
  }

  function RoleIn(cfg: Config, r: nat): Role
    requires cfg != []
  {
    if r == 0 then Primary(cfg[1..]) else Secondary(cfg[0])
  }

  /** A client may send anything but a confirmation. */
  predicate ClientCommand(packet: Packet) {
    !packet.kind.ConfirmStateChange?
  }

  function Mail(from: SocketAddress, sent: seq<Datagram>): set<Envelope> {
    set d | d in sent :: Envelope(from, d.to, d.packet)
  }

  function Acceptances(mail: set<Envelope>): set<Envelope> {
    set m | m in mail && m.packet.kind.Accept?
  }

  function Logged(log: seq<Handled>, e: Event): seq<Handled> {
    if e.Receive? && e.packet.kind.Connect? then log + [Handled(e.packet, e.from)] else log
  }

  predicate Sized(cfg: Config, c: Cluster) {
    cfg != [] && |c.replicas| == |cfg| && |c.logs| == |cfg| && |c.past| == |cfg|
  }

  /** Replica r processes an event. */
  ghost function React(cfg: Config, c: Cluster, r: nat, e: Event): Cluster
    requires Sized(cfg, c) && r < |cfg|
  {
    var (s, sent) := Step(RoleIn(cfg, r), c.replicas[r], e);
    var mail := Mail(cfg[r], sent);
    c.(replicas := c.replicas[r := s], network := c.network + mail,
       accepted := c.accepted + Acceptances(mail), logs := c.logs[r := Logged(c.logs[r], e)])
  }

  /** The profile file can be read and names nobody twice. */
  predicate CanRestart(s: State) {
    Load(s.disk).Loaded? && UniqueHandles(Load(s.disk).users)
  }

  /** A restarted primary reads its file; counter, sessions, queue and buffer start anew. */
  function Restarted(c: Cluster): Cluster
    requires c.replicas != [] && |c.logs| == |c.past|
  {
    var s := c.replicas[0];
    if CanRestart(s) then
      Cluster(c.replicas[0 := Booted(Load(s.disk).users, s.disk)], c.network, {},
              seq(|c.logs|, _ => []), seq(|c.logs|, r requires 0 <= r < |c.logs| => Ever(c, r)))
    else c
  }

  /** Every CONNECT that replica r ever handled, whatever incarnation of the primary it came from. */
  function Ever(c: Cluster, r: nat): seq<Handled>
    requires r < |c.logs| && r < |c.past|
  {
    c.past[r] + c.logs[r]
  }

  /** One step; an action that is not enabled does nothing. */
  ghost function Next(cfg: Config, c: Cluster, a: Action): (c': Cluster)
    requires Sized(cfg, c)
    ensures Sized(cfg, c')
  {
    match a
    case ClientSends(from, packet) =>
      if ClientCommand(packet) then c.(network := c.network + {Envelope(from, cfg[0], packet)}) else c
    case Deliver(r, mail) =>
      if r < |cfg| && mail in c.network && mail.to == cfg[r] then React(cfg, c, r, Receive(mail.packet, mail.from))
      else c
    case WorkerRound(r) =>
      if r < |cfg| then React(cfg, c, r, Work) else c
    case Drop(mail) => c.(network := c.network - {mail})
    case Restart => Restarted(c)
  }

  ghost function Execute(cfg: Config, c: Cluster, actions: seq<Action>): (c': Cluster)
    requires Sized(cfg, c)
    ensures Sized(cfg, c')
  {
    if actions == [] then c
    else Next(cfg, Execute(cfg, c, actions[..|actions| - 1]), actions[|actions| - 1])
  }

  /** Replicas just started, each on its own profiles; nothing sent yet. */
  predicate Start(cfg: Config, c: Cluster) {
    && ValidConfig(cfg) && Sized(cfg, c) && c.network == {} && c.accepted == {}
    && (forall r :: 0 <= r < |cfg| ==>
          && WellFormed(c.replicas[r].users)
          && c.replicas[r] == Booted(c.replicas[r].users, c.replicas[r].disk)
          && c.logs[r] == [] && c.past[r] == [])
  }

  /** Copies and confirmations: what replicas send each other. */
  predicate ReplicaMail(cfg: Config, m: Envelope)
    requires cfg != []
  {
    || (m.packet.kind.Connect? && m.to in cfg[1..])
    || (m.packet.kind.ConfirmStateChange? && m.to in cfg)
  }

  /** No copy and no confirmation is in flight. */
  predicate Quiet(cfg: Config, c: Cluster)
    requires cfg != []
  {
    forall m :: m in c.network ==> !ReplicaMail(cfg, m)
  }

  /** The primary is restarted only when the network is quiet. */
  ghost predicate QuietRestarts(cfg: Config, c: Cluster, actions: seq<Action>)
    requires Sized(cfg, c)
  {
    forall n :: 0 <= n < |actions| && actions[n].Restart? ==> Quiet(cfg, Execute(cfg, c, actions[..n]))
  }

  predicate NoRestart(actions: seq<Action>) {
    forall n :: 0 <= n < |actions| ==> !actions[n].Restart?
  }

  /** Whatever a client sends, confirmations apart, is on its way to the primary, and that is all. */
  lemma ClientsReachPrimary(cfg: Config, c: Cluster, from: SocketAddress, packet: Packet)
    requires Sized(cfg, c) && packet.kind != ConfirmStateChange
    ensures Next(cfg, c, ClientSends(from, packet)) == c.(network := c.network + {Envelope(from, cfg[0], packet)})
  {
  }

  // ----- What one step of a replica does to its buffer, and what it sends -----

  lemma BufferAfter(role: Role, s: State, e: Event)
    ensures Step(role, s, e).0.buffer
            == if role.Primary? && e.Receive? && e.packet.kind.Connect?
               then s.buffer + [Fresh(Numbered(e.packet, s.lastSeqn), e.packet.seqn, e.from)]
               else if role.Primary? && e.Receive? && e.packet.kind.ConfirmStateChange?
               then Marked(s.buffer, e.packet.seqn)
               else s.buffer
  {
  }

  lemma SentAfter(role: Role, s: State, e: Event, d: Datagram)
    requires d in Step(role, s, e).1
    ensures match d.packet.kind
            case Connect =>
              && role.Primary? && e.Receive? && e.packet.kind.Connect?
              && exists i :: 0 <= i < |role.secondaries|
                             && d == Datagram(role.secondaries[i], e.packet.(seqn := s.lastSeqn + i))
            case ConfirmStateChange =>
              && role.Secondary? && e.Receive? && e.packet.kind in {Connect, ConfirmStateChange}
              && d == Datagram(role.primary, MakeConfirmStateChangeMessage(e.packet.seqn))
            case Accept =>
              && role.Primary? && e.Receive? && e.packet.kind.ConfirmStateChange?
              && var b := Marked(s.buffer, e.packet.seqn); d in Accepts(b, FiredPositions(b))
            case Notification => e.Work?
            case _ => false
  {
    match e
    case Receive(packet, from) =>
      match packet.kind {
        case Connect =>
          var s' := Connected(s, packet.payload, from);
          assert s'.lastSeqn == s.lastSeqn;
          if role.Primary? {
            var i :| 0 <= i < |role.secondaries| && Copies(role.secondaries, packet, s.lastSeqn)[i] == d;
            assert d == Datagram(role.secondaries[i], packet.(seqn := s.lastSeqn + i));
          }
        case ConfirmStateChange =>
          if role.Primary? {
            var b := Marked(s.buffer, packet.seqn);
            AcceptsAreAccepts(b, FiredPositions(b));
          }
        case _ =>
      }
    case Work =>
      var n := s.queue[0];
      NotificationFields(Sockets(s.sessions, n.recipient), s.lastSeqn, n);
  }

  /** Profiles and session entries are never removed; a CONNECT leaves both. */
  lemma EntriesAfter(role: Role, s: State, e: Event, name: string)
    requires Inv(s)
    ensures Known(s.users, name) ==> Known(Step(role, s, e).0.users, name)
    ensures name in s.sessions ==> name in Step(role, s, e).0.sessions
    ensures e.Receive? && e.packet.kind.Connect? && e.packet.payload == name ==>
              Known(Step(role, s, e).0.users, name) && name in Step(role, s, e).0.sessions
  {
    StepHandles(role, s, e);
    SessionsAfter(role, s, e);
    StepKeepsInv(role, s, e);
    var s' := Step(role, s, e).0;
    if Known(s.users, name) {
      assert s'.users[Find(s.users, name)].handle == name;
    }
  }

  // ----- The invariant -----

  /** The copy of a container's packet that goes to secondary i. */
  function CopyTo(x: Container, i: nat): Packet
    requires x.content != []
  {
    x.content[0].message.packet.(seqn := First(x) + i)
  }

  predicate SecondaryHandled(cfg: Config, logs: seq<seq<Handled>>, x: Container, i: nat) {
    && x.content != [] && cfg != []
    && i + 1 < |logs| && Handled(CopyTo(x, i), cfg[0]) in logs[i + 1]
  }

  function AcceptFor(cfg: Config, x: Container): Envelope
    requires cfg != []
  {
    Envelope(cfg[0], x.originalHost, MakeAcceptConnCommand(x.originalSeqn))
  }

  predicate ContainerFor(x: Container, h: Handled) {
    && |x.content| == 3
    && (forall j :: 0 <= j < 3 ==> x.content[j].message.packet == h.packet)
    && h.packet.kind.Connect? && x.originalSeqn == h.packet.seqn && x.originalHost == h.from
  }

  /** Container k of the primary's buffer belongs to the k-th CONNECT the primary handled. */
  predicate BufferOk(c: Cluster)
    requires c.replicas != [] && c.logs != []
  {
    var b := c.replicas[0].buffer;
    |b| == |c.logs[0]| && forall k :: 0 <= k < |b| ==> ContainerFor(b[k], c.logs[0][k])
  }

  /** A CONNECT to a secondary is the copy of some broadcast. */
  predicate IsCopy(cfg: Config, b: seq<Container>, m: Envelope) {
    exists k, i :: 0 <= k < |b| && 0 <= i < |cfg| - 1 && b[k].content != []
                   && m == Envelope(cfg[0], cfg[i + 1], CopyTo(b[k], i))
  }

  /** A confirmation echoes a copy that its secondary handled. */
  predicate IsEcho(cfg: Config, b: seq<Container>, logs: seq<seq<Handled>>, seqn: nat) {
    exists k, i :: 0 <= k < |b| && 0 <= i < |cfg| - 1 && b[k].content != []
                   && seqn == First(b[k]) + i && SecondaryHandled(cfg, logs, b[k], i)
  }

  predicate IsAcceptance(cfg: Config, b: seq<Container>, m: Envelope)
    requires cfg != []
  {
    exists k :: 0 <= k < |b| && Complete(b[k]) && m == AcceptFor(cfg, b[k])
  }

  predicate MailOk(cfg: Config, c: Cluster, m: Envelope)
    requires Sized(cfg, c)
  {
    var b := c.replicas[0].buffer;
    && (m.packet.kind.Connect? && m.to in cfg[1..] ==> IsCopy(cfg, b, m))
    && (m.packet.kind.ConfirmStateChange? && m.to in cfg ==>
          m.to == cfg[0] && IsEcho(cfg, b, c.logs, m.packet.seqn))
  }

  /** The acceptances sent are exactly those of the complete containers. */
  predicate AcceptedOk(cfg: Config, c: Cluster)
    requires Sized(cfg, c)
  {
    var b := c.replicas[0].buffer;
    && (forall m :: m in c.accepted ==> IsAcceptance(cfg, b, m))
    && (forall k :: 0 <= k < |b| && Complete(b[k]) ==> AcceptFor(cfg, b[k]) in c.accepted)
  }

  /** A flag stands for a copy that its secondary handled. */
  predicate FlagsOk(cfg: Config, c: Cluster)
    requires Sized(cfg, c)
  {
    var b := c.replicas[0].buffer;
    forall k, j :: 0 <= k < |b| && 0 <= j < |b[k].content| && b[k].content[j].confirmed ==>
      SecondaryHandled(cfg, c.logs, b[k], j)
  }

  /** What a replica handled is in its profiles and in its session table. */
  predicate EntriesOk(s: State, log: seq<Handled>) {
    forall i :: 0 <= i < |log| ==> Known(s.users, log[i].packet.payload) && log[i].packet.payload in s.sessions
  }

  predicate ClusterInv(cfg: Config, c: Cluster) {
    && ValidConfig(cfg) && Sized(cfg, c)
    && (forall r :: 0 <= r < |cfg| ==> Inv(c.replicas[r]) && EntriesOk(c.replicas[r], c.logs[r]))
    && BufferOk(c)
    && FlagsOk(cfg, c)
    && (forall m :: m in c.network ==> MailOk(cfg, c, m))
    && AcceptedOk(cfg, c)
  }

  // ----- What every step keeps -----

  /** Same messages, whatever the flags. */
  predicate SameMessages(x: Container, y: Container) {
    && |x.content| == |y.content| && x.originalSeqn == y.originalSeqn && x.originalHost == y.originalHost
    && forall j :: 0 <= j < |x.content| ==>
         x.content[j].message == y.content[j].message && (x.content[j].confirmed ==> y.content[j].confirmed)
  }

  /** Containers, their messages, their flags and the logs only ever grow. */
  predicate Grows(b: seq<Container>, logs: seq<seq<Handled>>, b': seq<Container>, logs': seq<seq<Handled>>) {
    && |b| <= |b'| && (forall k :: 0 <= k < |b| ==> SameMessages(b[k], b'[k]))
    && |logs| == |logs'| && forall r :: 0 <= r < |logs| ==> logs[r] <= logs'[r]
  }

  lemma HandledGrows(cfg: Config, b: seq<Container>, logs: seq<seq<Handled>>, b': seq<Container>,
                     logs': seq<seq<Handled>>, k: nat, i: nat)
    requires Grows(b, logs, b', logs') && k < |b| && SecondaryHandled(cfg, logs, b[k], i)
    ensures SecondaryHandled(cfg, logs', b'[k], i) && CopyTo(b[k], i) == CopyTo(b'[k], i)
  {
  }

  lemma MailGrows(cfg: Config, c: Cluster, c': Cluster, m: Envelope)
    requires Sized(cfg, c) && Sized(cfg, c') && MailOk(cfg, c, m)
    requires Grows(c.replicas[0].buffer, c.logs, c'.replicas[0].buffer, c'.logs)
    ensures MailOk(cfg, c', m)
  {
    var b, b' := c.replicas[0].buffer, c'.replicas[0].buffer;
    if m.packet.kind.Connect? && m.to in cfg[1..] {
      var k, i :| 0 <= k < |b| && 0 <= i < |cfg| - 1 && b[k].content != []
                  && m == Envelope(cfg[0], cfg[i + 1], CopyTo(b[k], i));
      assert SameMessages(b[k], b'[k]);
      assert m == Envelope(cfg[0], cfg[i + 1], CopyTo(b'[k], i));
    }
    if m.packet.kind.ConfirmStateChange? && m.to in cfg {
      var k, i :| 0 <= k < |b| && 0 <= i < |cfg| - 1 && b[k].content != [] && m.packet.seqn == First(b[k]) + i
                  && SecondaryHandled(cfg, c.logs, b[k], i);
      HandledGrows(cfg, b, c.logs, b', c'.logs, k, i);
      assert SameMessages(b[k], b'[k]);
      assert m.packet.seqn == First(b'[k]) + i;
    }
  }

  lemma AcceptanceGrows(cfg: Config, c: Cluster, c': Cluster, m: Envelope)
    requires Sized(cfg, c) && Sized(cfg, c') && IsAcceptance(cfg, c.replicas[0].buffer, m)
    requires Grows(c.replicas[0].buffer, c.logs, c'.replicas[0].buffer, c'.logs)
    ensures IsAcceptance(cfg, c'.replicas[0].buffer, m)
  {
    var b, b' := c.replicas[0].buffer, c'.replicas[0].buffer;
    var k :| 0 <= k < |b| && Complete(b[k]) && m == AcceptFor(cfg, b[k]);
    assert SameMessages(b[k], b'[k]);
    assert Complete(b'[k]) && m == AcceptFor(cfg, b'[k]);
  }

  lemma MarkedSameMessages(b: seq<Container>, seqn: nat, k: nat)
    requires k < |b|
    ensures SameMessages(b[k], Marked(b, seqn)[k])
  {
  }

  lemma ReactGrows(cfg: Config, c: Cluster, r: nat, e: Event)
    requires Sized(cfg, c) && r < |cfg|
    ensures var c' := React(cfg, c, r, e);
            Grows(c.replicas[0].buffer, c.logs, c'.replicas[0].buffer, c'.logs)
  {
    hide Step;
    var b := c.replicas[0].buffer;
    BufferAfter(RoleIn(cfg, r), c.replicas[r], e);
    if r == 0 && e.Receive? && e.packet.kind.ConfirmStateChange? {
      forall k | 0 <= k < |b| ensures SameMessages(b[k], Marked(b, e.packet.seqn)[k]) {
        MarkedSameMessages(b, e.packet.seqn, k);
      }
    }
  }

  lemma ReactKeepsReplicas(cfg: Config, c: Cluster, r: nat, e: Event)
    requires ClusterInv(cfg, c) && r < |cfg|
    ensures var c' := React(cfg, c, r, e);
            forall q :: 0 <= q < |cfg| ==> Inv(c'.replicas[q]) && EntriesOk(c'.replicas[q], c'.logs[q])
  {
    hide Step;
    var c' := React(cfg, c, r, e);
    StepKeepsInv(RoleIn(cfg, r), c.replicas[r], e);
    forall i | 0 <= i < |c'.logs[r]|
      ensures Known(c'.replicas[r].users, c'.logs[r][i].packet.payload)
              && c'.logs[r][i].packet.payload in c'.replicas[r].sessions
    {
      EntriesAfter(RoleIn(cfg, r), c.replicas[r], e, c'.logs[r][i].packet.payload);
    }
  }

  lemma ReactKeepsBuffer(cfg: Config, c: Cluster, r: nat, e: Event)
    requires Sized(cfg, c) && BufferOk(c) && r < |cfg|
    ensures BufferOk(React(cfg, c, r, e))
  {
    hide Step;
    var c' := React(cfg, c, r, e);
    var b, b' := c.replicas[0].buffer, c'.replicas[0].buffer;
    BufferAfter(RoleIn(cfg, r), c.replicas[r], e);
    ReactGrows(cfg, c, r, e);
    forall k | 0 <= k < |b'| ensures ContainerFor(b'[k], c'.logs[0][k]) {
      if k < |b| {
        assert ContainerFor(b[k], c.logs[0][k]) && SameMessages(b[k], b'[k]);
      } else {
        assert b'[k] == Fresh(Numbered(e.packet, c.replicas[0].lastSeqn), e.packet.seqn, e.from);
      }
    }
  }

  /** The heart of safety: with at most three secondaries, a number names one copy of one broadcast. */
  lemma NumberNamesOneCopy(cfg: Config, c: Cluster, k: nat, i: nat, k': nat, j: nat)
    requires ClusterInv(cfg, c) && |cfg| <= 4
    requires k < |c.replicas[0].buffer| && k' < |c.replicas[0].buffer| && i < |cfg| - 1 && j < 3
    requires First(c.replicas[0].buffer[k]) + i == First(c.replicas[0].buffer[k']) + j
    ensures k == k' && i == j
  {
  }

  lemma ReactKeepsFlags(cfg: Config, c: Cluster, r: nat, e: Event)
    requires ClusterInv(cfg, c) && r < |cfg| && |cfg| <= 4
    requires e.Receive? && e.packet.kind.ConfirmStateChange?
             ==> IsEcho(cfg, c.replicas[0].buffer, c.logs, e.packet.seqn)
    ensures FlagsOk(cfg, React(cfg, c, r, e))
  {
    var b' := React(cfg, c, r, e).replicas[0].buffer;
    forall k, j | 0 <= k < |b'| && 0 <= j < |b'[k].content| && b'[k].content[j].confirmed
      ensures SecondaryHandled(cfg, React(cfg, c, r, e).logs, b'[k], j)
    {
      FlagOk(cfg, c, r, e, k, j);
    }
  }

  lemma FlagOk(cfg: Config, c: Cluster, r: nat, e: Event, k: nat, j: nat)
    requires ClusterInv(cfg, c) && r < |cfg| && |cfg| <= 4
    requires e.Receive? && e.packet.kind.ConfirmStateChange?
             ==> IsEcho(cfg, c.replicas[0].buffer, c.logs, e.packet.seqn)
    requires var b' := React(cfg, c, r, e).replicas[0].buffer;
             k < |b'| && j < |b'[k].content| && b'[k].content[j].confirmed
    ensures SecondaryHandled(cfg, React(cfg, c, r, e).logs, React(cfg, c, r, e).replicas[0].buffer[k], j)
  {
    hide Step, Inv, MailOk, BufferOk, AcceptedOk, EntriesOk, IsEcho;
    var c' := React(cfg, c, r, e);
    var b, b' := c.replicas[0].buffer, c'.replicas[0].buffer;
    BufferAfter(RoleIn(cfg, r), c.replicas[r], e);
    ReactGrows(cfg, c, r, e);
    if k < |b| {
      assert SameMessages(b[k], b'[k]);
      if !b[k].content[j].confirmed {
        assert b'[k] == MarkedContainer(b[k], e.packet.seqn);
        FlagComesFromEcho(cfg, c, e, k, j);
      }
      HandledGrows(cfg, b, c.logs, b', c'.logs, k, j);
    }
  }

  lemma FlagComesFromEcho(cfg: Config, c: Cluster, e: Event, k: nat, j: nat)
    requires ClusterInv(cfg, c) && |cfg| <= 4
    requires e.Receive? && e.packet.kind.ConfirmStateChange? && k < |c.replicas[0].buffer|
             && j < |c.replicas[0].buffer[k].content|
    requires IsEcho(cfg, c.replicas[0].buffer, c.logs, e.packet.seqn)
    requires c.replicas[0].buffer[k].content[j].message.sequenceNumber == e.packet.seqn
    ensures SecondaryHandled(cfg, c.logs, c.replicas[0].buffer[k], j)
  {
    var b := c.replicas[0].buffer;
    var l, i :| 0 <= l < |b| && 0 <= i < |cfg| - 1 && b[l].content != []
                && e.packet.seqn == First(b[l]) + i && SecondaryHandled(cfg, c.logs, b[l], i);
    assert Inv(c.replicas[0]);
    NumberNamesOneCopy(cfg, c, l, i, k, j);
  }

  /** The acceptance of a container. */
  function Answer(x: Container): Datagram {
    Datagram(x.originalHost, MakeAcceptConnCommand(x.originalSeqn))
  }

  lemma {:induction false} AcceptsMembers(b: seq<Container>, positions: seq<nat>, d: Datagram)
    requires forall k :: 0 <= k < |positions| ==> positions[k] < |b|
    requires forall k :: 0 <= k < |b| ==> b[k].content != [] && b[k].content[0].message.packet.kind.Connect?
    ensures d in Accepts(b, positions) <==> exists k :: 0 <= k < |positions| && d == Answer(b[positions[k]])
    decreases |positions|
  {
    hide Answer;
    if positions != [] {
      var n := |positions| - 1;
      AcceptsMembers(b, positions[..n], d);
      AcceptsLast(b, positions);
      assert forall k :: 0 <= k < n ==> positions[..n][k] == positions[k];
    }
  }

  lemma AcceptsLast(b: seq<Container>, positions: seq<nat>)
    requires positions != [] && forall k :: 0 <= k < |positions| ==> positions[k] < |b|
    requires forall k :: 0 <= k < |b| ==> b[k].content != [] && b[k].content[0].message.packet.kind.Connect?
    ensures var n := |positions| - 1;
            Accepts(b, positions) == Accepts(b, positions[..n]) + [Answer(b[positions[n]])]
  {
  }

  /** The copies of a broadcast are copies of the container it pushes. */
  lemma NewCopyOk(cfg: Config, c: Cluster, e: Event, d: Datagram)
    requires Sized(cfg, c) && e.Receive? && e.packet.kind.Connect?
    requires exists i :: 0 <= i < |cfg[1..]|
                           && d == Datagram(cfg[1..][i], e.packet.(seqn := c.replicas[0].lastSeqn + i))
    ensures IsCopy(cfg, React(cfg, c, 0, e).replicas[0].buffer, Envelope(cfg[0], d.to, d.packet))
  {
    hide Step;
    var b, b' := c.replicas[0].buffer, React(cfg, c, 0, e).replicas[0].buffer;
    BufferAfter(RoleIn(cfg, 0), c.replicas[0], e);
    var i :| 0 <= i < |cfg[1..]| && d == Datagram(cfg[1..][i], e.packet.(seqn := c.replicas[0].lastSeqn + i));
    var x := Fresh(Numbered(e.packet, c.replicas[0].lastSeqn), e.packet.seqn, e.from);
    assert b'[|b|] == x && x.content[0] == Item(BaseMessage(c.replicas[0].lastSeqn, e.packet), false);
    assert Envelope(cfg[0], d.to, d.packet) == Envelope(cfg[0], cfg[i + 1], CopyTo(b'[|b|], i));
  }

  lemma ContainersAreConnects(c: Cluster)
    requires c.replicas != [] && c.logs != [] && BufferOk(c)
    ensures var b := c.replicas[0].buffer;
            forall k :: 0 <= k < |b| ==> b[k].content != [] && b[k].content[0].message.packet.kind.Connect?
  {
  }

  lemma NewAcceptOk(cfg: Config, c: Cluster, d: Datagram)
    requires Sized(cfg, c) && BufferOk(c)
    requires d in Accepts(c.replicas[0].buffer, FiredPositions(c.replicas[0].buffer))
    ensures IsAcceptance(cfg, c.replicas[0].buffer, Envelope(cfg[0], d.to, d.packet))
  {
    var b := c.replicas[0].buffer;
    var positions := FiredPositions(b);
    ContainersAreConnects(c);
    AcceptsMembers(b, positions, d);
    var k :| 0 <= k < |positions| && d == Answer(b[positions[k]]);
    assert Envelope(cfg[0], d.to, d.packet) == AcceptFor(cfg, b[positions[k]]);
  }

  lemma NewMailOk(cfg: Config, c: Cluster, r: nat, e: Event, d: Datagram)
    requires ClusterInv(cfg, c) && r < |cfg| && d in Step(RoleIn(cfg, r), c.replicas[r], e).1
    requires e.Receive? ==> MailOk(cfg, c, Envelope(e.from, cfg[r], e.packet))
    ensures MailOk(cfg, React(cfg, c, r, e), Envelope(cfg[r], d.to, d.packet))
  {
    hide Step;
    SentAfter(RoleIn(cfg, r), c.replicas[r], e, d);
    match d.packet.kind
    case Connect => NewCopyOk(cfg, c, e, d);
    case ConfirmStateChange => EchoOk(cfg, c, r, e, Envelope(cfg[r], d.to, d.packet));
    case _ =>
  }

  /** A new acceptance is that of a container complete after the step. */
  lemma NewAcceptanceOk(cfg: Config, c: Cluster, r: nat, e: Event, d: Datagram)
    requires Sized(cfg, c) && BufferOk(c) && r < |cfg|
    requires d in Step(RoleIn(cfg, r), c.replicas[r], e).1 && d.packet.kind.Accept?
    ensures IsAcceptance(cfg, React(cfg, c, r, e).replicas[0].buffer, Envelope(cfg[r], d.to, d.packet))
  {
    hide Step;
    SentAfter(RoleIn(cfg, r), c.replicas[r], e, d);
    BufferAfter(RoleIn(cfg, r), c.replicas[r], e);
    ReactKeepsBuffer(cfg, c, r, e);
    NewAcceptOk(cfg, React(cfg, c, r, e), d);
  }

  /** A secondary confirms a CONNECT only by handling it; it is never sent a confirmation itself. */
  lemma EchoOk(cfg: Config, c: Cluster, r: nat, e: Event, m: Envelope)
    requires ClusterInv(cfg, c) && 0 < r < |cfg|
    requires e.Receive? && e.packet.kind in {Connect, ConfirmStateChange}
    requires MailOk(cfg, c, Envelope(e.from, cfg[r], e.packet))
    requires m.packet == MakeConfirmStateChangeMessage(e.packet.seqn) && m.to == cfg[0]
    ensures MailOk(cfg, React(cfg, c, r, e), m)
  {
    hide Step, Inv, BufferOk, FlagsOk, AcceptedOk, EntriesOk;
    var c' := React(cfg, c, r, e);
    var b, b' := c.replicas[0].buffer, c'.replicas[0].buffer;
    BufferAfter(RoleIn(cfg, r), c.replicas[r], e);
    ReactGrows(cfg, c, r, e);
    assert cfg[r] == cfg[1..][r - 1] && e.packet.kind.Connect?;
    var k, i :| 0 <= k < |b| && 0 <= i < |cfg| - 1 && b[k].content != []
                && Envelope(e.from, cfg[r], e.packet) == Envelope(cfg[0], cfg[i + 1], CopyTo(b[k], i));
    assert i + 1 == r;
    assert c'.logs[r][|c.logs[r]|] == Handled(CopyTo(b[k], i), cfg[0]);
    assert SecondaryHandled(cfg, c'.logs, b'[k], i);
  }

  /** A container that becomes complete is accepted in the same step. */
  lemma ReactAccepts(cfg: Config, c: Cluster, r: nat, e: Event, k: nat)
    requires ClusterInv(cfg, c) && r < |cfg|
    requires k < |React(cfg, c, r, e).replicas[0].buffer| && Complete(React(cfg, c, r, e).replicas[0].buffer[k])
    ensures AcceptFor(cfg, React(cfg, c, r, e).replicas[0].buffer[k]) in React(cfg, c, r, e).accepted
  {
    hide Step;
    var c' := React(cfg, c, r, e);
    var b, b' := c.replicas[0].buffer, c'.replicas[0].buffer;
    BufferAfter(RoleIn(cfg, r), c.replicas[r], e);
    if r == 0 && e.Receive? && e.packet.kind.ConfirmStateChange? {
      ConfirmAccepts(cfg, c, e, k);
    } else if k < |b| {
      assert b'[k] == b[k];
    } else {
      FreshIsIncomplete(Numbered(e.packet, c.replicas[0].lastSeqn), e.packet.seqn, e.from);
    }
  }

  lemma ConfirmAccepts(cfg: Config, c: Cluster, e: Event, k: nat)
    requires ClusterInv(cfg, c) && e.Receive? && e.packet.kind.ConfirmStateChange?
    requires k < |React(cfg, c, 0, e).replicas[0].buffer| && Complete(React(cfg, c, 0, e).replicas[0].buffer[k])
    ensures AcceptFor(cfg, React(cfg, c, 0, e).replicas[0].buffer[k]) in React(cfg, c, 0, e).accepted
  {
    hide Step;
    var c' := React(cfg, c, 0, e);
    var b' := c'.replicas[0].buffer;
    ReactKeepsBuffer(cfg, c, 0, e);
    ContainersAreConnects(c');
    var d := Answer(b'[k]);
    AcceptIsSent(b', k, d);
    ConfirmSends(cfg[1..], c.replicas[0], e);
    MailHas(cfg[0], Step(RoleIn(cfg, 0), c.replicas[0], e).1, d);
  }

  lemma ConfirmSends(secondaries: seq<SocketAddress>, s: State, e: Event)
    requires e.Receive? && e.packet.kind.ConfirmStateChange?
    ensures var (s', sent) := Step(Primary(secondaries), s, e);
            sent == Accepts(s'.buffer, FiredPositions(s'.buffer))
  {
    hide HandleConnect, HandleFollow, HandleSend, HandleDisconnect, Marked, Accepts, FiredPositions;
  }

  lemma MailHas(from: SocketAddress, sent: seq<Datagram>, d: Datagram)
    requires d in sent
    ensures Envelope(from, d.to, d.packet) in Mail(from, sent)
  {
  }

  lemma AcceptIsSent(b: seq<Container>, k: nat, d: Datagram)
    requires k < |b| && Complete(b[k])
    requires forall l :: 0 <= l < |b| ==> b[l].content != [] && b[l].content[0].message.packet.kind.Connect?
    requires d == Answer(b[k])
    ensures d in Accepts(b, FiredPositions(b))
  {
    AcceptsMembers(b, FiredPositions(b), d);
    var l :| 0 <= l < |FiredPositions(b)| && FiredPositions(b)[l] == k;
  }

  lemma FreshIsIncomplete(messages: seq<BaseMessage>, seqn: nat, host: SocketAddress)
    requires messages != []
    ensures !Complete(Fresh(messages, seqn, host))
  {
    assert !Fresh(messages, seqn, host).content[0].confirmed;
  }

  lemma ReactKeepsMail(cfg: Config, c: Cluster, r: nat, e: Event)
    requires ClusterInv(cfg, c) && r < |cfg|
    requires e.Receive? ==> MailOk(cfg, c, Envelope(e.from, cfg[r], e.packet))
    ensures forall m :: m in React(cfg, c, r, e).network ==> MailOk(cfg, React(cfg, c, r, e), m)
  {
    hide Step;
    var c' := React(cfg, c, r, e);
    var sent := Step(RoleIn(cfg, r), c.replicas[r], e).1;
    ReactGrows(cfg, c, r, e);
    forall m | m in c'.network ensures MailOk(cfg, c', m) {
      if m in c.network {
        MailGrows(cfg, c, c', m);
      } else {
        assert m in Mail(cfg[r], sent);
        var d :| d in sent && m == Envelope(cfg[r], d.to, d.packet);
        NewMailOk(cfg, c, r, e, d);
      }
    }
  }

  lemma ReactKeepsInv(cfg: Config, c: Cluster, r: nat, e: Event)
    requires ClusterInv(cfg, c) && r < |cfg| && |cfg| <= 4
    requires e.Receive? ==> MailOk(cfg, c, Envelope(e.from, cfg[r], e.packet))
    ensures ClusterInv(cfg, React(cfg, c, r, e))
  {
    hide Step;
    var c' := React(cfg, c, r, e);
    ReactKeepsReplicas(cfg, c, r, e);
    ReactKeepsBuffer(cfg, c, r, e);
    ReactKeepsFlags(cfg, c, r, e);
    ReactKeepsMail(cfg, c, r, e);
    ReactKeepsAccepted(cfg, c, r, e);
  }

  lemma ReactKeepsAccepted(cfg: Config, c: Cluster, r: nat, e: Event)
    requires ClusterInv(cfg, c) && r < |cfg|
    ensures AcceptedOk(cfg, React(cfg, c, r, e))
  {
    hide Step;
    var c' := React(cfg, c, r, e);
    var sent := Step(RoleIn(cfg, r), c.replicas[r], e).1;
    ReactGrows(cfg, c, r, e);
    forall m | m in c'.accepted ensures IsAcceptance(cfg, c'.replicas[0].buffer, m) {
      if m in c.accepted {
        AcceptanceGrows(cfg, c, c', m);
      } else {
        assert m in Mail(cfg[r], sent);
        var d :| d in sent && m == Envelope(cfg[r], d.to, d.packet);
        NewAcceptanceOk(cfg, c, r, e, d);
      }
    }
    forall k | 0 <= k < |c'.replicas[0].buffer| && Complete(c'.replicas[0].buffer[k])
      ensures AcceptFor(cfg, c'.replicas[0].buffer[k]) in c'.accepted
    {
      ReactAccepts(cfg, c, r, e, k);
    }
  }

  /** A restart keeps the invariant when no copy and no confirmation of the old primary is in flight. */
  lemma RestartKeepsInv(cfg: Config, c: Cluster)
    requires ClusterInv(cfg, c) && Quiet(cfg, c)
    ensures ClusterInv(cfg, Restarted(c))
  {
    if CanRestart(c.replicas[0]) {
      LoadedIsWellFormed(c.replicas[0].disk);
    }
  }

  /** Losing mail, or a client's request to the primary, changes nothing the invariant speaks of. */
  lemma NetworkKeepsInv(cfg: Config, c: Cluster, c': Cluster)
    requires ClusterInv(cfg, c) && c' == c.(network := c'.network)
    requires forall m :: m in c'.network && m !in c.network ==> m.to == cfg[0] && !m.packet.kind.ConfirmStateChange?
    ensures ClusterInv(cfg, c')
  {
    hide Inv, EntriesOk, IsCopy, IsEcho, ContainerFor, SecondaryHandled, IsAcceptance;
    forall m | m in c'.network ensures MailOk(cfg, c', m) {
      assert m in c.network ==> MailOk(cfg, c, m);
    }
  }

  lemma NextKeepsInv(cfg: Config, c: Cluster, a: Action)
    requires ClusterInv(cfg, c) && |cfg| <= 4 && (a.Restart? ==> Quiet(cfg, c))
    ensures ClusterInv(cfg, Next(cfg, c, a))
  {
    hide Inv, MailOk, BufferOk, FlagsOk, AcceptedOk, EntriesOk, React, Restarted;
    match a
    case ClientSends(from, packet) => NetworkKeepsInv(cfg, c, Next(cfg, c, a));
    case Deliver(r, mail) =>
      if r < |cfg| && mail in c.network && mail.to == cfg[r] {
        assert MailOk(cfg, c, mail);
        ReactKeepsInv(cfg, c, r, Receive(mail.packet, mail.from));
      }
    case WorkerRound(r) =>
      if r < |cfg| {
        ReactKeepsInv(cfg, c, r, Work);
      }
    case Drop(mail) => NetworkKeepsInv(cfg, c, Next(cfg, c, a));
    case Restart => RestartKeepsInv(cfg, c);
  }

  lemma StartInv(cfg: Config, c: Cluster)
    requires Start(cfg, c)
    ensures ClusterInv(cfg, c)
  {
  }

  /** The invariant in every run whose restarts are quiet. */
  lemma {:induction false} ExecuteKeepsInv(cfg: Config, c: Cluster, actions: seq<Action>)
    requires ClusterInv(cfg, c) && |cfg| <= 4 && QuietRestarts(cfg, c, actions)
    ensures ClusterInv(cfg, Execute(cfg, c, actions))
  {
    if actions != [] {
      var n := |actions| - 1;
      assert forall k :: 0 <= k <= n ==> actions[..n][..k] == actions[..k];
      ExecuteKeepsInv(cfg, c, actions[..n]);
      NextKeepsInv(cfg, Execute(cfg, c, actions[..n]), actions[n]);
    }
  }

  /** Containers match the primary's CONNECTs in every run, whatever the number of secondaries. */
  lemma {:induction false} ExecuteKeepsBuffer(cfg: Config, c: Cluster, actions: seq<Action>)
    requires Start(cfg, c)
    ensures BufferOk(Execute(cfg, c, actions))
  {
    if actions != [] {
      var n := |actions| - 1;
      ExecuteKeepsBuffer(cfg, c, actions[..n]);
      var mid := Execute(cfg, c, actions[..n]);
      match actions[n]
      case ClientSends(_, _) =>
      case Deliver(r, mail) =>
        if r < |cfg| {
          ReactKeepsBuffer(cfg, mid, r, Receive(mail.packet, mail.from));
        }
      case WorkerRound(r) =>
        if r < |cfg| {
          ReactKeepsBuffer(cfg, mid, r, Work);
        }
      case Drop(_) =>
      case Restart =>
    }
  }

  // ----- Safety -----

  /** The acceptance that answers a CONNECT. */
  function AcceptTo(cfg: Config, h: Handled): Envelope
    requires cfg != []
  {
    Envelope(cfg[0], h.from, MakeAcceptConnCommand(h.packet.seqn))
  }

  /**
   The k-th CONNECT of the primary is replicated: since the primary last started, secondary r
   handled the very copy of it that the primary sent to r, and every replica holds its profile
   and session entry.
   */
  predicate ReplicatedAt(cfg: Config, c: Cluster, k: nat)
    requires Sized(cfg, c)
  {
    var b := c.replicas[0].buffer;
    && k < |b| && k < |c.logs[0]| && b[k].content != []
    && var p := c.logs[0][k].packet;
       && p.kind.Connect?
       && (forall r :: 1 <= r < |cfg| ==> Handled(p.(seqn := First(b[k]) + r - 1), cfg[0]) in c.logs[r])
       && (forall r :: 0 <= r < |cfg| ==> Known(c.replicas[r].users, p.payload) && p.payload in c.replicas[r].sessions)
  }

  /** An acceptance from the primary to the host of a CONNECT, one above its number. */
  predicate Answers(cfg: Config, h: Handled, m: Envelope)
    requires cfg != []
  {
    && m.from == cfg[0] && m.to == h.from
    && m.packet.kind.Accept? && m.packet.seqn == h.packet.seqn + 1 && m.packet.payload == ""
  }

  /** Every acceptance answers a replicated CONNECT, and every container called back on is one's. */
  ghost predicate AcceptsReplicated(cfg: Config, c: Cluster)
    requires Sized(cfg, c)
  {
    && (forall m :: m in c.accepted ==>
          exists k :: 0 <= k < |c.logs[0]| && Answers(cfg, c.logs[0][k], m) && ReplicatedAt(cfg, c, k))
    && (forall k :: 0 <= k < |c.replicas[0].buffer| && Complete(c.replicas[0].buffer[k]) ==> ReplicatedAt(cfg, c, k))
  }

  /**
   Safety: in every run with at most three secondaries, an acceptance goes to the host of a
   CONNECT, one above its number, and only after the primary handled that CONNECT and each
   secondary its own copy of it; with fewer than three nothing is ever accepted.
   */
  lemma AcceptMeansReplicated(cfg: Config, c: Cluster, actions: seq<Action>)
    requires Start(cfg, c) && |cfg| <= 4 && QuietRestarts(cfg, c, actions)
    ensures AcceptsReplicated(cfg, Execute(cfg, c, actions))
    ensures |cfg| < 4 ==> Execute(cfg, c, actions).accepted == {}
  {
    StartInv(cfg, c);
    ExecuteKeepsInv(cfg, c, actions);
    InvIsSafe(cfg, Execute(cfg, c, actions));
  }

  lemma InvIsSafe(cfg: Config, c: Cluster)
    requires ClusterInv(cfg, c) && |cfg| <= 4
    ensures AcceptsReplicated(cfg, c)
    ensures |cfg| < 4 ==> c.accepted == {}
  {
    hide Inv, MailOk, ReplicatedAt;
    var b := c.replicas[0].buffer;
    forall k | 0 <= k < |b| && Complete(b[k])
      ensures |cfg| == 4 && ReplicatedAt(cfg, c, k) && AcceptFor(cfg, b[k]) == AcceptTo(cfg, c.logs[0][k])
    {
      CompleteMeansReplicated(cfg, c, k);
    }
    forall m | m in c.accepted
      ensures |cfg| == 4
      ensures exists k :: 0 <= k < |c.logs[0]| && Answers(cfg, c.logs[0][k], m) && ReplicatedAt(cfg, c, k)
    {
      assert IsAcceptance(cfg, b, m);
      var k :| 0 <= k < |b| && Complete(b[k]) && m == AcceptFor(cfg, b[k]);
      assert Answers(cfg, c.logs[0][k], m);
    }
  }

  lemma CompleteMeansReplicated(cfg: Config, c: Cluster, k: nat)
    requires ClusterInv(cfg, c) && |cfg| <= 4
    requires k < |c.replicas[0].buffer| && Complete(c.replicas[0].buffer[k])
    ensures |cfg| == 4 && ContainerFor(c.replicas[0].buffer[k], c.logs[0][k]) && ReplicatedAt(cfg, c, k)
  {
    hide Inv, MailOk, AcceptedOk;
    var x, h := c.replicas[0].buffer[k], c.logs[0][k];
    assert ContainerFor(x, h);
    assert x.content[2].confirmed && SecondaryHandled(cfg, c.logs, x, 2);
    forall r | 1 <= r < |cfg|
      ensures Handled(h.packet.(seqn := First(x) + r - 1), cfg[0]) in c.logs[r]
      ensures Known(c.replicas[r].users, h.packet.payload) && h.packet.payload in c.replicas[r].sessions
    {
      assert x.content[r - 1].confirmed && SecondaryHandled(cfg, c.logs, x, r - 1);
      EntryOf(c.replicas[r], c.logs[r], Handled(CopyTo(x, r - 1), cfg[0]));
    }
    assert h in c.logs[0];
    EntryOf(c.replicas[0], c.logs[0], h);
  }

  lemma EntryOf(s: State, log: seq<Handled>, h: Handled)
    requires EntriesOk(s, log) && h in log
    ensures Known(s.users, h.packet.payload) && h.packet.payload in s.sessions
  {
  }
}
