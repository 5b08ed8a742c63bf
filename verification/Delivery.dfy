/** Notifications and sessions over whole runs: what is kept, what is delivered, and in which order. */
module Delivery {
  import opened Messages
  import opened Confirmation
  import opened Sessions
  import opened ServerSpec
  import opened ServerInvariants

  // ----- Conservation -----

  /** Notifications that an event puts into the queue, and those it takes out for good. */
  ghost function EnqueuedBy(s: State, e: Event): seq<Pending> {
    if e.Receive? && e.packet.kind.Send? then Posted(s, e.packet.payload, e.from) else []
  }

  function DeliveredBy(s: State, e: Event): seq<Pending> {
    if e.Work? && s.queue != [] && Sockets(s.sessions, s.queue[0].recipient) != [] then [s.queue[0]] else []
  }

  ghost function Enqueued(role: Role, s: State, events: seq<Event>): seq<Pending> {
    if events == [] then []
    else
      var n := |events| - 1;
      Enqueued(role, s, events[..n]) + EnqueuedBy(Run(role, s, events[..n]), events[n])
  }

  ghost function Delivered(role: Role, s: State, events: seq<Event>): seq<Pending> {
    if events == [] then []
    else
      var n := |events| - 1;
      Delivered(role, s, events[..n]) + DeliveredBy(Run(role, s, events[..n]), events[n])
  }

  lemma StepConserves(role: Role, s: State, e: Event)
    ensures multiset(s.queue) + multiset(EnqueuedBy(s, e))
            == multiset(Step(role, s, e).0.queue) + multiset(DeliveredBy(s, e))
  {
    match e
    case Receive(packet, from) => QueueAfterHandle(role, s, packet, from);
    case Work =>
      if s.queue != [] {
        assert s.queue == [s.queue[0]] + s.queue[1..];
      }
  }

  /** Handlers only ever append to the queue, and only SEND does. */
  lemma QueueAfterHandle(role: Role, s: State, packet: Packet, from: SocketAddress)
    ensures Handle(role, s, packet, from).0.queue == s.queue + EnqueuedBy(s, Receive(packet, from))
  {
  }

  /** Over every run: what was queued plus what SEND enqueued is what is queued plus what was delivered. */
  lemma {:induction false} Conservation(role: Role, s: State, events: seq<Event>)
    ensures multiset(s.queue) + multiset(Enqueued(role, s, events))
            == multiset(Run(role, s, events).queue) + multiset(Delivered(role, s, events))
  {
    hide Step;
    if events != [] {
      var n := |events| - 1;
      var mid := Run(role, s, events[..n]);
      Conservation(role, s, events[..n]);
      StepConserves(role, mid, events[n]);
      Chained(multiset(s.queue), multiset(Enqueued(role, s, events[..n])), multiset(mid.queue),
              multiset(Delivered(role, s, events[..n])), multiset(EnqueuedBy(mid, events[n])),
              multiset(Run(role, s, events).queue), multiset(DeliveredBy(mid, events[n])));
    }
  }

  /** Two balanced accounts in a row balance. */
  lemma Chained<T>(a: multiset<T>, in1: multiset<T>, b: multiset<T>, out1: multiset<T>,
                   in2: multiset<T>, c: multiset<T>, out2: multiset<T>)
    requires a + in1 == b + out1 && b + in2 == c + out2
    ensures a + (in1 + in2) == c + (out1 + out2)
  {
    assert a + (in1 + in2) == (a + in1) + in2;
    assert (b + out1) + in2 == (b + in2) + out1;
    assert (c + out2) + out1 == c + (out1 + out2);
  }

  // ----- Which notification packets are sent, and their numbers -----

  /** The notification packets among some datagrams: all of them, or those to one address. */
  function Notes(sent: seq<Datagram>, to: Option<SocketAddress>): seq<Packet> {
    if sent == [] then []
    else
      var d := sent[|sent| - 1];
      Notes(sent[..|sent| - 1], to)
      + if d.packet.kind.Notification? && (to.None? || to.value == d.to) then [d.packet] else []
  }

  lemma {:induction false} NotesConcat(a: seq<Datagram>, b: seq<Datagram>, to: Option<SocketAddress>)
    ensures Notes(a + b, to) == Notes(a, to) + Notes(b, to)
    decreases |b|
  {
    if b == [] {
      assert a + b == a;
    } else {
      var n := |b| - 1;
      NotesConcat(a, b[..n], to);
      assert (a + b)[..|a| + n] == a + b[..n] && (a + b)[|a| + n] == b[n];
    }
  }

  lemma {:induction false} NoNotes(sent: seq<Datagram>, to: Option<SocketAddress>)
    requires forall i :: 0 <= i < |sent| ==> !sent[i].packet.kind.Notification?
    ensures Notes(sent, to) == []
  {
    if sent != [] {
      NoNotes(sent[..|sent| - 1], to);
    }
  }

  predicate Increasing(packets: seq<Packet>, above: int, upto: int) {
    && (forall i :: 0 <= i < |packets| ==> above < packets[i].seqn <= upto)
    && (forall i, j :: 0 <= i < j < |packets| ==> packets[i].seqn < packets[j].seqn)
  }

  lemma {:induction false} AcceptsAreAccepts(buffer: seq<Container>, positions: seq<nat>)
    requires forall k :: 0 <= k < |positions| ==> positions[k] < |buffer|
    ensures forall d :: d in Accepts(buffer, positions) ==> d.packet.kind.Accept?
  {
    if positions != [] {
      AcceptsAreAccepts(buffer, positions[..|positions| - 1]);
    }
  }

  /** Only the worker sends notifications. */
  lemma HandlersSendNoNotes(role: Role, s: State, packet: Packet, from: SocketAddress)
    ensures forall d :: d in Handle(role, s, packet, from).1 ==> !d.packet.kind.Notification?
    ensures Handle(role, s, packet, from).0.lastSeqn >= s.lastSeqn
  {
    match packet.kind
    case Connect =>
      assert Connected(s, packet.payload, from).lastSeqn == s.lastSeqn;
    case ConfirmStateChange =>
      if role.Primary? {
        var buffer := Marked(s.buffer, packet.seqn);
        AcceptsAreAccepts(buffer, FiredPositions(buffer));
      }
    case Follow => assert HandleFollow(s, packet.payload, from).lastSeqn == s.lastSeqn;
    case _ =>
  }

  lemma {:induction false} NotificationNotes(sockets: seq<SocketAddress>, lastSeqn: nat, n: Pending,
                                             to: Option<SocketAddress>)
    ensures Increasing(Notes(Notifications(sockets, lastSeqn, n), to), lastSeqn + 1, lastSeqn + 1 + |sockets|)
    decreases |sockets|
  {
    if sockets != [] {
      var k := |sockets| - 1;
      NotificationNotes(sockets[..k], lastSeqn, n, to);
      var sent := Notifications(sockets, lastSeqn, n);
      assert sent[..k] == Notifications(sockets[..k], lastSeqn, n);
      assert sent[k] == Datagram(sockets[k], MakeNotification(lastSeqn + 1 + k, n.body, n.sender));
    }
  }

  lemma StepNotes(role: Role, s: State, e: Event, to: Option<SocketAddress>)
    ensures var (s', sent) := Step(role, s, e);
            s.lastSeqn <= s'.lastSeqn && Increasing(Notes(sent, to), s.lastSeqn + 1, s'.lastSeqn + 1)
  {
    match e
    case Receive(packet, from) =>
      HandlersSendNoNotes(role, s, packet, from);
      NoNotes(Handle(role, s, packet, from).1, to);
    case Work =>
      if s.queue != [] {
        NotificationNotes(Sockets(s.sessions, s.queue[0].recipient), s.lastSeqn, s.queue[0], to);
      }
  }

  /** Notification numbers strictly increase over every run, broadcasts interleaved or not. */
  lemma {:induction false} NotesIncrease(role: Role, s: State, events: seq<Event>, to: Option<SocketAddress>)
    ensures s.lastSeqn <= Run(role, s, events).lastSeqn
    ensures Increasing(Notes(Sent(role, s, events), to), s.lastSeqn + 1, Run(role, s, events).lastSeqn + 1)
  {
    hide Step, Increasing, Notes;
    if events == [] {
      NoNotes([], to);
      NothingIncreases(s.lastSeqn + 1, s.lastSeqn + 1);
    } else {
      var n := |events| - 1;
      var mid := Run(role, s, events[..n]);
      NotesIncrease(role, s, events[..n], to);
      StepNotes(role, mid, events[n], to);
      var before, sent := Sent(role, s, events[..n]), Step(role, mid, events[n]).1;
      NotesConcat(before, sent, to);
      IncreasingConcat(Notes(before, to), Notes(sent, to), s.lastSeqn + 1, mid.lastSeqn + 1,
                       Run(role, s, events).lastSeqn + 1);
    }
  }

  lemma NothingIncreases(above: int, upto: int)
    ensures Increasing([], above, upto)
  {
  }

  lemma IncreasingConcat(a: seq<Packet>, b: seq<Packet>, above: int, mid: int, upto: int)
    requires Increasing(a, above, mid) && Increasing(b, mid, upto) && above <= mid <= upto
    ensures Increasing(a + b, above, upto)
  {
  }

  /** A notification leaves the queue in the step that sends it to every socket, at least one, of its recipient. */
  lemma DeliveryIsOneStep(role: Role, s: State, e: Event)
    ensures DeliveredBy(s, e) != [] ==>
              && |DeliveredBy(s, e)| == 1
              && var n := DeliveredBy(s, e)[0];
                 var sockets := Sockets(s.sessions, n.recipient);
                 var sent := Step(role, s, e).1;
                 && |sent| == |sockets| >= 1
                 && forall i :: 0 <= i < |sockets| ==>
                      && sent[i].to == sockets[i]
                      && sent[i].packet.payload == "@" + n.sender + ":\n" + n.body
                      && sent[i].packet.seqn == s.lastSeqn + 2 + i
    ensures DeliveredBy(s, e) == [] ==> Notes(Step(role, s, e).1, None) == []
  {
    match e
    case Receive(packet, from) =>
      HandlersSendNoNotes(role, s, packet, from);
      NoNotes(Handle(role, s, packet, from).1, None);
    case Work =>
      if DeliveredBy(s, e) != [] {
        var n := s.queue[0];
        var sockets := Sockets(s.sessions, n.recipient);
        NotificationFields(sockets, s.lastSeqn, n);
      }
  }

  lemma NotificationFields(sockets: seq<SocketAddress>, lastSeqn: nat, n: Pending)
    ensures var sent := Notifications(sockets, lastSeqn, n);
            && |sent| == |sockets|
            && forall i :: 0 <= i < |sockets| ==>
                 && sent[i].to == sockets[i]
                 && sent[i].packet.kind.Notification?
                 && sent[i].packet.payload == "@" + n.sender + ":\n" + n.body
                 && sent[i].packet.seqn == lastSeqn + 2 + i
  {
    var sent := Notifications(sockets, lastSeqn, n);
    forall i | 0 <= i < |sockets|
      ensures sent[i] == Datagram(sockets[i], MakeNotification(lastSeqn + 1 + i, n.body, n.sender))
    {
    }
  }

  // ----- One pass of the worker -----

  predicate Online(sessions: Table, n: Pending) {
    Sockets(sessions, n.recipient) != []
  }

  function Offline(sessions: Table, queue: seq<Pending>): seq<Pending> {
    if queue == [] then []
    else
      var n := |queue| - 1;
      Offline(sessions, queue[..n]) + if Online(sessions, queue[n]) then [] else [queue[n]]
  }

  /** One packet per socket of every online recipient, in queue order, numbered consecutively. */
  function Packets(sessions: Table, queue: seq<Pending>, lastSeqn: nat): seq<Datagram> {
    if queue == [] then []
    else
      var n := |queue| - 1;
      var before := Packets(sessions, queue[..n], lastSeqn);
      before + Notifications(Sockets(sessions, queue[n].recipient), lastSeqn + |before|, queue[n])
  }

  predicate Consecutive(sent: seq<Datagram>, lastSeqn: nat) {
    forall i :: 0 <= i < |sent| ==> sent[i].packet.kind.Notification? && sent[i].packet.seqn == lastSeqn + 2 + i
  }

  lemma {:induction false} PacketsAreConsecutive(sessions: Table, queue: seq<Pending>, lastSeqn: nat)
    ensures Consecutive(Packets(sessions, queue, lastSeqn), lastSeqn)
  {
    if queue != [] {
      var n := |queue| - 1;
      var before := Packets(sessions, queue[..n], lastSeqn);
      PacketsAreConsecutive(sessions, queue[..n], lastSeqn);
      NotificationFields(Sockets(sessions, queue[n].recipient), lastSeqn + |before|, queue[n]);
      ConsecutiveConcat(before, Notifications(Sockets(sessions, queue[n].recipient), lastSeqn + |before|, queue[n]),
                        lastSeqn);
    }
  }

  lemma ConsecutiveConcat(a: seq<Datagram>, b: seq<Datagram>, lastSeqn: nat)
    requires Consecutive(a, lastSeqn) && Consecutive(b, lastSeqn + |a|)
    ensures Consecutive(a + b, lastSeqn)
  {
  }

  function Rounds(k: nat): seq<Event> {
    seq(k, _ => Work)
  }

  /** The state after k rounds on the first k notifications. */
  function After(s: State, k: nat): State
    requires k <= |s.queue|
  {
    s.(queue := s.queue[k..] + Offline(s.sessions, s.queue[..k]),
       lastSeqn := s.lastSeqn + |Packets(s.sessions, s.queue[..k], s.lastSeqn)|)
  }

  lemma {:induction false} WorkerRounds(role: Role, s: State, k: nat)
    requires k <= |s.queue|
    ensures Sent(role, s, Rounds(k)) == Packets(s.sessions, s.queue[..k], s.lastSeqn)
    ensures Run(role, s, Rounds(k)) == After(s, k)
  {
    if k == 0 {
      assert s.queue[0..] + [] == s.queue;
    } else {
      WorkerRounds(role, s, k - 1);
      RoundsSplit(role, s, k);
      NextRound(s, k);
    }
  }

  lemma NextRound(s: State, k: nat)
    requires 0 < k <= |s.queue|
    ensures Worked(After(s, k - 1)).0 == After(s, k)
    ensures Packets(s.sessions, s.queue[..k - 1], s.lastSeqn) + Worked(After(s, k - 1)).1
            == Packets(s.sessions, s.queue[..k], s.lastSeqn)
  {
    var n := s.queue[k - 1];
    var kept := Offline(s.sessions, s.queue[..k - 1]);
    var mid := After(s, k - 1);
    assert mid.queue == [n] + s.queue[k..] + kept;
    OneRound(mid, n, s.queue[k..], kept);
    assert s.queue[..k][..k - 1] == s.queue[..k - 1];
  }

  lemma RoundsSplit(role: Role, s: State, k: nat)
    requires k > 0
    ensures Run(role, s, Rounds(k)) == Worked(Run(role, s, Rounds(k - 1))).0
    ensures Sent(role, s, Rounds(k)) == Sent(role, s, Rounds(k - 1)) + Worked(Run(role, s, Rounds(k - 1))).1
  {
    assert Rounds(k)[..k - 1] == Rounds(k - 1);
    assert Rounds(k)[k - 1] == Work;
  }

  lemma OneRound(s: State, n: Pending, rest: seq<Pending>, kept: seq<Pending>)
    requires s.queue == [n] + rest + kept
    ensures var sent := Notifications(Sockets(s.sessions, n.recipient), s.lastSeqn, n);
            Worked(s) == (s.(queue := rest + (kept + if Online(s.sessions, n) then [] else [n]),
                             lastSeqn := s.lastSeqn + |sent|), sent)
  {
    assert s.queue[1..] == rest + kept;
    assert rest + kept + [n] == rest + (kept + [n]);
    assert kept + [] == kept;
    assert !Online(s.sessions, n) ==> Notifications(Sockets(s.sessions, n.recipient), s.lastSeqn, n) == [];
  }

  /**
   With sessions fixed and nothing new sent, as many rounds as there are notifications
   keep exactly those of offline recipients, in order, and send the others, in order.
   */
  lemma StablePartition(role: Role, s: State)
    ensures var s' := Run(role, s, Rounds(|s.queue|));
            var sent := Sent(role, s, Rounds(|s.queue|));
            && s' == s.(queue := Offline(s.sessions, s.queue), lastSeqn := s.lastSeqn + |sent|)
            && sent == Packets(s.sessions, s.queue, s.lastSeqn)
            && Consecutive(sent, s.lastSeqn)
  {
    WorkerRounds(role, s, |s.queue|);
    assert s.queue[..|s.queue|] == s.queue;
    PacketsAreConsecutive(s.sessions, s.queue, s.lastSeqn);
  }

  // ----- Session accounting -----

  /** Sockets an event grants to a user, and takes away. */
  function Grants(s: State, e: Event, user: string): multiset<SocketAddress> {
    if e.Receive? && e.packet.kind.Connect? && e.packet.payload == user
       && |Sockets(s.sessions, user)| < 2
    then multiset{e.from} else multiset{}
  }

  function Ends(s: State, e: Event, user: string): multiset<SocketAddress> {
    if e.Receive? && e.packet.kind.Disconnect? && e.packet.payload == user && e.from in Sockets(s.sessions, user)
    then multiset{e.from} else multiset{}
  }

  ghost function Granted(role: Role, s: State, events: seq<Event>, user: string): multiset<SocketAddress> {
    if events == [] then multiset{}
    else
      var n := |events| - 1;
      Granted(role, s, events[..n], user) + Grants(Run(role, s, events[..n]), events[n], user)
  }

  ghost function EndedOver(role: Role, s: State, events: seq<Event>, user: string): multiset<SocketAddress> {
    if events == [] then multiset{}
    else
      var n := |events| - 1;
      EndedOver(role, s, events[..n], user) + Ends(Run(role, s, events[..n]), events[n], user)
  }

  lemma StartAccounts(table: Table, name: string, from: SocketAddress, user: string)
    ensures multiset(Sockets(table, user))
            + (if name == user && |Sockets(table, user)| < MAX_SESSIONS_PER_USER then multiset{from} else multiset{})
            == multiset(Sockets(Started(table, name, from), user))
  {
  }

  lemma EndAccounts(table: Table, name: string, from: SocketAddress, user: string)
    ensures multiset(Sockets(table, user))
            == multiset(Sockets(Ended(table, name, from), user))
               + if name == user && from in Sockets(table, user) then multiset{from} else multiset{}
  {
  }

  lemma ConnectSessions(role: Role, s: State, packet: Packet, from: SocketAddress)
    ensures HandleConnect(role, s, packet, from).0.sessions == Started(s.sessions, packet.payload, from)
  {
  }

  lemma DisconnectSessions(s: State, name: string, from: SocketAddress)
    requires Inv(s)
    ensures HandleDisconnect(s, name, from).sessions == Ended(s.sessions, name, from)
  {
  }

  lemma OtherSessions(role: Role, s: State, text: string, from: SocketAddress, seqn: nat)
    ensures HandleFollow(s, text, from).sessions == s.sessions
    ensures HandleSend(s, text, from).sessions == s.sessions
    ensures HandleConfirm(role, s, seqn).0.sessions == s.sessions
    ensures Worked(s).0.sessions == s.sessions
  {
  }

  /** Only CONNECT and DISCONNECT touch the session table. */
  lemma SessionsAfter(role: Role, s: State, e: Event)
    requires Inv(s)
    ensures Step(role, s, e).0.sessions
            == if e.Receive? && e.packet.kind.Connect? then Started(s.sessions, e.packet.payload, e.from)
               else if e.Receive? && e.packet.kind.Disconnect? then Ended(s.sessions, e.packet.payload, e.from)
               else s.sessions
  {
    hide HandleConnect, HandleDisconnect, HandleFollow, HandleSend, HandleConfirm, Worked;
    match e
    case Receive(packet, from) =>
      ConnectSessions(role, s, packet, from);
      DisconnectSessions(s, packet.payload, from);
      OtherSessions(role, s, packet.payload, from, packet.seqn);
    case Work => OtherSessions(role, s, "", SocketAddress("", 0), 0);
  }

  lemma StepAccounts(role: Role, s: State, e: Event, user: string)
    requires Inv(s)
    ensures multiset(Sockets(s.sessions, user)) + Grants(s, e, user)
            == multiset(Sockets(Step(role, s, e).0.sessions, user)) + Ends(s, e, user)
  {
    hide Step;
    SessionsAfter(role, s, e);
    if e.Receive? {
      StartAccounts(s.sessions, e.packet.payload, e.from, user);
      EndAccounts(s.sessions, e.packet.payload, e.from, user);
    }
  }

  /** Over every run a user's sockets are those granted and not ended, and never more than two. */
  lemma {:induction false} SessionAccounting(role: Role, s: State, events: seq<Event>, user: string)
    requires Inv(s)
    ensures multiset(Sockets(s.sessions, user)) + Granted(role, s, events, user)
            == multiset(Sockets(Run(role, s, events).sessions, user)) + EndedOver(role, s, events, user)
    ensures |Sockets(Run(role, s, events).sessions, user)| <= 2
  {
    hide Step;
    RunKeepsInv(role, s, events);
    if events != [] {
      var n := |events| - 1;
      SessionAccounting(role, s, events[..n], user);
      RunKeepsInv(role, s, events[..n]);
      var mid := Run(role, s, events[..n]);
      StepAccounts(role, mid, events[n], user);
      Chained(multiset(Sockets(s.sessions, user)), Granted(role, s, events[..n], user),
              multiset(Sockets(mid.sessions, user)), EndedOver(role, s, events[..n], user),
              Grants(mid, events[n], user),
              multiset(Sockets(Run(role, s, events).sessions, user)), Ends(mid, events[n], user));
    }
  }
}
