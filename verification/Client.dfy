/**
 The client's reorder buffer (client/client.cpp): notifications are collected as they
 arrive, and each pass of `Reorder` sorts what is there by sequence number and shows it.
 */
module ReorderBuffer {
  import opened Messages
  import opened ServerSpec
  import opened Delivery
  import opened Replication

  predicate Sorted(packets: seq<Packet>) {
    forall i, j :: 0 <= i < j < |packets| ==> packets[i].seqn <= packets[j].seqn
  }

  /** An order in which `std::sort` may leave a batch. */
  predicate SortOf(batch: seq<Packet>, order: seq<Packet>) {
    multiset(order) == multiset(batch) && Sorted(order)
  }

  function Payloads(packets: seq<Packet>): seq<string> {
    seq(|packets|, i requires 0 <= i < |packets| => packets[i].payload)
  }

  method Inserted(packets: seq<Packet>, p: Packet) returns (r: seq<Packet>)
    requires Sorted(packets)
    ensures SortOf(packets + [p], r)
  {
    var k := |packets|;
    while k > 0 && p.seqn < packets[k - 1].seqn
      invariant 0 <= k <= |packets|
      invariant forall i :: k <= i < |packets| ==> p.seqn < packets[i].seqn
    {
      k := k - 1;
    }
    InsertKeepsSorted(packets, p, k);
    r := packets[..k] + [p] + packets[k..];
  }

  lemma InsertKeepsSorted(packets: seq<Packet>, p: Packet, k: nat)
    requires Sorted(packets) && k <= |packets|
    requires k > 0 ==> packets[k - 1].seqn <= p.seqn
    requires forall i :: k <= i < |packets| ==> p.seqn < packets[i].seqn
    ensures SortOf(packets + [p], packets[..k] + [p] + packets[k..])
  {
    var before, after := packets[..k], packets[k..];
    assert packets == before + after;
    assert Sorted(before) && Sorted(after);
    SortedConcat(before, [p]);
    SortedConcat(before + [p], after);
    InsertedElements(before, p, after);
  }

  lemma InsertedElements(before: seq<Packet>, p: Packet, after: seq<Packet>)
    ensures multiset(before + [p] + after) == multiset(before + after + [p])
  {
  }

  lemma SortedConcat(a: seq<Packet>, b: seq<Packet>)
    requires Sorted(a) && Sorted(b)
    requires a != [] && b != [] ==> a[|a| - 1].seqn <= b[0].seqn
    ensures Sorted(a + b)
  {
  }

  method SortBySeqn(packets: seq<Packet>) returns (r: seq<Packet>)
    ensures SortOf(packets, r)
  {
    r := [];
    for i := 0 to |packets|
      invariant SortOf(packets[..i], r)
    {
      assert packets[..i + 1] == packets[..i] + [packets[i]];
      r := Inserted(r, packets[i]);
    }
    assert packets[..|packets|] == packets;
  }

  // ----- Histories of a client -----

  /** A datagram received, or a pass of `Reorder` that showed the packets in some order. */
  datatype ClientEvent = Arrival(packet: Packet) | Pass(order: seq<Packet>)

  datatype ClientState = ClientState(listening: bool, waiting: seq<Packet>, shown: seq<Packet>)

  /** Packets that make the client shut down: a rejection, or one it should never receive. */
  predicate EndsListening(p: Packet) {
    p.kind !in {Accept, Notification, Error, Info}
  }

  function ClientAfter(events: seq<ClientEvent>): ClientState {
    if events == [] then ClientState(true, [], [])
    else
      var c := ClientAfter(events[..|events| - 1]);
      match events[|events| - 1]
      case Arrival(p) =>
        if !c.listening then c
        else if p.kind.Notification? then c.(waiting := c.waiting + [p])
        else c.(listening := !EndsListening(p))
      case Pass(order) => c.(waiting := [], shown := c.shown + order)
  }

  /** Every pass shows a sort of what was waiting. */
  predicate Possible(events: seq<ClientEvent>) {
    events != [] ==>
      var before := events[..|events| - 1];
      && Possible(before)
      && (events[|events| - 1].Pass? ==> SortOf(ClientAfter(before).waiting, events[|events| - 1].order))
  }

  /** The notifications that arrived while the client was listening. */
  function Arrived(events: seq<ClientEvent>): seq<Packet> {
    if events == [] then []
    else
      var before, e := events[..|events| - 1], events[|events| - 1];
      Arrived(before)
      + if ClientAfter(before).listening && e.Arrival? && e.packet.kind.Notification? then [e.packet] else []
  }

  /** Over all batches, the notifications received are those shown plus those still waiting. */
  lemma {:induction false} NothingLostOrRepeated(events: seq<ClientEvent>)
    requires Possible(events)
    ensures multiset(Arrived(events)) == multiset(ClientAfter(events).shown) + multiset(ClientAfter(events).waiting)
  {
    if events != [] {
      NothingLostOrRepeated(events[..|events| - 1]);
    }
  }

  class Client {
    const profileHandle: string
    var connected: bool
    var listening: bool
    var lastSentSeqn: nat
    var packetList: seq<Packet>
    /** Notifications handed to the message handler, and errors and infos handed to it. */
    var shown: seq<string>
    var notices: seq<string>
    /** Everything handed to the socket by `Shutdown`. */
    var outbox: seq<Packet>

    /** What happened to this client so far. */
    ghost var history: seq<ClientEvent>

    ghost predicate Valid()
      reads this
    {
      && Possible(history)
      && var c := ClientAfter(history);
         listening == c.listening && packetList == c.waiting && shown == Payloads(c.shown)
    }

    constructor (profileHandle: string)
      ensures Valid() && history == [] && this.profileHandle == profileHandle
      ensures !connected && listening && lastSentSeqn == 0 && packetList == [] && shown == []
      ensures notices == [] && outbox == []
    {
      this.profileHandle, connected, listening, lastSentSeqn := profileHandle, false, true, 0;
      packetList, shown, notices, outbox, history := [], [], [], [], [];
    }

    /** The body of `Listen`. */
    method Receive(p: Packet)
      requires Valid()
      modifies this
      ensures Valid() && history == old(history) + [Arrival(p)] && shown == old(shown)
      ensures packetList == if old(listening) && p.kind.Notification? then old(packetList) + [p] else old(packetList)
      ensures connected == (old(connected) || (old(listening) && p.kind.Accept?))
      ensures notices
              == if old(listening) && p.kind in {Error, Info} then old(notices) + [p.payload] else old(notices)
      ensures !old(listening) || p.kind in {Accept, Notification, Error, Info} ==>
                listening == old(listening) && lastSentSeqn == old(lastSentSeqn) && outbox == old(outbox)
      ensures old(listening) && p.kind !in {Accept, Notification, Error, Info} ==>
                && !listening && lastSentSeqn == old(lastSentSeqn) + 1
                && outbox == old(outbox) + [Packet(Disconnect, old(lastSentSeqn) + 2, profileHandle)]
    {
      hide Possible, ClientAfter;
      if listening {
        match p.kind
        case Accept => connected := true;
        case Notification => packetList := packetList + [p];
        case Error => notices := notices + [p.payload];
        case Info => notices := notices + [p.payload];
        case _ => Shutdown();
      }
      history := history + [Arrival(p)];
      ArrivalIs(old(history), p);
    }

    static lemma ArrivalIs(events: seq<ClientEvent>, p: Packet)
      requires Possible(events)
      ensures var c := ClientAfter(events);
              && Possible(events + [Arrival(p)])
              && ClientAfter(events + [Arrival(p)])
                 == if !c.listening then c
                    else if p.kind.Notification? then c.(waiting := c.waiting + [p])
                    else c.(listening := !EndsListening(p))
    {
      assert (events + [Arrival(p)])[..|events|] == events;
    }

    method Shutdown()
      modifies this`lastSentSeqn, this`outbox, this`listening
      ensures !listening && lastSentSeqn == old(lastSentSeqn) + 1
      ensures outbox == old(outbox) + [Packet(Disconnect, old(lastSentSeqn) + 2, profileHandle)]
    {
      lastSentSeqn := lastSentSeqn + 1;
      outbox := outbox + [MakeDisconnectCommand(lastSentSeqn, profileHandle)];
      listening := false;
    }

    /** One pass of `Reorder`. */
    method Reorder() returns (order: seq<Packet>)
      requires Valid()
      modifies this`packetList, this`shown, this`history
      ensures Valid() && history == old(history) + [Pass(order)]
      ensures SortOf(old(packetList), order)
      ensures shown == old(shown) + Payloads(order) && packetList == []
    {
      hide Possible, ClientAfter;
      packetList := SortBySeqn(packetList);
      order := packetList;
      for i := 0 to |packetList|
        invariant packetList == order && history == old(history)
        invariant shown == old(shown) + Payloads(order)[..i]
      {
        shown := shown + [packetList[i].payload];
      }
      assert Payloads(order)[..|order|] == Payloads(order);
      packetList := [];
      history := history + [Pass(order)];
      PassIs(old(history), order);
    }

    static lemma PassIs(events: seq<ClientEvent>, order: seq<Packet>)
      requires Possible(events) && SortOf(ClientAfter(events).waiting, order)
      ensures var c := ClientAfter(events);
              && Possible(events + [Pass(order)])
              && ClientAfter(events + [Pass(order)]) == c.(waiting := [], shown := c.shown + order)
              && Payloads(c.shown + order) == Payloads(c.shown) + Payloads(order)
    {
      assert (events + [Pass(order)])[..|events|] == events;
    }

    /** What the handler was shown and what waits in the list are, together, the notifications received. */
    lemma Conserved() returns (packets: seq<Packet>)
      requires Valid()
      ensures shown == Payloads(packets)
      ensures multiset(Arrived(history)) == multiset(packets) + multiset(packetList)
    {
      packets := ClientAfter(history).shown;
      NothingLostOrRepeated(history);
    }
  }

  // ----- Order within a batch -----

  /** Sorting has one possible result when packets with the same number are the same packet. */
  lemma {:induction false} SortIsUnique(a: seq<Packet>, b: seq<Packet>)
    requires multiset(a) == multiset(b) && Sorted(a) && Sorted(b)
    requires forall i, j :: 0 <= i < |a| && 0 <= j < |a| && a[i].seqn == a[j].seqn ==> a[i] == a[j]
    ensures a == b
    decreases |a|
  {
    hide Sorted;
    assert |multiset(a)| == |a| && |multiset(b)| == |b|;
    if a != [] {
      HeadsAgree(a, b);
      TailBag(a);
      TailBag(b);
      TailSorted(a);
      TailSorted(b);
      SortIsUnique(a[1..], b[1..]);
    }
  }

  lemma TailBag(a: seq<Packet>)
    requires a != []
    ensures multiset(a[1..]) == multiset(a) - multiset{a[0]} && a == [a[0]] + a[1..]
  {
    assert a == [a[0]] + a[1..];
  }

  lemma TailSorted(a: seq<Packet>)
    requires a != [] && Sorted(a)
    ensures Sorted(a[1..])
  {
  }

  lemma HeadsAgree(a: seq<Packet>, b: seq<Packet>)
    requires multiset(a) == multiset(b) && Sorted(a) && Sorted(b) && a != [] && b != []
    requires forall i, j :: 0 <= i < |a| && 0 <= j < |a| && a[i].seqn == a[j].seqn ==> a[i] == a[j]
    ensures a[0] == b[0]
  {
    assert a[0] in multiset(b) && b[0] in multiset(a);
    var i :| 0 <= i < |b| && b[i] == a[0];
    var j :| 0 <= j < |a| && a[j] == b[0];
    assert b[0].seqn <= b[i].seqn && a[0].seqn <= a[j].seqn;
  }

  /** `arrived` holds packets of `sent` at non-decreasing positions: some lost, some repeated. */
  predicate Picked(sent: seq<Packet>, positions: seq<nat>, arrived: seq<Packet>) {
    && |positions| == |arrived|
    && (forall i :: 0 <= i < |positions| ==> positions[i] < |sent| && arrived[i] == sent[positions[i]])
    && (forall i, j :: 0 <= i < j < |positions| ==> positions[i] <= positions[j])
  }

  /**
   End to end: take any run of a server and the notifications it sent to one address; lose
   some, repeat some, and let the rest reach the client in any order within one batch. They
   are shown in exactly the order in which the server sent them.
   */
  lemma ShownInSendOrder(role: Role, s: State, events: seq<Event>, address: SocketAddress,
                         positions: seq<nat>, kept: seq<Packet>, batch: seq<Packet>, order: seq<Packet>)
    requires Picked(Notes(Sent(role, s, events), Some(address)), positions, kept)
    requires multiset(batch) == multiset(kept) && SortOf(batch, order)
    ensures order == kept
  {
    hide Notes, Sent, Run;
    NotesIncrease(role, s, events, Some(address));
    PickedInOrder(Notes(Sent(role, s, events), Some(address)), s.lastSeqn + 1,
                  Run(role, s, events).lastSeqn + 1, positions, kept);
    SortIsUnique(kept, order);
  }

  lemma PickedInOrder(sent: seq<Packet>, above: int, upto: int, positions: seq<nat>, kept: seq<Packet>)
    requires Increasing(sent, above, upto) && Picked(sent, positions, kept)
    ensures Sorted(kept)
    ensures forall i, j :: 0 <= i < |kept| && 0 <= j < |kept| && kept[i].seqn == kept[j].seqn ==> kept[i] == kept[j]
  {
  }

  // ----- A client of a running server -----

  /** The address of a client: no replica is reached there. */
  predicate ClientAddress(role: Role, a: SocketAddress) {
    && (role.Primary? ==> a !in role.secondaries)
    && (role.Secondary? ==> a != role.primary)
  }

  /** All a server ever sends to a client are acceptances and notifications. */
  lemma {:induction false} SentToClients(role: Role, s: State, events: seq<Event>, d: Datagram)
    requires ClientAddress(role, d.to) && d in Sent(role, s, events)
    ensures d.packet.kind in {Accept, Notification}
  {
    hide Step;
    var n := |events| - 1;
    if d in Sent(role, s, events[..n]) {
      SentToClients(role, s, events[..n], d);
    } else {
      SentAfter(role, Run(role, s, events[..n]), events[n], d);
    }
  }

  /** The notifications among the arrivals, whatever the client made of them. */
  function Reached(history: seq<ClientEvent>): seq<Packet> {
    if history == [] then []
    else
      var e := history[|history| - 1];
      Reached(history[..|history| - 1]) + if e.Arrival? && e.packet.kind.Notification? then [e.packet] else []
  }

  /** Everything that arrives was sent to this address in a run of the server. */
  ghost predicate FromServer(role: Role, s: State, events: seq<Event>, a: SocketAddress, history: seq<ClientEvent>) {
    forall k :: 0 <= k < |history| && history[k].Arrival? ==>
      Datagram(a, history[k].packet) in Sent(role, s, events)
  }

  /** A client that receives only what a server's run sends to it never stops listening and misses nothing. */
  lemma {:induction false} StaysListening(role: Role, s: State, events: seq<Event>, a: SocketAddress,
                                          history: seq<ClientEvent>)
    requires ClientAddress(role, a) && FromServer(role, s, events, a, history)
    ensures ClientAfter(history).listening && Arrived(history) == Reached(history)
  {
    hide Sent;
    if history != [] {
      var n := |history| - 1;
      StaysListening(role, s, events, a, history[..n]);
      if history[n].Arrival? {
        SentToClients(role, s, events, Datagram(a, history[n].packet));
      }
    }
  }

  /**
   From the server to the screen: whatever reaches such a client, in any order, with losses and
   repetitions, is shown or waiting, each as often as it arrived.
   */
  lemma ReachedIsShownOrWaiting(role: Role, s: State, events: seq<Event>, a: SocketAddress,
                                history: seq<ClientEvent>)
    requires ClientAddress(role, a) && FromServer(role, s, events, a, history) && Possible(history)
    ensures multiset(Reached(history))
            == multiset(ClientAfter(history).shown) + multiset(ClientAfter(history).waiting)
  {
    StaysListening(role, s, events, a, history);
    NothingLostOrRepeated(history);
  }
}
