/**
 The confirmation buffer of the primary (client/confirmation-buffer.hpp): containers of
 N numbered messages, each waiting for one confirmation per message.

 `Marked` and `FiredPositions` specify one call of `Confirm`; the history lemmas say what
 the flags and the callback log of an arbitrary sequence of calls are, in terms of the
 calls alone.
 */
module Confirmation {
  import opened Messages

  datatype BaseMessage = BaseMessage(sequenceNumber: nat, packet: Packet)

  datatype Item = Item(message: BaseMessage, confirmed: bool)

  datatype Container = Container(content: seq<Item>, originalSeqn: nat, originalHost: SocketAddress)

  function Fresh(messages: seq<BaseMessage>, originalSeqn: nat, host: SocketAddress): Container {
    Container(seq(|messages|, j requires 0 <= j < |messages| => Item(messages[j], false)), originalSeqn, host)
  }

  function MarkedItem(item: Item, seqn: nat): Item {
    if item.message.sequenceNumber == seqn then item.(confirmed := true) else item
  }

  function MarkedContainer(c: Container, seqn: nat): Container {
    c.(content := seq(|c.content|, j requires 0 <= j < |c.content| => MarkedItem(c.content[j], seqn)))
  }

  /** The buffer after `Confirm(seqn)`. */
  function Marked(buffer: seq<Container>, seqn: nat): seq<Container> {
    seq(|buffer|, i requires 0 <= i < |buffer| => MarkedContainer(buffer[i], seqn))
  }

  predicate Complete(c: Container) {
    forall j :: 0 <= j < |c.content| ==> c.content[j].confirmed
  }

  /** Positions of the complete containers, in push order. */
  function FiredPositions(buffer: seq<Container>): (r: seq<nat>)
    ensures forall k :: 0 <= k < |r| ==> r[k] < |buffer| && Complete(buffer[r[k]])
    ensures forall k, l :: 0 <= k < l < |r| ==> r[k] < r[l]
    ensures forall i :: 0 <= i < |buffer| && Complete(buffer[i]) ==> i in r
  {
    if buffer == [] then []
    else
      var n := |buffer| - 1;
      var r := FiredPositions(buffer[..n]);
      assert forall i :: 0 <= i < n ==> buffer[..n][i] == buffer[i];
      if Complete(buffer[n]) then r + [n] else r
  }

  /** How many items of a container, and of a buffer, carry a number. */
  function Hits(content: seq<Item>, seqn: nat): nat {
    if content == [] then 0
    else Hits(content[..|content| - 1], seqn)
         + if content[|content| - 1].message.sequenceNumber == seqn then 1 else 0
  }

  function BufferHits(buffer: seq<Container>, seqn: nat): nat {
    if buffer == [] then 0
    else BufferHits(buffer[..|buffer| - 1], seqn) + Hits(buffer[|buffer| - 1].content, seqn)
  }

  /** `ConfirmationBuffer<N>`. The callback is reported to the caller as the positions it is called on. */
  class ConfirmationBuffer {
    const N: nat
    var buffer: seq<Container>

    constructor (n: nat)
      ensures N == n && buffer == []
    {
      N, buffer := n, [];
    }

    method Push(items: seq<BaseMessage>, originalSeqn: nat, address: SocketAddress)
      requires |items| == N
      modifies this
      ensures buffer == old(buffer) + [Fresh(items, originalSeqn, address)]
    {
      var content: seq<Item> := [];
      for i := 0 to N
        invariant |content| == i
        invariant forall j :: 0 <= j < i ==> content[j] == Item(items[j], false)
      {
        content := content + [Item(items[i], false)];
      }
      assert content == Fresh(items, originalSeqn, address).content;
      buffer := buffer + [Container(content, originalSeqn, address)];
    }

    method Confirm(sequenceNumber: nat) returns (confirmed: nat, calls: seq<nat>)
      modifies this
      ensures buffer == Marked(old(buffer), sequenceNumber)
      ensures calls == FiredPositions(buffer)
      ensures confirmed == BufferHits(old(buffer), sequenceNumber)
    {
      hide FiredPositions, BufferHits, Marked, MarkedContainer;
      ghost var before := buffer;
      confirmed, calls := 0, [];
      NothingYet(sequenceNumber);
      for i := 0 to |buffer|
        invariant |buffer| == |before|
        invariant forall k :: 0 <= k < i ==> buffer[k] == MarkedContainer(before[k], sequenceNumber)
        invariant forall k :: i <= k < |before| ==> buffer[k] == before[k]
        invariant calls == FiredPositions(buffer[..i])
        invariant confirmed == BufferHits(before[..i], sequenceNumber)
      {
        var container, hits := ConfirmContainer(buffer[i], sequenceNumber);
        buffer := buffer[i := container];
        confirmed := confirmed + hits;
        OneMoreContainer(before, buffer, i, sequenceNumber);
        var done := ContainerConfirmed(container);
        if done {
          calls := calls + [i];
        }
      }
      assert before[..|before|] == before && buffer[..|before|] == buffer;
      MarkedPointwise(before, buffer, sequenceNumber);
    }

    static lemma NothingYet(seqn: nat)
      ensures FiredPositions([]) == [] && BufferHits([], seqn) == 0
    {
    }

    static lemma OneMoreContainer(before: seq<Container>, after: seq<Container>, i: nat, seqn: nat)
      requires i < |before| && i < |after|
      ensures BufferHits(before[..i + 1], seqn) == BufferHits(before[..i], seqn) + Hits(before[i].content, seqn)
      ensures FiredPositions(after[..i + 1]) == FiredPositions(after[..i]) + if Complete(after[i]) then [i] else []
    {
      assert before[..i + 1][..i] == before[..i] && after[..i + 1][..i] == after[..i];
    }

    static lemma MarkedPointwise(before: seq<Container>, after: seq<Container>, seqn: nat)
      requires |after| == |before| && forall k :: 0 <= k < |before| ==> after[k] == MarkedContainer(before[k], seqn)
      ensures after == Marked(before, seqn)
    {
    }

    /** The inner loop, over the items of one container. */
    method ConfirmContainer(was: Container, sequenceNumber: nat) returns (container: Container, confirmed: nat)
      ensures container == MarkedContainer(was, sequenceNumber)
      ensures confirmed == Hits(was.content, sequenceNumber)
    {
      container, confirmed := was, 0;
      ghost var marked := MarkedContainer(was, sequenceNumber).content;
      for j := 0 to |was.content|
        invariant |container.content| == |was.content| && container == was.(content := container.content)
        invariant forall l :: 0 <= l < j ==> container.content[l] == marked[l]
        invariant forall l :: j <= l < |was.content| ==> container.content[l] == was.content[l]
        invariant confirmed == Hits(was.content[..j], sequenceNumber)
      {
        var item := container.content[j];
        assert was.content[..j + 1][..j] == was.content[..j];
        if item.message.sequenceNumber == sequenceNumber {
          container := container.(content := container.content[j := item.(confirmed := true)]);
          confirmed := confirmed + 1;
        }
      }
      assert was.content[..|was.content|] == was.content;
      assert container.content == marked;
    }

    method ContainerConfirmed(container: Container) returns (confirmed: bool)
      ensures confirmed == Complete(container)
    {
      confirmed := true;
      for i := 0 to |container.content|
        invariant confirmed == forall j :: 0 <= j < i ==> container.content[j].confirmed
      {
        if !container.content[i].confirmed {
          confirmed := false;
        }
      }
    }
  }

  // ----- Histories -----

  datatype Op =
    | Push(items: seq<BaseMessage>, originalSeqn: nat, host: SocketAddress)
    | Confirm(seqn: nat)

  function Replay(ops: seq<Op>): seq<Container> {
    if ops == [] then []
    else
      var before := Replay(ops[..|ops| - 1]);
      match ops[|ops| - 1]
      case Push(items, seqn, host) => before + [Fresh(items, seqn, host)]
      case Confirm(seqn) => Marked(before, seqn)
  }

  /** The positions of the pushes in a history: container i was created by call `Pushes(ops)[i]`. */
  function Pushes(ops: seq<Op>): (r: seq<nat>)
    ensures forall i :: 0 <= i < |r| ==> r[i] < |ops| && ops[r[i]].Push?
  {
    if ops == [] then []
    else
      var n := |ops| - 1;
      var r := Pushes(ops[..n]);
      assert forall k :: 0 <= k < n ==> ops[..n][k] == ops[k];
      if ops[n].Push? then r + [n] else r
  }

  /** The calls from `from` (excluded) up to `upto` (included) contain a confirmation of `seqn`. */
  predicate ConfirmedWithin(ops: seq<Op>, seqn: nat, from: int, upto: int) {
    exists k :: 0 <= k < |ops| && from < k <= upto && ops[k] == Confirm(seqn)
  }

  /** An item is flagged exactly when its number was confirmed after its own push. */
  lemma {:induction false} FlagIffConfirmedAfterPush(ops: seq<Op>, i: nat)
    requires i < |Pushes(ops)|
    ensures |Replay(ops)| == |Pushes(ops)|
    ensures var p := Pushes(ops)[i];
            && |Replay(ops)[i].content| == |ops[p].items|
            && Replay(ops)[i].originalSeqn == ops[p].originalSeqn
            && Replay(ops)[i].originalHost == ops[p].host
            && forall j :: 0 <= j < |ops[p].items| ==>
                 && Replay(ops)[i].content[j].message == ops[p].items[j]
                 && (Replay(ops)[i].content[j].confirmed
                     <==> ConfirmedWithin(ops, ops[p].items[j].sequenceNumber, p, |ops| - 1))
  {
    ReplaySize(ops);
    var n := |ops| - 1;
    var before := ops[..n];
    var p := Pushes(ops)[i];
    ReplaySize(before);
    if i < |Pushes(before)| {
      FlagIffConfirmedAfterPush(before, i);
      assert before[p] == ops[p];
      forall j | 0 <= j < |ops[p].items|
        ensures Replay(ops)[i].content[j].confirmed
                <==> ConfirmedWithin(ops, ops[p].items[j].sequenceNumber, p, n)
      {
        ConfirmedWithinExtends(ops, ops[p].items[j].sequenceNumber, p, n);
      }
    }
  }

  lemma {:induction false} ReplaySize(ops: seq<Op>)
    ensures |Replay(ops)| == |Pushes(ops)|
  {
    if ops != [] {
      ReplaySize(ops[..|ops| - 1]);
    }
  }

  lemma ConfirmedWithinExtends(ops: seq<Op>, seqn: nat, from: int, n: nat)
    requires n < |ops| && from < n
    ensures ConfirmedWithin(ops, seqn, from, n)
            <==> ConfirmedWithin(ops[..n], seqn, from, n - 1) || ops[n] == Confirm(seqn)
  {
  }

  /** The callback log: the containers that call `m` of the history calls back on. */
  function CallsAt(ops: seq<Op>, m: nat): seq<nat>
    requires m < |ops|
  {
    if ops[m].Confirm? then FiredPositions(Replay(ops[..m + 1])) else []
  }

  /** Every number of the container pushed by call p was confirmed in calls p+1..m. */
  predicate AllConfirmedBy(ops: seq<Op>, p: nat, m: int)
    requires p < |ops| && ops[p].Push?
  {
    forall j :: 0 <= j < |ops[p].items| ==> ConfirmedWithin(ops, ops[p].items[j].sequenceNumber, p, m)
  }

  /**
   The callback log of any history: call m calls back, in push order, on exactly the
   containers pushed before it all of whose numbers were confirmed since their push.
   */
  lemma {:induction false} CallbackLog(ops: seq<Op>, m: nat)
    requires m < |ops| && ops[m].Confirm?
    ensures forall k, l :: 0 <= k < l < |CallsAt(ops, m)| ==> CallsAt(ops, m)[k] < CallsAt(ops, m)[l]
    ensures forall i :: i in CallsAt(ops, m)
                        <==> 0 <= i < |Pushes(ops)| && Pushes(ops)[i] < m && AllConfirmedBy(ops, Pushes(ops)[i], m)
  {
    var upto := ops[..m + 1];
    ReplaySize(upto);
    PushesPrefix(ops, m + 1);
    forall i: int
      ensures i in CallsAt(ops, m)
              <==> 0 <= i < |Pushes(ops)| && Pushes(ops)[i] < m && AllConfirmedBy(ops, Pushes(ops)[i], m)
    {
      if 0 <= i < |Pushes(upto)| {
        var p := Pushes(upto)[i];
        FlagIffConfirmedAfterPush(upto, i);
        assert upto[p] == ops[p] && p != m;
        forall q: nat
          ensures ConfirmedWithin(upto, q, p, m) <==> ConfirmedWithin(ops, q, p, m)
        {
          ConfirmedWithinPrefix(ops, q, p, m);
        }
        assert Complete(Replay(upto)[i]) <==> AllConfirmedBy(ops, p, m);
      }
    }
  }

  lemma ConfirmedWithinPrefix(ops: seq<Op>, seqn: nat, from: int, m: nat)
    requires m < |ops|
    ensures ConfirmedWithin(ops[..m + 1], seqn, from, m) <==> ConfirmedWithin(ops, seqn, from, m)
  {
  }

  /** The pushes of a prefix are the first pushes of the history; the later ones lie beyond it. */
  lemma {:induction false} PushesPrefix(ops: seq<Op>, m: nat)
    requires m <= |ops|
    ensures Pushes(ops[..m]) <= Pushes(ops)
    ensures forall i :: |Pushes(ops[..m])| <= i < |Pushes(ops)| ==> m <= Pushes(ops)[i]
    decreases |ops|
  {
    if m == |ops| {
      assert ops[..m] == ops;
    } else {
      PushesPrefix(ops[..|ops| - 1], m);
      assert ops[..|ops| - 1][..m] == ops[..m];
    }
  }

  /** Once called back on, a container is called back on by every later `Confirm`. */
  lemma FiringRepeats(ops: seq<Op>, i: nat, m: nat, l: nat)
    requires m <= l < |ops| && ops[m].Confirm? && ops[l].Confirm? && i in CallsAt(ops, m)
    ensures i in CallsAt(ops, l)
  {
    CallbackLog(ops, m);
    CallbackLog(ops, l);
    var p := Pushes(ops)[i];
    forall j | 0 <= j < |ops[p].items| ensures ConfirmedWithin(ops, ops[p].items[j].sequenceNumber, p, l) {
      assert ConfirmedWithin(ops, ops[p].items[j].sequenceNumber, p, m);
    }
  }

  /** Call m supplies the last missing confirmation of the container pushed by call p. */
  predicate SuppliesLast(ops: seq<Op>, p: nat, m: nat)
    requires p < |ops| && ops[p].Push? && m < |ops| && ops[m].Confirm?
  {
    && AllConfirmedBy(ops, p, m)
    && exists j :: 0 <= j < |ops[p].items| && ops[p].items[j].sequenceNumber == ops[m].seqn
                   && !ConfirmedWithin(ops, ops[m].seqn, p, m - 1)
  }

  /** The first call back on a non-empty container is the call that supplies its last missing confirmation. */
  lemma FirstFiring(ops: seq<Op>, i: nat, m: nat)
    requires i < |Pushes(ops)| && ops[Pushes(ops)[i]].items != []
    requires Pushes(ops)[i] < m < |ops| && ops[m].Confirm?
    ensures i in CallsAt(ops, m) && (forall l :: 0 <= l < m ==> i !in CallsAt(ops, l))
            <==> SuppliesLast(ops, Pushes(ops)[i], m)
  {
    var p := Pushes(ops)[i];
    CallbackLog(ops, m);
    if SuppliesLast(ops, p, m) {
      forall l | 0 <= l < m ensures i !in CallsAt(ops, l) {
        NotBeforeLast(ops, i, m, l);
      }
    } else if AllConfirmedBy(ops, p, m) {
      var l := FiredEarlier(ops, i, m);
    }
  }

  /** A complete container that call m does not complete was called back on before. */
  lemma FiredEarlier(ops: seq<Op>, i: nat, m: nat) returns (l: nat)
    requires i < |Pushes(ops)| && ops[Pushes(ops)[i]].items != []
    requires Pushes(ops)[i] < m < |ops| && ops[m].Confirm?
    requires AllConfirmedBy(ops, Pushes(ops)[i], m) && !SuppliesLast(ops, Pushes(ops)[i], m)
    ensures l < m && i in CallsAt(ops, l)
  {
    var p := Pushes(ops)[i];
    forall j | 0 <= j < |ops[p].items| ensures ConfirmedWithin(ops, ops[p].items[j].sequenceNumber, p, m - 1) {
      assert ConfirmedWithin(ops, ops[p].items[j].sequenceNumber, p, m);
    }
    l := LastConfirm(ops, p, m - 1);
    CallbackLog(ops, l);
  }

  lemma NotBeforeLast(ops: seq<Op>, i: nat, m: nat, l: nat)
    requires i < |Pushes(ops)| && l < m < |ops| && ops[m].Confirm? && SuppliesLast(ops, Pushes(ops)[i], m)
    ensures i !in CallsAt(ops, l)
  {
    if ops[l].Confirm? {
      CallbackLog(ops, l);
      var p := Pushes(ops)[i];
      if AllConfirmedBy(ops, p, l) {
        assert ConfirmedWithin(ops, ops[m].seqn, p, l);
      }
    }
  }

  /** The last `Confirm` call up to m, when everything pushed by p is confirmed by then. */
  lemma LastConfirm(ops: seq<Op>, p: nat, m: int) returns (l: nat)
    requires p < |ops| && ops[p].Push? && ops[p].items != [] && m < |ops|
    requires AllConfirmedBy(ops, p, m)
    requires m >= 0
    ensures p < l <= m && ops[l].Confirm? && AllConfirmedBy(ops, p, l)
    decreases m
  {
    assert ConfirmedWithin(ops, ops[p].items[0].sequenceNumber, p, m);
    if ops[m].Confirm? {
      l := m;
    } else {
      forall j | 0 <= j < |ops[p].items| ensures ConfirmedWithin(ops, ops[p].items[j].sequenceNumber, p, m - 1) {
        assert ConfirmedWithin(ops, ops[p].items[j].sequenceNumber, p, m);
      }
      l := LastConfirm(ops, p, m - 1);
    }
  }

  // ----- Order independence -----

  function MarkedAll(buffer: seq<Container>, seqns: seq<nat>): seq<Container>
    decreases seqns
  {
    if seqns == [] then buffer else MarkedAll(Marked(buffer, seqns[0]), seqns[1..])
  }

  /** What a batch of confirmations does depends only on which numbers occur in it. */
  lemma {:induction false} MarkedAllFlags(buffer: seq<Container>, seqns: seq<nat>)
    ensures |MarkedAll(buffer, seqns)| == |buffer|
    ensures forall i :: 0 <= i < |buffer| ==>
              && MarkedAll(buffer, seqns)[i] == buffer[i].(content := MarkedAll(buffer, seqns)[i].content)
              && |MarkedAll(buffer, seqns)[i].content| == |buffer[i].content|
              && forall j :: 0 <= j < |buffer[i].content| ==>
                   MarkedAll(buffer, seqns)[i].content[j]
                   == Item(buffer[i].content[j].message,
                           buffer[i].content[j].confirmed || buffer[i].content[j].message.sequenceNumber in seqns)
    decreases seqns
  {
    if seqns != [] {
      MarkedAllFlags(Marked(buffer, seqns[0]), seqns[1..]);
      assert seqns == [seqns[0]] + seqns[1..];
    }
  }

  /** Reordering or repeating confirmations between pushes leaves the same buffer. */
  lemma ConfirmOrderIrrelevant(buffer: seq<Container>, a: seq<nat>, b: seq<nat>)
    requires forall q :: q in a <==> q in b
    ensures MarkedAll(buffer, a) == MarkedAll(buffer, b)
  {
    MarkedAllFlags(buffer, a);
    MarkedAllFlags(buffer, b);
    forall i | 0 <= i < |buffer| ensures MarkedAll(buffer, a)[i] == MarkedAll(buffer, b)[i] {
      assert MarkedAll(buffer, a)[i].content == MarkedAll(buffer, b)[i].content;
    }
  }
}
