/**
 When a CONNECT can still be accepted. Every copy and every confirmation is sent once, so a
 lost one is fatal: `AcceptableIff` says, for every reachable state and every CONNECT the
 primary handled, exactly when some continuation still accepts it.
 */
module Progress {
  import opened Messages
  import opened Confirmation
  import opened ProfileStore
  import opened ServerSpec
  import opened ServerInvariants
  import opened Replication

  /** A confirmation of the number is on its way to the primary. */
  predicate ConfirmInFlight(cfg: Config, c: Cluster, seqn: nat)
    requires cfg != []
  {
    exists m :: m in c.network && m.to == cfg[0] && m.packet.kind.ConfirmStateChange? && m.packet.seqn == seqn
  }

  predicate CopyInFlight(cfg: Config, c: Cluster, x: Container, i: nat)
    requires cfg != []
  {
    x.content != [] && i + 1 < |cfg| && Envelope(cfg[0], cfg[i + 1], CopyTo(x, i)) in c.network
  }

  /** Item i of container k is confirmed, or its confirmation or its copy is in flight. */
  predicate Alive(cfg: Config, c: Cluster, k: nat, i: nat)
    requires Sized(cfg, c) && k < |c.replicas[0].buffer| && i < |c.replicas[0].buffer[k].content|
  {
    var x := c.replicas[0].buffer[k];
    x.content[i].confirmed || ConfirmInFlight(cfg, c, First(x) + i) || CopyInFlight(cfg, c, x, i)
  }

  /** Nothing that container k still needs is lost. */
  predicate Recoverable(cfg: Config, c: Cluster, k: nat)
    requires Sized(cfg, c) && k < |c.replicas[0].buffer|
  {
    forall i :: 0 <= i < |c.replicas[0].buffer[k].content| ==> Alive(cfg, c, k, i)
  }

  predicate OnlyDeliveries(actions: seq<Action>) {
    forall n :: 0 <= n < |actions| ==> actions[n].Deliver?
  }

  /** A continuation in which container k is completed. */
  ghost predicate Completed(cfg: Config, c: Cluster, k: nat, more: seq<Action>)
    requires Sized(cfg, c)
  {
    var b := Execute(cfg, c, more).replicas[0].buffer;
    k < |b| && Complete(b[k])
  }

  /** A continuation in which it is completed and the acceptance of its CONNECT sent. */
  ghost predicate Accepted(cfg: Config, c: Cluster, k: nat, more: seq<Action>)
    requires Sized(cfg, c) && k < |c.logs[0]|
  {
    Completed(cfg, c, k, more) && AcceptTo(cfg, c.logs[0][k]) in Execute(cfg, c, more).accepted
  }

  // ----- Continuations -----

  lemma {:induction false} ExecuteConcat(cfg: Config, c: Cluster, a: seq<Action>, b: seq<Action>)
    requires Sized(cfg, c)
    ensures Execute(cfg, c, a + b) == Execute(cfg, Execute(cfg, c, a), b)
    decreases |b|
  {
    hide Next;
    if b == [] {
      assert a + b == a;
    } else {
      var n := |b| - 1;
      ExecuteConcat(cfg, c, a, b[..n]);
      assert (a + b)[..|a| + n] == a + b[..n];
    }
  }

  lemma ExecuteNone(cfg: Config, c: Cluster)
    requires Sized(cfg, c)
    ensures Execute(cfg, c, []) == c
  {
  }

  lemma ExecuteOne(cfg: Config, c: Cluster, a: Action)
    requires Sized(cfg, c)
    ensures Execute(cfg, c, [a]) == Next(cfg, c, a)
  {
    assert [a][..0] == [];
    assert Execute(cfg, c, []) == c;
  }

  // ----- A lost item stays lost -----

  /** A step sends no confirmation of an item that is not alive, nor its copy again. */
  lemma NothingRevives(cfg: Config, c: Cluster, r: nat, e: Event, k: nat, i: nat, d: Datagram)
    requires ClusterInv(cfg, c) && |cfg| <= 4 && r < |cfg| && k < |c.replicas[0].buffer| && i < 3
    requires |c.replicas[0].buffer[k].content| == 3 && !Alive(cfg, c, k, i)
    requires e.Receive? ==> Envelope(e.from, cfg[r], e.packet) in c.network
    requires d in Step(RoleIn(cfg, r), c.replicas[r], e).1
    ensures !(d.packet.kind in {Connect, ConfirmStateChange} && d.packet.seqn == First(c.replicas[0].buffer[k]) + i)
  {
    hide Step;
    var b := c.replicas[0].buffer;
    SentAfter(RoleIn(cfg, r), c.replicas[r], e, d);
    assert Inv(c.replicas[0]);
    if d.packet.kind.ConfirmStateChange? && d.packet.seqn == First(b[k]) + i {
      CopyWithNumber(cfg, c, r, Envelope(e.from, cfg[r], e.packet), k, i);
    }
  }

  /** What a secondary can confirm under the number of item i is the copy of item i. */
  lemma CopyWithNumber(cfg: Config, c: Cluster, r: nat, m: Envelope, k: nat, i: nat)
    requires ClusterInv(cfg, c) && |cfg| <= 4 && 0 < r < |cfg| && k < |c.replicas[0].buffer| && i < 3
    requires m in c.network && m.to == cfg[r] && m.packet.kind in {Connect, ConfirmStateChange}
    requires c.replicas[0].buffer[k].content != [] && m.packet.seqn == First(c.replicas[0].buffer[k]) + i
    ensures CopyInFlight(cfg, c, c.replicas[0].buffer[k], i)
  {
    hide Inv, BufferOk, FlagsOk, AcceptedOk, EntriesOk, IsEcho;
    var b := c.replicas[0].buffer;
    assert MailOk(cfg, c, m) && cfg[r] == cfg[1..][r - 1] && m.packet.kind.Connect?;
    var l, j :| 0 <= l < |b| && 0 <= j < |cfg| - 1 && b[l].content != []
                && m == Envelope(cfg[0], cfg[j + 1], CopyTo(b[l], j));
    NumberNamesOneCopy(cfg, c, l, j, k, i);
  }

  lemma StaysLostInReact(cfg: Config, c: Cluster, r: nat, e: Event, k: nat, i: nat)
    requires ClusterInv(cfg, c) && |cfg| <= 4 && r < |cfg| && k < |c.replicas[0].buffer| && i < 3
    requires |c.replicas[0].buffer[k].content| == 3 && !Alive(cfg, c, k, i)
    requires e.Receive? ==> Envelope(e.from, cfg[r], e.packet) in c.network
    ensures var b, b' := c.replicas[0].buffer, React(cfg, c, r, e).replicas[0].buffer;
            && k < |b'| && |b'[k].content| == 3 && !Alive(cfg, React(cfg, c, r, e), k, i)
  {
    hide Step, Inv, MailOk, BufferOk, FlagsOk, AcceptedOk, EntriesOk;
    var c' := React(cfg, c, r, e);
    var x := c.replicas[0].buffer[k];
    ReactGrows(cfg, c, r, e);
    var x' := c'.replicas[0].buffer[k];
    assert SameMessages(x, x');
    if x'.content[i].confirmed {
      FlagNeedsConfirm(cfg, c, r, e, k, i);
    }
    var sent := Step(RoleIn(cfg, r), c.replicas[r], e).1;
    forall m | m in c'.network && m !in c.network
      ensures !(m.packet.kind in {Connect, ConfirmStateChange} && m.packet.seqn == First(x) + i)
    {
      var d :| d in sent && m == Envelope(cfg[r], d.to, d.packet);
      NothingRevives(cfg, c, r, e, k, i, d);
    }
    assert CopyTo(x', i) == CopyTo(x, i);
    CopyIsConnect(cfg, c, k, i);
  }

  lemma CopyIsConnect(cfg: Config, c: Cluster, k: nat, i: nat)
    requires ClusterInv(cfg, c) && k < |c.replicas[0].buffer|
    ensures var x := c.replicas[0].buffer[k];
            |x.content| == 3 && CopyTo(x, i).kind.Connect? && CopyTo(x, i).seqn == First(x) + i
  {
  }

  /** A flag is set only by a confirmation in flight to the primary. */
  lemma FlagNeedsConfirm(cfg: Config, c: Cluster, r: nat, e: Event, k: nat, i: nat)
    requires ClusterInv(cfg, c) && r < |cfg| && k < |c.replicas[0].buffer| && i < 3
    requires |c.replicas[0].buffer[k].content| == 3 && !c.replicas[0].buffer[k].content[i].confirmed
    requires e.Receive? ==> Envelope(e.from, cfg[r], e.packet) in c.network
    requires var b' := React(cfg, c, r, e).replicas[0].buffer;
             k < |b'| && i < |b'[k].content| && b'[k].content[i].confirmed
    ensures ConfirmInFlight(cfg, c, First(c.replicas[0].buffer[k]) + i)
  {
    hide Step, MailOk, BufferOk, FlagsOk, AcceptedOk, EntriesOk;
    var b := c.replicas[0].buffer;
    BufferAfter(RoleIn(cfg, r), c.replicas[r], e);
    assert Inv(c.replicas[0]);
    assert b[k].content[i].message.sequenceNumber == First(b[k]) + i;
    assert React(cfg, c, r, e).replicas[0].buffer[k] == MarkedContainer(b[k], e.packet.seqn);
  }

  lemma StaysLost(cfg: Config, c: Cluster, a: Action, k: nat, i: nat)
    requires ClusterInv(cfg, c) && |cfg| <= 4 && k < |c.replicas[0].buffer| && i < 3 && !a.Restart?
    requires |c.replicas[0].buffer[k].content| == 3 && !Alive(cfg, c, k, i)
    ensures var c' := Next(cfg, c, a);
            && k < |c'.replicas[0].buffer| && |c'.replicas[0].buffer[k].content| == 3 && !Alive(cfg, c', k, i)
  {
    hide Inv, MailOk, BufferOk, FlagsOk, AcceptedOk, EntriesOk, React;
    CopyIsConnect(cfg, c, k, i);
    match a
    case ClientSends(from, packet) =>
    case Deliver(r, mail) =>
      if r < |cfg| && mail in c.network && mail.to == cfg[r] {
        StaysLostInReact(cfg, c, r, Receive(mail.packet, mail.from), k, i);
      }
    case WorkerRound(r) =>
      if r < |cfg| {
        StaysLostInReact(cfg, c, r, Work, k, i);
      }
    case Drop(mail) =>
  }

  /** An item whose copy and confirmation are lost is never confirmed, whatever happens next. */
  lemma {:induction false} LostForever(cfg: Config, c: Cluster, k: nat, i: nat, more: seq<Action>)
    requires ClusterInv(cfg, c) && |cfg| <= 4 && k < |c.replicas[0].buffer| && i < 3 && NoRestart(more)
    requires |c.replicas[0].buffer[k].content| == 3 && !Alive(cfg, c, k, i)
    ensures var c' := Execute(cfg, c, more);
            && ClusterInv(cfg, c')
            && k < |c'.replicas[0].buffer| && |c'.replicas[0].buffer[k].content| == 3 && !Alive(cfg, c', k, i)
  {
    hide Inv, MailOk, BufferOk, FlagsOk, AcceptedOk, EntriesOk, Alive, Next;
    if more != [] {
      var n := |more| - 1;
      LostForever(cfg, c, k, i, more[..n]);
      StaysLost(cfg, Execute(cfg, c, more[..n]), more[n], k, i);
      NextKeepsInv(cfg, Execute(cfg, c, more[..n]), more[n]);
    }
  }

  // ----- What is in flight can be delivered -----

  /** Delivering keeps every item alive that was. */
  lemma StaysAlive(cfg: Config, c: Cluster, r: nat, e: Event, k: nat, i: nat)
    requires Sized(cfg, c) && r < |cfg| && k < |c.replicas[0].buffer| && i < |c.replicas[0].buffer[k].content|
    requires Alive(cfg, c, k, i)
    ensures var c' := React(cfg, c, r, e);
            k < |c'.replicas[0].buffer| && i < |c'.replicas[0].buffer[k].content| && Alive(cfg, c', k, i)
  {
    hide Step;
    var c' := React(cfg, c, r, e);
    ReactGrows(cfg, c, r, e);
    var x, x' := c.replicas[0].buffer[k], c'.replicas[0].buffer[k];
    assert SameMessages(x, x');
    if ConfirmInFlight(cfg, c, First(x) + i) {
      var m :| m in c.network && m.to == cfg[0] && m.packet.kind.ConfirmStateChange? && m.packet.seqn == First(x) + i;
      assert m in c'.network;
    }
  }

  /** What a continuation of deliveries keeps of container k. */
  ghost predicate Carries(cfg: Config, c: Cluster, c': Cluster, k: nat)
    requires Sized(cfg, c) && k < |c.replicas[0].buffer|
  {
    && ClusterInv(cfg, c') && c'.logs[0] == c.logs[0]
    && k < |c'.replicas[0].buffer| && SameMessages(c.replicas[0].buffer[k], c'.replicas[0].buffer[k])
    && (Recoverable(cfg, c, k) ==> Recoverable(cfg, c', k))
  }

  lemma DeliveryCarries(cfg: Config, c: Cluster, r: nat, m: Envelope, k: nat)
    requires ClusterInv(cfg, c) && |cfg| <= 4 && r < |cfg| && k < |c.replicas[0].buffer|
    requires m in c.network && m.to == cfg[r] && (r == 0 ==> !m.packet.kind.Connect?)
    ensures Carries(cfg, c, React(cfg, c, r, Receive(m.packet, m.from)), k)
  {
    hide Step, Alive, Inv;
    var e := Receive(m.packet, m.from);
    var c' := React(cfg, c, r, e);
    assert MailOk(cfg, c, m);
    ReactKeepsInv(cfg, c, r, e);
    ReactGrows(cfg, c, r, e);
    assert SameMessages(c.replicas[0].buffer[k], c'.replicas[0].buffer[k]);
    if Recoverable(cfg, c, k) {
      forall i | 0 <= i < |c'.replicas[0].buffer[k].content| ensures Alive(cfg, c', k, i) {
        StaysAlive(cfg, c, r, e, k, i);
      }
    }
  }

  /** Delivering a confirmation in flight sets the flag. */
  lemma Confirms(cfg: Config, c: Cluster, k: nat, i: nat) returns (more: seq<Action>)
    requires ClusterInv(cfg, c) && |cfg| <= 4 && k < |c.replicas[0].buffer| && i < |c.replicas[0].buffer[k].content|
    requires ConfirmInFlight(cfg, c, First(c.replicas[0].buffer[k]) + i)
    ensures OnlyDeliveries(more) && Carries(cfg, c, Execute(cfg, c, more), k)
    ensures Execute(cfg, c, more).replicas[0].buffer[k].content[i].confirmed
  {
    hide Step, Inv, MailOk, BufferOk, FlagsOk, AcceptedOk, EntriesOk, Recoverable, Execute;
    var seqn := First(c.replicas[0].buffer[k]) + i;
    var m :| m in c.network && m.to == cfg[0] && m.packet.kind.ConfirmStateChange? && m.packet.seqn == seqn;
    more := [Deliver(0, m)];
    ExecuteOne(cfg, c, Deliver(0, m));
    DeliveryCarries(cfg, c, 0, m, k);
    ConfirmFlags(cfg, c, k, i, m);
  }

  lemma ConfirmFlags(cfg: Config, c: Cluster, k: nat, i: nat, m: Envelope)
    requires Sized(cfg, c) && Inv(c.replicas[0]) && m.packet.kind.ConfirmStateChange?
    requires k < |c.replicas[0].buffer| && i < |c.replicas[0].buffer[k].content|
    requires m.packet.seqn == First(c.replicas[0].buffer[k]) + i
    ensures var b' := React(cfg, c, 0, Receive(m.packet, m.from)).replicas[0].buffer;
            k < |b'| && i < |b'[k].content| && b'[k].content[i].confirmed
  {
    hide Step, SessionsOk, QueueOk, WellFormed;
    var b := c.replicas[0].buffer;
    BufferAfter(RoleIn(cfg, 0), c.replicas[0], Receive(m.packet, m.from));
    assert b[k].content[i].message.sequenceNumber == m.packet.seqn;
    assert Marked(b, m.packet.seqn)[k] == MarkedContainer(b[k], m.packet.seqn);
  }

  /** Delivering a copy in flight puts its confirmation in flight. */
  lemma Echoes(cfg: Config, c: Cluster, k: nat, i: nat) returns (more: seq<Action>)
    requires ClusterInv(cfg, c) && |cfg| <= 4 && k < |c.replicas[0].buffer|
    requires CopyInFlight(cfg, c, c.replicas[0].buffer[k], i)
    ensures OnlyDeliveries(more) && Carries(cfg, c, Execute(cfg, c, more), k)
    ensures ConfirmInFlight(cfg, Execute(cfg, c, more), First(c.replicas[0].buffer[k]) + i)
  {
    hide Step, Inv, MailOk, BufferOk, FlagsOk, AcceptedOk, EntriesOk, Recoverable, Execute;
    var x := c.replicas[0].buffer[k];
    CopyIsConnect(cfg, c, k, i);
    var m := Envelope(cfg[0], cfg[i + 1], CopyTo(x, i));
    more := [Deliver(i + 1, m)];
    ExecuteOne(cfg, c, Deliver(i + 1, m));
    DeliveryCarries(cfg, c, i + 1, m, k);
    EchoSent(cfg, c, i + 1, m);
    var echo := Envelope(cfg[i + 1], cfg[0], MakeConfirmStateChangeMessage(m.packet.seqn));
    assert echo in Execute(cfg, c, more).network;
  }

  lemma EchoSent(cfg: Config, c: Cluster, r: nat, copy: Envelope)
    requires Sized(cfg, c) && 0 < r < |cfg| && copy.packet.kind in {Connect, ConfirmStateChange}
    ensures var c' := React(cfg, c, r, Receive(copy.packet, copy.from));
            && c'.replicas[0] == c.replicas[0] && c'.logs[0] == c.logs[0]
            && Envelope(cfg[r], cfg[0], MakeConfirmStateChangeMessage(copy.packet.seqn)) in c'.network
  {
  }

  lemma SameCarries(cfg: Config, c: Cluster, k: nat)
    requires ClusterInv(cfg, c) && k < |c.replicas[0].buffer|
    ensures Carries(cfg, c, c, k)
  {
  }

  lemma CarriesOn(cfg: Config, a: Cluster, b: Cluster, c: Cluster, k: nat)
    requires Sized(cfg, a) && k < |a.replicas[0].buffer| && Carries(cfg, a, b, k) && Carries(cfg, b, c, k)
    ensures Carries(cfg, a, c, k)
  {
    hide ClusterInv, Recoverable;
  }

  /** Deliveries that flag item i of a recoverable container. */
  lemma Flags(cfg: Config, c: Cluster, k: nat, i: nat) returns (more: seq<Action>)
    requires ClusterInv(cfg, c) && |cfg| <= 4 && k < |c.replicas[0].buffer| && i < |c.replicas[0].buffer[k].content|
    requires Recoverable(cfg, c, k)
    ensures OnlyDeliveries(more) && Carries(cfg, c, Execute(cfg, c, more), k)
    ensures Execute(cfg, c, more).replicas[0].buffer[k].content[i].confirmed
  {
    hide Inv, MailOk, BufferOk, FlagsOk, AcceptedOk, EntriesOk, ConfirmInFlight, CopyInFlight, Execute;
    var x := c.replicas[0].buffer[k];
    assert Alive(cfg, c, k, i);
    if x.content[i].confirmed {
      more := [];
      ExecuteNone(cfg, c);
      SameCarries(cfg, c, k);
    } else if ConfirmInFlight(cfg, c, First(x) + i) {
      more := Confirms(cfg, c, k, i);
    } else {
      var first := Echoes(cfg, c, k, i);
      var mid := Execute(cfg, c, first);
      var second := Confirms(cfg, mid, k, i);
      more := first + second;
      ExecuteConcat(cfg, c, first, second);
      CarriesOn(cfg, c, mid, Execute(cfg, mid, second), k);
    }
  }

  lemma FlagStays(x: Container, y: Container, i: nat)
    requires SameMessages(x, y) && i < |x.content| && x.content[i].confirmed
    ensures y.content[i].confirmed
  {
  }

  /** Deliveries that flag the first n items. */
  lemma {:induction false} FlagsUpTo(cfg: Config, c: Cluster, k: nat, n: nat) returns (more: seq<Action>)
    requires ClusterInv(cfg, c) && |cfg| <= 4 && k < |c.replicas[0].buffer| && n <= |c.replicas[0].buffer[k].content|
    requires Recoverable(cfg, c, k)
    ensures OnlyDeliveries(more) && Carries(cfg, c, Execute(cfg, c, more), k)
    ensures forall i :: 0 <= i < n ==> Execute(cfg, c, more).replicas[0].buffer[k].content[i].confirmed
  {
    hide Execute, Inv, MailOk, BufferOk, FlagsOk, AcceptedOk, EntriesOk, Recoverable;
    if n == 0 {
      more := [];
      ExecuteNone(cfg, c);
      SameCarries(cfg, c, k);
    } else {
      var first := FlagsUpTo(cfg, c, k, n - 1);
      var mid := Execute(cfg, c, first);
      var second := Flags(cfg, mid, k, n - 1);
      more := first + second;
      ExecuteConcat(cfg, c, first, second);
      var last := Execute(cfg, mid, second);
      CarriesOn(cfg, c, mid, last, k);
      forall i | 0 <= i < n ensures last.replicas[0].buffer[k].content[i].confirmed {
        if i < n - 1 {
          FlagStays(mid.replicas[0].buffer[k], last.replicas[0].buffer[k], i);
        }
      }
    }
  }

  // ----- Exactly when a CONNECT can still be accepted -----

  lemma Reaches(cfg: Config, c: Cluster, k: nat) returns (more: seq<Action>)
    requires ClusterInv(cfg, c) && |cfg| <= 4 && k < |c.replicas[0].buffer| && Recoverable(cfg, c, k)
    ensures k < |c.logs[0]| && OnlyDeliveries(more) && Accepted(cfg, c, k, more)
  {
    hide Inv, MailOk, Recoverable, Execute;
    more := FlagsUpTo(cfg, c, k, |c.replicas[0].buffer[k].content|);
    var c' := Execute(cfg, c, more);
    assert ContainerFor(c'.replicas[0].buffer[k], c'.logs[0][k]);
    assert AcceptFor(cfg, c'.replicas[0].buffer[k]) == AcceptTo(cfg, c.logs[0][k]);
  }

  lemma CannotReach(cfg: Config, c: Cluster, k: nat, more: seq<Action>)
    requires ClusterInv(cfg, c) && |cfg| <= 4 && k < |c.replicas[0].buffer| && k < |c.logs[0]| && NoRestart(more)
    requires Completed(cfg, c, k, more)
    ensures Recoverable(cfg, c, k)
  {
    hide Alive, Execute;
    assert ContainerFor(c.replicas[0].buffer[k], c.logs[0][k]);
    if !Recoverable(cfg, c, k) {
      var i :| 0 <= i < 3 && !Alive(cfg, c, k, i);
      LostForever(cfg, c, k, i, more);
      Confirmed(cfg, Execute(cfg, c, more), k, i);
    }
  }

  lemma Confirmed(cfg: Config, c: Cluster, k: nat, i: nat)
    requires Sized(cfg, c) && k < |c.replicas[0].buffer| && i < |c.replicas[0].buffer[k].content|
    requires Complete(c.replicas[0].buffer[k])
    ensures Alive(cfg, c, k, i)
  {
  }

  /**
   Progress: in every reachable state, a CONNECT the primary handled can still be accepted if
   and only if each of its items is confirmed or has its confirmation or its copy in flight.
   Deliveries alone then do it; otherwise its container is never completed, whatever clients
   send meanwhile.
   */
  lemma AcceptableIff(cfg: Config, start: Cluster, actions: seq<Action>, k: nat)
    requires Start(cfg, start) && |cfg| <= 4 && QuietRestarts(cfg, start, actions)
    requires k < |Execute(cfg, start, actions).logs[0]|
    ensures k < |Execute(cfg, start, actions).replicas[0].buffer|
    ensures var c := Execute(cfg, start, actions);
            && (Recoverable(cfg, c, k) <==> exists more :: OnlyDeliveries(more) && Accepted(cfg, c, k, more))
            && (Recoverable(cfg, c, k) <==> exists more :: NoRestart(more) && Completed(cfg, c, k, more))
  {
    hide Execute, Recoverable, Inv, MailOk, Completed;
    StartInv(cfg, start);
    ExecuteKeepsInv(cfg, start, actions);
    var c := Execute(cfg, start, actions);
    forall more | NoRestart(more) && Completed(cfg, c, k, more) ensures Recoverable(cfg, c, k) {
      CannotReach(cfg, c, k, more);
    }
    if Recoverable(cfg, c, k) {
      var more := Reaches(cfg, c, k);
      assert NoRestart(more);
    }
  }

  // ----- Without loss -----

  /** The network still holds every copy of every broadcast. */
  predicate CopiesSent(cfg: Config, c: Cluster)
    requires Sized(cfg, c)
  {
    var b := c.replicas[0].buffer;
    forall k, i :: 0 <= k < |b| && 0 <= i < |cfg| - 1 && b[k].content != [] ==> CopyInFlight(cfg, c, b[k], i)
  }

  lemma ReactKeepsCopies(cfg: Config, c: Cluster, r: nat, e: Event)
    requires Sized(cfg, c) && r < |cfg| && CopiesSent(cfg, c)
    ensures CopiesSent(cfg, React(cfg, c, r, e))
  {
    hide Step;
    var c' := React(cfg, c, r, e);
    var b, b' := c.replicas[0].buffer, c'.replicas[0].buffer;
    BufferAfter(RoleIn(cfg, r), c.replicas[r], e);
    ReactGrows(cfg, c, r, e);
    forall k, i | 0 <= k < |b'| && 0 <= i < |cfg| - 1 && b'[k].content != []
      ensures CopyInFlight(cfg, c', b'[k], i)
    {
      if k < |b| {
        assert SameMessages(b[k], b'[k]);
        assert CopyInFlight(cfg, c, b[k], i) && CopyTo(b'[k], i) == CopyTo(b[k], i);
      } else {
        NewCopySent(cfg, c, e, i);
      }
    }
  }

  lemma NewCopySent(cfg: Config, c: Cluster, e: Event, i: nat)
    requires Sized(cfg, c) && e.Receive? && e.packet.kind.Connect? && i < |cfg| - 1
    ensures var x := Fresh(Numbered(e.packet, c.replicas[0].lastSeqn), e.packet.seqn, e.from);
            CopyInFlight(cfg, React(cfg, c, 0, e), x, i)
  {
    var s := c.replicas[0];
    var x := Fresh(Numbered(e.packet, s.lastSeqn), e.packet.seqn, e.from);
    assert x.content[0] == Item(BaseMessage(s.lastSeqn, e.packet), false);
    var sent := Step(RoleIn(cfg, 0), s, e).1;
    assert Connected(s, e.packet.payload, e.from).lastSeqn == s.lastSeqn;
    assert sent == Copies(cfg[1..], e.packet, s.lastSeqn);
    assert sent[i] == Datagram(cfg[i + 1], CopyTo(x, i));
    MailHas(cfg[0], sent, sent[i]);
  }

  predicate NoDrop(actions: seq<Action>) {
    forall n :: 0 <= n < |actions| ==> !actions[n].Drop?
  }

  lemma {:induction false} ExecuteKeepsCopies(cfg: Config, c: Cluster, actions: seq<Action>)
    requires Start(cfg, c) && NoDrop(actions)
    ensures CopiesSent(cfg, Execute(cfg, c, actions))
  {
    hide React, CopyInFlight;
    if actions != [] {
      var n := |actions| - 1;
      ExecuteKeepsCopies(cfg, c, actions[..n]);
      var mid := Execute(cfg, c, actions[..n]);
      match actions[n]
      case ClientSends(_, _) => CopiesStay(cfg, mid, Next(cfg, mid, actions[n]));
      case Deliver(r, mail) =>
        if r < |cfg| {
          ReactKeepsCopies(cfg, mid, r, Receive(mail.packet, mail.from));
        }
      case WorkerRound(r) =>
        if r < |cfg| {
          ReactKeepsCopies(cfg, mid, r, Work);
        }
      case Restart =>
    }
  }

  lemma CopiesStay(cfg: Config, c: Cluster, c': Cluster)
    requires Sized(cfg, c) && Sized(cfg, c') && CopiesSent(cfg, c)
    requires c.network <= c'.network && c'.replicas[0].buffer == c.replicas[0].buffer
    ensures CopiesSent(cfg, c')
  {
    forall k, i | 0 <= k < |c.replicas[0].buffer| && 0 <= i < |cfg| - 1 && c.replicas[0].buffer[k].content != []
      ensures CopyInFlight(cfg, c', c.replicas[0].buffer[k], i)
    {
      assert CopyInFlight(cfg, c, c.replicas[0].buffer[k], i);
    }
  }

  /** As long as nothing was lost, three secondaries can confirm every CONNECT the primary handled. */
  lemma LosslessIsAcceptable(cfg: Config, start: Cluster, actions: seq<Action>, k: nat) returns (more: seq<Action>)
    requires Start(cfg, start) && |cfg| == 4 && QuietRestarts(cfg, start, actions) && NoDrop(actions)
    requires k < |Execute(cfg, start, actions).logs[0]|
    ensures OnlyDeliveries(more) && Accepted(cfg, Execute(cfg, start, actions), k, more)
  {
    hide Execute, Inv, MailOk, Accepted, CopyInFlight;
    StartInv(cfg, start);
    ExecuteKeepsInv(cfg, start, actions);
    ExecuteKeepsCopies(cfg, start, actions);
    var c := Execute(cfg, start, actions);
    assert ContainerFor(c.replicas[0].buffer[k], c.logs[0][k]);
    more := Reaches(cfg, c, k);
  }

  // ----- One lost datagram -----

  /** The primary handles a CONNECT and the copy to one secondary is lost. */
  function LosingRun(cfg: Config, from: SocketAddress, p: Packet, first: nat, i: nat): seq<Action>
    requires i + 1 < |cfg|
  {
    [ClientSends(from, p), Deliver(0, Envelope(from, cfg[0], p)),
     Drop(Envelope(cfg[0], cfg[i + 1], p.(seqn := first + i)))]
  }

  /** The broadcast of a CONNECT, with the copy to secondary i lost. */
  ghost function Lost(cfg: Config, c: Cluster, from: SocketAddress, p: Packet, i: nat): Cluster
    requires Sized(cfg, c) && i + 1 < |cfg|
  {
    Execute(cfg, c, LosingRun(cfg, from, p, c.replicas[0].lastSeqn, i))
  }

  lemma LostIs(cfg: Config, c: Cluster, from: SocketAddress, p: Packet, i: nat)
    requires Sized(cfg, c) && i + 1 < |cfg| && p.kind.Connect?
    ensures var sent := Next(cfg, c, ClientSends(from, p));
            Lost(cfg, c, from, p, i)
            == Next(cfg, React(cfg, sent, 0, Receive(p, from)),
                    Drop(Envelope(cfg[0], cfg[i + 1], p.(seqn := c.replicas[0].lastSeqn + i))))
  {
    hide React;
    var run := LosingRun(cfg, from, p, c.replicas[0].lastSeqn, i);
    assert run[..2] == [run[0]] + [run[1]] && run == run[..2] + [run[2]];
    ExecuteOne(cfg, c, run[0]);
    ExecuteConcat(cfg, c, [run[0]], [run[1]]);
    ExecuteOne(cfg, Execute(cfg, c, [run[0]]), run[1]);
    ExecuteConcat(cfg, c, run[..2], [run[2]]);
    ExecuteOne(cfg, Execute(cfg, c, run[..2]), run[2]);
  }

  /** Confirmations in flight carry numbers below the counter. */
  lemma ConfirmsAreOld(cfg: Config, c: Cluster, seqn: nat)
    requires ClusterInv(cfg, c) && |cfg| <= 4 && ConfirmInFlight(cfg, c, seqn)
    ensures seqn < c.replicas[0].lastSeqn
  {
    var m :| m in c.network && m.to == cfg[0] && m.packet.kind.ConfirmStateChange? && m.packet.seqn == seqn;
    assert MailOk(cfg, c, m) && Inv(c.replicas[0]);
  }

  /** A broadcast sends no confirmation. */
  lemma BroadcastConfirmsNothing(cfg: Config, c: Cluster, p: Packet, from: SocketAddress, seqn: nat)
    requires Sized(cfg, c) && p.kind.Connect? && ConfirmInFlight(cfg, React(cfg, c, 0, Receive(p, from)), seqn)
    ensures ConfirmInFlight(cfg, c, seqn)
  {
    hide Step;
    var m :| m in React(cfg, c, 0, Receive(p, from)).network && m.to == cfg[0]
             && m.packet.kind.ConfirmStateChange? && m.packet.seqn == seqn;
    var sent := Step(RoleIn(cfg, 0), c.replicas[0], Receive(p, from)).1;
    if m !in c.network {
      var d :| d in sent && m == Envelope(cfg[0], d.to, d.packet);
      SentAfter(RoleIn(cfg, 0), c.replicas[0], Receive(p, from), d);
    }
  }

  lemma LostKeepsInv(cfg: Config, c: Cluster, from: SocketAddress, p: Packet, i: nat)
    requires ClusterInv(cfg, c) && |cfg| <= 4 && i + 1 < |cfg| && p.kind.Connect?
    ensures ClusterInv(cfg, Next(cfg, c, ClientSends(from, p))) && ClusterInv(cfg, Lost(cfg, c, from, p, i))
  {
    hide Lost, Step, Inv, MailOk, FlagsOk, AcceptedOk, EntriesOk, BufferOk;
    var sent := Next(cfg, c, ClientSends(from, p));
    LostIs(cfg, c, from, p, i);
    NextKeepsInv(cfg, c, ClientSends(from, p));
    assert Envelope(from, cfg[0], p) in sent.network && MailOk(cfg, sent, Envelope(from, cfg[0], p));
    ReactKeepsInv(cfg, sent, 0, Receive(p, from));
    NextKeepsInv(cfg, React(cfg, sent, 0, Receive(p, from)),
                 Drop(Envelope(cfg[0], cfg[i + 1], p.(seqn := c.replicas[0].lastSeqn + i))));
  }

  lemma LostItem(cfg: Config, c: Cluster, from: SocketAddress, p: Packet, i: nat)
    requires ClusterInv(cfg, c) && |cfg| <= 4 && i + 1 < |cfg| && p.kind.Connect?
    ensures var lost, k := Lost(cfg, c, from, p, i), |c.replicas[0].buffer|;
            && |lost.replicas[0].buffer| == k + 1 && |lost.replicas[0].buffer[k].content| == 3
            && lost.logs[0] == c.logs[0] + [Handled(p, from)] && !Alive(cfg, lost, k, i)
  {
    hide Lost, Step, Inv, MailOk, FlagsOk, AcceptedOk, EntriesOk, BufferOk;
    var sent := Next(cfg, c, ClientSends(from, p));
    var e := Receive(p, from);
    var c' := React(cfg, sent, 0, e);
    var lost := Lost(cfg, c, from, p, i);
    LostIs(cfg, c, from, p, i);
    LostKeepsInv(cfg, c, from, p, i);
    BufferAfter(RoleIn(cfg, 0), sent.replicas[0], e);
    var x := Fresh(Numbered(p, c.replicas[0].lastSeqn), p.seqn, from);
    assert lost.replicas[0].buffer == c.replicas[0].buffer + [x];
    assert x.content[i] == Item(Numbered(p, c.replicas[0].lastSeqn)[i], false);
    if ConfirmInFlight(cfg, lost, First(x) + i) {
      assert ConfirmInFlight(cfg, c', First(x) + i);
      BroadcastConfirmsNothing(cfg, sent, p, from, First(x) + i);
      ConfirmsAreOld(cfg, sent, First(x) + i);
    }
  }

  /**
   Nothing is sent twice: from every reachable state, when a client's CONNECT is broadcast
   and one copy of it is lost, its container is never completed.
   */
  lemma LossIsFatal(cfg: Config, start: Cluster, actions: seq<Action>, from: SocketAddress, p: Packet, i: nat)
    requires Start(cfg, start) && |cfg| <= 4 && QuietRestarts(cfg, start, actions)
    requires p.kind.Connect? && i + 1 < |cfg|
    ensures var c := Execute(cfg, start, actions);
            var k, lost := |c.logs[0]|, Lost(cfg, c, from, p, i);
            && lost.logs[0] == c.logs[0] + [Handled(p, from)]
            && forall more :: NoRestart(more) ==> !Completed(cfg, lost, k, more)
  {
    hide Execute, Inv, MailOk, Completed, Lost;
    StartInv(cfg, start);
    ExecuteKeepsInv(cfg, start, actions);
    var c := Execute(cfg, start, actions);
    var k, lost := |c.logs[0]|, Lost(cfg, c, from, p, i);
    LostKeepsInv(cfg, c, from, p, i);
    LostItem(cfg, c, from, p, i);
    forall more | NoRestart(more) && Completed(cfg, lost, k, more) ensures false {
      CannotReach(cfg, lost, k, more);
    }
  }
}
