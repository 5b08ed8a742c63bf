/**
 Where the safety of acceptance ends. It needs at most three secondaries, because three
 numbers are reserved per broadcast (`SafeIffAtMostThree`), and a primary that is restarted
 only when no copy and no confirmation is in flight, because its counter starts again at
 zero (`RestartSafeIffQuiet`).
 */
module Limits {
  import opened Messages
  import opened Confirmation
  import opened ServerSpec
  import opened ServerInvariants
  import opened Replication
  import opened Progress

  // ----- Steps of a run -----

  lemma OneMore(cfg: Config, c: Cluster, actions: seq<Action>, a: Action) returns (more: seq<Action>)
    requires Sized(cfg, c)
    ensures more == actions + [a] && Execute(cfg, c, more) == Next(cfg, Execute(cfg, c, actions), a)
  {
    more := actions + [a];
    assert more[..|more| - 1] == actions;
  }

  /** Copy i of a broadcast whose first number is `first`. */
  function CopyMail(cfg: Config, p: Packet, first: nat, i: nat): Envelope
    requires i + 1 < |cfg|
  {
    Envelope(cfg[0], cfg[i + 1], p.(seqn := first + i))
  }

  /** A client's CONNECT reaches the primary, which broadcasts it. */
  lemma Broadcasted(cfg: Config, start: Cluster, actions: seq<Action>, p: Packet, from: SocketAddress)
    returns (more: seq<Action>)
    requires Sized(cfg, start) && p.kind.Connect? && NoRestart(actions)
    ensures NoRestart(more)
    ensures var c, c' := Execute(cfg, start, actions), Execute(cfg, start, more);
            && c'.replicas[0].lastSeqn == c.replicas[0].lastSeqn + 3
            && c'.replicas[0].buffer
               == c.replicas[0].buffer + [Fresh(Numbered(p, c.replicas[0].lastSeqn), p.seqn, from)]
            && c.network <= c'.network && c'.logs == c.logs[0 := c.logs[0] + [Handled(p, from)]]
            && forall i :: 0 <= i < |cfg| - 1 ==> CopyMail(cfg, p, c.replicas[0].lastSeqn, i) in c'.network
  {
    var c := Execute(cfg, start, actions);
    more := OneMore(cfg, start, actions, ClientSends(from, p));
    var c1 := Execute(cfg, start, more);
    more := OneMore(cfg, start, more, Deliver(0, Envelope(from, cfg[0], p)));
    var e := Receive(p, from);
    assert Execute(cfg, start, more) == React(cfg, c1, 0, e);
    BufferAfter(RoleIn(cfg, 0), c1.replicas[0], e);
    assert Connected(c1.replicas[0], p.payload, from).lastSeqn == c1.replicas[0].lastSeqn;
    var x := Fresh(Numbered(p, c.replicas[0].lastSeqn), p.seqn, from);
    assert x.content[0] == Item(BaseMessage(c.replicas[0].lastSeqn, p), false);
    forall i | 0 <= i < |cfg| - 1
      ensures CopyMail(cfg, p, c.replicas[0].lastSeqn, i) in React(cfg, c1, 0, e).network
    {
      NewCopySent(cfg, c1, e, i);
      assert CopyMail(cfg, p, c.replicas[0].lastSeqn, i) == Envelope(cfg[0], cfg[i + 1], CopyTo(x, i));
    }
  }

  /** Secondary r handles a copy, or passes on a confirmation, and the number goes to the primary. */
  lemma Echoed(cfg: Config, start: Cluster, actions: seq<Action>, r: nat, m: Envelope)
    returns (more: seq<Action>)
    requires Sized(cfg, start) && 0 < r < |cfg| && NoRestart(actions)
    requires m in Execute(cfg, start, actions).network && m.to == cfg[r]
    requires m.packet.kind in {Connect, ConfirmStateChange}
    ensures NoRestart(more)
    ensures var c, c' := Execute(cfg, start, actions), Execute(cfg, start, more);
            && c'.replicas[0] == c.replicas[0] && c.network <= c'.network && c'.accepted >= c.accepted
            && c'.logs == c.logs[r := Logged(c.logs[r], Receive(m.packet, m.from))]
            && Envelope(cfg[r], cfg[0], MakeConfirmStateChangeMessage(m.packet.seqn)) in c'.network
  {
    var c := Execute(cfg, start, actions);
    more := OneMore(cfg, start, actions, Deliver(r, m));
    EchoSent(cfg, c, r, m);
  }

  /** Every acceptance the primary owes for its complete containers was sent. */
  ghost predicate AcceptsSent(cfg: Config, c: Cluster)
    requires Sized(cfg, c)
  {
    var b := c.replicas[0].buffer;
    forall d :: d in Accepts(b, FiredPositions(b)) && d.packet.kind.Accept? ==>
      Envelope(cfg[0], d.to, d.packet) in c.accepted
  }

  /** The primary receives a confirmation. */
  lemma ConfirmedAt(cfg: Config, start: Cluster, actions: seq<Action>, m: Envelope)
    returns (more: seq<Action>)
    requires Sized(cfg, start) && NoRestart(actions)
    requires m in Execute(cfg, start, actions).network && m.to == cfg[0] && m.packet.kind.ConfirmStateChange?
    ensures NoRestart(more)
    ensures var c, c' := Execute(cfg, start, actions), Execute(cfg, start, more);
            && c'.replicas[0].buffer == Marked(c.replicas[0].buffer, m.packet.seqn)
            && c.network <= c'.network && c'.logs == c.logs && AcceptsSent(cfg, c')
  {
    hide Step;
    var c := Execute(cfg, start, actions);
    var e := Receive(m.packet, m.from);
    more := OneMore(cfg, start, actions, Deliver(0, m));
    var c' := React(cfg, c, 0, e);
    assert Execute(cfg, start, more) == c';
    ConfirmSends(cfg[1..], c.replicas[0], e);
    BufferAfter(RoleIn(cfg, 0), c.replicas[0], e);
    forall d | d in Accepts(c'.replicas[0].buffer, FiredPositions(c'.replicas[0].buffer)) && d.packet.kind.Accept?
      ensures Envelope(cfg[0], d.to, d.packet) in c'.accepted
    {
      MailHas(cfg[0], Step(RoleIn(cfg, 0), c.replicas[0], e).1, d);
    }
  }

  // ----- An acceptance that is not backed -----

  predicate AllConnects(b: seq<Container>) {
    forall l :: 0 <= l < |b| ==> b[l].content != [] && b[l].content[0].message.packet.kind.Connect?
  }

  lemma MarkedConnects(b: seq<Container>, seqn: nat)
    requires AllConnects(b)
    ensures AllConnects(Marked(b, seqn))
  {
  }

  /** Three numbers confirmed one after the other. */
  lemma ThreeMarks(b: seq<Container>, p: Packet, first: nat, seqn: nat, host: SocketAddress)
    requires |b| > 0 && b[|b| - 1] == Fresh(Numbered(p, first), seqn, host)
    ensures var b' := Marked(Marked(Marked(b, first), first + 1), first + 2);
            |b'| == |b| && Complete(b'[|b| - 1])
  {
  }

  /** The last container of the primary is complete, so its acceptance was sent. */
  lemma LastAccepted(cfg: Config, c: Cluster)
    requires Sized(cfg, c)
    requires var b := c.replicas[0].buffer;
             b != [] && Complete(b[|b| - 1]) && AllConnects(b) && AcceptsSent(cfg, c)
    ensures c.accepted != {}
  {
    hide Accepts, FiredPositions, Complete;
    var b := c.replicas[0].buffer;
    var x := b[|b| - 1];
    var d := Answer(x);
    AcceptIsSent(b, |b| - 1, d);
    assert Envelope(cfg[0], d.to, d.packet) in c.accepted;
  }

  /** Secondary r never handled a CONNECT for any user whose CONNECT the primary handled since it started. */
  predicate Unaware(c: Cluster, r: nat) {
    && 0 < r < |c.logs| && r < |c.past|
    && forall i, j :: 0 <= i < |c.logs[0]| && 0 <= j < |Ever(c, r)| ==>
         c.logs[0][i].packet.payload != Ever(c, r)[j].packet.payload
  }

  lemma UnawareMeansNotReplicated(cfg: Config, c: Cluster, r: nat, k: nat)
    requires Sized(cfg, c) && Unaware(c, r)
    ensures !ReplicatedAt(cfg, c, k)
  {
    var b := c.replicas[0].buffer;
    if k < |b| && k < |c.logs[0]| && b[k].content != [] {
      assert forall j :: 0 <= j < |c.logs[r]| ==> c.logs[r][j] == Ever(c, r)[|c.past[r]| + j];
      assert Handled(c.logs[0][k].packet.(seqn := First(b[k]) + r - 1), cfg[0]) !in c.logs[r];
    }
  }

  lemma UnawareIsUnsafe(cfg: Config, c: Cluster, r: nat)
    requires Sized(cfg, c) && Unaware(c, r) && c.accepted != {}
    ensures !AcceptsReplicated(cfg, c)
  {
    hide ReplicatedAt, Unaware;
    forall k: nat ensures !ReplicatedAt(cfg, c, k) {
      UnawareMeansNotReplicated(cfg, c, r, k);
    }
  }

  // ----- Three secondaries and no more -----

  /** All runs with quiet restarts, from all starts, are safe. */
  ghost predicate Safe(cfg: Config) {
    forall c, actions :: Start(cfg, c) && QuietRestarts(cfg, c, actions) ==>
      AcceptsReplicated(cfg, Execute(cfg, c, actions))
  }

  function EmptyCluster(cfg: Config): Cluster {
    Cluster(seq(|cfg|, _ => Booted([], None)), {}, {}, seq(|cfg|, _ => []), seq(|cfg|, _ => []))
  }

  /** Two broadcasts; with a fourth secondary the first one's copy 3 has the number of the second one's item 0. */
  lemma TwoBroadcasts(cfg: Config, a: Packet, b: Packet, home: SocketAddress) returns (actions: seq<Action>)
    requires |cfg| >= 5 && a.kind.Connect? && b.kind.Connect?
    ensures NoRestart(actions)
    ensures var c := Execute(cfg, EmptyCluster(cfg), actions);
            && |c.replicas[0].buffer| == 2 && c.logs[1] == [] && AllConnects(c.replicas[0].buffer)
            && c.replicas[0].buffer[1] == Fresh(Numbered(b, 3), b.seqn, home)
            && Envelope(cfg[0], cfg[4], a.(seqn := 3)) in c.network
            && Envelope(cfg[0], cfg[2], b.(seqn := 4)) in c.network
            && Envelope(cfg[0], cfg[3], b.(seqn := 5)) in c.network
  {
    var start := EmptyCluster(cfg);
    assert start.logs[1] == [] && start.replicas[0] == Booted([], None);
    var once := Broadcasted(cfg, start, [], a, home);
    var c1 := Execute(cfg, start, once);
    assert CopyMail(cfg, a, 0, 3) in c1.network;
    actions := Broadcasted(cfg, start, once, b, home);
    var c := Execute(cfg, start, actions);
    assert CopyMail(cfg, b, 3, 1) in c.network && CopyMail(cfg, b, 3, 2) in c.network;
  }

  lemma ThreeEchoes(cfg: Config, start: Cluster, actions: seq<Action>, a: Packet, b: Packet) returns (more: seq<Action>)
    requires Sized(cfg, start) && |cfg| >= 5 && a.kind.Connect? && b.kind.Connect? && NoRestart(actions)
    requires var sent := Execute(cfg, start, actions).network;
             && Envelope(cfg[0], cfg[4], a.(seqn := 3)) in sent
             && Envelope(cfg[0], cfg[2], b.(seqn := 4)) in sent
             && Envelope(cfg[0], cfg[3], b.(seqn := 5)) in sent
    ensures NoRestart(more)
    ensures var c, c' := Execute(cfg, start, actions), Execute(cfg, start, more);
            && c'.replicas[0] == c.replicas[0] && c'.logs[1] == c.logs[1]
            && Envelope(cfg[4], cfg[0], MakeConfirmStateChangeMessage(3)) in c'.network
            && Envelope(cfg[2], cfg[0], MakeConfirmStateChangeMessage(4)) in c'.network
            && Envelope(cfg[3], cfg[0], MakeConfirmStateChangeMessage(5)) in c'.network
  {
    hide Execute;
    more := Echoed(cfg, start, actions, 4, Envelope(cfg[0], cfg[4], a.(seqn := 3)));
    more := Echoed(cfg, start, more, 2, Envelope(cfg[0], cfg[2], b.(seqn := 4)));
    more := Echoed(cfg, start, more, 3, Envelope(cfg[0], cfg[3], b.(seqn := 5)));
  }

  lemma ThreeConfirms(cfg: Config, start: Cluster, actions: seq<Action>) returns (more: seq<Action>)
    requires Sized(cfg, start) && |cfg| >= 5 && NoRestart(actions)
    requires var sent := Execute(cfg, start, actions).network;
             && Envelope(cfg[4], cfg[0], MakeConfirmStateChangeMessage(3)) in sent
             && Envelope(cfg[2], cfg[0], MakeConfirmStateChangeMessage(4)) in sent
             && Envelope(cfg[3], cfg[0], MakeConfirmStateChangeMessage(5)) in sent
    requires AllConnects(Execute(cfg, start, actions).replicas[0].buffer)
    ensures NoRestart(more)
    ensures var c, c' := Execute(cfg, start, actions), Execute(cfg, start, more);
            && c'.replicas[0].buffer == Marked(Marked(Marked(c.replicas[0].buffer, 3), 4), 5)
            && c'.logs == c.logs && AllConnects(c'.replicas[0].buffer) && AcceptsSent(cfg, c')
  {
    hide Execute, Marked, AllConnects;
    var b := Execute(cfg, start, actions).replicas[0].buffer;
    MarkedConnects(b, 3);
    MarkedConnects(Marked(b, 3), 4);
    MarkedConnects(Marked(Marked(b, 3), 4), 5);
    more := ConfirmedAt(cfg, start, actions, Envelope(cfg[4], cfg[0], MakeConfirmStateChangeMessage(3)));
    more := ConfirmedAt(cfg, start, more, Envelope(cfg[2], cfg[0], MakeConfirmStateChangeMessage(4)));
    more := ConfirmedAt(cfg, start, more, Envelope(cfg[3], cfg[0], MakeConfirmStateChangeMessage(5)));
  }

  /**
   With a fourth secondary the copies of one broadcast run into the numbers of the next:
   its confirmation of the first CONNECT counts for the second one, which is then accepted
   although the first secondary handled nothing at all.
   */
  lemma UnsafeWithFour(cfg: Config) returns (actions: seq<Action>)
    requires ValidConfig(cfg) && |cfg| >= 5
    ensures var c := Execute(cfg, EmptyCluster(cfg), actions);
            c.accepted != {} && c.logs[1] == [] && !AcceptsReplicated(cfg, c)
    ensures NoRestart(actions)
  {
    hide Execute, Fresh, Marked, Complete, AllConnects;
    var start := EmptyCluster(cfg);
    var a, b := Packet(Connect, 1, "ana"), Packet(Connect, 1, "bia");
    var home := SocketAddress("10.0.0.1", 4000);
    actions := TwoBroadcasts(cfg, a, b, home);
    var buffer := Execute(cfg, start, actions).replicas[0].buffer;
    actions := ThreeEchoes(cfg, start, actions, a, b);
    actions := ThreeConfirms(cfg, start, actions);
    ThreeMarks(buffer, b, 3, b.seqn, home);
    LastAccepted(cfg, Execute(cfg, start, actions));
    PastStays(cfg, start, actions);
    UnawareIsUnsafe(cfg, Execute(cfg, start, actions), 1);
  }

  /** Acceptance means replication exactly when there are at most three secondaries. */
  lemma SafeIffAtMostThree(cfg: Config)
    requires ValidConfig(cfg)
    ensures Safe(cfg) <==> |cfg| <= 4
  {
    hide Execute, AcceptsReplicated;
    if |cfg| <= 4 {
      forall c, actions | Start(cfg, c) && QuietRestarts(cfg, c, actions)
        ensures AcceptsReplicated(cfg, Execute(cfg, c, actions))
      {
        AcceptMeansReplicated(cfg, c, actions);
      }
    } else {
      var actions := UnsafeWithFour(cfg);
      assert Start(cfg, EmptyCluster(cfg));
      assert QuietRestarts(cfg, EmptyCluster(cfg), actions);
    }
  }

  // ----- Restarting the primary -----

  /** Longer than every handle in the logs. */
  function Longest(log: seq<Handled>): (n: nat)
    ensures forall i :: 0 <= i < |log| ==> |log[i].packet.payload| <= n
  {
    if log == [] then 0
    else
      var n := Longest(log[1..]);
      assert forall i :: 1 <= i < |log| ==> log[i] == log[1..][i - 1];
      if |log[0].packet.payload| > n then |log[0].packet.payload| else n
  }

  /** A handle that no replica has ever handled a CONNECT for. */
  predicate NewName(c: Cluster, name: string) {
    && (forall r, i :: 0 <= r < |c.logs| && 0 <= i < |c.logs[r]| ==> c.logs[r][i].packet.payload != name)
    && (forall r, i :: 0 <= r < |c.past| && 0 <= i < |c.past[r]| ==> c.past[r][i].packet.payload != name)
  }

  lemma {:induction false} LongName(logs: seq<seq<Handled>>) returns (n: nat)
    ensures forall r, i :: 0 <= r < |logs| && 0 <= i < |logs[r]| ==> |logs[r][i].packet.payload| <= n
    decreases |logs|
  {
    n := 0;
    if logs != [] {
      var last := |logs| - 1;
      n := LongName(logs[..last]);
      assert forall r :: 0 <= r < last ==> logs[..last][r] == logs[r];
      var m := Longest(logs[last]);
      n := if m > n then m else n;
    }
  }

  lemma NewNameExists(c: Cluster) returns (name: string)
    ensures NewName(c, name)
  {
    var n := LongName(c.logs);
    var m := LongName(c.past);
    name := seq(n + m + 1, _ => 'a');
  }

  /** A copy or confirmation in flight becomes a confirmation in flight to the primary. */
  lemma StaleConfirm(cfg: Config, start: Cluster, m: Envelope) returns (actions: seq<Action>, confirm: Envelope)
    requires Sized(cfg, start) && m in start.network && ReplicaMail(cfg, m)
    ensures NoRestart(actions)
    ensures confirm.to == cfg[0] && confirm.packet.kind.ConfirmStateChange? && confirm.packet.seqn == m.packet.seqn
    ensures var c := Execute(cfg, start, actions);
            confirm in c.network && c.replicas[0] == start.replicas[0] && c.logs[0] == start.logs[0]
  {
    if m.to == cfg[0] && m.packet.kind.ConfirmStateChange? {
      actions, confirm := [], m;
    } else {
      var r :| 1 <= r < |cfg| && m.to == cfg[r];
      actions := Echoed(cfg, start, [], r, m);
      confirm := Envelope(cfg[r], cfg[0], MakeConfirmStateChangeMessage(m.packet.seqn));
    }
  }

  /** A primary whose n broadcasts so far were all of the same CONNECT. */
  ghost predicate Repeating(cfg: Config, c: Cluster, p: Packet, home: SocketAddress, n: nat)
    requires Sized(cfg, c)
  {
    && |c.replicas[0].buffer| == n && |c.logs[0]| == n && c.replicas[0].lastSeqn == 3 * n
    && (forall k :: 0 <= k < n ==>
          && c.replicas[0].buffer[k] == Fresh(Numbered(p, 3 * k), p.seqn, home)
          && c.logs[0][k] == Handled(p, home))
    && (forall k, i :: 0 <= k < n && 0 <= i < |cfg| - 1 ==> CopyMail(cfg, p, 3 * k, i) in c.network)
  }

  lemma {:induction false} ManyBroadcasts(cfg: Config, start: Cluster, actions: seq<Action>,
                                          p: Packet, home: SocketAddress, n: nat)
    returns (more: seq<Action>)
    requires Sized(cfg, start) && p.kind.Connect? && NoRestart(actions)
    requires Repeating(cfg, Execute(cfg, start, actions), p, home, 0)
    ensures NoRestart(more)
    ensures var c, c' := Execute(cfg, start, actions), Execute(cfg, start, more);
            Repeating(cfg, c', p, home, n) && c.network <= c'.network && c'.logs[1..] == c.logs[1..]
  {
    hide Execute, Fresh;
    if n == 0 {
      more := actions;
    } else {
      more := ManyBroadcasts(cfg, start, actions, p, home, n - 1);
      more := Broadcasted(cfg, start, more, p, home);
    }
  }

  /** Item i is confirmed by its own secondary, except that the stale confirmation stands in for item j. */
  lemma ConfirmItem(cfg: Config, start: Cluster, actions: seq<Action>, p: Packet, first: nat, i: nat, j: nat,
                    stale: Envelope)
    returns (more: seq<Action>)
    requires Sized(cfg, start) && i < 3 && j < 3 && NoRestart(actions) && p.kind.Connect?
    requires stale.to == cfg[0] && stale.packet.kind.ConfirmStateChange? && stale.packet.seqn == first + j
    requires stale in Execute(cfg, start, actions).network
    requires i != j ==> i + 1 < |cfg| && CopyMail(cfg, p, first, i) in Execute(cfg, start, actions).network
    requires AllConnects(Execute(cfg, start, actions).replicas[0].buffer)
    ensures NoRestart(more)
    ensures var c, c' := Execute(cfg, start, actions), Execute(cfg, start, more);
            && c'.replicas[0].buffer == Marked(c.replicas[0].buffer, first + i)
            && c.network <= c'.network && c'.logs[0] == c.logs[0]
            && (j + 1 < |cfg| ==> c'.logs[j + 1] == c.logs[j + 1])
            && AllConnects(c'.replicas[0].buffer) && AcceptsSent(cfg, c')
  {
    hide Execute, Marked, Accepts, AllConnects;
    MarkedConnects(Execute(cfg, start, actions).replicas[0].buffer, first + i);
    if i == j {
      more := ConfirmedAt(cfg, start, actions, stale);
    } else {
      more := Echoed(cfg, start, actions, i + 1, CopyMail(cfg, p, first, i));
      more := ConfirmedAt(cfg, start, more, Envelope(cfg[i + 1], cfg[0], MakeConfirmStateChangeMessage(first + i)));
    }
  }

  lemma RepeatingConnects(cfg: Config, c: Cluster, p: Packet, home: SocketAddress, n: nat)
    requires Sized(cfg, c) && Repeating(cfg, c, p, home, n) && p.kind.Connect?
    ensures AllConnects(c.replicas[0].buffer)
  {
    forall k | 0 <= k < n ensures c.replicas[0].buffer[k].content != []
                                  && c.replicas[0].buffer[k].content[0].message.packet.kind.Connect? {
      assert c.replicas[0].buffer[k] == Fresh(Numbered(p, 3 * k), p.seqn, home);
      assert Fresh(Numbered(p, 3 * k), p.seqn, home).content[0] == Item(BaseMessage(3 * k, p), false);
    }
  }

  /** The last of n equal broadcasts is completed with the stale confirmation, and accepted. */
  lemma CompleteLast(cfg: Config, start: Cluster, actions: seq<Action>, p: Packet, home: SocketAddress, n: nat,
                     j: nat, stale: Envelope)
    returns (more: seq<Action>)
    requires Sized(cfg, start) && j < 3 && n > 0 && NoRestart(actions) && p.kind.Connect?
    requires |cfg| >= 4 || (|cfg| == 3 && j == 2)
    requires Repeating(cfg, Execute(cfg, start, actions), p, home, n)
    requires stale.to == cfg[0] && stale.packet.kind.ConfirmStateChange? && stale.packet.seqn == 3 * (n - 1) + j
    requires stale in Execute(cfg, start, actions).network
    ensures NoRestart(more)
    ensures var c, c' := Execute(cfg, start, actions), Execute(cfg, start, more);
            c'.accepted != {} && c'.logs[0] == c.logs[0] && (j + 1 < |cfg| ==> c'.logs[j + 1] == c.logs[j + 1])
  {
    hide Execute, Marked, Accepts, AllConnects, Fresh, Complete, AcceptsSent;
    var c := Execute(cfg, start, actions);
    var first := 3 * (n - 1);
    RepeatingConnects(cfg, c, p, home, n);
    assert forall i :: 0 <= i < 3 && i != j ==> CopyMail(cfg, p, first, i) in c.network;
    more := ConfirmItem(cfg, start, actions, p, first, 0, j, stale);
    more := ConfirmItem(cfg, start, more, p, first, 1, j, stale);
    more := ConfirmItem(cfg, start, more, p, first, 2, j, stale);
    ThreeMarks(c.replicas[0].buffer, p, first, p.seqn, home);
    LastAccepted(cfg, Execute(cfg, start, more));
  }

  /**
   A copy or a confirmation of the previous incarnation is enough: after the restart there is
   a run in which a user is accepted of whom some secondary never heard.
   */
  lemma UnsafeAfterRestart(cfg: Config, c: Cluster, m: Envelope) returns (more: seq<Action>, r: nat)
    requires ValidConfig(cfg) && Sized(cfg, c) && |cfg| == 4 && CanRestart(c.replicas[0])
    requires m in c.network && ReplicaMail(cfg, m)
    ensures NoRestart(more)
    ensures var c' := Execute(cfg, Restarted(c), more);
            c'.accepted != {} && Unaware(c', r) && !AcceptsReplicated(cfg, c')
  {
    hide Execute, Repeating, Unaware, AcceptsReplicated;
    var start := Restarted(c);
    var stale;
    more, stale := StaleConfirm(cfg, start, m);
    var earlier := more;
    var c1 := Execute(cfg, start, more);
    var name := NewNameExists(c1);
    var p, home := Packet(Connect, 0, name), SocketAddress("", 0);
    assert Repeating(cfg, c1, p, home, 0) by { NothingYet(cfg, c1, p, home); }
    var n, j := stale.packet.seqn / 3 + 1, stale.packet.seqn % 3;
    more := ManyBroadcasts(cfg, start, more, p, home, n);
    var c2 := Execute(cfg, start, more);
    more := CompleteLast(cfg, start, more, p, home, n, j, stale);
    var c3 := Execute(cfg, start, more);
    r := j + 1;
    assert c3.logs[r] == c2.logs[1..][r - 1] == c1.logs[r];
    PastStays(cfg, start, earlier);
    PastStays(cfg, start, more);
    NeverHeard(cfg, c1, c2, c3, p, home, n, r);
    UnawareIsUnsafe(cfg, c3, r);
  }

  lemma {:induction false} PastStays(cfg: Config, c: Cluster, actions: seq<Action>)
    requires Sized(cfg, c) && NoRestart(actions)
    ensures Execute(cfg, c, actions).past == c.past
  {
    if actions != [] {
      PastStays(cfg, c, actions[..|actions| - 1]);
    }
  }

  lemma NothingYet(cfg: Config, c: Cluster, p: Packet, home: SocketAddress)
    requires Sized(cfg, c) && c.replicas[0].buffer == [] && c.replicas[0].lastSeqn == 0 && c.logs[0] == []
    ensures Repeating(cfg, c, p, home, 0)
  {
  }

  lemma NeverHeard(cfg: Config, c1: Cluster, c2: Cluster, c3: Cluster, p: Packet, home: SocketAddress, n: nat, r: nat)
    requires Sized(cfg, c1) && Sized(cfg, c2) && Sized(cfg, c3) && 0 < r < |cfg|
    requires NewName(c1, p.payload) && Repeating(cfg, c2, p, home, n)
    requires c3.logs[0] == c2.logs[0] && c3.logs[r] == c1.logs[r] && c3.past == c1.past
    ensures Unaware(c3, r)
  {
  }

  /**
   Restarts: in every reachable state of a cluster with three secondaries, all runs after a
   restart of the primary are safe if and only if no copy and no confirmation is in flight.
   A quiet restart is safe with fewer secondaries too, and then accepts nothing.
   */
  lemma RestartSafeIffQuiet(cfg: Config, start: Cluster, actions: seq<Action>)
    requires Start(cfg, start) && |cfg| <= 4 && QuietRestarts(cfg, start, actions)
    requires CanRestart(Execute(cfg, start, actions).replicas[0])
    ensures var c := Execute(cfg, start, actions);
            && (Quiet(cfg, c) ==> SafeAfter(cfg, Restarted(c)))
            && (|cfg| == 4 && SafeAfter(cfg, Restarted(c)) ==> Quiet(cfg, c))
            && (|cfg| < 4 && Quiet(cfg, c) ==> AcceptsNothing(cfg, Restarted(c)))
  {
    hide Execute, AcceptsReplicated, Inv, MailOk;
    StartInv(cfg, start);
    ExecuteKeepsInv(cfg, start, actions);
    var c := Execute(cfg, start, actions);
    if Quiet(cfg, c) {
      RestartKeepsInv(cfg, c);
      forall more | NoRestart(more)
        ensures AcceptsReplicated(cfg, Execute(cfg, Restarted(c), more))
        ensures |cfg| < 4 ==> Execute(cfg, Restarted(c), more).accepted == {}
      {
        ExecuteKeepsInv(cfg, Restarted(c), more);
        InvIsSafe(cfg, Execute(cfg, Restarted(c), more));
      }
    } else if |cfg| == 4 {
      var m :| m in c.network && ReplicaMail(cfg, m);
      var more, r := UnsafeAfterRestart(cfg, c, m);
    }
  }

  /** Every continuation without a restart is safe, or accepts nothing. */
  ghost predicate SafeAfter(cfg: Config, c: Cluster)
    requires Sized(cfg, c)
  {
    forall more :: NoRestart(more) ==> AcceptsReplicated(cfg, Execute(cfg, c, more))
  }

  ghost predicate AcceptsNothing(cfg: Config, c: Cluster)
    requires Sized(cfg, c)
  {
    forall more :: NoRestart(more) ==> Execute(cfg, c, more).accepted == {}
  }

  /**
   With two secondaries the third item of a container has no copy, so only a stale number can
   confirm it: one that is the third of a block makes the primary accept after a restart,
   though otherwise two secondaries never get anybody accepted.
   */
  lemma StaleAcceptsWithTwo(cfg: Config, c: Cluster, m: Envelope) returns (more: seq<Action>)
    requires Sized(cfg, c) && |cfg| == 3 && CanRestart(c.replicas[0])
    requires m in c.network && ReplicaMail(cfg, m) && m.packet.seqn % 3 == 2
    ensures NoRestart(more) && Execute(cfg, Restarted(c), more).accepted != {}
  {
    hide Execute, Repeating;
    var start := Restarted(c);
    var stale;
    more, stale := StaleConfirm(cfg, start, m);
    var p, home := Packet(Connect, 0, "ana"), SocketAddress("", 0);
    assert Repeating(cfg, Execute(cfg, start, more), p, home, 0) by {
      NothingYet(cfg, Execute(cfg, start, more), p, home);
    }
    var n := stale.packet.seqn / 3 + 1;
    more := ManyBroadcasts(cfg, start, more, p, home, n);
    more := CompleteLast(cfg, start, more, p, home, n, 2, stale);
  }
}
