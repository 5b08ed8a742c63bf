/**
 Convergence of the replicas: without DISCONNECT, what a replica holds is determined by the
 CONNECTs it handled, in any order, so secondaries that handled every broadcast exactly
 once agree with the primary.
 */
module Convergence {
  import opened Messages
  import opened Confirmation
  import opened ProfileStore
  import opened Sessions
  import opened ServerSpec
  import opened ServerInvariants
  import opened Delivery
  import opened Replication

  function Names(log: seq<Handled>): seq<string> {
    seq(|log|, i requires 0 <= i < |log| => log[i].packet.payload)
  }

  /** The number of CONNECTs for a user, cut at the session limit. */
  function Capped(n: nat): nat {
    if n < 2 then n else 2
  }

  /** Profiles and socket counts as the handled CONNECTs alone determine them. */
  predicate Tallied(start: State, s: State, log: seq<Handled>, name: string) {
    && (Known(s.users, name) <==> Known(start.users, name) || name in Names(log))
    && |Sockets(s.sessions, name)| == Capped(multiset(Names(log))[name])
  }

  lemma StepTallies(role: Role, start: State, s: State, log: seq<Handled>, e: Event, name: string)
    requires Inv(s) && Tallied(start, s, log, name)
    requires e.Receive? ==> !e.packet.kind.Disconnect?
    ensures Tallied(start, Step(role, s, e).0, Logged(log, e), name)
  {
    KnownAfter(role, s, e, name);
    SocketsAfter(role, s, e, name);
    NamesLogged(log, e, name);
    Retally(start, s, Step(role, s, e).0, log, Logged(log, e), name, Connects(e, name));
  }

  /** The event is a CONNECT for this user. */
  predicate Connects(e: Event, name: string) {
    e.Receive? && e.packet.kind.Connect? && e.packet.payload == name
  }

  lemma KnownAfter(role: Role, s: State, e: Event, name: string)
    requires Inv(s)
    ensures Known(Step(role, s, e).0.users, name) <==> Known(s.users, name) || Connects(e, name)
  {
    StepHandles(role, s, e);
    EntriesAfter(role, s, e, name);
    NewNames(s.users, Step(role, s, e).0.users, name);
  }

  lemma SocketsAfter(role: Role, s: State, e: Event, name: string)
    requires Inv(s) && (e.Receive? ==> !e.packet.kind.Disconnect?)
    ensures |Sockets(Step(role, s, e).0.sessions, name)|
            == if Connects(e, name) && |Sockets(s.sessions, name)| < MAX_SESSIONS_PER_USER
               then |Sockets(s.sessions, name)| + 1 else |Sockets(s.sessions, name)|
  {
    SessionsAfter(role, s, e);
    if e.Receive? && e.packet.kind.Connect? {
      StartedSockets(s.sessions, e.packet.payload, e.from, name);
    }
  }

  lemma NamesLogged(log: seq<Handled>, e: Event, name: string)
    ensures multiset(Names(Logged(log, e)))[name] == multiset(Names(log))[name] + if Connects(e, name) then 1 else 0
  {
    if e.Receive? && e.packet.kind.Connect? {
      assert Names(Logged(log, e)) == Names(log) + [e.packet.payload];
    }
  }

  lemma StartedSockets(table: Table, user: string, from: SocketAddress, name: string)
    ensures |Sockets(Started(table, user, from), name)|
            == if user == name && |Sockets(table, name)| < MAX_SESSIONS_PER_USER then |Sockets(table, name)| + 1
               else |Sockets(table, name)|
  {
  }

  /** One more CONNECT for the user, or none. */
  lemma Retally(start: State, s: State, s': State, log: seq<Handled>, log': seq<Handled>, name: string, more: bool)
    requires Tallied(start, s, log, name)
    requires Known(s'.users, name) <==> Known(s.users, name) || more
    requires multiset(Names(log'))[name] == multiset(Names(log))[name] + if more then 1 else 0
    requires |Sockets(s'.sessions, name)|
             == if more && |Sockets(s.sessions, name)| < MAX_SESSIONS_PER_USER then |Sockets(s.sessions, name)| + 1
                else |Sockets(s.sessions, name)|
    ensures Tallied(start, s', log', name)
  {
  }

  lemma NewNames(users: seq<User>, users': seq<User>, name: string)
    requires |users| <= |users'| <= |users| + 1
    requires forall i :: 0 <= i < |users| ==> users'[i].handle == users[i].handle
    ensures Known(users', name) <==> Known(users, name) || (|users'| > |users| && users'[|users|].handle == name)
  {
  }

  /** No client disconnects and the primary is not restarted. */
  predicate SessionsOnlyGrow(actions: seq<Action>) {
    forall k :: 0 <= k < |actions| ==>
      !actions[k].Restart? && (actions[k].ClientSends? ==> !actions[k].packet.kind.Disconnect?)
  }

  ghost predicate AllTallied(cfg: Config, start: Cluster, c: Cluster)
    requires Sized(cfg, start) && Sized(cfg, c)
  {
    && (forall m :: m in c.network ==> !m.packet.kind.Disconnect?)
    && (forall r :: 0 <= r < |cfg| ==> Inv(c.replicas[r]))
    && (forall r, name :: 0 <= r < |cfg| ==> Tallied(start.replicas[r], c.replicas[r], c.logs[r], name))
  }

  lemma ReactTallies(cfg: Config, start: Cluster, c: Cluster, r: nat, e: Event)
    requires Sized(cfg, start) && Sized(cfg, c) && r < |cfg| && AllTallied(cfg, start, c)
    requires e.Receive? ==> !e.packet.kind.Disconnect?
    ensures AllTallied(cfg, start, React(cfg, c, r, e))
  {
    var c' := React(cfg, c, r, e);
    var role := RoleIn(cfg, r);
    StepKeepsInv(role, c.replicas[r], e);
    forall q, name | 0 <= q < |cfg| ensures Tallied(start.replicas[q], c'.replicas[q], c'.logs[q], name) {
      assert Tallied(start.replicas[q], c.replicas[q], c.logs[q], name);
      if q == r {
        StepTallies(role, start.replicas[r], c.replicas[r], c.logs[r], e, name);
      }
    }
    forall m | m in c'.network ensures !m.packet.kind.Disconnect? {
      if m !in c.network {
        var d :| d in Step(role, c.replicas[r], e).1 && m == Envelope(cfg[r], d.to, d.packet);
        SentAfter(role, c.replicas[r], e, d);
      }
    }
  }

  /** In every run without DISCONNECT each replica is tallied. */
  lemma {:induction false} ExecuteTallies(cfg: Config, start: Cluster, actions: seq<Action>)
    requires Start(cfg, start) && SessionsOnlyGrow(actions)
    ensures AllTallied(cfg, start, Execute(cfg, start, actions))
  {
    if actions == [] {
      forall r, name | 0 <= r < |cfg| ensures Tallied(start.replicas[r], start.replicas[r], start.logs[r], name) {
        assert Names(start.logs[r]) == [];
      }
    } else {
      var n := |actions| - 1;
      ExecuteTallies(cfg, start, actions[..n]);
      var c := Execute(cfg, start, actions[..n]);
      match actions[n]
      case ClientSends(_, _) =>
        var c' := Next(cfg, c, actions[n]);
        assert c'.replicas == c.replicas && c'.logs == c.logs;
      case Deliver(r, mail) =>
        if r < |cfg| && mail in c.network && mail.to == cfg[r] {
          ReactTallies(cfg, start, c, r, Receive(mail.packet, mail.from));
        }
      case WorkerRound(r) =>
        if r < |cfg| {
          ReactTallies(cfg, start, c, r, Work);
        }
      case Drop(_) =>
        var c' := Next(cfg, c, actions[n]);
        assert c'.replicas == c.replicas && c'.logs == c.logs;
    }
  }

  // ----- Agreement -----

  /** The copies that secondary r was sent, one per broadcast. */
  function CopiesFor(cfg: Config, b: seq<Container>, r: nat): seq<Handled>
    requires cfg != [] && r > 0 && forall k :: 0 <= k < |b| ==> b[k].content != []
  {
    seq(|b|, k requires 0 <= k < |b| => Handled(CopyTo(b[k], r - 1), cfg[0]))
  }

  /** Secondary r handled every broadcast exactly once, in whatever order. */
  predicate ExactlyOnce(cfg: Config, c: Cluster, r: nat)
    requires Sized(cfg, c) && 0 < r < |cfg|
  {
    && (forall k :: 0 <= k < |c.replicas[0].buffer| ==> c.replicas[0].buffer[k].content != [])
    && multiset(c.logs[r]) == multiset(CopiesFor(cfg, c.replicas[0].buffer, r))
  }

  /** Equal bags of handled CONNECTs name equal bags of users. */
  lemma {:induction false} SameNames(a: seq<Handled>, b: seq<Handled>)
    requires multiset(a) == multiset(b)
    ensures multiset(Names(a)) == multiset(Names(b))
    decreases |a|
  {
    assert |multiset(a)| == |a| && |multiset(b)| == |b|;
    if a != [] {
      assert a[0] in multiset(b);
      var i :| 0 <= i < |b| && b[i] == a[0];
      SameRest(a, b, i);
      SameNames(a[1..], b[..i] + b[i + 1..]);
      assert a[..0] + a[0 + 1..] == a[1..];
      NamesWithout(a, 0);
      NamesWithout(b, i);
    }
  }

  lemma SameRest<T>(a: seq<T>, b: seq<T>, i: nat)
    requires a != [] && i < |b| && b[i] == a[0] && multiset(a) == multiset(b)
    ensures multiset(b[..i] + b[i + 1..]) == multiset(a[1..])
  {
    assert a == [a[0]] + a[1..];
    assert b == b[..i] + ([b[i]] + b[i + 1..]);
    assert multiset(b) == multiset(b[..i] + b[i + 1..]) + multiset{a[0]};
    assert multiset(a) == multiset(a[1..]) + multiset{a[0]};
    assert multiset(b[..i] + b[i + 1..]) == multiset(b) - multiset{a[0]};
    assert multiset(a[1..]) == multiset(a) - multiset{a[0]};
  }

  lemma NamesWithout(b: seq<Handled>, i: nat)
    requires i < |b|
    ensures multiset(Names(b)) == multiset(Names(b[..i] + b[i + 1..])) + multiset{b[i].packet.payload}
  {
    assert Names(b) == Names(b[..i]) + ([b[i].packet.payload] + Names(b[i + 1..]));
    assert Names(b[..i] + b[i + 1..]) == Names(b[..i]) + Names(b[i + 1..]);
  }

  lemma CopiesNameTheSame(cfg: Config, c: Cluster, r: nat)
    requires Sized(cfg, c) && 0 < r < |cfg| && BufferOk(c) && ExactlyOnce(cfg, c, r)
    ensures multiset(Names(c.logs[r])) == multiset(Names(c.logs[0]))
  {
    var b := c.replicas[0].buffer;
    var copies := CopiesFor(cfg, b, r);
    SameNames(c.logs[r], copies);
    forall k | 0 <= k < |b| ensures Names(copies)[k] == Names(c.logs[0])[k] {
      assert ContainerFor(b[k], c.logs[0][k]);
      assert copies[k] == Handled(CopyTo(b[k], r - 1), cfg[0]);
    }
    assert Names(copies) == Names(c.logs[0]);
  }

  /**
   Convergence: from equal profiles, once secondary r has handled every broadcast exactly
   once, it knows the same handles as the primary and holds as many sockets for each user,
   namely the number of CONNECTs for that user, at most two.
   */
  lemma ReplicasConverge(cfg: Config, start: Cluster, actions: seq<Action>, r: nat, name: string)
    requires Start(cfg, start) && SessionsOnlyGrow(actions) && 0 < r < |cfg|
    requires start.replicas[r].users == start.replicas[0].users
    requires ExactlyOnce(cfg, Execute(cfg, start, actions), r)
    ensures var c := Execute(cfg, start, actions);
            && (Known(c.replicas[r].users, name) <==> Known(c.replicas[0].users, name))
            && |Sockets(c.replicas[r].sessions, name)| == |Sockets(c.replicas[0].sessions, name)|
               == Capped(multiset(Names(c.logs[0]))[name])
  {
    var c := Execute(cfg, start, actions);
    ExecuteKeepsBuffer(cfg, start, actions);
    ExecuteTallies(cfg, start, actions);
    CopiesNameTheSame(cfg, c, r);
    assert Tallied(start.replicas[r], c.replicas[r], c.logs[r], name);
    assert Tallied(start.replicas[0], c.replicas[0], c.logs[0], name);
    assert name in Names(c.logs[r]) <==> name in multiset(Names(c.logs[r]));
    assert name in Names(c.logs[0]) <==> name in multiset(Names(c.logs[0]));
  }
}
