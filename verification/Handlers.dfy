/**
 What each event does to a replica, field by field and for every input: the users by
 position, the sockets by position, the numbers spelled out, and everything else unchanged.
 */
module Handlers {
  import opened Messages
  import opened Confirmation
  import opened ProfileStore
  import opened Sessions
  import opened ServerSpec
  import opened ServerInvariants
  import opened Delivery
  import opened Replication

  // ----- Who sent it -----

  /** Dictionary order: a prefix comes first, otherwise the first difference decides. */
  ghost predicate Before(a: string, b: string) {
    a <= b || exists k :: 0 <= k < |a| && k < |b| && a[..k] == b[..k] && a[k] < b[k]
  }

  lemma {:induction false} LexIsDictionary(a: string, b: string)
    ensures LexLeq(a, b) <==> Before(a, b)
  {
    if a != "" && b != "" && a[0] == b[0] {
      LexIsDictionary(a[1..], b[1..]);
      BeforeTail(a, b);
    } else if a != "" && b != "" {
      assert a[..0] == b[..0];
      assert forall k :: 0 < k < |a| && k < |b| ==> a[..k][0] == a[0] && b[..k][0] == b[0];
    }
  }

  lemma BeforeTail(a: string, b: string)
    requires a != "" && b != "" && a[0] == b[0]
    ensures Before(a, b) <==> Before(a[1..], b[1..])
  {
    hide Before;
    if Before(a, b) {
      DropHead(a, b);
    }
    if Before(a[1..], b[1..]) {
      AddHead(a, b);
    }
  }

  lemma DropHead(a: string, b: string)
    requires a != "" && b != "" && a[0] == b[0] && Before(a, b)
    ensures Before(a[1..], b[1..])
  {
    if a <= b {
      assert a[1..] <= b[1..];
    } else {
      var k :| 0 <= k < |a| && k < |b| && a[..k] == b[..k] && a[k] < b[k];
      assert a[1..][..k - 1] == a[..k][1..] && b[1..][..k - 1] == b[..k][1..];
    }
  }

  lemma AddHead(a: string, b: string)
    requires a != "" && b != "" && a[0] == b[0] && Before(a[1..], b[1..])
    ensures Before(a, b)
  {
    var a', b' := a[1..], b[1..];
    assert a == [a[0]] + a' && b == [b[0]] + b';
    if !(a' <= b') {
      var k :| 0 <= k < |a'| && k < |b'| && a'[..k] == b'[..k] && a'[k] < b'[k];
      assert a[..k + 1] == [a[0]] + a'[..k] && b[..k + 1] == [b[0]] + b'[..k];
    }
  }

  predicate Nobody(sessions: Table, from: SocketAddress) {
    forall u :: u in sessions ==> from !in sessions[u]
  }

  /** The address belongs to the first user, in dictionary order, whose session holds it. */
  ghost predicate BelongsTo(sessions: Table, from: SocketAddress, name: string) {
    && name in sessions && from in sessions[name]
    && forall u :: u in sessions && from in sessions[u] ==> Before(name, u)
  }

  /** The lookup finds that user and no other. */
  lemma LookupIs(sessions: Table, from: SocketAddress)
    ensures UserAt(sessions, from).None? <==> Nobody(sessions, from)
    ensures forall name :: UserAt(sessions, from) == Some(name) <==> BelongsTo(sessions, from, name)
  {
    hide Before;
    forall name ensures UserAt(sessions, from) == Some(name) <==> BelongsTo(sessions, from, name) {
      forall u ensures LexLeq(name, u) <==> Before(name, u) {
        LexIsDictionary(name, u);
      }
      if BelongsTo(sessions, from, name) {
        assert IsLeast(Holders(sessions, from), name);
        LeastIs(Holders(sessions, from), name);
      }
    }
  }

  /** A SEND or a FOLLOW from an address that holds no session does nothing. */
  lemma StrangersAreIgnored(role: Role, s: State, packet: Packet, from: SocketAddress)
    requires packet.kind in {Send, Follow} && Nobody(s.sessions, from)
    ensures Step(role, s, Receive(packet, from)) == (s, [])
  {
    LookupIs(s.sessions, from);
    assert s.queue + [] == s.queue;
  }

  // ----- CONNECT -----

  /** The profile: found, or created at the end with an empty list and written to the file. */
  lemma ConnectProfile(role: Role, s: State, packet: Packet, from: SocketAddress)
    requires packet.kind.Connect?
    ensures var s' := Step(role, s, Receive(packet, from)).0;
            && (Known(s.users, packet.payload) ==> s'.users == s.users && s'.disk == s.disk)
            && (!Known(s.users, packet.payload) ==>
                  s'.users == s.users + [User(packet.payload, [])] && s'.disk == Some(Printed(s'.users)))
            && s'.queue == s.queue
  {
  }

  /** The session: with two sockets nothing changes, with fewer the sender's goes to the end. */
  lemma ConnectSession(role: Role, s: State, packet: Packet, from: SocketAddress)
    requires packet.kind.Connect?
    ensures var name := packet.payload;
            var t, t' := s.sessions, Step(role, s, Receive(packet, from)).0.sessions;
            && t'.Keys == t.Keys + {name}
            && (forall u :: u in t && u != name ==> t'[u] == t[u])
            && (name !in t ==> t'[name] == [from])
            && (name in t && |t[name]| < 2 ==> t'[name] == t[name] + [from])
            && (name in t && |t[name]| >= 2 ==> t' == t)
  {
    hide Step, Printed, Find;
    ConnectStarts(role, s, packet, from);
    assert [] + [from] == [from];
  }

  lemma ConnectStarts(role: Role, s: State, packet: Packet, from: SocketAddress)
    requires packet.kind.Connect?
    ensures Step(role, s, Receive(packet, from)).0.sessions == Started(s.sessions, packet.payload, from)
  {
    hide Started, Printed;
  }

  /** At the primary: three numbers, one container of unconfirmed items, one copy per secondary. */
  lemma ConnectAtPrimary(secondaries: seq<SocketAddress>, s: State, packet: Packet, from: SocketAddress)
    requires packet.kind.Connect?
    ensures var (s', sent) := Step(Primary(secondaries), s, Receive(packet, from));
            var n := |s.buffer|;
            && s'.lastSeqn == s.lastSeqn + 3
            && |s'.buffer| == n + 1 && s'.buffer[..n] == s.buffer
            && s'.buffer[n].originalSeqn == packet.seqn && s'.buffer[n].originalHost == from
            && |s'.buffer[n].content| == 3
            && (forall j :: 0 <= j < 3 ==>
                  s'.buffer[n].content[j] == Item(BaseMessage(s.lastSeqn + j, packet), false))
            && |sent| == |secondaries|
            && (forall i :: 0 <= i < |sent| ==>
                  sent[i] == Datagram(secondaries[i], Packet(Connect, s.lastSeqn + i, packet.payload)))
  {
    hide Started, Printed;
    assert Connected(s, packet.payload, from).buffer == s.buffer;
    assert Connected(s, packet.payload, from).lastSeqn == s.lastSeqn;
  }

  /** Elsewhere: the number goes back to the primary, if there is one. */
  lemma ConnectElsewhere(role: Role, s: State, packet: Packet, from: SocketAddress)
    requires packet.kind.Connect? && !role.Primary?
    ensures var (s', sent) := Step(role, s, Receive(packet, from));
            && s'.lastSeqn == s.lastSeqn && s'.buffer == s.buffer
            && sent == if role.Secondary? then [Datagram(role.primary, Packet(ConfirmStateChange, packet.seqn, ""))]
                       else []
  {
  }

  // ----- DISCONNECT -----

  /** The first matching socket of the named user goes, the others keep their order; nothing else changes. */
  lemma DisconnectEffect(role: Role, s: State, packet: Packet, from: SocketAddress)
    requires packet.kind.Disconnect?
    ensures var name := packet.payload;
            var (s', sent) := Step(role, s, Receive(packet, from));
            && sent == [] && s' == s.(sessions := s'.sessions)
            && (!Known(s.users, name) || name !in s.sessions || from !in s.sessions[name] ==> s' == s)
            && (forall k :: Known(s.users, name) && name in s.sessions && 0 <= k < |s.sessions[name]|
                            && s.sessions[name][k] == from && from !in s.sessions[name][..k] ==>
                  s'.sessions == s.sessions[name := s.sessions[name][..k] + s.sessions[name][k + 1..]])
  {
    var name := packet.payload;
    if name in s.sessions {
      forall k | 0 <= k < |s.sessions[name]| && s.sessions[name][k] == from && from !in s.sessions[name][..k]
        ensures WithoutFirst(s.sessions[name], from) == s.sessions[name][..k] + s.sessions[name][k + 1..]
      {
        FirstGoes(s.sessions[name], from, k);
      }
    }
  }

  lemma {:induction false} FirstGoes(sockets: seq<SocketAddress>, a: SocketAddress, k: nat)
    requires k < |sockets| && sockets[k] == a && a !in sockets[..k]
    ensures WithoutFirst(sockets, a) == sockets[..k] + sockets[k + 1..]
  {
    if k > 0 {
      assert sockets[0] == sockets[..k][0];
      WithoutAt(sockets, k);
      FirstGoes(sockets[1..], a, k - 1);
    }
  }

  lemma WithoutAt(sockets: seq<SocketAddress>, k: nat)
    requires 0 < k < |sockets|
    ensures sockets[1..][..k - 1] == sockets[..k][1..]
    ensures sockets[..k] + sockets[k + 1..] == [sockets[0]] + (sockets[1..][..k - 1] + sockets[1..][k..])
  {
  }

  // ----- FOLLOW and SEND -----

  /** How a FOLLOW ends, in the order of the tests. */
  lemma FollowResults(s: State, target: string, from: SocketAddress, name: string)
    ensures Nobody(s.sessions, from) ==> FollowOutcome(s, target, from) == NotAuthenticated
    ensures BelongsTo(s.sessions, from, name) ==>
              && (target == name ==> FollowOutcome(s, target, from) == OwnProfile)
              && (target != name && !Known(s.users, target) ==> FollowOutcome(s, target, from) == UnknownProfile)
              && (target != name && Known(s.users, target) && !Known(s.users, name) ==>
                    FollowOutcome(s, target, from) == NoReturnValue)
              && (target != name && Known(s.users, target) && Known(s.users, name) ==>
                    FollowOutcome(s, target, from)
                    == if name in s.users[Find(s.users, target)].followers then AlreadyFollowing else NowFollowing)
  {
    hide BelongsTo, Nobody;
    LookupIs(s.sessions, from);
  }

  /** A FOLLOW adds its author at the end of one list, once, and writes the file; or it does nothing. */
  lemma FollowEffect(role: Role, s: State, packet: Packet, from: SocketAddress, name: string)
    requires packet.kind.Follow? && BelongsTo(s.sessions, from, name)
    ensures var target := packet.payload;
            var (s', sent) := Step(role, s, Receive(packet, from));
            var t := Find(s.users, target);
            && sent == []
            && ((target == name || !Known(s.users, target) || !Known(s.users, name)
                 || name in s.users[t].followers) ==> s' == s)
            && ((target != name && Known(s.users, target) && Known(s.users, name)
                 && name !in s.users[t].followers) ==>
                  && s' == s.(users := s'.users, disk := Some(Printed(s'.users)))
                  && |s'.users| == |s.users|
                  && s'.users[t] == User(target, s.users[t].followers + [name])
                  && forall i :: 0 <= i < |s.users| && i != t ==> s'.users[i] == s.users[i])
  {
    hide Printed, BelongsTo;
    LookupIs(s.sessions, from);
  }

  /** A SEND appends one notification per follower, in the order of the list; nothing else changes. */
  lemma SendEffect(role: Role, s: State, packet: Packet, from: SocketAddress, name: string)
    requires packet.kind.Send? && BelongsTo(s.sessions, from, name)
    ensures var (s', sent) := Step(role, s, Receive(packet, from));
            var n := |s.queue|;
            && sent == [] && s' == s.(queue := s'.queue)
            && (!Known(s.users, name) ==> s' == s)
            && (Known(s.users, name) ==>
                  var followers := s.users[Find(s.users, name)].followers;
                  && |s'.queue| == n + |followers| && s'.queue[..n] == s.queue
                  && forall j :: 0 <= j < |followers| ==>
                       s'.queue[n + j] == Pending(name, packet.payload, followers[j]))
  {
    hide BelongsTo;
    LookupIs(s.sessions, from);
    assert s.queue + [] == s.queue;
  }

  // ----- CONFIRM -----

  /** At the primary exactly the items with the number become confirmed; elsewhere it is passed on. */
  lemma ConfirmMarks(role: Role, s: State, packet: Packet, from: SocketAddress)
    requires packet.kind.ConfirmStateChange?
    ensures var (s', sent) := Step(role, s, Receive(packet, from));
            && s' == s.(buffer := s'.buffer) && |s'.buffer| == |s.buffer|
            && (!role.Primary? ==> s' == s)
            && (role.Secondary? ==> sent == [Datagram(role.primary, Packet(ConfirmStateChange, packet.seqn, ""))])
            && (role.Orphan? ==> sent == [])
            && (role.Primary? ==> forall k :: 0 <= k < |s.buffer| ==> MarkedBy(s.buffer[k], s'.buffer[k], packet.seqn))
  {
    hide Accepts, FiredPositions;
  }

  predicate MarkedBy(x: Container, y: Container, seqn: nat) {
    && y.originalSeqn == x.originalSeqn && y.originalHost == x.originalHost && |y.content| == |x.content|
    && forall j :: 0 <= j < |x.content| ==>
         && y.content[j].message == x.content[j].message
         && (y.content[j].confirmed <==> x.content[j].confirmed || x.content[j].message.sequenceNumber == seqn)
  }

  /**
   The primary answers the complete containers of a CONNECT, oldest first: an Accept to the
   original host, one above the original number. It sends nothing else.
   */
  lemma ConfirmAnswers(secondaries: seq<SocketAddress>, s: State, packet: Packet, from: SocketAddress)
    returns (positions: seq<nat>)
    requires packet.kind.ConfirmStateChange?
    requires forall k :: 0 <= k < |s.buffer| ==>
               s.buffer[k].content != [] && s.buffer[k].content[0].message.packet.kind.Connect?
    ensures forall i, j :: 0 <= i < j < |positions| ==> positions[i] < positions[j]
    ensures var (s', sent) := Step(Primary(secondaries), s, Receive(packet, from));
            && (forall k :: k in positions
                            <==> 0 <= k < |s'.buffer| && forall j :: 0 <= j < |s'.buffer[k].content| ==>
                                   s'.buffer[k].content[j].confirmed)
            && |sent| == |positions|
            && (forall i :: 0 <= i < |positions| && positions[i] < |s'.buffer| ==>
                  sent[i] == Datagram(s'.buffer[positions[i]].originalHost,
                                      Packet(Accept, s'.buffer[positions[i]].originalSeqn + 1, "")))
  {
    hide Step, Marked, Accepts;
    var b := Marked(s.buffer, packet.seqn);
    positions := FiredPositions(b);
    MarkedStayConnects(s.buffer, packet.seqn);
    AnswersInOrder(b, positions);
    ConfirmSends(secondaries, s, Receive(packet, from));
    BufferAfter(Primary(secondaries), s, Receive(packet, from));
  }

  lemma MarkedStayConnects(b: seq<Container>, seqn: nat)
    requires forall k :: 0 <= k < |b| ==> b[k].content != [] && b[k].content[0].message.packet.kind.Connect?
    ensures |Marked(b, seqn)| == |b|
    ensures forall k :: 0 <= k < |b| ==>
              Marked(b, seqn)[k].content != [] && Marked(b, seqn)[k].content[0].message.packet.kind.Connect?
  {
  }

  lemma {:induction false} AnswersInOrder(b: seq<Container>, positions: seq<nat>)
    requires forall k :: 0 <= k < |positions| ==> positions[k] < |b|
    requires forall k :: 0 <= k < |b| ==> b[k].content != [] && b[k].content[0].message.packet.kind.Connect?
    ensures |Accepts(b, positions)| == |positions|
    ensures forall i :: 0 <= i < |positions| ==>
              Accepts(b, positions)[i]
              == Datagram(b[positions[i]].originalHost, Packet(Accept, b[positions[i]].originalSeqn + 1, ""))
    decreases |positions|
  {
    if positions != [] {
      var n := |positions| - 1;
      AnswersInOrder(b, positions[..n]);
      AcceptsLast(b, positions);
      assert forall i :: 0 <= i < n ==> positions[..n][i] == positions[i];
    }
  }

  // ----- Everything else -----

  lemma OthersAreIgnored(role: Role, s: State, packet: Packet, from: SocketAddress)
    requires packet.kind !in {Connect, Disconnect, Follow, Send, ConfirmStateChange}
    ensures Step(role, s, Receive(packet, from)) == (s, [])
  {
  }

  /** One worker round: nothing to do, the notification goes to the back, or it is sent to each socket. */
  lemma WorkEffect(role: Role, s: State)
    ensures s.queue == [] ==> Step(role, s, Work) == (s, [])
    ensures s.queue != [] ==>
              var n := s.queue[0];
              var (s', sent) := Step(role, s, Work);
              if n.recipient !in s.sessions || s.sessions[n.recipient] == []
              then s' == s.(queue := s.queue[1..] + [n]) && sent == []
              else var sockets := s.sessions[n.recipient];
                   && s' == s.(queue := s.queue[1..], lastSeqn := s.lastSeqn + |sockets|)
                   && |sent| == |sockets|
                   && forall i :: 0 <= i < |sockets| ==>
                        sent[i] == Datagram(sockets[i], Packet(Notification, s.lastSeqn + 2 + i,
                                                               "@" + n.sender + ":\n" + n.body))
  {
    if s.queue != [] {
      NotificationFields(Sockets(s.sessions, s.queue[0].recipient), s.lastSeqn, s.queue[0]);
    }
  }
}
