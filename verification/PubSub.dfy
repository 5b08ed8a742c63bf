/** What the service is for: once a user follows another, every later post of the latter reaches the former. */
module PubSub {
  import opened Messages
  import opened ProfileStore
  import opened Sessions
  import opened ServerSpec
  import opened ServerInvariants
  import opened Delivery

  /** Followers are never lost: each list only grows at its end. */
  lemma StepKeepsFollowers(role: Role, s: State, e: Event, name: string)
    ensures FollowersOf(s.users, name) <= FollowersOf(Step(role, s, e).0.users, name)
  {
    hide Printed, Notifications, Copies, Posted;
    match e
    case Receive(packet, from) =>
      match packet.kind {
        case Connect => ConnectKeepsFollowers(s, packet.payload, from, name);
        case Follow => FollowKeepsFollowers(s, packet.payload, from, name);
        case _ =>
      }
    case Work =>
  }

  lemma ConnectKeepsFollowers(s: State, user: string, from: SocketAddress, name: string)
    ensures FollowersOf(Connected(s, user, from).users, name) == FollowersOf(s.users, name)
  {
  }

  lemma FollowKeepsFollowers(s: State, target: string, from: SocketAddress, name: string)
    ensures FollowersOf(s.users, name) <= FollowersOf(HandleFollow(s, target, from).users, name)
  {
    if FollowOutcome(s, target, from).NowFollowing? {
      FollowersAfterFollow(s.users, target, UserAt(s.sessions, from).value, name);
    }
  }

  lemma {:induction false} RunKeepsFollowers(role: Role, s: State, events: seq<Event>, name: string)
    ensures FollowersOf(s.users, name) <= FollowersOf(Run(role, s, events).users, name)
  {
    hide Step;
    if events != [] {
      var n := |events| - 1;
      RunKeepsFollowers(role, s, events[..n], name);
      StepKeepsFollowers(role, Run(role, s, events[..n]), events[n], name);
    }
  }

  /** An authenticated FOLLOW of somebody else's profile makes the author its follower. */
  lemma FollowAdds(s: State, target: string, from: SocketAddress)
    requires Inv(s) && UserAt(s.sessions, from).Some? && Known(s.users, target)
    requires UserAt(s.sessions, from).value != target
    ensures UserAt(s.sessions, from).value in FollowersOf(HandleFollow(s, target, from).users, target)
  {
    var name := UserAt(s.sessions, from).value;
    FollowersAfterFollow(s.users, target, name, target);
  }

  /**
   After a FOLLOW, whatever happens next, each post of the followed user enqueues exactly
   one notification for the follower.
   */
  lemma FollowedForever(role: Role, s: State, target: string, from: SocketAddress, events: seq<Event>,
                        body: string, home: SocketAddress)
    requires Inv(s) && UserAt(s.sessions, from).Some? && Known(s.users, target)
    requires UserAt(s.sessions, from).value != target
    requires UserAt(Run(role, HandleFollow(s, target, from), events).sessions, home) == Some(target)
    ensures multiset(Posted(Run(role, HandleFollow(s, target, from), events), body, home))
              [Pending(target, body, UserAt(s.sessions, from).value)] == 1
  {
    hide Step, HandleFollow, Run, Posted;
    var name := UserAt(s.sessions, from).value;
    var followed := HandleFollow(s, target, from);
    var later := Run(role, followed, events);
    FollowAdds(s, target, from);
    FollowKeepsInv(s, target, from);
    RunKeepsInv(role, followed, events);
    RunKeepsFollowers(role, followed, events, target);
    SendReachesEachFollowerOnce(later, body, home);
  }

  /** A queued notification is sent to each socket of its recipient within one pass of the worker. */
  lemma {:induction false} PacketsReach(sessions: Table, queue: seq<Pending>, lastSeqn: nat, n: Pending,
                                        a: SocketAddress)
    requires n in queue && a in Sockets(sessions, n.recipient)
    ensures exists d :: d in Packets(sessions, queue, lastSeqn) && d.to == a && d.packet.kind.Notification?
                        && d.packet.payload == "@" + n.sender + ":\n" + n.body
  {
    var k := |queue| - 1;
    var before := Packets(sessions, queue[..k], lastSeqn);
    var sockets := Sockets(sessions, queue[k].recipient);
    var last := Notifications(sockets, lastSeqn + |before|, queue[k]);
    if n in queue[..k] {
      PacketsReach(sessions, queue[..k], lastSeqn, n, a);
      var d :| d in before && d.to == a && d.packet.kind.Notification?
               && d.packet.payload == "@" + n.sender + ":\n" + n.body;
      assert d in before + last;
    } else {
      NotificationFields(sockets, lastSeqn + |before|, queue[k]);
      var i :| 0 <= i < |sockets| && sockets[i] == a;
      assert last[i] in before + last;
    }
  }

  /**
   Publish and subscribe: a post of the followed user, then one pass of the worker, sends
   the text to every socket at which the follower is connected.
   */
  lemma PostReachesFollower(role: Role, s: State, target: string, from: SocketAddress, events: seq<Event>,
                            body: string, home: SocketAddress, socket: SocketAddress)
    requires Inv(s) && UserAt(s.sessions, from).Some? && Known(s.users, target)
    requires UserAt(s.sessions, from).value != target
    requires var later := Run(role, HandleFollow(s, target, from), events);
             && UserAt(later.sessions, home) == Some(target)
             && socket in Sockets(later.sessions, UserAt(s.sessions, from).value)
    ensures var posted := HandleSend(Run(role, HandleFollow(s, target, from), events), body, home);
            exists d :: d in Sent(role, posted, Rounds(|posted.queue|)) && d.to == socket
                        && d.packet.payload == "@" + target + ":\n" + body
  {
    hide Step, HandleFollow, Run, Posted, Packets, Sent, Rounds, Notifications, UserAt;
    var later := Run(role, HandleFollow(s, target, from), events);
    var n := Pending(target, body, UserAt(s.sessions, from).value);
    FollowedForever(role, s, target, from, events, body, home);
    assert n in multiset(Posted(later, body, home));
    var posted := HandleSend(later, body, home);
    assert n in posted.queue;
    StablePartition(role, posted);
    PacketsReach(posted.sessions, posted.queue, posted.lastSeqn, n, socket);
  }
}
