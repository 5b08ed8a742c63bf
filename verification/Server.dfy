/**
 The server objects (server/server.cpp, server/ReplicaManager.cpp): profiles, sessions,
 queue and confirmation buffer on the heap. `Server.Valid` is the agreement between the two
 ways a session is reached; every handler and every worker round keeps it and does to
 `View()` exactly what `ServerSpec` says.
 */
module ServerObjects {
  import opened Messages
  import opened Confirmation
  import opened ProfileStore
  import opened Sessions
  import opened ServerSpec
  import opened ServerInvariants
  import opened Profiles
  import opened SessionTable
  import Peers

  /** `PendingNotification`: the recipient is a pointer. */
  datatype Notice = Notice(sender: string, body: string, recipient: Profile)

  class ReplicaManager {
    const thisPeer: Peers.Peer
    const peers: seq<Peers.Peer>
    const confirmationBuffer: ConfirmationBuffer?

    ghost predicate Valid() {
      if thisPeer.primary then confirmationBuffer != null && confirmationBuffer.N == 3 else confirmationBuffer == null
    }

    function Role(): Role {
      Peers.RoleOf(thisPeer.primary, peers)
    }

    constructor (thisPeer: Peers.Peer, peers: seq<Peers.Peer>)
      ensures Valid() && this.thisPeer == thisPeer && this.peers == peers
      ensures confirmationBuffer != null ==> fresh(confirmationBuffer) && confirmationBuffer.buffer == []
    {
      this.thisPeer, this.peers := thisPeer, peers;
      if thisPeer.primary {
        confirmationBuffer := new ConfirmationBuffer(3);
      } else {
        confirmationBuffer := null;
      }
    }

    method GetSecondaryReplicas() returns (r: seq<Peers.Peer>)
      ensures r == Peers.Secondaries(peers)
    {
      r := [];
      for i := 0 to |peers|
        invariant r == Peers.Secondaries(peers[..i])
      {
        assert peers[..i + 1][..i] == peers[..i];
        if !peers[i].primary {
          r := r + [peers[i]];
        }
      }
      assert peers[..|peers|] == peers;
    }

    /** `None` where the code throws. */
    method GetPrimaryReplica() returns (r: Option<Peers.Peer>)
      ensures r == if thisPeer.primary then Some(thisPeer) else Peers.FirstPrimary(peers)
    {
      if thisPeer.primary {
        return Some(thisPeer);
      }
      assert peers[0..] == peers;
      for i := 0 to |peers|
        invariant Peers.FirstPrimary(peers[i..]) == Peers.FirstPrimary(peers)
      {
        assert peers[i..][1..] == peers[i + 1..];
        if peers[i].primary {
          return Some(peers[i]);
        }
      }
      return None;
    }

    method BroadcastToSecondaries(server: Server, message: Packet, sender: SocketAddress)
      requires Valid() && thisPeer.primary
      modifies server`lastSeqn, server`outbox, confirmationBuffer
      ensures server.lastSeqn == old(server.lastSeqn) + 3
      ensures confirmationBuffer.buffer
              == old(confirmationBuffer.buffer) + [Fresh(Numbered(message, old(server.lastSeqn)), message.seqn, sender)]
      ensures server.outbox == old(server.outbox) + Copies(Role().secondaries, message, old(server.lastSeqn))
    {
      var replicas := GetSecondaryReplicas();
      var first := server.lastSeqn;
      var messages := Numbered(message, first);
      for i := 0 to 3
        invariant server.lastSeqn == first + i
        modifies server`lastSeqn
      {
        server.lastSeqn := server.lastSeqn + 1;
      }
      confirmationBuffer.Push(messages, message.seqn, sender);
      ghost var copies := Copies(Role().secondaries, message, first);
      for i := 0 to |replicas|
        invariant server.outbox == old(server.outbox) + copies[..i]
        modifies server`outbox
      {
        server.outbox := server.outbox + [Datagram(replicas[i].Socket(), message.(seqn := first + i))];
        assert copies[i] == Datagram(replicas[i].Socket(), message.(seqn := first + i));
      }
      assert copies[..|replicas|] == copies;
    }

    /** Throws where no peer is primary. */
    method ConfirmMessage(server: Server, seqn: nat) returns (thrown: bool)
      requires Valid()
      modifies server`outbox, if confirmationBuffer == null then {} else {confirmationBuffer}
      ensures thisPeer.primary ==> confirmationBuffer.buffer == Marked(old(confirmationBuffer.buffer), seqn)
      ensures server.outbox == old(server.outbox)
              + match Role()
                case Primary(_) => Accepts(confirmationBuffer.buffer, FiredPositions(confirmationBuffer.buffer))
                case Secondary(primary) => [Datagram(primary, MakeConfirmStateChangeMessage(seqn))]
                case Orphan => []
      ensures thrown <==> Role().Orphan?
    {
      thrown := false;
      if thisPeer.primary {
        var confirmed, calls := confirmationBuffer.Confirm(seqn);
        Callbacks(server, calls);
      } else {
        var p := GetPrimaryReplica();
        if p.None? {
          return true;
        }
        server.outbox := server.outbox + [Datagram(p.value.Socket(), MakeConfirmStateChangeMessage(seqn))];
      }
    }

    /** The callback given to the buffer, on each container it is called on. */
    method Callbacks(server: Server, calls: seq<nat>)
      requires confirmationBuffer != null
      requires forall k :: 0 <= k < |calls| ==> calls[k] < |confirmationBuffer.buffer|
      modifies server`outbox
      ensures server.outbox == old(server.outbox) + Accepts(confirmationBuffer.buffer, calls)
    {
      for k := 0 to |calls|
        invariant server.outbox == old(server.outbox) + Accepts(confirmationBuffer.buffer, calls[..k])
      {
        assert calls[..k + 1][..k] == calls[..k];
        var c := confirmationBuffer.buffer[calls[k]];
        if c.content != [] && c.content[0].message.packet.kind.Connect? {
          server.outbox := server.outbox + [Datagram(c.originalHost, MakeAcceptConnCommand(c.originalSeqn))];
        }
      }
      assert calls[..|calls|] == calls;
    }
  }

  class Server {
    const profileManager: ProfileManager
    const sessionManager: SessionManager
    const replicaManager: ReplicaManager
    var lastSeqn: nat
    var queue: seq<Notice>
    /** Everything handed to the socket so far. */
    var outbox: seq<Datagram>

    /** The queue as values, and the objects this server works on. */
    ghost var pending: seq<Pending>
    ghost var Repr: set<object>

    /**
     The two ways to a session agree: the session of the profile that a handle leads to is set
     exactly when the handle is in the session table, and then it is that very object; every
     session belongs to an existing profile. A second profile under a handle, which only a
     profile file can bring about, is never looked up and never connected.
     */
    ghost predicate Linked()
      reads profileManager, sessionManager, profileManager.profiles, sessionManager.sessions.Values
    {
      && profileManager.Valid() && sessionManager.Valid()
      && (forall u :: u in sessionManager.sessions ==> Known(profileManager.users, u))
      && (forall i :: 0 <= i < |profileManager.profiles| ==> SessionAgrees(profileManager.profiles[i]))
    }

    ghost predicate SessionAgrees(p: Profile)
      reads sessionManager`sessions, p`session, profileManager`users, profileManager`profiles
    {
      if p.handle in sessionManager.sessions && Listed(p) then p.session == sessionManager.sessions[p.handle]
      else p.session == null
    }

    /** Every queued recipient is an existing profile. */
    ghost predicate Queued()
      reads this`queue, this`pending, profileManager`users, profileManager`profiles
    {
      |queue| == |pending| && forall k :: 0 <= k < |queue| ==> QueuedAs(queue[k], pending[k])
    }

    ghost predicate QueuedAs(n: Notice, p: Pending)
      reads profileManager`users, profileManager`profiles
    {
      p == Pending(n.sender, n.body, n.recipient.handle) && Listed(n.recipient)
    }

    ghost predicate Listed(p: Profile)
      reads profileManager`users, profileManager`profiles
    {
      && |profileManager.users| == |profileManager.profiles|
      && Known(profileManager.users, p.handle)
      && profileManager.profiles[Find(profileManager.users, p.handle)] == p
    }

    ghost predicate Owned()
      reads this`Repr, profileManager`profiles, sessionManager`sessions
    {
      && replicaManager.Valid() && this in Repr && profileManager in Repr && sessionManager in Repr
      && (replicaManager.confirmationBuffer != null ==> replicaManager.confirmationBuffer in Repr)
      && (forall i :: 0 <= i < |profileManager.profiles| ==> profileManager.profiles[i] in Repr)
      && (forall u :: u in sessionManager.sessions ==> sessionManager.sessions[u] in Repr)
    }

    ghost predicate Valid()
      reads this, profileManager, sessionManager, profileManager.profiles, sessionManager.sessions.Values
    {
      Linked() && Queued() && Owned()
    }

    ghost function View(): State
      reads this, profileManager, sessionManager
      reads if replicaManager.confirmationBuffer == null then {} else {replicaManager.confirmationBuffer}
    {
      State(profileManager.users, profileManager.disk, sessionManager.table, pending, lastSeqn,
            if replicaManager.confirmationBuffer == null then [] else replicaManager.confirmationBuffer.buffer)
    }

    static ghost predicate Unconnected(manager: ProfileManager)
      reads manager, manager.profiles
    {
      forall i :: 0 <= i < |manager.profiles| ==> manager.profiles[i].session == null
    }

    constructor (manager: ProfileManager, replicas: ReplicaManager)
      requires manager.Valid() && replicas.Valid() && Unconnected(manager)
      requires replicas.confirmationBuffer != null ==> replicas.confirmationBuffer.buffer == []
      ensures Valid() && profileManager == manager && replicaManager == replicas && outbox == []
      ensures View() == Booted(manager.users, manager.disk)
    {
      hide Linked, Queued, ProfileManager.Valid, SessionManager.Valid, Unconnected, Listed;
      profileManager, replicaManager := manager, replicas;
      sessionManager := new SessionManager();
      lastSeqn, queue, outbox, pending := 0, [], [], [];
      new;
      Repr := {this, manager, sessionManager} + (set p | p in manager.profiles);
      if replicas.confirmationBuffer != null {
        Repr := Repr + {replicas.confirmationBuffer};
      }
      Assembled();
    }

    lemma Assembled()
      requires profileManager.Valid() && sessionManager.Valid() && Owned()
      requires sessionManager.sessions == map[] && queue == [] && pending == []
      requires Unconnected(profileManager)
      ensures Valid()
    {
    }

    // ----- Lookups -----

    method Lookup(name: string) returns (p: Profile?)
      requires Linked()
      ensures p == null <==> !Known(profileManager.users, name)
      ensures p != null ==> p.handle == name && Listed(p)
    {
      p := profileManager.GetProfileByName(name);
    }

    /** The connected user behind an address always has a profile. */
    method Author(from: SocketAddress) returns (user: Option<string>)
      requires Linked()
      ensures user == UserAt(sessionManager.table, from)
      ensures user.Some? ==> Known(profileManager.users, user.value)
    {
      user := sessionManager.GetUserNameByAddressAndIP(from);
    }

    // ----- CONNECT -----

    method FindOrCreate(username: string) returns (profile: Profile)
      requires Valid()
      modifies profileManager, this`Repr
      ensures Valid() && fresh(Repr - old(Repr))
      ensures View() == WithUser(old(View()), username)
      ensures profile.handle == username && Listed(profile)
    {
      hide Linked, Queued, Printed, Find, Listed;
      var found := Lookup(username);
      if found != null {
        return found;
      }
      profile := Create(username);
      Repr := Repr + {profile};
    }

    method Create(username: string) returns (profile: Profile)
      requires Linked() && Queued() && !Known(profileManager.users, username)
      modifies profileManager
      ensures Linked() && Queued() && fresh(profile) && profile.handle == username && Listed(profile)
      ensures profileManager.profiles == old(profileManager.profiles) + [profile]
      ensures View() == WithUser(old(View()), username)
    {
      profile := profileManager.NewProfile(username);
      Extended(username, profile);
    }

    /** A new profile changes nobody's position, and has no session yet. */
    twostate lemma Extended(username: string, new profile: Profile)
      requires old(Linked() && Queued()) && !old(Known(profileManager.users, username))
      requires profileManager.Valid() && profile.handle == username && profile.session == null && fresh(profile)
      requires profileManager.profiles == old(profileManager.profiles) + [profile]
      requires profileManager.users == old(profileManager.users) + [User(username, [])]
      requires unchanged(sessionManager) && unchanged(this)
      requires forall i :: 0 <= i < |old(profileManager.profiles)| ==> unchanged(old(profileManager.profiles)[i])
      requires forall u :: u in sessionManager.sessions ==> unchanged(sessionManager.sessions[u])
      ensures Linked() && Queued() && Listed(profile)
    {
      var before, after := old(profileManager.users), profileManager.users;
      forall name ensures Find(after, name) == if Known(before, name) then Find(before, name)
                                               else if name == username then |before| else |before| + 1 {
        FindAppended(before, User(username, []), name);
      }
      forall i | 0 <= i < |profileManager.profiles| ensures SessionAgrees(profileManager.profiles[i]) {
        assert i < |before| ==> old(SessionAgrees(profileManager.profiles[i]));
      }
      forall k | 0 <= k < |queue| ensures QueuedAs(queue[k], pending[k]) {
        assert old(QueuedAs(queue[k], pending[k]));
      }
    }

    method Attach(profile: Profile, from: SocketAddress)
      requires Valid() && Listed(profile)
      modifies sessionManager, sessionManager.sessions.Values, profile`session, this`Repr
      ensures Valid() && fresh(Repr - old(Repr))
      ensures sessionManager.table == Started(old(sessionManager.table), profile.handle, from)
    {
      hide Linked, Queued;
      var session := StartFor(profile, from);
      if session != null {
        Repr := Repr + {session};
      }
    }

    method StartFor(profile: Profile, from: SocketAddress) returns (session: Session?)
      requires Linked() && Listed(profile)
      modifies sessionManager, sessionManager.sessions.Values, profile`session
      ensures Linked() && sessionManager.table == Started(old(sessionManager.table), profile.handle, from)
      ensures sessionManager.sessions
              == if session == null then old(sessionManager.sessions)
                 else old(sessionManager.sessions)[profile.handle := session]
      ensures session != null ==> fresh(session) || session in old(sessionManager.sessions).Values
    {
      session := sessionManager.StartSession(profile, from);
      if session != null {
        profile.SetSession(session);
      }
      Attached(profile, session);
    }

    /** Attaching a session to its profile leaves every other profile's session alone. */
    twostate lemma Attached(profile: Profile, new session: Session?)
      requires old(Linked() && Listed(profile)) && sessionManager.Valid() && unchanged(profileManager)
      requires sessionManager.sessions
               == if session == null then old(sessionManager.sessions)
                  else old(sessionManager.sessions)[profile.handle := session]
      requires if session == null then profile.session == old(profile.session) else profile.session == session
      requires profile.followers == old(profile.followers)
      requires forall i :: 0 <= i < |profileManager.profiles| && profileManager.profiles[i] != profile ==>
                 unchanged(profileManager.profiles[i])
      ensures Linked()
    {
      assert forall i :: 0 <= i < |profileManager.profiles| ==>
          profileManager.profiles[i].followers == old(profileManager.profiles[i].followers);
      assert profileManager.Valid();
      forall i | 0 <= i < |profileManager.profiles| ensures SessionAgrees(profileManager.profiles[i]) {
        assert old(SessionAgrees(profileManager.profiles[i]));
      }
    }

    method ConnectUser(username: string, from: SocketAddress)
      requires Valid()
      modifies Repr
      ensures Valid() && fresh(Repr - old(Repr))
      ensures View() == Connected(old(View()), username, from) && outbox == old(outbox)
    {
      hide Linked, Queued;
      var profile := FindOrCreate(username);
      Attach(profile, from);
    }

    method HandleConnectMessage(packet: Packet, from: SocketAddress) returns (thrown: bool)
      requires Valid()
      modifies Repr
      ensures Valid() && fresh(Repr - old(Repr))
      ensures View() == HandleConnect(replicaManager.Role(), old(View()), packet, from).0
      ensures outbox == old(outbox) + HandleConnect(replicaManager.Role(), old(View()), packet, from).1
      ensures thrown <==> replicaManager.Role().Orphan?
    {
      hide Linked, Queued, Connected;
      ConnectUser(packet.payload, from);
      if replicaManager.thisPeer.primary {
        replicaManager.BroadcastToSecondaries(this, packet, from);
        thrown := false;
      } else {
        thrown := replicaManager.ConfirmMessage(this, packet.seqn);
      }
    }

    // ----- CONFIRM, DISCONNECT, FOLLOW, SEND -----

    method HandleConfirmMessage(seqn: nat) returns (thrown: bool)
      requires Valid()
      modifies Repr
      ensures Valid() && Repr == old(Repr)
      ensures View() == HandleConfirm(replicaManager.Role(), old(View()), seqn).0
      ensures outbox == old(outbox) + HandleConfirm(replicaManager.Role(), old(View()), seqn).1
      ensures thrown <==> replicaManager.Role().Orphan?
    {
      hide Linked, Queued, Marked, Accepts, FiredPositions;
      thrown := replicaManager.ConfirmMessage(this, seqn);
    }

    method HandleDisconnectMessage(username: string, from: SocketAddress)
      requires Valid()
      modifies Repr
      ensures Valid() && Repr == old(Repr)
      ensures View() == HandleDisconnect(old(View()), username, from) && outbox == old(outbox)
    {
      hide Linked, Queued;
      var profile := Lookup(username);
      if profile != null {
        EndFor(profile, from);
      }
    }

    method EndFor(profile: Profile, from: SocketAddress)
      requires Linked()
      modifies sessionManager`table
      modifies if profile.handle in sessionManager.sessions then {sessionManager.sessions[profile.handle]} else {}
      ensures Linked() && sessionManager.table == Ended(old(sessionManager.table), profile.handle, from)
    {
      hide ProfileManager.Valid, SessionManager.Valid;
      var ended := sessionManager.EndSession(profile, from);
    }

    method HandleFollowMessage(target: string, from: SocketAddress)
      requires Valid()
      modifies Repr
      ensures Valid() && Repr == old(Repr)
      ensures View() == HandleFollow(old(View()), target, from) && outbox == old(outbox)
    {
      hide Linked, Queued;
      var username := Author(from);
      if username.None? {
        return;
      }
      var profile := Lookup(target);
      if target == username.value || profile == null {
        return;
      }
      FollowIs(View(), target, from, username.value);
      Follow(profile, username.value);
    }

    static lemma FollowIs(s: State, target: string, from: SocketAddress, name: string)
      requires UserAt(s.sessions, from) == Some(name) && name != target
      requires Known(s.users, target) && Known(s.users, name)
      ensures var users := WithFollower(s.users, Find(s.users, target), name);
              HandleFollow(s, target, from)
              == if name in s.users[Find(s.users, target)].followers then s
                 else s.(users := users, disk := Some(Printed(users)))
    {
    }

    method Follow(profile: Profile, name: string)
      requires Valid() && Listed(profile) && Known(profileManager.users, name)
      modifies profile`followers, profileManager`users, profileManager`disk
      ensures Valid()
      ensures var before := old(profileManager.users);
              var t := Find(before, profile.handle);
              && profileManager.users == WithFollower(before, t, name)
              && profileManager.disk
                 == if name in before[t].followers then old(profileManager.disk)
                    else Some(Printed(profileManager.users))
    {
      hide Linked, Queued, ProfileManager.Valid;
      ghost var before := profileManager.users;
      assert profileManager.Valid() && profile.manager == profileManager by { Manages(profile); }
      var r := profile.AddFollower(Find(before, profile.handle), name, true);
      ProfileManager.SameNames(before, profileManager.users);
      Followed();
    }

    lemma Manages(p: Profile)
      requires Linked() && Listed(p)
      ensures profileManager.Valid() && p.manager == profileManager
    {
    }

    /** Changing follower lists leaves every handle, session and queued recipient where it was. */
    twostate lemma Followed()
      requires old(Valid()) && profileManager.Valid() && unchanged(this) && unchanged(sessionManager)
      requires profileManager.profiles == old(profileManager.profiles)
      requires |profileManager.users| == |old(profileManager.users)|
      requires forall name :: Find(profileManager.users, name) == Find(old(profileManager.users), name)
      requires forall i :: 0 <= i < |profileManager.profiles| ==>
                 profileManager.profiles[i].session == old(profileManager.profiles[i].session)
      requires forall u :: u in sessionManager.sessions ==> unchanged(sessionManager.sessions[u])
      ensures Valid()
    {
      forall i | 0 <= i < |profileManager.profiles| ensures SessionAgrees(profileManager.profiles[i]) {
        assert old(SessionAgrees(profileManager.profiles[i]));
      }
      forall k | 0 <= k < |queue| ensures QueuedAs(queue[k], pending[k]) {
        assert old(QueuedAs(queue[k], pending[k]));
      }
    }

    method HandleSendMessage(body: string, from: SocketAddress)
      requires Valid()
      modifies Repr
      ensures Valid() && Repr == old(Repr)
      ensures View() == HandleSend(old(View()), body, from) && outbox == old(outbox)
    {
      hide Linked, Queued;
      var username := Author(from);
      if username.None? {
        return;
      }
      var profile := Lookup(username.value);
      PostedIs(View(), body, from, username.value);
      if profile != null {
        Enqueue(profile, body);
      }
    }

    static lemma PostedIs(s: State, body: string, from: SocketAddress, name: string)
      requires UserAt(s.sessions, from) == Some(name)
      ensures Known(s.users, name) ==>
                HandleSend(s, body, from)
                == s.(queue := s.queue + Notices(name, body, s.users[Find(s.users, name)].followers))
    {
    }

    /** One notification per follower. */
    method Enqueue(profile: Profile, body: string)
      requires Linked() && Queued() && Listed(profile)
      modifies this`queue, this`pending
      ensures Queued()
      ensures pending == old(pending)
              + Notices(profile.handle, body,
                        profileManager.users[Find(profileManager.users, profile.handle)].followers)
    {
      ghost var names := profileManager.users[Find(profileManager.users, profile.handle)].followers;
      ghost var notices := Notices(profile.handle, body, names);
      var followers := profile.followers;
      for j := 0 to |followers|
        invariant Queued() && pending == old(pending) + notices[..j]
      {
        assert followers[j].handle == names[j] && notices[j] == Pending(profile.handle, body, names[j]);
        queue, pending := queue + [Notice(profile.handle, body, followers[j])], pending + [notices[j]];
      }
      assert notices[..|followers|] == notices;
    }

    // ----- The notification worker -----

    /** One round of the loop; the recipient's sockets are reached through its own pointer. */
    method WorkerRound()
      requires Linked() && Queued()
      modifies this`queue, this`pending, this`lastSeqn, this`outbox
      ensures Queued()
      ensures View() == Worked(old(View())).0 && outbox == old(outbox) + Worked(old(View())).1
    {
      hide Linked;
      if queue == [] {
        return;
      }
      var n := Pop();
      PointerMatchesTable(n.recipient);
      var session := n.recipient.session;
      if session != null && |session.sockets| > 0 {
        NotifyAll(session.sockets, n);
      } else {
        queue, pending := queue + [n], pending + [Pending(n.sender, n.body, n.recipient.handle)];
      }
    }

    method Pop() returns (n: Notice)
      requires Queued() && queue != []
      modifies this`queue, this`pending
      ensures Queued() && queue == old(queue)[1..] && pending == old(pending)[1..]
      ensures QueuedAs(n, old(pending)[0])
    {
      n := queue[0];
      assert QueuedAs(queue[0], pending[0]);
      queue, pending := queue[1..], pending[1..];
    }

    /** The worker's view of a profile's sockets is what the session table says. */
    lemma PointerMatchesTable(p: Profile)
      requires Linked() && Listed(p)
      ensures (if p.session == null then [] else p.session.sockets) == Sockets(sessionManager.table, p.handle)
    {
    }

    method NotifyAll(sockets: seq<SocketAddress>, n: Notice)
      modifies this`lastSeqn, this`outbox
      ensures lastSeqn == old(lastSeqn) + |sockets|
      ensures outbox == old(outbox)
              + Notifications(sockets, old(lastSeqn), Pending(n.sender, n.body, n.recipient.handle))
    {
      ghost var sent := Notifications(sockets, lastSeqn, Pending(n.sender, n.body, n.recipient.handle));
      for i := 0 to |sockets|
        invariant lastSeqn == old(lastSeqn) + i
        invariant outbox == old(outbox) + sent[..i]
      {
        lastSeqn := lastSeqn + 1;
        outbox := outbox + [Datagram(sockets[i], MakeNotification(lastSeqn, n.body, n.sender))];
        assert sent[i] == Datagram(sockets[i], MakeNotification(lastSeqn, n.body, n.sender));
      }
      assert sent[..|sockets|] == sent;
    }

    // ----- Runs -----

    method MessageHandler(packet: Packet, from: SocketAddress) returns (thrown: bool)
      requires Valid()
      modifies Repr
      ensures Valid() && fresh(Repr - old(Repr))
      ensures View() == Handle(replicaManager.Role(), old(View()), packet, from).0
      ensures outbox == old(outbox) + Handle(replicaManager.Role(), old(View()), packet, from).1
      ensures thrown <==> replicaManager.Role().Orphan? && packet.kind in {Connect, ConfirmStateChange}
    {
      hide Valid, View, HandleConnect, HandleDisconnect, HandleFollow, HandleSend, HandleConfirm;
      thrown := false;
      match packet.kind
      case Connect => thrown := HandleConnectMessage(packet, from);
      case Disconnect => HandleDisconnectMessage(packet.payload, from);
      case Follow => HandleFollowMessage(packet.payload, from);
      case Send => HandleSendMessage(packet.payload, from);
      case ConfirmStateChange => thrown := HandleConfirmMessage(packet.seqn);
      case _ =>
    }

    method ServeOne(e: Event) returns (thrown: bool)
      requires Valid()
      modifies Repr
      ensures Valid() && fresh(Repr - old(Repr))
      ensures View() == Step(replicaManager.Role(), old(View()), e).0
      ensures outbox == old(outbox) + Step(replicaManager.Role(), old(View()), e).1
      ensures thrown <==> Throws(replicaManager.Role(), e)
    {
      hide Linked, Queued, View, Handle, Worked;
      match e
      case Receive(packet, from) => thrown := MessageHandler(packet, from);
      case Work =>
        WorkerRound();
        thrown := false;
    }

    /**
     Any run of handlers and worker rounds on the objects is the run of the value-level
     machine, and leaves the pointers in agreement. The process ends with the first event
     that throws; there is none unless the peer list names no primary.
     */
    method Serve(events: seq<Event>) returns (served: nat, alive: bool)
      requires Valid()
      modifies Repr
      ensures Valid() && fresh(Repr - old(Repr))
      ensures served <= |events|
      ensures View() == Run(replicaManager.Role(), old(View()), events[..served])
      ensures outbox == old(outbox) + Sent(replicaManager.Role(), old(View()), events[..served])
      ensures alive ==> served == |events|
      ensures !alive ==> served > 0 && Throws(replicaManager.Role(), events[served - 1])
      ensures forall k :: 0 <= k < served && (alive || k < served - 1) ==> !Throws(replicaManager.Role(), events[k])
      ensures !replicaManager.Role().Orphan? ==> alive
    {
      hide Valid, View, Step;
      served, alive := 0, true;
      if events != [] {
        var n := |events| - 1;
        served, alive := Serve(events[..n]);
        assert events[..n][..served] == events[..served];
        if alive {
          assert events[..n + 1] == events;
          served := n + 1;
          var thrown := ServeOne(events[n]);
          alive := !thrown;
        }
      }
    }

    /** A profile has the session of its handle, if that has one. */
    lemma SessionOf(p: Profile)
      requires Valid() && Listed(p)
      ensures p.session != null <==> p.handle in sessionManager.sessions
      ensures p.session != null ==> p.session == sessionManager.sessions[p.handle]
    {
    }

    /** No two profiles share a session; where handles are unique, lookups lead to every profile. */
    lemma AliasAgreement(i: nat, j: nat)
      requires Valid() && i < |profileManager.profiles| && j < |profileManager.profiles|
      ensures var p, q := profileManager.profiles[i], profileManager.profiles[j];
              && (p.session != null ==>
                    && p.handle in sessionManager.sessions && p.session == sessionManager.sessions[p.handle]
                    && (i != j ==> p.session != q.session))
              && (UniqueHandles(profileManager.users) ==>
                    && Listed(p) && (i != j ==> p.handle != q.handle)
                    && (p.session != null <==> p.handle in sessionManager.sessions))
    {
      var p, q := profileManager.profiles[i], profileManager.profiles[j];
      assert SessionAgrees(p) && SessionAgrees(q);
      if UniqueHandles(profileManager.users) {
        FindIs(profileManager.users, i);
      }
    }
  }

  /** Start-up: read the profiles, then build the server on them; null when reading is undefined. */
  method Boot(disk: Option<string>, thisPeer: Peers.Peer, peers: seq<Peers.Peer>) returns (server: Server?)
    ensures server != null <==> Load(disk).Loaded?
    ensures disk.None? ==> server != null && server.View() == State([], None, map[], [], 0, [])
    ensures server != null ==> fresh(server) && server.Valid() && server.outbox == []
    ensures server != null ==> server.View() == State(Load(disk).users, disk, map[], [], 0, [])
    ensures server != null ==> server.replicaManager.Role() == Peers.RoleOf(thisPeer.primary, peers)
  {
    var manager := new ProfileManager(disk);
    var ok := manager.ReadProfilesFromFile();
    if !ok {
      return null;
    }
    var replicas := new ReplicaManager(thisPeer, peers);
    server := new Server(manager, replicas);
  }
}
