/**
 One replica as a state machine over values: what each message handler and each round of
 the notification worker (server/server.cpp) does to the profiles, the session table, the
 queue, the counter and the confirmation buffer, and what it sends.
 */
module ServerSpec {
  import opened Messages
  import opened Confirmation
  import opened ProfileStore
  import opened Sessions

  datatype Pending = Pending(sender: string, body: string, recipient: string)

  datatype State = State(
    users: seq<User>,
    disk: Option<string>,
    sessions: Table,
    queue: seq<Pending>,
    lastSeqn: nat,
    buffer: seq<Container>)

  /** A secondary whose peer list names no primary has nobody to confirm to. */
  datatype Role =
    | Primary(secondaries: seq<SocketAddress>)
    | Secondary(primary: SocketAddress)
    | Orphan

  /** Handling one datagram, or one round of the worker loop. */
  datatype Event = Receive(packet: Packet, from: SocketAddress) | Work

  function FollowersOf(users: seq<User>, name: string): seq<string> {
    if Known(users, name) then users[Find(users, name)].followers else []
  }

  /** A server started on a disk whose profiles were read. */
  function Booted(users: seq<User>, disk: Option<string>): State {
    State(users, disk, map[], [], 0, [])
  }

  // ----- CONNECT -----

  function WithUser(s: State, name: string): State {
    if Known(s.users, name) then s
    else
      var users := s.users + [User(name, [])];
      s.(users := users, disk := Some(Printed(users)))
  }

  function Connected(s: State, name: string, from: SocketAddress): State {
    var s' := WithUser(s, name);
    s'.(sessions := Started(s'.sessions, name, from))
  }

  function Numbered(packet: Packet, first: nat): seq<BaseMessage> {
    [BaseMessage(first, packet), BaseMessage(first + 1, packet), BaseMessage(first + 2, packet)]
  }

  /** `BroadcastToSecondaries`: three numbers are reserved whatever the number of secondaries. */
  function Broadcast(s: State, packet: Packet, from: SocketAddress): State {
    s.(lastSeqn := s.lastSeqn + 3,
       buffer := s.buffer + [Fresh(Numbered(packet, s.lastSeqn), packet.seqn, from)])
  }

  function Copies(secondaries: seq<SocketAddress>, packet: Packet, first: nat): seq<Datagram> {
    seq(|secondaries|, i requires 0 <= i < |secondaries| => Datagram(secondaries[i], packet.(seqn := first + i)))
  }

  function HandleConnect(role: Role, s: State, packet: Packet, from: SocketAddress): (State, seq<Datagram>) {
    var s' := Connected(s, packet.payload, from);
    match role
    case Primary(secondaries) => (Broadcast(s', packet, from), Copies(secondaries, packet, s'.lastSeqn))
    case Secondary(primary) => (s', [Datagram(primary, MakeConfirmStateChangeMessage(packet.seqn))])
    case Orphan => (s', [])
  }

  // ----- CONFIRM -----

  /** The callback of the primary's buffer, on the containers at some positions. */
  function Accepts(buffer: seq<Container>, positions: seq<nat>): (r: seq<Datagram>)
    requires forall k :: 0 <= k < |positions| ==> positions[k] < |buffer|
  {
    if positions == [] then []
    else
      var c := buffer[positions[|positions| - 1]];
      Accepts(buffer, positions[..|positions| - 1])
      + if c.content != [] && c.content[0].message.packet.kind.Connect?
        then [Datagram(c.originalHost, MakeAcceptConnCommand(c.originalSeqn))]
        else []
  }

  function HandleConfirm(role: Role, s: State, seqn: nat): (State, seq<Datagram>) {
    match role
    case Primary(_) =>
      var buffer := Marked(s.buffer, seqn);
      (s.(buffer := buffer), Accepts(buffer, FiredPositions(buffer)))
    case Secondary(primary) => (s, [Datagram(primary, MakeConfirmStateChangeMessage(seqn))])
    case Orphan => (s, [])
  }

  // ----- DISCONNECT, FOLLOW, SEND -----

  function HandleDisconnect(s: State, name: string, from: SocketAddress): State {
    if Known(s.users, name) then s.(sessions := Ended(s.sessions, name, from)) else s
  }

  /** How a FOLLOW ends; `NoReturnValue` is the branch of `AddFollower` that flows off its end. */
  datatype FollowResult =
    | NotAuthenticated | OwnProfile | UnknownProfile | NoReturnValue | AlreadyFollowing | NowFollowing

  ghost function FollowOutcome(s: State, target: string, from: SocketAddress): FollowResult {
    match UserAt(s.sessions, from)
    case None => NotAuthenticated
    case Some(name) =>
      if target == name then OwnProfile
      else if !Known(s.users, target) then UnknownProfile
      else if !Known(s.users, name) then NoReturnValue
      else if name in FollowersOf(s.users, target) then AlreadyFollowing
      else NowFollowing
  }

  ghost function HandleFollow(s: State, target: string, from: SocketAddress): State {
    if FollowOutcome(s, target, from).NowFollowing? then
      var users := WithFollower(s.users, Find(s.users, target), UserAt(s.sessions, from).value);
      s.(users := users, disk := Some(Printed(users)))
    else s
  }

  function Notices(sender: string, body: string, followers: seq<string>): seq<Pending> {
    seq(|followers|, i requires 0 <= i < |followers| => Pending(sender, body, followers[i]))
  }

  /** The notifications a SEND enqueues. */
  ghost function Posted(s: State, body: string, from: SocketAddress): seq<Pending> {
    match UserAt(s.sessions, from)
    case None => []
    case Some(name) => Notices(name, body, FollowersOf(s.users, name))
  }

  ghost function HandleSend(s: State, body: string, from: SocketAddress): State {
    s.(queue := s.queue + Posted(s, body, from))
  }

  // ----- The notification worker -----

  function Notifications(sockets: seq<SocketAddress>, lastSeqn: nat, n: Pending): seq<Datagram> {
    seq(|sockets|, i requires 0 <= i < |sockets| =>
      Datagram(sockets[i], MakeNotification(lastSeqn + 1 + i, n.body, n.sender)))
  }

  function Worked(s: State): (State, seq<Datagram>) {
    if s.queue == [] then (s, [])
    else
      var n := s.queue[0];
      var sockets := Sockets(s.sessions, n.recipient);
      if sockets == [] then (s.(queue := s.queue[1..] + [n]), [])
      else (s.(queue := s.queue[1..], lastSeqn := s.lastSeqn + |sockets|),
            Notifications(sockets, s.lastSeqn, n))
  }

  // ----- Runs -----

  ghost function Handle(role: Role, s: State, packet: Packet, from: SocketAddress): (State, seq<Datagram>) {
    match packet.kind
    case Connect => HandleConnect(role, s, packet, from)
    case Disconnect => (HandleDisconnect(s, packet.payload, from), [])
    case Follow => (HandleFollow(s, packet.payload, from), [])
    case Send => (HandleSend(s, packet.payload, from), [])
    case ConfirmStateChange => HandleConfirm(role, s, packet.seqn)
    case _ => (s, [])
  }

  ghost function Step(role: Role, s: State, e: Event): (State, seq<Datagram>) {
    match e
    case Receive(packet, from) => Handle(role, s, packet, from)
    case Work => Worked(s)
  }

  /** A secondary without a primary throws where it should confirm, and nothing catches it. */
  predicate Throws(role: Role, e: Event) {
    role.Orphan? && e.Receive? && e.packet.kind in {Connect, ConfirmStateChange}
  }

  ghost function Run(role: Role, s: State, events: seq<Event>): State {
    if events == [] then s
    else Step(role, Run(role, s, events[..|events| - 1]), events[|events| - 1]).0
  }

  /** Everything sent over a run, in order. */
  ghost function Sent(role: Role, s: State, events: seq<Event>): seq<Datagram> {
    if events == [] then []
    else
      var n := |events| - 1;
      Sent(role, s, events[..n]) + Step(role, Run(role, s, events[..n]), events[n]).1
  }
}
