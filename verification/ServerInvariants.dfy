/**
 What every reachable state of a replica satisfies: the shape of the follower graph, of
 the session table, of the queue and of the numbers in the confirmation buffer, and that
 the disk always holds the profiles.
 */
module ServerInvariants {
  import opened Messages
  import opened Text
  import opened Confirmation
  import opened ProfileStore
  import opened Sessions
  import opened ServerSpec

  // ----- The invariant -----

  predicate NoSelfFollow(users: seq<User>) {
    forall i :: 0 <= i < |users| ==> users[i].handle !in users[i].followers
  }

  predicate GraphOk(users: seq<User>) {
    WellFormed(users) && NoSelfFollow(users)
  }

  /** Sessions belong to existing profiles and respect the limit. */
  predicate SessionsOk(users: seq<User>, sessions: Table) {
    forall u :: u in sessions ==> Known(users, u) && |sessions[u]| <= 2
  }

  /** Everyone in the queue follows the sender. */
  predicate QueueOk(users: seq<User>, queue: seq<Pending>) {
    forall k :: 0 <= k < |queue| ==> queue[k].recipient in FollowersOf(users, queue[k].sender)
  }

  function First(c: Container): nat
    requires c.content != []
  {
    c.content[0].message.sequenceNumber
  }

  /** Three consecutive numbers per container, blocks in increasing order, all below the counter. */
  predicate NumbersOk(buffer: seq<Container>, lastSeqn: nat) {
    && (forall k :: 0 <= k < |buffer| ==>
          && |buffer[k].content| == 3
          && First(buffer[k]) + 3 <= lastSeqn
          && forall j :: 0 <= j < 3 ==> buffer[k].content[j].message.sequenceNumber == First(buffer[k]) + j)
    && (forall k, l :: 0 <= k < l < |buffer| ==> First(buffer[k]) + 3 <= First(buffer[l]))
  }

  predicate Inv(s: State) {
    && WellFormed(s.users)
    && SessionsOk(s.users, s.sessions)
    && QueueOk(s.users, s.queue)
    && NumbersOk(s.buffer, s.lastSeqn)
  }

  // ----- Growing the graph -----

  lemma FollowersAfterAppend(users: seq<User>, handle: string, name: string)
    ensures FollowersOf(users + [User(handle, [])], name) == FollowersOf(users, name)
  {
    FindAppended(users, User(handle, []), name);
  }

  lemma NewUserKeepsGraph(users: seq<User>, name: string)
    requires WellFormed(users) && !Known(users, name)
    ensures WellFormed(users + [User(name, [])])
  {
    var more := users + [User(name, [])];
    forall i, j | 0 <= i < |more| && 0 <= j < |more[i].followers| ensures Known(more, more[i].followers[j]) {
      FindAppended(users, User(name, []), users[i].followers[j]);
    }
  }

  lemma FollowersAfterFollow(users: seq<User>, target: string, name: string, other: string)
    requires Known(users, target)
    ensures var users' := WithFollower(users, Find(users, target), name);
            && Find(users', other) == Find(users, other)
            && FollowersOf(users', other)
               == (if other == target && name !in FollowersOf(users, target) then FollowersOf(users, target) + [name]
                   else FollowersOf(users, other))
  {
    KnownByHandle(users, WithFollower(users, Find(users, target), name), other);
  }

  lemma FollowKeepsGraph(users: seq<User>, target: string, name: string)
    requires WellFormed(users) && Known(users, target) && Known(users, name)
    ensures WellFormed(WithFollower(users, Find(users, target), name))
  {
    var t := Find(users, target);
    FollowKeepsClosed(users, t, name);
    FollowKeepsDistinct(users, t, name);
  }

  // ----- Each event keeps the invariant -----

  lemma ConnectedKeepsInv(s: State, name: string, from: SocketAddress)
    requires Inv(s)
    ensures Inv(Connected(s, name, from)) && Known(Connected(s, name, from).users, name)
    ensures name in Connected(s, name, from).sessions
  {
    var s' := Connected(s, name, from);
    if !Known(s.users, name) {
      NewUserKeepsGraph(s.users, name);
      FindAppended(s.users, User(name, []), name);
    }
    forall u | u in s'.sessions ensures Known(s'.users, u) && |s'.sessions[u]| <= MAX_SESSIONS_PER_USER {
      FindAppended(s.users, User(name, []), u);
    }
    forall k | 0 <= k < |s.queue| ensures s'.queue[k].recipient in FollowersOf(s'.users, s'.queue[k].sender) {
      FollowersAfterAppend(s.users, name, s.queue[k].sender);
    }
  }

  lemma BroadcastKeepsInv(s: State, packet: Packet, from: SocketAddress)
    requires Inv(s)
    ensures Inv(Broadcast(s, packet, from))
  {
  }

  lemma MarkedKeepsNumbers(buffer: seq<Container>, lastSeqn: nat, seqn: nat)
    requires NumbersOk(buffer, lastSeqn)
    ensures NumbersOk(Marked(buffer, seqn), lastSeqn)
  {
  }

  lemma FollowKeepsInv(s: State, target: string, from: SocketAddress)
    requires Inv(s)
    ensures Inv(HandleFollow(s, target, from)) && !FollowOutcome(s, target, from).NoReturnValue?
  {
    var s' := HandleFollow(s, target, from);
    if FollowOutcome(s, target, from).NowFollowing? {
      var name := UserAt(s.sessions, from).value;
      FollowKeepsGraph(s.users, target, name);
      forall u | u in s.sessions ensures Known(s'.users, u) {
        FollowersAfterFollow(s.users, target, name, u);
      }
      forall k | 0 <= k < |s.queue| ensures s'.queue[k].recipient in FollowersOf(s'.users, s'.queue[k].sender) {
        FollowersAfterFollow(s.users, target, name, s.queue[k].sender);
      }
    }
  }

  lemma SendKeepsInv(s: State, body: string, from: SocketAddress)
    requires Inv(s)
    ensures Inv(HandleSend(s, body, from))
  {
  }

  lemma DisconnectKeepsInv(s: State, name: string, from: SocketAddress)
    requires Inv(s)
    ensures Inv(HandleDisconnect(s, name, from))
  {
  }

  lemma WorkKeepsInv(s: State)
    requires Inv(s)
    ensures Inv(Worked(s).0)
  {
    hide WellFormed, Known, Notifications;
  }

  lemma HandleKeepsInv(role: Role, s: State, packet: Packet, from: SocketAddress)
    requires Inv(s)
    ensures Inv(Handle(role, s, packet, from).0)
  {
    match packet.kind
    case Connect =>
      ConnectedKeepsInv(s, packet.payload, from);
      BroadcastKeepsInv(Connected(s, packet.payload, from), packet, from);
    case Disconnect => DisconnectKeepsInv(s, packet.payload, from);
    case Follow => FollowKeepsInv(s, packet.payload, from);
    case Send => SendKeepsInv(s, packet.payload, from);
    case ConfirmStateChange => MarkedKeepsNumbers(s.buffer, s.lastSeqn, packet.seqn);
    case _ =>
  }

  lemma StepKeepsInv(role: Role, s: State, e: Event)
    requires Inv(s)
    ensures Inv(Step(role, s, e).0)
  {
    match e
    case Receive(packet, from) => HandleKeepsInv(role, s, packet, from);
    case Work => WorkKeepsInv(s);
  }

  /** Every reachable state of a replica satisfies the invariant, whatever it receives. */
  lemma {:induction false} RunKeepsInv(role: Role, s: State, events: seq<Event>)
    requires Inv(s)
    ensures Inv(Run(role, s, events))
  {
    if events != [] {
      var n := |events| - 1;
      RunKeepsInv(role, s, events[..n]);
      StepKeepsInv(role, Run(role, s, events[..n]), events[n]);
    }
  }

  /** Nobody ever comes to follow himself. */
  lemma StepKeepsNoSelf(role: Role, s: State, e: Event)
    requires NoSelfFollow(s.users)
    ensures NoSelfFollow(Step(role, s, e).0.users)
  {
    hide Printed, Notifications, Copies, Posted, Marked, Accepts, FiredPositions, Started, Ended;
  }

  lemma {:induction false} RunKeepsNoSelf(role: Role, s: State, events: seq<Event>)
    requires NoSelfFollow(s.users)
    ensures NoSelfFollow(Run(role, s, events).users)
  {
    if events != [] {
      var n := |events| - 1;
      RunKeepsNoSelf(role, s, events[..n]);
      StepKeepsNoSelf(role, Run(role, s, events[..n]), events[n]);
    }
  }

  // ----- Consequences -----

  /**
   Follower graph: in every run from a loop-free graph, follower lists stay free of
   duplicates and of their owner; each queued notification is for a current follower of
   its sender; every session belongs to a profile, so no FOLLOW reaches the end of
   `AddFollower` without a result.
   */
  lemma FollowerGraph(role: Role, users: seq<User>, disk: Option<string>, events: seq<Event>)
    requires GraphOk(users)
    ensures var s := Run(role, Booted(users, disk), events);
            && GraphOk(s.users)
            && (forall k :: 0 <= k < |s.queue| ==>
                  && s.queue[k].recipient in FollowersOf(s.users, s.queue[k].sender)
                  && s.queue[k].recipient != s.queue[k].sender
                  && Known(s.users, s.queue[k].recipient))
            && (forall u :: u in s.sessions ==> Known(s.users, u))
            && (forall target, from :: !FollowOutcome(s, target, from).NoReturnValue?)
  {
    RunKeepsInv(role, Booted(users, disk), events);
    RunKeepsNoSelf(role, Booted(users, disk), events);
    var s := Run(role, Booted(users, disk), events);
    forall k | 0 <= k < |s.queue|
      ensures s.queue[k].recipient != s.queue[k].sender && Known(s.users, s.queue[k].recipient)
    {
      var i := Find(s.users, s.queue[k].sender);
      var j :| 0 <= j < |s.users[i].followers| && s.users[i].followers[j] == s.queue[k].recipient;
    }
    forall target, from ensures !FollowOutcome(s, target, from).NoReturnValue? {
      FollowKeepsInv(s, target, from);
    }
  }

  /** A SEND enqueues exactly one notification per follower of its author, and none to anyone else. */
  lemma SendReachesEachFollowerOnce(s: State, body: string, from: SocketAddress)
    requires Inv(s) && UserAt(s.sessions, from).Some?
    ensures var name := UserAt(s.sessions, from).value;
            && Known(s.users, name)
            && forall v :: multiset(Posted(s, body, from))[Pending(name, body, v)]
                           == if v in FollowersOf(s.users, name) then 1 else 0
    ensures forall n :: n in Posted(s, body, from) ==> n.sender == UserAt(s.sessions, from).value && n.body == body
  {
    var name := UserAt(s.sessions, from).value;
    var followers := FollowersOf(s.users, name);
    forall v ensures multiset(Posted(s, body, from))[Pending(name, body, v)] == if v in followers then 1 else 0 {
      NoticeCount(name, body, followers, v);
    }
  }

  lemma {:induction false} NoticeCount(name: string, body: string, followers: seq<string>, v: string)
    requires NoDuplicates(followers)
    ensures multiset(Notices(name, body, followers))[Pending(name, body, v)] == if v in followers then 1 else 0
    decreases |followers|
  {
    if followers != [] {
      var n := |followers| - 1;
      var init := followers[..n];
      NoticeCount(name, body, init, v);
      assert Notices(name, body, followers) == Notices(name, body, init) + [Pending(name, body, followers[n])];
      assert followers == init + [followers[n]];
      assert followers[n] !in init;
    }
  }

  // ----- Sequence numbers -----

  lemma {:induction false} NoHits(content: seq<Item>, seqn: nat)
    requires forall j :: 0 <= j < |content| ==> content[j].message.sequenceNumber != seqn
    ensures Hits(content, seqn) == 0
  {
    if content != [] {
      NoHits(content[..|content| - 1], seqn);
    }
  }

  lemma {:induction false} NoBufferHits(buffer: seq<Container>, seqn: nat)
    requires forall k, j :: 0 <= k < |buffer| && 0 <= j < |buffer[k].content| ==>
               buffer[k].content[j].message.sequenceNumber != seqn
    ensures BufferHits(buffer, seqn) == 0
  {
    if buffer != [] {
      NoBufferHits(buffer[..|buffer| - 1], seqn);
      NoHits(buffer[|buffer| - 1].content, seqn);
    }
  }

  lemma {:induction false} BlockHits(content: seq<Item>, first: nat, seqn: nat)
    requires forall j :: 0 <= j < |content| ==> content[j].message.sequenceNumber == first + j
    ensures Hits(content, seqn) == if first <= seqn < first + |content| then 1 else 0
  {
    if content != [] {
      BlockHits(content[..|content| - 1], first, seqn);
    }
  }

  /** All numbers in the buffer differ, so a confirmation marks at most one item. */
  lemma {:induction false} AtMostOneHit(buffer: seq<Container>, lastSeqn: nat, seqn: nat)
    requires NumbersOk(buffer, lastSeqn)
    ensures BufferHits(buffer, seqn) <= 1
  {
    if buffer != [] {
      var n := |buffer| - 1;
      var init := buffer[..n];
      assert forall k :: 0 <= k < n ==> init[k] == buffer[k];
      AtMostOneHit(init, lastSeqn, seqn);
      BlockHits(buffer[n].content, First(buffer[n]), seqn);
      if First(buffer[n]) <= seqn {
        NoBufferHits(init, seqn);
      }
    }
  }

  /** The numbers in the buffer are below the counter and pairwise distinct, and none can be hit twice. */
  ghost predicate NumbersDiffer(buffer: seq<Container>, lastSeqn: nat) {
    && (forall k, j :: 0 <= k < |buffer| && 0 <= j < |buffer[k].content| ==>
          buffer[k].content[j].message.sequenceNumber < lastSeqn)
    && (forall k, j, k', j' :: 0 <= k < |buffer| && 0 <= j < |buffer[k].content|
                               && 0 <= k' < |buffer| && 0 <= j' < |buffer[k'].content| && (k, j) != (k', j') ==>
          buffer[k].content[j].message.sequenceNumber != buffer[k'].content[j'].message.sequenceNumber)
    && (forall seqn :: BufferHits(buffer, seqn) <= 1)
  }

  lemma BlocksDiffer(buffer: seq<Container>, lastSeqn: nat)
    requires NumbersOk(buffer, lastSeqn)
    ensures NumbersDiffer(buffer, lastSeqn)
  {
    forall seqn ensures BufferHits(buffer, seqn) <= 1 {
      AtMostOneHit(buffer, lastSeqn, seqn);
    }
    forall k, j, k', j' | 0 <= k < |buffer| && 0 <= j < |buffer[k].content|
                          && 0 <= k' < |buffer| && 0 <= j' < |buffer[k'].content| && (k, j) != (k', j')
      ensures buffer[k].content[j].message.sequenceNumber != buffer[k'].content[j'].message.sequenceNumber
    {
      assert k < k' ==> First(buffer[k]) + 3 <= First(buffer[k']);
      assert k' < k ==> First(buffer[k']) + 3 <= First(buffer[k]);
    }
  }

  /**
   In every run the numbers in the buffer are pairwise distinct and below the counter, so
   a confirmation marks at most one item.
   */
  lemma NumbersStayDistinct(role: Role, users: seq<User>, disk: Option<string>, events: seq<Event>)
    requires WellFormed(users)
    ensures var s := Run(role, Booted(users, disk), events);
            NumbersDiffer(s.buffer, s.lastSeqn)
  {
    hide NumbersDiffer;
    RunKeepsInv(role, Booted(users, disk), events);
    var s := Run(role, Booted(users, disk), events);
    BlocksDiffer(s.buffer, s.lastSeqn);
  }

  /** The copy a primary sends to secondary i carries the number of item i of the container it pushes. */
  lemma CopyMatchesItem(secondaries: seq<SocketAddress>, s: State, packet: Packet, from: SocketAddress, i: nat)
    requires packet.kind.Connect? && i < |secondaries|
    ensures var (s', sends) := Handle(Primary(secondaries), s, packet, from);
            && |sends| == |secondaries| && sends[i].to == secondaries[i]
            && sends[i].packet.kind.Connect? && sends[i].packet.payload == packet.payload
            && |s'.buffer| == |s.buffer| + 1
            && (i < 3 ==> sends[i].packet.seqn == s'.buffer[|s.buffer|].content[i].message.sequenceNumber)
            && (i >= 3 ==> sends[i].packet.seqn >= s'.lastSeqn)
  {
  }

  // ----- Durability -----

  /** The disk is what `Sync` last wrote, or nothing was written and the profiles are the ones read. */
  predicate DiskOk(boot: State, s: State) {
    s.disk == Some(Printed(s.users)) || (s.disk == boot.disk && s.users == boot.users)
  }

  /** Only CONNECT and FOLLOW touch the profiles, and both write the disk when they do. */
  lemma StepWritesDisk(role: Role, s: State, e: Event)
    ensures var s' := Step(role, s, e).0;
            || (s'.users == s.users && s'.disk == s.disk)
            || s'.disk == Some(Printed(s'.users))
  {
  }

  /** A step adds at most the profile that a CONNECT names. */
  lemma StepHandles(role: Role, s: State, e: Event)
    ensures var s' := Step(role, s, e).0;
            && |s.users| <= |s'.users| <= |s.users| + 1
            && (forall i :: 0 <= i < |s.users| ==> s'.users[i].handle == s.users[i].handle)
            && (|s'.users| > |s.users| ==>
                  e.Receive? && e.packet.kind.Connect? && s'.users[|s.users|].handle == e.packet.payload)
  {
  }

  lemma {:induction false} RunKeepsDisk(role: Role, boot: State, events: seq<Event>)
    ensures DiskOk(boot, Run(role, boot, events))
  {
    if events != [] {
      var n := |events| - 1;
      RunKeepsDisk(role, boot, events[..n]);
      StepWritesDisk(role, Run(role, boot, events[..n]), events[n]);
    }
  }

  /** A server that starts on a file `Sync` wrote keeps the file equal to the printed profiles. */
  lemma DiskStaysPrinted(role: Role, users: seq<User>, events: seq<Event>)
    ensures var s := Run(role, Booted(users, Some(Printed(users))), events);
            s.disk == Some(Printed(s.users))
  {
    RunKeepsDisk(role, Booted(users, Some(Printed(users))), events);
  }

  /**
   Durability: restarting after any run restores the handles and the ordered follower
   lists exactly when the graph is storable (or was never changed since it was read).
   */
  lemma RestartRestores(role: Role, users: seq<User>, disk: Option<string>, events: seq<Event>)
    requires Load(disk) == Loaded(users) && UniqueHandles(users)
    ensures var s := Run(role, Booted(users, disk), events);
            Load(s.disk) == Loaded(s.users)
            <==> Storable(s.users) || s.users == [User("", [])] || (s.disk == disk && s.users == users)
  {
    var boot := Booted(users, disk);
    var s := Run(role, boot, events);
    LoadedIsWellFormed(disk);
    RunKeepsInv(role, boot, events);
    RunKeepsDisk(role, boot, events);
    RoundTripExactly(s.users);
  }

  /** A handle that survives being stored and followed. */
  predicate GoodHandle(name: string) {
    IsWord(name) && ',' !in name
  }

  predicate GoodHandles(users: seq<User>) {
    forall i :: 0 <= i < |users| ==> GoodHandle(users[i].handle)
  }

  lemma {:induction false} RunKeepsHandlesGood(role: Role, boot: State, events: seq<Event>)
    requires GoodHandles(boot.users)
    requires forall k :: 0 <= k < |events| && events[k].Receive? && events[k].packet.kind.Connect? ==>
               GoodHandle(events[k].packet.payload)
    ensures GoodHandles(Run(role, boot, events).users)
  {
    if events != [] {
      var n := |events| - 1;
      RunKeepsHandlesGood(role, boot, events[..n]);
      StepHandles(role, Run(role, boot, events[..n]), events[n]);
    }
  }

  /** Each event adds at most one profile. */
  lemma {:induction false} UsersBound(role: Role, s: State, events: seq<Event>)
    ensures |Run(role, s, events).users| <= |s.users| + |events|
  {
    if events != [] {
      var n := |events| - 1;
      UsersBound(role, s, events[..n]);
      StepHandles(role, Run(role, s, events[..n]), events[n]);
    }
  }

  /** So a server whose clients use words without commas as handles always restarts to the profiles it had. */
  lemma Durability(role: Role, users: seq<User>, disk: Option<string>, events: seq<Event>)
    requires Load(disk) == Loaded(users) && UniqueHandles(users) && GoodHandles(users)
    requires forall k :: 0 <= k < |events| && events[k].Receive? && events[k].packet.kind.Connect? ==>
               GoodHandle(events[k].packet.payload)
    requires |users| + |events| <= INT_MAX
    ensures var s := Run(role, Booted(users, disk), events);
            Load(s.disk) == Loaded(s.users)
  {
    UsersBound(role, Booted(users, disk), events);
    DurableWhileCountable(role, users, disk, events);
  }

  /** A fresh installation has no file: it starts without profiles, and every later start restores them. */
  lemma FirstStart(role: Role, events: seq<Event>)
    requires forall k :: 0 <= k < |events| && events[k].Receive? && events[k].packet.kind.Connect? ==>
               GoodHandle(events[k].packet.payload)
    requires |events| <= INT_MAX
    ensures Load(None) == Loaded([])
    ensures var s := Run(role, Booted([], None), events);
            Load(s.disk) == Loaded(s.users)
  {
    Durability(role, [], None, events);
  }

  /** More generally, as long as the number of profiles fits an int. */
  lemma DurableWhileCountable(role: Role, users: seq<User>, disk: Option<string>, events: seq<Event>)
    requires Load(disk) == Loaded(users) && UniqueHandles(users) && GoodHandles(users)
    requires forall k :: 0 <= k < |events| && events[k].Receive? && events[k].packet.kind.Connect? ==>
               GoodHandle(events[k].packet.payload)
    requires |Run(role, Booted(users, disk), events).users| <= INT_MAX
    ensures var s := Run(role, Booted(users, disk), events);
            Load(s.disk) == Loaded(s.users)
  {
    var boot := Booted(users, disk);
    var s := Run(role, boot, events);
    LoadedIsWellFormed(disk);
    RunKeepsInv(role, boot, events);
    RunKeepsHandlesGood(role, boot, events);
    RestartRestores(role, users, disk, events);
    forall i | 0 <= i < |s.users| ensures CommaFreeEdges(s.users[i]) && IsWord(s.users[i].handle) {
      forall j | 0 <= j < |s.users[i].followers| ensures ',' !in s.users[i].followers[j] {
        assert Known(s.users, s.users[i].followers[j]);
        assert GoodHandle(s.users[Find(s.users, s.users[i].followers[j])].handle);
      }
      assert GoodHandle(s.users[i].handle);
    }
  }
}
