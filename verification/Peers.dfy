/**
 The PEERS variable: printed for each replica by scripts/launch.py, parsed by
 `ReplicaManager::ParsePeersArgument`, and the roles the replicas derive from it.
 */
module Peers {
  import opened Messages
  import opened Text
  import opened ServerSpec

  datatype Peer = Peer(address: string, port: int, primary: bool) {
    function Socket(): SocketAddress {
      SocketAddress(address, port)
    }
  }

  // ----- generate_env -----

  function Flag(primary: bool): string {
    if primary then "p" else "s"
  }

  function Entry(p: Peer): string {
    p.address + ":" + Str(p.port) + ":" + Flag(p.primary)
  }

  /** The peers with another port than this one's. */
  function Others(peers: seq<Peer>, self: Peer): seq<Peer> {
    if peers == [] then []
    else
      var n := |peers| - 1;
      Others(peers[..n], self) + if peers[n].port != self.port then [peers[n]] else []
  }

  function Entries(peers: seq<Peer>): seq<string> {
    seq(|peers|, i requires 0 <= i < |peers| => Entry(peers[i]))
  }

  function PeersVariable(peers: seq<Peer>, self: Peer): string {
    Join(Entries(Others(peers, self)), ',')
  }

  // ----- ParsePeersArgument -----

  /** One entry; `None` where the code reads past the pieces or `atoi` is undefined. */
  function ParsePeer(entry: string): Option<Peer> {
    var parsed := Split(entry, ':');
    if |parsed| < 3 || Atoi(parsed[1]).None? then None
    else Some(Peer(parsed[0], Atoi(parsed[1]).value, parsed[2] == "p"))
  }

  function ParseEntries(entries: seq<string>): Option<seq<Peer>> {
    if entries == [] then Some([])
    else
      var n := |entries| - 1;
      var before, last := ParseEntries(entries[..n]), ParsePeer(entries[n]);
      if before.None? || last.None? then None else Some(before.value + [last.value])
  }

  function ParsePeers(s: string): Option<seq<Peer>> {
    ParseEntries(Split(s, ','))
  }

  method ParsePeersArgument(peersStr: string) returns (r: Option<seq<Peer>>)
    ensures r == ParsePeers(peersStr)
  {
    hide Atoi, Split;
    var list := SplitLoop(peersStr, ',');
    var peers: seq<Peer> := [];
    for i := 0 to |list|
      invariant ParseEntries(list[..i]) == Some(peers)
    {
      var parsed := SplitLoop(list[i], ':');
      assert list[..i + 1][..i] == list[..i];
      if |parsed| < 3 || Atoi(parsed[1]).None? {
        FailedEntry(list, i);
        return None;
      }
      peers := peers + [Peer(parsed[0], Atoi(parsed[1]).value, parsed[2] == "p")];
    }
    assert list[..|list|] == list;
    return Some(peers);
  }

  lemma {:induction false} FailedEntry(entries: seq<string>, i: nat)
    requires i < |entries| && ParsePeer(entries[i]).None?
    ensures ParseEntries(entries).None?
    decreases |entries|
  {
    if i < |entries| - 1 {
      FailedEntry(entries[..|entries| - 1], i);
    }
  }

  // ----- Round trip -----

  /** A peer the variable can carry. */
  predicate Printable(p: Peer) {
    ',' !in p.address && ':' !in p.address && INT_MIN <= p.port <= INT_MAX
  }

  lemma StrHasNo(n: int, c: char)
    requires c == ',' || c == ':'
    ensures c !in Str(n) && Str(n) != ""
  {
  }

  lemma EntryPieces(p: Peer)
    requires ':' !in p.address
    ensures Split(Entry(p), ':') == [p.address, Str(p.port), Flag(p.primary)]
  {
    hide Str, Split;
    StrHasNo(p.port, ':');
    var pieces := [p.address, Str(p.port), Flag(p.primary)];
    SplitJoin(pieces, ':');
    assert pieces[1..][1..] == [Flag(p.primary)];
    assert Join(pieces[1..], ':') == Str(p.port) + ":" + Flag(p.primary);
    assert Entry(p) == Join(pieces, ':');
  }

  lemma ParseEntry(p: Peer)
    requires Printable(p)
    ensures ParsePeer(Entry(p)) == Some(p)
  {
    EntryPieces(p);
    AtoiStr(p.port);
  }

  lemma EntryHasNoComma(p: Peer)
    requires Printable(p)
    ensures ',' !in Entry(p) && Entry(p) != ""
  {
  }

  lemma {:induction false} ParseAll(peers: seq<Peer>, entries: seq<string>)
    requires |entries| == |peers|
    requires forall i :: 0 <= i < |peers| ==> ParsePeer(entries[i]) == Some(peers[i])
    ensures ParseEntries(entries) == Some(peers)
    decreases |peers|
  {
    if peers != [] {
      var n := |peers| - 1;
      ParseAll(peers[..n], entries[..n]);
      ParseOneMore(entries, peers[..n], peers[n]);
      assert peers == peers[..n] + [peers[n]];
    }
  }

  lemma ParseOneMore(entries: seq<string>, before: seq<Peer>, p: Peer)
    requires entries != [] && ParseEntries(entries[..|entries| - 1]) == Some(before)
    requires ParsePeer(entries[|entries| - 1]) == Some(p)
    ensures ParseEntries(entries) == Some(before + [p])
  {
  }

  /** The pieces of a text are made of its characters. */
  lemma {:induction false} PiecesWithin(s: string, d: char, c: char)
    requires c !in s
    ensures forall i :: 0 <= i < |Split(s, d)| ==> c !in Split(s, d)[i]
    decreases |s|
  {
    if s != "" {
      var k := PieceLen(s, d);
      if k < |s| {
        PiecesWithin(s[k + 1..], d, c);
      }
    }
  }

  lemma AtoiRange(s: string)
    requires Atoi(s).Some?
    ensures INT_MIN <= Atoi(s).value <= INT_MAX
  {
  }

  /** Whatever is parsed is printable. */
  lemma {:induction false} ParsedIsPrintable(entries: seq<string>)
    requires forall i :: 0 <= i < |entries| ==> ',' !in entries[i]
    requires ParseEntries(entries).Some?
    ensures forall i :: 0 <= i < |ParseEntries(entries).value| ==> Printable(ParseEntries(entries).value[i])
  {
    if entries != [] {
      var n := |entries| - 1;
      ParsedIsPrintable(entries[..n]);
      PiecesWithin(entries[n], ':', ',');
      AtoiRange(Split(entries[n], ':')[1]);
    }
  }

  lemma {:induction false} OthersPrintable(peers: seq<Peer>, self: Peer)
    ensures (forall i :: 0 <= i < |Others(peers, self)| ==> Printable(Others(peers, self)[i]))
            <==> forall i :: 0 <= i < |peers| && peers[i].port != self.port ==> Printable(peers[i])
  {
    if peers != [] {
      var n := |peers| - 1;
      OthersPrintable(peers[..n], self);
      var before, others := Others(peers[..n], self), Others(peers, self);
      assert forall i :: 0 <= i < |before| ==> others[i] == before[i];
      assert forall i :: 0 <= i < n ==> peers[..n][i] == peers[i];
      if peers[n].port != self.port {
        assert others[|before|] == peers[n];
      }
    }
  }

  /** The other peers, in order, are recovered exactly when each of them is printable. */
  lemma PeersRoundTrip(peers: seq<Peer>, self: Peer)
    ensures ParsePeers(PeersVariable(peers, self)) == Some(Others(peers, self))
            <==> forall i :: 0 <= i < |peers| && peers[i].port != self.port ==> Printable(peers[i])
  {
    OthersPrintable(peers, self);
    var others := Others(peers, self);
    var entries := Entries(others);
    if forall i :: 0 <= i < |others| ==> Printable(others[i]) {
      forall i | 0 <= i < |entries|
        ensures ',' !in entries[i] && entries[i] != "" && ParsePeer(entries[i]) == Some(others[i])
      {
        EntryHasNoComma(others[i]);
        ParseEntry(others[i]);
      }
      ParseAll(others, entries);
      SplitJoin(entries, ',');
    }
    if ParsePeers(PeersVariable(peers, self)) == Some(others) {
      ParsedIsPrintable(Split(PeersVariable(peers, self), ','));
    }
  }

  // ----- Roles -----

  /** `GetSecondaryReplicas`. */
  function Secondaries(peers: seq<Peer>): seq<Peer> {
    if peers == [] then []
    else
      var n := |peers| - 1;
      Secondaries(peers[..n]) + if peers[n].primary then [] else [peers[n]]
  }

  /** The first primary listed, if any. */
  function FirstPrimary(peers: seq<Peer>): (r: Option<Peer>)
    ensures r.None? <==> forall p :: p in peers ==> !p.primary
    ensures r.Some? ==> r.value in peers && r.value.primary
  {
    if peers == [] then None
    else
      assert peers == [peers[0]] + peers[1..];
      if peers[0].primary then Some(peers[0]) else FirstPrimary(peers[1..])
  }

  function Sockets(peers: seq<Peer>): seq<SocketAddress> {
    seq(|peers|, i requires 0 <= i < |peers| => peers[i].Socket())
  }

  /** The role a replica plays, from its own flag and its peers. */
  function RoleOf(primary: bool, peers: seq<Peer>): Role {
    if primary then Primary(Sockets(Secondaries(peers)))
    else
      match FirstPrimary(peers)
      case Some(p) => Secondary(p.Socket())
      case None => Orphan
  }

  predicate DistinctPorts(peers: seq<Peer>) {
    forall i, j :: 0 <= i < j < |peers| ==> peers[i].port != peers[j].port
  }

  lemma {:induction false} OthersIsAll(peers: seq<Peer>, self: Peer)
    requires forall i :: 0 <= i < |peers| ==> peers[i].port != self.port
    ensures Others(peers, self) == peers
  {
    if peers != [] {
      var n := |peers| - 1;
      OthersIsAll(peers[..n], self);
      assert peers[n].port != self.port;
      assert Others(peers, self) == Others(peers[..n], self) + [peers[n]];
      assert peers == peers[..n] + [peers[n]];
    }
  }

  /** With distinct ports, the others are the list without this peer. */
  lemma {:induction false} OthersSkips(peers: seq<Peer>, k: nat)
    requires DistinctPorts(peers) && k < |peers|
    ensures Others(peers, peers[k]) == peers[..k] + peers[k + 1..]
    decreases |peers|
  {
    var n := |peers| - 1;
    assert peers == peers[..n] + [peers[n]];
    if k == n {
      OthersIsAll(peers[..n], peers[k]);
    } else {
      OthersSkips(peers[..n], k);
      assert peers[k + 1..] == peers[..n][k + 1..] + [peers[n]];
    }
  }

  lemma {:induction false} SecondariesIsAll(peers: seq<Peer>)
    requires forall i :: 0 <= i < |peers| ==> !peers[i].primary
    ensures Secondaries(peers) == peers
  {
    if peers != [] {
      var n := |peers| - 1;
      SecondariesIsAll(peers[..n]);
      assert peers == peers[..n] + [peers[n]];
    }
  }

  /** The list the launcher starts: printable peers with distinct ports, number k the only primary. */
  predicate Launchable(peers: seq<Peer>, k: nat) {
    && DistinctPorts(peers)
    && (forall i :: 0 <= i < |peers| ==> Printable(peers[i]))
    && k < |peers|
    && (forall i :: 0 <= i < |peers| ==> (peers[i].primary <==> i == k))
  }

  /**
   Role agreement: every secondary finds the same primary address, and the primary's
   secondaries are the remaining peers in list order.
   */
  lemma RoleAgreement(peers: seq<Peer>, k: nat, i: nat)
    requires Launchable(peers, k) && i < |peers|
    ensures ParsePeers(PeersVariable(peers, peers[i])).Some?
    ensures var seen := ParsePeers(PeersVariable(peers, peers[i])).value;
            RoleOf(peers[i].primary, seen)
            == if i == k then Primary(Sockets(peers[..k] + peers[k + 1..])) else Secondary(peers[k].Socket())
  {
    hide ParsePeers, PeersVariable;
    PeersRoundTrip(peers, peers[i]);
    OthersSkips(peers, i);
    var seen := peers[..i] + peers[i + 1..];
    forall j | 0 <= j < |seen| ensures seen[j].primary <==> i != k && j == if k < i then k else k - 1 {
      assert seen[j] == peers[if j < i then j else j + 1];
    }
    if i == k {
      SecondariesIsAll(seen);
    } else {
      OnlyPrimary(seen, if k < i then k else k - 1);
    }
  }

  lemma {:induction false} OnlyPrimary(peers: seq<Peer>, k: nat)
    requires k < |peers| && forall j :: 0 <= j < |peers| ==> (peers[j].primary <==> j == k)
    ensures FirstPrimary(peers) == Some(peers[k])
    decreases |peers|
  {
  }
}
