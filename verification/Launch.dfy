/** The launcher's peer list gives the replicas the roles of a cluster. */
module Launch {
  import opened ServerSpec
  import opened Peers
  import opened Replication

  /** The primary's address first, then the others in list order. */
  function ConfigOf(peers: seq<Peer>, k: nat): Config
    requires k < |peers|
  {
    [peers[k].Socket()] + Sockets(peers[..k] + peers[k + 1..])
  }

  function PositionOf(k: nat, i: nat): nat {
    if i == k then 0 else if i < k then i + 1 else i
  }

  /**
   Launching any list with one primary yields a valid cluster, in which every replica,
   from its own PEERS variable, takes exactly the role of its position.
   */
  lemma LaunchedRoles(peers: seq<Peer>, k: nat, i: nat)
    requires Launchable(peers, k) && i < |peers|
    ensures var cfg := ConfigOf(peers, k);
            && ValidConfig(cfg) && |cfg| == |peers|
            && cfg[PositionOf(k, i)] == peers[i].Socket()
            && ParsePeers(PeersVariable(peers, peers[i])).Some?
            && RoleOf(peers[i].primary, ParsePeers(PeersVariable(peers, peers[i])).value)
               == RoleIn(cfg, PositionOf(k, i))
  {
    RoleAgreement(peers, k, i);
    ConfigEntries(peers, k);
    var cfg := ConfigOf(peers, k);
    assert cfg[1..] == Sockets(peers[..k] + peers[k + 1..]);
    assert SourceOf(k, PositionOf(k, i)) == i;
    forall a, b | 0 <= a < b < |cfg| ensures cfg[a] != cfg[b] {
      assert peers[SourceOf(k, a)].port != peers[SourceOf(k, b)].port;
    }
  }

  lemma ConfigEntries(peers: seq<Peer>, k: nat)
    requires k < |peers|
    ensures |ConfigOf(peers, k)| == |peers|
    ensures forall a :: 0 <= a < |peers| ==>
              SourceOf(k, a) < |peers| && ConfigOf(peers, k)[a] == peers[SourceOf(k, a)].Socket()
  {
  }

  function SourceOf(k: nat, position: nat): nat {
    if position == 0 then k else if position - 1 < k then position - 1 else position
  }
}
