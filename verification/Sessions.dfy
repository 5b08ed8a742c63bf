/** The session table (server/SessionManager.cpp), as a value: each user's sockets in connection order. */
module Sessions {
  import opened Messages

  const MAX_SESSIONS_PER_USER := 2

  type Table = map<string, seq<SocketAddress>>

  /** `GetUserAddresses`. */
  function Sockets(table: Table, user: string): seq<SocketAddress> {
    if user in table then table[user] else []
  }

  /** `StartSession`: a user at the limit is refused and keeps its sockets. */
  function Started(table: Table, user: string, sender: SocketAddress): Table {
    if user in table && |table[user]| >= MAX_SESSIONS_PER_USER then table
    else table[user := Sockets(table, user) + [sender]]
  }

  function WithoutFirst(sockets: seq<SocketAddress>, a: SocketAddress): (r: seq<SocketAddress>)
    ensures multiset(r) == multiset(sockets) - multiset{a}
    ensures a in sockets ==> |r| == |sockets| - 1
    ensures a !in sockets ==> r == sockets
  {
    if sockets == [] then []
    else
      assert sockets == [sockets[0]] + sockets[1..];
      if sockets[0] == a then sockets[1..] else [sockets[0]] + WithoutFirst(sockets[1..], a)
  }

  /** `EndSession`: one matching socket goes; the entry itself always stays. */
  function Ended(table: Table, user: string, sender: SocketAddress): Table {
    if user in table && sender in table[user] then table[user := WithoutFirst(table[user], sender)] else table
  }

  // ----- Looking a user up by address -----

  /** The order of `std::map<std::string, ...>`. */
  predicate LexLeq(a: string, b: string) {
    a == "" || (b != "" && (a[0] < b[0] || (a[0] == b[0] && LexLeq(a[1..], b[1..]))))
  }

  lemma {:induction false} LexTotal(a: string, b: string)
    ensures LexLeq(a, b) || LexLeq(b, a)
    ensures LexLeq(a, b) && LexLeq(b, a) ==> a == b
  {
    if a != "" && b != "" && a[0] == b[0] {
      LexTotal(a[1..], b[1..]);
      assert a == [a[0]] + a[1..] && b == [b[0]] + b[1..];
    }
  }

  lemma {:induction false} LexTransitive(a: string, b: string, c: string)
    requires LexLeq(a, b) && LexLeq(b, c)
    ensures LexLeq(a, c)
  {
    if a != "" && a[0] == b[0] == c[0] {
      LexTransitive(a[1..], b[1..], c[1..]);
    }
  }

  predicate IsLeast(names: set<string>, k: string) {
    k in names && forall other :: other in names ==> LexLeq(k, other)
  }

  lemma {:induction false} LeastExists(names: set<string>) returns (k: string)
    requires names != {}
    ensures IsLeast(names, k)
    decreases |names|
  {
    var x :| x in names;
    var rest := names - {x};
    LexTotal(x, x);
    if rest == {} {
      k := x;
      assert forall other :: other in names ==> other == x || other in rest;
    } else {
      var y := LeastExists(rest);
      LexTotal(x, y);
      k := if LexLeq(x, y) then x else y;
      forall other | other in names ensures LexLeq(k, other) {
        assert other == x || other in rest;
        if other != x && LexLeq(x, y) {
          LexTransitive(x, y, other);
        }
      }
    }
  }

  ghost function Least(names: set<string>): (k: string)
    requires names != {}
    ensures IsLeast(names, k)
  {
    assert exists k :: IsLeast(names, k) by {
      var k := LeastExists(names);
    }
    var k :| IsLeast(names, k);
    k
  }

  lemma LeastIs(names: set<string>, k: string)
    requires IsLeast(names, k)
    ensures Least(names) == k
  {
    LexTotal(Least(names), k);
  }

  function Holders(table: Table, address: SocketAddress): set<string> {
    set u | u in table && address in table[u]
  }

  /** `GetUserNameByAddressAndIP`: the first user, in map order, that holds the address. */
  ghost function UserAt(table: Table, address: SocketAddress): (r: Option<string>)
    ensures r.Some? <==> exists u :: u in table && address in table[u]
    ensures r.Some? ==> IsLeast(Holders(table, address), r.value)
  {
    if Holders(table, address) == {} then
      assert forall u :: u in table && address in table[u] ==> u in Holders(table, address);
      None
    else Some(Least(Holders(table, address)))
  }
}
