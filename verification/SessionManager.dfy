/** The session table of server/SessionManager.cpp over shared `Session` objects. */
module SessionTable {
  import opened Messages
  import opened Sessions
  import opened Profiles

  class SessionManager {
    var sessions: map<string, Session>
    ghost var table: Table

    /** Each entry is the session of its own key, so no two users share one. */
    ghost predicate Valid()
      reads this, sessions.Values
    {
      && table.Keys == sessions.Keys
      && forall u :: u in sessions ==> sessions[u].userHandle == u && sessions[u].sockets == table[u]
    }

    constructor ()
      ensures Valid() && sessions == map[] && table == map[]
    {
      sessions, table := map[], map[];
    }

    method StartSession(profile: Profile, sender: SocketAddress) returns (session: Session?)
      requires Valid()
      modifies this, if profile.handle in sessions then {sessions[profile.handle]} else {}
      ensures Valid() && table == Started(old(table), profile.handle, sender)
      ensures session == null <==> |Sockets(old(table), profile.handle)| >= 2
      ensures session != null ==> sessions == old(sessions)[profile.handle := session]
      ensures session != null && profile.handle in old(sessions) ==> session == old(sessions)[profile.handle]
      ensures session != null && profile.handle !in old(sessions) ==> fresh(session)
      ensures session == null ==> sessions == old(sessions)
    {
      var user := profile.handle;
      if user !in sessions {
        session := new Session(user, sender);
        sessions := sessions[user := session];
      } else if |sessions[user].sockets| >= MAX_SESSIONS_PER_USER {
        session := null;
      } else {
        session := sessions[user];
        session.sockets := session.sockets + [sender];
        assert sessions == sessions[user := session];
      }
      table := Started(table, user, sender);
    }

    method EndSession(profile: Profile, sender: SocketAddress) returns (ended: nat)
      requires Valid()
      modifies this`table, if profile.handle in sessions then {sessions[profile.handle]} else {}
      ensures Valid() && table == Ended(old(table), profile.handle, sender)
      ensures ended == if sender in Sockets(old(table), profile.handle) then 1 else 0
    {
      ended := 0;
      if profile.handle in sessions {
        var session := sessions[profile.handle];
        var at := FindSocket(session.sockets, sender);
        if at < |session.sockets| {
          ErasedIsWithoutFirst(session.sockets, sender, at);
          session.sockets := session.sockets[..at] + session.sockets[at + 1..];
          ended := 1;
        }
      }
      table := Ended(table, profile.handle, sender);
    }

    /** `std::find_if` over a session's sockets. */
    static method FindSocket(sockets: seq<SocketAddress>, a: SocketAddress) returns (at: nat)
      ensures at <= |sockets| && a !in sockets[..at] && (at < |sockets| ==> sockets[at] == a)
    {
      at := 0;
      while at < |sockets| && sockets[at] != a
        invariant at <= |sockets| && a !in sockets[..at]
      {
        at := at + 1;
      }
    }

    static lemma {:induction false} ErasedIsWithoutFirst(sockets: seq<SocketAddress>, a: SocketAddress, at: nat)
      requires at < |sockets| && sockets[at] == a && a !in sockets[..at]
      ensures sockets[..at] + sockets[at + 1..] == WithoutFirst(sockets, a)
    {
      if at > 0 {
        assert sockets[0] == sockets[..at][0];
        WithoutAt(sockets, at);
        ErasedIsWithoutFirst(sockets[1..], a, at - 1);
      }
    }

    static lemma WithoutAt(sockets: seq<SocketAddress>, at: nat)
      requires 0 < at < |sockets|
      ensures sockets[1..][..at - 1] == sockets[..at][1..]
      ensures sockets[..at] + sockets[at + 1..] == [sockets[0]] + (sockets[1..][..at - 1] + sockets[1..][at..])
    {
    }

    /** Walks the map in key order and stops at the first session with the address. */
    method GetUserNameByAddressAndIP(address: SocketAddress) returns (user: Option<string>)
      requires Valid()
      ensures user == UserAt(table, address)
    {
      var left := sessions.Keys;
      while left != {}
        invariant left <= sessions.Keys
        invariant forall u :: u in sessions && u !in left ==> address !in sessions[u].sockets
        decreases left
      {
        var u := NextKey(left);
        var at := FindSocket(sessions[u].sockets, address);
        if at < |sessions[u].sockets| {
          assert IsLeast(Holders(table, address), u);
          LeastIs(Holders(table, address), u);
          return Some(sessions[u].userHandle);
        }
        left := left - {u};
      }
      return None;
    }

    /** The next key in map order. */
    static method NextKey(left: set<string>) returns (u: string)
      requires left != {}
      ensures IsLeast(left, u)
    {
      ghost var k := LeastExists(left);
      u :| u in left && IsLeast(left, u);
    }

    method GetUserAddresses(handle: string) returns (sockets: seq<SocketAddress>)
      requires Valid()
      ensures sockets == Sockets(table, handle)
    {
      if handle in sessions {
        return sessions[handle].sockets;
      }
      return [];
    }
  }
}
