/**
 The profile objects (server/Profile.cpp, server/ProfileManager.cpp): profiles point to
 their followers and to their session; the manager owns the list and the file.

 `ProfileManager.users` is the graph as a value; every method ties it to the objects.
 */
module Profiles {
  import opened Messages
  import opened Text
  import opened ProfileStore

  /** `Session`: shared between the session table and the profile it belongs to. */
  class Session {
    const userHandle: string
    var sockets: seq<SocketAddress>

    constructor (userHandle: string, sender: SocketAddress)
      ensures this.userHandle == userHandle && sockets == [sender]
    {
      this.userHandle, sockets := userHandle, [sender];
    }
  }

  /** What `AddFollower` returns; `NoReturnValue` when it flows off its end. */
  datatype AddResult = Added | AlreadyThere | NoReturnValue

  class Profile {
    const handle: string
    const manager: ProfileManager
    var followers: seq<Profile>
    var session: Session?

    constructor (handle: string, manager: ProfileManager)
      ensures this.handle == handle && this.manager == manager && followers == [] && session == null
    {
      this.handle, this.manager, followers, session := handle, manager, [], null;
    }

    method SetSession(session: Session?)
      modifies this`session
      ensures this.session == session
    {
      this.session := session;
    }

    /** `AddFollower` on profile number `i` of its manager. */
    method AddFollower(ghost i: nat, userHandle: string, saveDisk: bool) returns (r: AddResult)
      requires manager.Valid() && i < |manager.profiles| && manager.profiles[i] == this
      modifies this`followers, manager`users, manager`disk
      ensures manager.Valid() && manager.profiles == old(manager.profiles)
      ensures r.NoReturnValue? <==> !Known(old(manager.users), userHandle)
      ensures r.NoReturnValue? ==> manager.users == old(manager.users)
      ensures !r.NoReturnValue? ==> manager.users == WithFollower(old(manager.users), i, userHandle)
      ensures r.Added? <==> Known(old(manager.users), userHandle) && userHandle !in old(manager.users[i].followers)
      ensures manager.disk == if r.Added? && saveDisk then Some(Printed(manager.users)) else old(manager.disk)
    {
      var p := manager.GetProfileByName(userHandle);
      if p == null {
        return NoReturnValue;
      }
      assert p in followers <==> userHandle in manager.users[i].followers by {
        manager.PointerIffName(i, userHandle);
      }
      if p in followers {
        return AlreadyThere;
      }
      Push(i, userHandle, p);
      if saveDisk {
        manager.Sync();
      }
      return Added;
    }

    /** `followers.push_back`. */
    method Push(ghost i: nat, ghost name: string, p: Profile)
      requires manager.Valid() && i < |manager.profiles| && manager.profiles[i] == this
      requires Known(manager.users, name) && p == manager.profiles[Find(manager.users, name)]
      requires name !in manager.users[i].followers
      modifies this`followers, manager`users
      ensures manager.Valid() && manager.users == WithFollower(old(manager.users), i, name)
    {
      hide Find, Known;
      ghost var before := manager.users;
      followers := followers + [p];
      manager.users := WithFollower(before, i, name);
      ProfileManager.SameNames(before, manager.users);
    }
  }

  class ProfileManager {
    var profiles: seq<Profile>
    var disk: Option<string>
    ghost var users: seq<User>

    /** Object i stands for value i; follower pointers lead to the first profile with the name. */
    ghost predicate Valid()
      reads this, profiles
    {
      && |users| == |profiles|
      && (forall i, j :: 0 <= i < j < |profiles| ==> profiles[i] != profiles[j])
      && (forall i :: 0 <= i < |profiles| ==>
            && profiles[i].handle == users[i].handle && profiles[i].manager == this
            && |profiles[i].followers| == |users[i].followers|)
      && (forall i, j :: 0 <= i < |profiles| && 0 <= j < |users[i].followers| ==>
            && Known(users, users[i].followers[j])
            && profiles[i].followers[j] == profiles[Find(users, users[i].followers[j])])
    }

    constructor (disk: Option<string>)
      ensures Valid() && profiles == [] && users == [] && this.disk == disk
    {
      profiles, users, this.disk := [], [], disk;
    }

    lemma PointerIffName(i: nat, name: string)
      requires Valid() && i < |profiles| && Known(users, name)
      ensures profiles[Find(users, name)] in profiles[i].followers <==> name in users[i].followers
    {
    }

    static lemma SameNames(before: seq<User>, after: seq<User>)
      requires |before| == |after| && forall k :: 0 <= k < |before| ==> before[k].handle == after[k].handle
      ensures forall name :: Find(before, name) == Find(after, name) && Known(before, name) == Known(after, name)
    {
    }

    method GetProfileByName(userHandle: string) returns (p: Profile?)
      requires Valid()
      ensures p == if Known(users, userHandle) then profiles[Find(users, userHandle)] else null
    {
      for i := 0 to |profiles|
        invariant forall k :: 0 <= k < i ==> profiles[k].handle != userHandle
      {
        if profiles[i].handle == userHandle {
          assert users[i].handle == userHandle;
          assert Find(users, userHandle) == i;
          return profiles[i];
        }
      }
      return null;
    }

    method NewProfile(handle: string) returns (p: Profile)
      requires Valid()
      modifies this
      ensures Valid() && fresh(p) && p.handle == handle && p.session == null
      ensures profiles == old(profiles) + [p] && users == old(users) + [User(handle, [])]
      ensures disk == Some(Printed(users))
    {
      p := new Profile(handle, this);
      Append(p);
      Sync();
    }

    /** `profiles.push_back` of a profile without followers. */
    method Append(p: Profile)
      requires Valid() && p.manager == this && p.followers == [] && p !in profiles
      modifies this`profiles, this`users
      ensures Valid() && profiles == old(profiles) + [p] && users == old(users) + [User(p.handle, [])]
    {
      ghost var before := users;
      profiles := profiles + [p];
      users := users + [User(p.handle, [])];
      forall name | Known(before, name) ensures Find(users, name) == Find(before, name) {
        assert users[Find(before, name)].handle == name;
      }
    }

    method Sync()
      requires Valid()
      modifies this`disk
      ensures disk == Some(Printed(users)) && Valid()
    {
      var names := HandleLines();
      var edges := EdgeLines();
      disk := Some(Dec(|profiles|) + "\n" + names + edges);
      LinesOne(Dec(|users|));
      LinesConcat([Dec(|users|)], Handles(users));
      LinesConcat([Dec(|users|)] + Handles(users), EdgeWords(users));
    }

    method HandleLines() returns (text: string)
      requires Valid()
      ensures text == Lines(Handles(users))
    {
      text := "";
      for i := 0 to |profiles|
        invariant text == Lines(Handles(users)[..i])
      {
        text := text + profiles[i].handle + "\n";
        LinesMore(Handles(users)[..i], profiles[i].handle);
        assert Handles(users)[..i + 1] == Handles(users)[..i] + [profiles[i].handle];
      }
      assert Handles(users)[..|users|] == Handles(users);
    }

    method EdgeLines() returns (text: string)
      requires Valid()
      ensures text == Lines(EdgeWords(users))
    {
      text := "";
      for i := 0 to |profiles|
        invariant text == Lines(EdgeWords(users[..i]))
      {
        var more := FollowerLines(i);
        text := text + more;
        LinesConcat(EdgeWords(users[..i]), EdgesOf(users[i]));
        assert users[..i + 1][..i] == users[..i];
      }
      assert users[..|users|] == users;
    }

    method FollowerLines(i: nat) returns (text: string)
      requires Valid() && i < |profiles|
      ensures text == Lines(EdgesOf(users[i]))
    {
      ghost var edges := EdgesOf(users[i]);
      text := "";
      for j := 0 to |profiles[i].followers|
        invariant text == Lines(edges[..j])
      {
        text := text + profiles[i].handle + "," + profiles[i].followers[j].handle + "\n";
        assert profiles[i].followers[j].handle == users[i].followers[j];
        LinesMore(edges[..j], edges[j]);
        assert edges[..j + 1] == edges[..j] + [edges[j]];
      }
      assert edges[..|edges|] == edges;
    }

    static lemma LinesOne(word: string)
      ensures Lines([word]) == word + "\n"
    {
    }

    static lemma LinesMore(words: seq<string>, word: string)
      ensures Lines(words + [word]) == Lines(words) + word + "\n"
    {
      LinesConcat(words, [word]);
      LinesOne(word);
    }

    // ----- ReadProfilesFromFile -----

    /** `profilesMap`: the first profile read under each name. */
    ghost predicate Indexed(byName: map<string, Profile>)
      requires Valid()
      reads this, profiles
    {
      forall name :: (name in byName <==> Known(users, name))
                     && (name in byName ==> byName[name] == profiles[Find(users, name)])
    }

    /** Profiles created by this reading, not connected yet. */
    twostate predicate JustRead()
      reads this, profiles
    {
      forall i :: 0 <= i < |profiles| ==> fresh(profiles[i]) && profiles[i].session == null
    }

    /** False where the code's behaviour is undefined. */
    method ReadProfilesFromFile() returns (ok: bool)
      requires Valid() && profiles == []
      modifies this
      ensures disk == old(disk) && JustRead()
      ensures ok <==> Load(disk).Loaded?
      ensures disk.None? ==> ok && users == []
      ensures ok ==> Valid() && users == Load(disk).users
    {
      if disk.None? {
        return true;
      }
      var (st, count) := ExtractInt(Stream(disk.value, false, false));
      if count.None? {
        return false;
      }
      var byName;
      st, byName := ReadHandleLoop(st, count.value);
      ok := ReadEdgeLoop(st, byName);
    }

    method ReadHandleLoop(st0: Stream, count: int) returns (st: Stream, byName: map<string, Profile>)
      requires Valid() && profiles == []
      modifies this`profiles, this`users
      ensures Valid() && Indexed(byName) && JustRead()
      ensures (st, users) == ReadHandles(st0, "", count, [])
    {
      hide Valid, Indexed, ExtractWord;
      var name := "";
      st, byName := st0, map[];
      NothingRead();
      var i := 0;
      while i < count
        invariant i <= count || i == 0
        invariant Valid() && Indexed(byName) && JustRead()
        invariant ReadHandles(st, name, count - i, users) == ReadHandles(st0, "", count, [])
        decreases count - i
      {
        ghost var was := profiles;
        var (next, word) := ExtractWord(st, name);
        byName := ReadHandle(word, byName);
        assert forall k :: 0 <= k < |was| ==> profiles[k] == profiles[..|was|][k] == was[k];
        st, name, i := next, word, i + 1;
      }
    }

    lemma NothingRead()
      requires Valid() && profiles == []
      ensures users == [] && Indexed(map[])
    {
    }

    /** The body of the handle loop. */
    method ReadHandle(name: string, known: map<string, Profile>) returns (byName: map<string, Profile>)
      requires Valid() && Indexed(known)
      modifies this`profiles, this`users
      ensures Valid() && Indexed(byName) && users == old(users) + [User(name, [])]
      ensures |profiles| == |old(profiles)| + 1 && profiles[..|old(profiles)|] == old(profiles)
      ensures fresh(profiles[|old(profiles)|]) && profiles[|old(profiles)|].session == null
    {
      var p := new Profile(name, this);
      ghost var before := users;
      Append(p);
      byName := if name in known then known else known[name := p];
      forall n ensures (n in byName <==> Known(users, n)) && (n in byName ==> byName[n] == profiles[Find(users, n)]) {
        FindAppended(before, User(name, []), n);
      }
    }

    method ReadEdgeLoop(st0: Stream, byName: map<string, Profile>) returns (ok: bool)
      requires Valid() && Indexed(byName)
      modifies this`users, this`disk, profiles
      ensures profiles == old(profiles) && disk == old(disk)
      ensures forall i :: 0 <= i < |profiles| ==> profiles[i].session == old(profiles[i].session)
      ensures ok <==> ReadEdges(st0, "", old(users)).Loaded?
      ensures ok ==> Valid() && users == ReadEdges(st0, "", old(users)).users
    {
      var st, line := st0, "";
      while !st.eof
        invariant Valid() && Indexed(byName) && profiles == old(profiles) && disk == old(disk)
        invariant forall i :: 0 <= i < |profiles| ==> profiles[i].session == old(profiles[i].session)
        invariant st.fail && !st.eof ==> line == ""
        invariant ReadEdges(st, line, users) == ReadEdges(st0, "", old(users))
        decreases |st.rest|, !st.eof
      {
        var (next, word) := ExtractWord(st, line);
        st, line := next, word;
        if line == "" {
          break;
        }
        ok := ReadEdge(line, byName);
        if !ok {
          return;
        }
      }
      ok := true;
    }

    /** The body of the edge loop. */
    method ReadEdge(line: string, byName: map<string, Profile>) returns (ok: bool)
      requires Valid() && Indexed(byName)
      modifies this`users, this`disk, profiles
      ensures Valid() && Indexed(byName) && profiles == old(profiles) && disk == old(disk)
      ensures forall i :: 0 <= i < |profiles| ==> profiles[i].session == old(profiles[i].session)
      ensures ok <==> ApplyEdge(old(users), line).Loaded?
      ensures ok ==> users == ApplyEdge(old(users), line).users
    {
      var splits := SplitLoop(line, ',');
      if |splits| < 2 || splits[0] !in byName {
        return false;
      }
      ghost var before := users;
      var r := byName[splits[0]].AddFollower(Find(users, splits[0]), splits[1], false);
      ProfileManager.SameNames(before, users);
      ok := !r.NoReturnValue?;
    }
  }
}
