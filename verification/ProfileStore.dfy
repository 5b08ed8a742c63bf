/**
 The durable profile store (server/ProfileManager.cpp): what `Sync` writes and what
 `ReadProfilesFromFile` makes of a file, down to the characters.

 The read loop tests eof before extracting, so it applies the last edge twice; the main
 result, `RoundTripExactly`, says for which profile graphs reading undoes writing.
 */
module ProfileStore {
  import opened Messages
  import opened Text

  /** A profile: its handle, and the handles of its followers in the order they were added. */
  datatype User = User(handle: string, followers: seq<string>)

  /** First profile with a name (`GetProfileByName`), or the number of profiles when there is none. */
  function Find(users: seq<User>, name: string): (i: nat)
    ensures i <= |users|
    ensures i < |users| ==> users[i].handle == name
    ensures forall k :: 0 <= k < i ==> users[k].handle != name
  {
    if users == [] || users[0].handle == name then 0 else 1 + Find(users[1..], name)
  }

  predicate Known(users: seq<User>, name: string) {
    Find(users, name) < |users|
  }

  function Handles(users: seq<User>): seq<string> {
    seq(|users|, i requires 0 <= i < |users| => users[i].handle)
  }

  predicate NoDuplicates(names: seq<string>) {
    forall i, j :: 0 <= i < j < |names| ==> names[i] != names[j]
  }

  predicate UniqueHandles(users: seq<User>) {
    forall i, j :: 0 <= i < j < |users| ==> users[i].handle != users[j].handle
  }

  predicate Closed(users: seq<User>) {
    forall i, j :: 0 <= i < |users| && 0 <= j < |users[i].followers| ==> Known(users, users[i].followers[j])
  }

  /** Unique handles; follower lists without duplicates, drawn from those handles. */
  predicate WellFormed(users: seq<User>) {
    && UniqueHandles(users)
    && Closed(users)
    && forall i :: 0 <= i < |users| ==> NoDuplicates(users[i].followers)
  }

  // ----- Writing -----

  function EdgeWord(user: string, follower: string): string {
    user + "," + follower
  }

  function EdgesOf(user: User): seq<string> {
    seq(|user.followers|, j requires 0 <= j < |user.followers| => EdgeWord(user.handle, user.followers[j]))
  }

  function EdgeWords(users: seq<User>): seq<string> {
    if users == [] then [] else EdgeWords(users[..|users| - 1]) + EdgesOf(users[|users| - 1])
  }

  /** The file `Sync` writes: the number of profiles, their handles, then one line per edge. */
  function Printed(users: seq<User>): string {
    Lines([Dec(|users|)] + Handles(users) + EdgeWords(users))
  }

  // ----- Reading -----

  /** `Undefined`: an uninitialised count, an out-of-range access or exception, or `AddFollower` without a result. */
  datatype Outcome = Loaded(users: seq<User>) | Undefined

  function WithFollower(users: seq<User>, i: nat, name: string): seq<User>
    requires i < |users|
  {
    if name in users[i].followers then users
    else users[i := users[i].(followers := users[i].followers + [name])]
  }

  /** One round of the edge loop, after the extraction. */
  function ApplyEdge(users: seq<User>, line: string): Outcome {
    var splits := Split(line, ',');
    if |splits| < 2 || !Known(users, splits[0]) || !Known(users, splits[1]) then Undefined
    else Loaded(WithFollower(users, Find(users, splits[0]), splits[1]))
  }

  function ReadHandles(st: Stream, name: string, count: int, users: seq<User>): (Stream, seq<User>)
    decreases count
  {
    if count <= 0 then (st, users)
    else
      var (st', name') := ExtractWord(st, name);
      ReadHandles(st', name', count - 1, users + [User(name', [])])
  }

  function ReadEdges(st: Stream, line: string, users: seq<User>): Outcome
    requires st.fail && !st.eof ==> line == ""
    decreases |st.rest|, !st.eof
  {
    if st.eof then Loaded(users)
    else
      var (st', line') := ExtractWord(st, line);
      if line' == "" then Loaded(users)
      else
        match ApplyEdge(users, line')
        case Undefined => Undefined
        case Loaded(users') => ReadEdges(st', line', users')
  }

  /** `ReadProfilesFromFile`; a missing file leaves no profiles. */
  function Load(disk: Option<string>): Outcome {
    if disk.None? then Loaded([])
    else
      var (st, count) := ExtractInt(Stream(disk.value, false, false));
      if count.None? then Undefined
      else
        var (st', users) := ReadHandles(st, "", count.value, []);
        ReadEdges(st', "", users)
  }

  // ----- Growing the graph -----

  lemma FindAppended(users: seq<User>, u: User, name: string)
    ensures Find(users + [u], name)
            == if Known(users, name) then Find(users, name)
               else if u.handle == name then |users| else |users| + 1
  {
    var more := users + [u];
    assert forall k :: 0 <= k < |users| ==> more[k] == users[k];
    assert more[|users|] == u;
  }

  lemma FollowKeepsClosed(users: seq<User>, t: nat, name: string)
    requires Closed(users) && t < |users| && Known(users, name)
    ensures Closed(WithFollower(users, t, name))
  {
    var more := WithFollower(users, t, name);
    forall i, j | 0 <= i < |more| && 0 <= j < |more[i].followers| ensures Known(more, more[i].followers[j]) {
      KnownByHandle(users, more, more[i].followers[j]);
      assert more[i].followers[j] == name || more[i].followers[j] == users[i].followers[j];
    }
  }

  lemma FollowKeepsDistinct(users: seq<User>, t: nat, name: string)
    requires t < |users| && forall i :: 0 <= i < |users| ==> NoDuplicates(users[i].followers)
    ensures forall i :: 0 <= i < |users| ==> NoDuplicates(WithFollower(users, t, name)[i].followers)
  {
  }

  // ----- Reading back what was written -----

  predicate CommaFreeEdges(user: User) {
    user.followers != [] ==>
      ',' !in user.handle && forall j :: 0 <= j < |user.followers| ==> ',' !in user.followers[j]
  }

  /** The graphs the file format can carry: a caller can check this on the handles alone. */
  predicate Storable(users: seq<User>) {
    && |users| <= INT_MAX
    && (forall i :: 0 <= i < |users| ==> IsWord(users[i].handle))
    && (forall i :: 0 <= i < |users| ==> CommaFreeEdges(users[i]))
  }

  /** The graph after the first i follower lists and the first j followers of the next one. */
  function Stage(users: seq<User>, i: nat, j: nat): seq<User>
    requires i <= |users| && (i < |users| ==> j <= |users[i].followers|)
  {
    seq(|users|, k requires 0 <= k < |users| =>
      if k < i then users[k]
      else User(users[k].handle, if k == i then users[k].followers[..j] else []))
  }

  function ApplyAll(users: seq<User>, lines: seq<string>): Outcome
    decreases lines
  {
    if lines == [] then Loaded(users)
    else
      match ApplyEdge(users, lines[0])
      case Undefined => Undefined
      case Loaded(users') => ApplyAll(users', lines[1..])
  }

  lemma {:induction false} ApplyAllConcat(users: seq<User>, a: seq<string>, b: seq<string>)
    requires ApplyAll(users, a).Loaded?
    ensures ApplyAll(users, a + b) == ApplyAll(ApplyAll(users, a).users, b)
    decreases a
  {
    if a == [] {
      assert a + b == b;
    } else {
      assert (a + b)[0] == a[0] && (a + b)[1..] == a[1..] + b;
      assert ApplyAll(users, a + b) == ApplyAll(ApplyEdge(users, a[0]).users, a[1..] + b);
      ApplyAllConcat(ApplyEdge(users, a[0]).users, a[1..], b);
    }
  }

  lemma ApplyOne(users: seq<User>, line: string)
    ensures ApplyAll(users, [line]) == ApplyEdge(users, line)
  {
  }

  lemma ApplyLast(users: seq<User>, lines: seq<string>, line: string)
    requires ApplyAll(users, lines).Loaded?
    ensures ApplyAll(users, lines + [line]) == ApplyEdge(ApplyAll(users, lines).users, line)
  {
    ApplyAllConcat(users, lines, [line]);
    ApplyOne(ApplyAll(users, lines).users, line);
  }

  lemma FindIs(users: seq<User>, i: nat)
    requires UniqueHandles(users) && i < |users|
    ensures Find(users, users[i].handle) == i
  {
  }

  /** The names a graph knows depend only on its handles. */
  lemma KnownByHandle(users: seq<User>, other: seq<User>, name: string)
    requires |users| == |other| && forall k :: 0 <= k < |users| ==> users[k].handle == other[k].handle
    ensures Find(users, name) == Find(other, name)
  {
  }

  lemma SplitEdge(user: string, follower: string)
    requires ',' !in user && ',' !in follower && follower != ""
    ensures Split(EdgeWord(user, follower), ',') == [user, follower]
  {
    var pieces := [user, follower];
    SplitJoin(pieces, ',');
    assert Join(pieces[1..], ',') == follower;
    assert Join(pieces, ',') == EdgeWord(user, follower);
  }

  lemma FollowersAreStorable(users: seq<User>, i: nat, j: nat)
    requires Closed(users) && Storable(users) && i < |users| && j < |users[i].followers|
    ensures IsWord(users[i].followers[j]) && ',' !in users[i].followers[j] && ',' !in users[i].handle
  {
  }

  lemma ApplyNextEdge(users: seq<User>, i: nat, j: nat)
    requires WellFormed(users) && Storable(users) && i < |users| && j < |users[i].followers|
    ensures ApplyEdge(Stage(users, i, j), EdgeWord(users[i].handle, users[i].followers[j]))
            == Loaded(Stage(users, i, j + 1))
  {
    var stage := Stage(users, i, j);
    var name := users[i].followers[j];
    FollowersAreStorable(users, i, j);
    SplitEdge(users[i].handle, name);
    FindIs(users, i);
    KnownByHandle(users, stage, users[i].handle);
    KnownByHandle(users, stage, name);
    assert Known(users, name);
    StageGrows(users, i, j);
  }

  lemma StageGrows(users: seq<User>, i: nat, j: nat)
    requires i < |users| && j < |users[i].followers| && NoDuplicates(users[i].followers)
    ensures WithFollower(Stage(users, i, j), i, users[i].followers[j]) == Stage(users, i, j + 1)
  {
    var stage, next := Stage(users, i, j), Stage(users, i, j + 1);
    var name := users[i].followers[j];
    assert stage[i].followers == users[i].followers[..j];
    assert users[i].followers[..j + 1] == users[i].followers[..j] + [name];
    forall k | 0 <= k < |users| ensures WithFollower(stage, i, name)[k] == next[k] {
    }
  }

  lemma {:induction false} ApplyUser(users: seq<User>, i: nat, j: nat)
    requires WellFormed(users) && Storable(users) && i < |users| && j <= |users[i].followers|
    ensures ApplyAll(Stage(users, i, 0), EdgesOf(users[i])[..j]) == Loaded(Stage(users, i, j))
  {
    hide ApplyEdge, Storable;
    if j > 0 {
      var edges := EdgesOf(users[i]);
      ApplyUser(users, i, j - 1);
      ApplyNextEdge(users, i, j - 1);
      assert edges[..j] == edges[..j - 1] + [edges[j - 1]];
      ApplyLast(Stage(users, i, 0), edges[..j - 1], edges[j - 1]);
    }
  }

  lemma StageFull(users: seq<User>, i: nat)
    requires i < |users|
    ensures Stage(users, i, |users[i].followers|) == Stage(users, i + 1, 0)
  {
    var a, b := Stage(users, i, |users[i].followers|), Stage(users, i + 1, 0);
    forall k | 0 <= k < |users| ensures a[k] == b[k] {
      assert k == i ==> users[k].followers[..|users[k].followers|] == users[k].followers;
    }
  }

  lemma {:induction false} ApplyUsers(users: seq<User>, i: nat)
    requires WellFormed(users) && Storable(users) && i <= |users|
    ensures ApplyAll(Stage(users, 0, 0), EdgeWords(users[..i])) == Loaded(Stage(users, i, 0))
  {
    hide ApplyEdge, Storable, WellFormed;
    if i > 0 {
      var user := users[i - 1];
      ApplyUsers(users, i - 1);
      ApplyUser(users, i - 1, |user.followers|);
      assert EdgesOf(user)[..|user.followers|] == EdgesOf(user);
      StageFull(users, i - 1);
      assert users[..i][..i - 1] == users[..i - 1];
      ApplyAllConcat(Stage(users, 0, 0), EdgeWords(users[..i - 1]), EdgesOf(user));
    }
  }

  /** Every edge line names an edge of the graph. */
  lemma {:induction false} EdgeWordsAreEdges(users: seq<User>, w: string) returns (i: nat, j: nat)
    requires w in EdgeWords(users)
    ensures i < |users| && j < |users[i].followers| && w == EdgeWord(users[i].handle, users[i].followers[j])
  {
    var n := |users| - 1;
    if w in EdgeWords(users[..n]) {
      i, j := EdgeWordsAreEdges(users[..n], w);
    } else {
      i := n;
      j :| 0 <= j < |EdgesOf(users[n])| && EdgesOf(users[n])[j] == w;
    }
  }

  /** Applying an edge that is already there changes nothing: why reading the last line twice is harmless. */
  lemma ReapplyEdge(users: seq<User>, i: nat, j: nat)
    requires WellFormed(users) && Storable(users) && i < |users| && j < |users[i].followers|
    ensures ApplyEdge(users, EdgeWord(users[i].handle, users[i].followers[j])) == Loaded(users)
  {
    FollowersAreStorable(users, i, j);
    SplitEdge(users[i].handle, users[i].followers[j]);
    FindIs(users, i);
    assert Known(users, users[i].followers[j]);
  }

  /** The eof-tested loop over whole lines: every line once, then the last one again. */
  lemma {:induction false} ReadEdgesOverLines(lines: seq<string>, line: string, users: seq<User>)
    requires forall k :: 0 <= k < |lines| ==> IsWord(lines[k])
    ensures ReadEdges(AtLineEnd(lines), line, users)
            == if lines == [] && line == "" then Loaded(users)
               else ApplyAll(users, lines + [if lines == [] then line else lines[|lines| - 1]])
    decreases lines
  {
    if lines == [] {
      ExtractAtEnd(line);
      ApplyOne(users, line);
      assert [] + [line] == [line];
    } else {
      ExtractNextWord(lines, line);
      var again := lines[|lines| - 1];
      assert (lines + [again])[1..] == lines[1..] + [again];
      if ApplyEdge(users, lines[0]).Loaded? {
        ReadEdgesOverLines(lines[1..], lines[0], ApplyEdge(users, lines[0]).users);
      }
    }
  }

  function Bare(names: seq<string>): seq<User> {
    seq(|names|, k requires 0 <= k < |names| => User(names[k], []))
  }

  lemma {:induction false} ReadHandlesOverLines(names: seq<string>, lines: seq<string>, name: string, users: seq<User>)
    requires forall k :: 0 <= k < |names| ==> IsWord(names[k])
    ensures ReadHandles(AtLineEnd(names + lines), name, |names|, users)
            == (AtLineEnd(lines), users + Bare(names))
    decreases names
  {
    if names == [] {
      assert names + lines == lines;
      assert users + Bare(names) == users;
    } else {
      assert (names + lines)[1..] == names[1..] + lines;
      ExtractNextWord(names + lines, name);
      ReadHandlesOverLines(names[1..], lines, names[0], users + [User(names[0], [])]);
      assert users + Bare(names) == users + [User(names[0], [])] + Bare(names[1..]);
    }
  }

  lemma WordsAreRead(users: seq<User>)
    requires Closed(users) && Storable(users)
    ensures forall k :: 0 <= k < |EdgeWords(users)| ==> IsWord(EdgeWords(users)[k])
  {
    var lines := EdgeWords(users);
    forall k | 0 <= k < |lines| ensures IsWord(lines[k]) {
      var i, j := EdgeWordsAreEdges(users, lines[k]);
      FollowersAreStorable(users, i, j);
    }
  }

  /** The edge loop on the lines of a storable graph, last line read twice included. */
  lemma ReadBackEdges(users: seq<User>)
    requires WellFormed(users) && Storable(users)
    ensures ReadEdges(AtLineEnd(EdgeWords(users)), "", Stage(users, 0, 0)) == Loaded(users)
  {
    var bare, lines := Stage(users, 0, 0), EdgeWords(users);
    ApplyUsers(users, |users|);
    assert users[..|users|] == users && Stage(users, |users|, 0) == users;
    WordsAreRead(users);
    ReadEdgesOverLines(lines, "", bare);
    if lines != [] {
      var again := lines[|lines| - 1];
      var i, j := EdgeWordsAreEdges(users, again);
      ReapplyEdge(users, i, j);
      ApplyLast(bare, lines, again);
    }
  }

  /** Reading what `Sync` wrote rebuilds every storable graph, order included. */
  lemma RoundTrip(users: seq<User>)
    requires WellFormed(users) && Storable(users)
    ensures Load(Some(Printed(users))) == Loaded(users)
  {
    var names, lines := Handles(users), EdgeWords(users);
    assert [Dec(|users|)] + names + lines == [Dec(|users|)] + (names + lines);
    ExtractCount(|users|, names + lines);
    ReadHandlesOverLines(names, lines, "", []);
    assert [] + Bare(names) == Stage(users, 0, 0);
    ReadBackEdges(users);
  }

  // ----- What reading can never produce -----

  /**
   The handles read are words, unless nothing could be read from the start; then every
   handle is the string the loop began with and the stream is at its end or failed.
   */
  lemma {:induction false} ReadHandlesYields(st: Stream, name: string, count: nat, users: seq<User>)
    ensures var (st', users') := ReadHandles(st, name, count, users);
            && |users'| == |users| + count && users' [..|users|] == users
            && (st'.fail && !st'.eof ==> st.fail)
            && (forall k :: |users| <= k < |users'| ==> users'[k].followers == [])
            && (IsWord(name) ==> forall k :: |users| <= k < |users'| ==> IsWord(users'[k].handle))
            && (count > 0 ==>
                  || (forall k :: |users| <= k < |users'| ==> IsWord(users'[k].handle))
                  || (st'.fail && forall k :: |users| <= k < |users'| ==> users'[k].handle == name))
    decreases count
  {
    if count > 0 {
      var (st1, name1) := ExtractWord(st, name);
      ReadHandlesYields(st1, name1, count - 1, users + [User(name1, [])]);
      var users' := ReadHandles(st, name, count, users).1;
      assert users'[..|users| + 1] == users + [User(name1, [])];
      assert users'[|users|] == User(name1, []);
      if st1.fail {
        ReadHandlesFailed(st1, name1, count - 1, users + [User(name1, [])]);
      }
    }
  }

  lemma {:induction false} ReadHandlesFailed(st: Stream, name: string, count: nat, users: seq<User>)
    requires st.fail
    ensures ReadHandles(st, name, count, users).0 == st
    ensures |ReadHandles(st, name, count, users).1| == |users| + count
    ensures forall k :: |users| <= k < |users| + count ==> ReadHandles(st, name, count, users).1[k].handle == name
    ensures ReadHandles(st, name, count, users).1[..|users|] == users
    decreases count
  {
    if count > 0 {
      var more := users + [User(name, [])];
      ReadHandlesFailed(st, name, count - 1, more);
      var users' := ReadHandles(st, name, count, users).1;
      assert users'[|users|] == users'[..|users| + 1][|users|];
      assert users'[..|users|] == users'[..|users| + 1][..|users|];
    }
  }

  /** Reading edges keeps the handles, and only ever adds edges between comma-free names. */
  lemma {:induction false} ReadEdgesYields(st: Stream, line: string, users: seq<User>)
    requires st.fail && !st.eof ==> line == ""
    requires forall i :: 0 <= i < |users| ==> CommaFreeEdges(users[i])
    ensures var r := ReadEdges(st, line, users);
            r.Loaded? ==>
              && |r.users| == |users|
              && (forall i :: 0 <= i < |users| ==> r.users[i].handle == users[i].handle)
              && (forall i :: 0 <= i < |users| ==> CommaFreeEdges(r.users[i]))
    decreases |st.rest|, !st.eof
  {
    if !st.eof {
      var (st', line') := ExtractWord(st, line);
      if line' != "" && ApplyEdge(users, line').Loaded? {
        var users' := ApplyEdge(users, line').users;
        forall i | 0 <= i < |users| ensures CommaFreeEdges(users'[i]) {
          assert CommaFreeEdges(users[i]);
        }
        ReadEdgesYields(st', line', users');
      }
    }
  }

  /** Reading edges keeps follower lists free of duplicates and within the known handles. */
  lemma {:induction false} ReadEdgesKeepsGraph(st: Stream, line: string, users: seq<User>)
    requires st.fail && !st.eof ==> line == ""
    requires Closed(users) && forall i :: 0 <= i < |users| ==> NoDuplicates(users[i].followers)
    ensures var r := ReadEdges(st, line, users);
            r.Loaded? ==> Closed(r.users) && forall i :: 0 <= i < |r.users| ==> NoDuplicates(r.users[i].followers)
    decreases |st.rest|, !st.eof
  {
    hide Closed, NoDuplicates;
    if !st.eof {
      var (st', line') := ExtractWord(st, line);
      if line' != "" && ApplyEdge(users, line').Loaded? {
        var splits := Split(line', ',');
        var t := Find(users, splits[0]);
        FollowKeepsClosed(users, t, splits[1]);
        FollowKeepsDistinct(users, t, splits[1]);
        ReadEdgesKeepsGraph(st', line', WithFollower(users, t, splits[1]));
      }
    }
  }

  /** Whatever file was read, the graph is well-formed as soon as its handles differ. */
  lemma LoadedIsWellFormed(disk: Option<string>)
    requires Load(disk).Loaded? && UniqueHandles(Load(disk).users)
    ensures WellFormed(Load(disk).users)
  {
    if disk.Some? {
      var (st, count) := ExtractInt(Stream(disk.value, false, false));
      var (st', bare) := ReadHandles(st, "", count.value, []);
      if count.value > 0 {
        ReadHandlesYields(st, "", count.value, []);
      }
      assert forall i :: 0 <= i < |bare| ==> bare[i].followers == [];
      ReadEdgesKeepsGraph(st', "", bare);
    }
  }

  /** The exception: a single profile with an empty handle reads back, because every extraction fails. */
  lemma LoneEmptyHandle()
    ensures Load(Some(Printed([User("", [])]))) == Loaded([User("", [])])
  {
    var users := [User("", [])];
    assert Handles(users) == [""];
    assert users[..0] == [] && EdgeWords(users) == [];
    assert [Dec(1)] + [""] + [] == [Dec(1)] + [""];
    ExtractCount(1, [""]);
    ExtractBlankLine("");
    assert ReadHandles(Stream("", true, true), "", 0, [User("", [])]) == (Stream("", true, true), [User("", [])]);
    assert [] + [User("", [])] == [User("", [])];
  }

  lemma ExtractBlankLine(str: string)
    ensures ExtractWord(AtLineEnd([""]), str) == (Stream("", true, true), str)
  {
    var rest := "\n" + Lines([""]);
    assert rest == "\n\n" && rest[1..][1..] == "";
    assert SkipSpace(rest[1..][1..]) == "" && SkipSpace(rest[1..]) == "" && SkipSpace(rest) == "";
  }

  /** An empty handle after another one is read back as that one: `Sync` can write a file that names a handle twice. */
  lemma EmptyHandleRepeats(name: string)
    requires IsWord(name)
    ensures Load(Some(Printed([User(name, []), User("", [])]))) == Loaded([User(name, []), User(name, [])])
  {
    var users := [User(name, []), User("", [])];
    assert Handles(users) == [name, ""];
    assert users[..1][..0] == [] && EdgesOf(users[0]) == [] && EdgesOf(users[1]) == [];
    assert EdgeWords(users[..1]) == EdgeWords([]) + EdgesOf(users[0]) == [];
    assert EdgeWords(users) == [];
    assert [Dec(2)] + [name, ""] + [] == [Dec(2)] + [name, ""];
    ExtractCount(2, [name, ""]);
    ReadTwice(name);
  }

  lemma ReadTwice(name: string)
    requires IsWord(name)
    ensures ReadHandles(AtLineEnd([name, ""]), "", 2, [])
            == (Stream("", true, true), [User(name, []), User(name, [])])
  {
    hide ExtractWord;
    ExtractNextWord([name, ""], "");
    assert [name, ""][1..] == [""];
    ExtractBlankLine(name);
    var end := Stream("", true, true);
    var twice := [User(name, [])] + [User(name, [])];
    assert ReadHandles(end, name, 0, twice) == (end, twice);
    assert ReadHandles(AtLineEnd([""]), name, 1, [User(name, [])]) == (end, twice);
    assert [] + [User(name, [])] == [User(name, [])] && twice == [User(name, []), User(name, [])];
    assert ReadHandles(AtLineEnd([name, ""]), "", 2, []) == ReadHandles(AtLineEnd([""]), name, 1, [User(name, [])]);
  }

  /** Every stored graph that reads back is storable, but for that exception. */
  lemma ReadBackIsStorable(users: seq<User>)
    requires UniqueHandles(users) && Load(Some(Printed(users))) == Loaded(users)
    ensures Storable(users) || users == [User("", [])]
  {
    var names, lines := Handles(users), EdgeWords(users);
    assert [Dec(|users|)] + names + lines == [Dec(|users|)] + (names + lines);
    ExtractCount(|users|, names + lines);
    var st := ExtractInt(Stream(Printed(users), false, false)).0;
    var count := if |users| <= INT_MAX then |users| else INT_MAX;
    var (st', bare) := ReadHandles(st, "", count, []);
    assert ReadEdges(st', "", bare) == Loaded(users);
    WhatIsRead(st, count, users);
  }

  /** A graph with unique handles that comes out of reading. */
  lemma WhatIsRead(st: Stream, count: nat, users: seq<User>)
    requires UniqueHandles(users) && count <= INT_MAX
    requires var (st', bare) := ReadHandles(st, "", count, []); ReadEdges(st', "", bare) == Loaded(users)
    ensures |users| == count
    ensures Storable(users) || users == [User("", [])]
  {
    ReadHandlesYields(st, "", count, []);
    var (st', bare) := ReadHandles(st, "", count, []);
    forall i | 0 <= i < |bare| ensures CommaFreeEdges(bare[i]) {
      assert bare[i].followers == [];
    }
    ReadEdgesYields(st', "", bare);
    assert |users| == |bare|;
    if |users| > 0 && !IsWord(users[0].handle) {
      assert ReadEdges(st', "", bare) == Loaded(bare);
      FirstTwoDiffer(users);
    }
  }

  lemma FirstTwoDiffer(users: seq<User>)
    requires UniqueHandles(users)
    ensures |users| <= 1 || users[0].handle != users[1].handle
  {
  }

  /** Exactly which well-formed graphs survive a restart. */
  lemma RoundTripExactly(users: seq<User>)
    requires WellFormed(users)
    ensures Load(Some(Printed(users))) == Loaded(users) <==> Storable(users) || users == [User("", [])]
  {
    if Storable(users) {
      RoundTrip(users);
    }
    if Load(Some(Printed(users))) == Loaded(users) {
      ReadBackIsStorable(users);
    }
    LoneEmptyHandle();
  }
}
