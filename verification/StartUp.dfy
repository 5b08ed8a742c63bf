/**
 When a server can start again at all on the file `Sync` wrote (server/ProfileManager.cpp):
 every word after the handles must split into two known names, or the loader runs into an
 exception or past the pieces. A handle with a comma is enough to bring that about.
 */
module StartUp {
  import opened Messages
  import opened Text
  import opened ProfileStore
  import opened Sessions
  import opened ServerSpec
  import opened ServerInvariants

  // ----- The words of a text -----

  /** The words that repeated extraction yields. */
  function Tokens(s: string): seq<string>
    decreases |s|
  {
    var t := SkipSpace(s);
    if t == "" then [] else [t[..WordLen(t)]] + Tokens(t[WordLen(t)..])
  }

  /** What is left after the first word. */
  function AfterToken(s: string): string {
    var t := SkipSpace(s);
    t[WordLen(t)..]
  }

  predicate EndsBlank(s: string) {
    s != "" && IsSpace(s[|s| - 1])
  }

  lemma {:induction false} SkipKeepsEnd(s: string)
    requires EndsBlank(s)
    ensures SkipSpace(s) == "" || EndsBlank(SkipSpace(s))
  {
    if IsSpace(s[0]) && |s| > 1 {
      SkipKeepsEnd(s[1..]);
    }
  }

  /** One extraction from a text that ends in a blank. */
  lemma ExtractToken(s: string, str: string)
    requires EndsBlank(s)
    ensures Tokens(s) == [] ==> ExtractWord(Stream(s, false, false), str) == (Stream("", true, true), str)
    ensures Tokens(s) != [] ==>
              && ExtractWord(Stream(s, false, false), str) == (Stream(AfterToken(s), false, false), Tokens(s)[0])
              && EndsBlank(AfterToken(s)) && Tokens(AfterToken(s)) == Tokens(s)[1..]
              && IsWord(Tokens(s)[0]) && |AfterToken(s)| < |s|
  {
    SkipKeepsEnd(s);
  }

  /** Reading handles takes the first words; with too few of them it runs into the end. */
  lemma {:induction false} ReadHandlesTokens(s: string, name: string, count: nat, users: seq<User>)
    returns (rest: string)
    requires EndsBlank(s)
    ensures count <= |Tokens(s)| ==>
              && EndsBlank(rest) && Tokens(rest) == Tokens(s)[count..]
              && ReadHandles(Stream(s, false, false), name, count, users)
                 == (Stream(rest, false, false), users + Bare(Tokens(s)[..count]))
    ensures count > |Tokens(s)| ==> ReadHandles(Stream(s, false, false), name, count, users).0.eof
    decreases count
  {
    hide ExtractWord, Tokens, AfterToken;
    rest := s;
    if count == 0 {
      assert users + Bare(Tokens(s)[..0]) == users;
    } else {
      ExtractToken(s, name);
      if Tokens(s) == [] {
        ReadHandlesFailed(Stream("", true, true), name, count - 1, users + [User(name, [])]);
      } else {
        var t := Tokens(s);
        rest := ReadHandlesTokens(AfterToken(s), t[0], count - 1, users + [User(t[0], [])]);
        if count <= |t| {
          assert t[1..][count - 1..] == t[count..];
          assert Bare(t[..count]) == [User(t[0], [])] + Bare(t[1..][..count - 1]);
          assert users + Bare(t[..count]) == users + [User(t[0], [])] + Bare(t[1..][..count - 1]);
        }
      }
    }
  }

  /** Whether a line can be applied depends only on the handles. */
  lemma AppliesByHandle(users: seq<User>, other: seq<User>, line: string)
    requires |users| == |other| && forall k :: 0 <= k < |users| ==> users[k].handle == other[k].handle
    ensures ApplyEdge(users, line).Loaded? == ApplyEdge(other, line).Loaded?
  {
    forall name ensures Find(users, name) == Find(other, name) {
      KnownByHandle(users, other, name);
    }
  }

  /** The edge loop comes to its end exactly when every word can be applied. */
  lemma {:induction false} ReadEdgesTokens(s: string, line: string, users: seq<User>)
    requires EndsBlank(s) && (line == "" || ApplyEdge(users, line).Loaded?)
    ensures ReadEdges(Stream(s, false, false), line, users).Loaded?
            <==> forall k :: 0 <= k < |Tokens(s)| ==> ApplyEdge(users, Tokens(s)[k]).Loaded?
    decreases |s|
  {
    hide ExtractWord, Tokens, AfterToken;
    ExtractToken(s, line);
    var t := Tokens(s);
    if t != [] && ApplyEdge(users, t[0]).Loaded? {
      var users' := ApplyEdge(users, t[0]).users;
      forall l ensures ApplyEdge(users, l).Loaded? == ApplyEdge(users', l).Loaded? {
        AppliesByHandle(users, users', l);
      }
      ReadEdgesTokens(AfterToken(s), t[0], users');
      assert forall k :: 0 <= k < |t| ==> (k == 0 || t[k] == t[1..][k - 1]);
      assert forall k :: 0 <= k < |t| - 1 ==> t[1..][k] == t[k + 1];
    }
  }

  // ----- Exactly when the file can be read -----

  /** The first two pieces of a line are names. */
  predicate Joins(names: seq<string>, line: string) {
    var pieces := Split(line, ',');
    |pieces| >= 2 && pieces[0] in names && pieces[1] in names
  }

  /** The words of the file after the count. */
  function FileWords(users: seq<User>): seq<string> {
    Tokens(Lines(Handles(users) + EdgeWords(users)))
  }

  /** As many words as profiles are taken for handles; each word after them must join two of those. */
  predicate Startable(users: seq<User>) {
    var words, n := FileWords(users), |users|;
    n > INT_MAX || |words| < n || forall k :: n <= k < |words| ==> Joins(words[..n], words[k])
  }

  lemma {:induction false} KnownBare(names: seq<string>, name: string)
    ensures Known(Bare(names), name) <==> name in names
  {
    if name in names {
      var i :| 0 <= i < |names| && names[i] == name;
      assert Bare(names)[i].handle == name;
    }
  }

  lemma AppliesToBare(names: seq<string>, line: string)
    ensures ApplyEdge(Bare(names), line).Loaded? <==> Joins(names, line)
  {
    var pieces := Split(line, ',');
    if |pieces| >= 2 {
      KnownBare(names, pieces[0]);
      KnownBare(names, pieces[1]);
    }
  }

  lemma LeadingNewline(s: string)
    ensures Tokens("\n" + s) == Tokens(s)
  {
    assert ("\n" + s)[1..] == s;
  }

  lemma {:induction false} LinesEndBlank(words: seq<string>)
    ensures EndsBlank("\n" + Lines(words))
  {
    if words != [] {
      LinesEndBlank(words[1..]);
      assert "\n" + Lines(words) == "\n" + words[0] + ("\n" + Lines(words[1..]));
    }
  }

  /** For every graph: the file `Sync` writes can be read exactly when the graph is startable. */
  lemma StartsIff(users: seq<User>)
    ensures Load(Some(Printed(users))).Loaded? <==> Startable(users)
  {
    hide ExtractInt, ExtractWord, Tokens, Joins, ApplyEdge;
    var words, n := Handles(users) + EdgeWords(users), |users|;
    assert [Dec(n)] + Handles(users) + EdgeWords(users) == [Dec(n)] + words;
    ExtractCount(n, words);
    if n <= INT_MAX {
      LinesEndBlank(words);
      LeadingNewline(Lines(words));
      ReadsWords("\n" + Lines(words), n);
    } else {
      ReadHandlesFailed(AtLineEnd(words).(fail := true), "", INT_MAX, []);
      FailedReadsNothing("\n" + Lines(words), ReadHandles(AtLineEnd(words).(fail := true), "", INT_MAX, []).1);
    }
  }

  lemma FailedReadsNothing(s: string, users: seq<User>)
    ensures ReadEdges(Stream(s, false, true), "", users) == Loaded(users)
  {
  }

  /** The two loops over a text, for n handles. */
  lemma ReadsWords(s: string, n: nat)
    requires EndsBlank(s)
    ensures var (st, users) := ReadHandles(Stream(s, false, false), "", n, []);
            && !(st.fail && !st.eof)
            && (ReadEdges(st, "", users).Loaded?
                <==> |Tokens(s)| < n || forall k :: n <= k < |Tokens(s)| ==> Joins(Tokens(s)[..n], Tokens(s)[k]))
  {
    hide ExtractWord, Tokens, Joins, ApplyEdge;
    var t := Tokens(s);
    var rest := ReadHandlesTokens(s, "", n, []);
    if n <= |t| {
      var bare := Bare(t[..n]);
      assert [] + bare == bare;
      ReadEdgesTokens(rest, "", bare);
      forall k | n <= k < |t| ensures ApplyEdge(bare, t[n..][k - n]).Loaded? <==> Joins(t[..n], t[k]) {
        AppliesToBare(t[..n], t[k]);
      }
      assert forall k :: 0 <= k < |t| - n ==> t[n..][k] == t[k + n];
    }
  }

  // ----- Graphs whose handles are words -----

  lemma NoTokens()
    ensures Tokens("") == []
  {
  }

  lemma FirstToken(word: string, rest: string)
    requires IsWord(word) && rest != "" && IsSpace(rest[0])
    ensures Tokens(word + rest) == [word] + Tokens(rest)
  {
    WordLenIs(word, rest);
    assert (word + rest)[0] == word[0] && (word + rest)[|word|..] == rest;
  }

  lemma {:induction false} WordTokens(words: seq<string>)
    requires forall k :: 0 <= k < |words| ==> IsWord(words[k])
    ensures Tokens(Lines(words)) == words
  {
    hide Tokens, IsWord;
    assert Tokens("") == [] by { NoTokens(); }
    if words != [] {
      var s, rest := Lines(words), "\n" + Lines(words[1..]);
      assert s == words[0] + rest;
      FirstToken(words[0], rest);
      WordTokens(words[1..]);
      LeadingNewline(Lines(words[1..]));
    }
  }

  lemma WordsAreTokens(users: seq<User>)
    requires Closed(users) && forall i :: 0 <= i < |users| ==> IsWord(users[i].handle)
    ensures FileWords(users) == Handles(users) + EdgeWords(users)
  {
    hide Tokens, Lines, EdgeWords, IsWord, Closed;
    var names, lines := Handles(users), EdgeWords(users);
    forall k | 0 <= k < |lines| ensures IsWord(lines[k]) {
      var i, j := EdgeWordsAreEdges(users, lines[k]);
      EdgeIsWord(users, i, j);
    }
    forall k | 0 <= k < |names + lines| ensures IsWord((names + lines)[k]) {
    }
    WordTokens(names + lines);
  }

  lemma EdgeIsWord(users: seq<User>, i: nat, j: nat)
    requires Closed(users) && forall k :: 0 <= k < |users| ==> IsWord(users[k].handle)
    requires i < |users| && j < |users[i].followers|
    ensures IsWord(EdgeWord(users[i].handle, users[i].followers[j]))
  {
    assert Known(users, users[i].followers[j]);
    assert IsWord(users[Find(users, users[i].followers[j])].handle);
  }

  /** Every edge has its line. */
  lemma {:induction false} EdgeHasLine(users: seq<User>, i: nat, j: nat)
    requires i < |users| && j < |users[i].followers|
    ensures EdgeWord(users[i].handle, users[i].followers[j]) in EdgeWords(users)
    decreases |users|
  {
    var n := |users| - 1;
    if i < n {
      EdgeHasLine(users[..n], i, j);
    } else {
      assert EdgesOf(users[n])[j] == EdgeWord(users[i].handle, users[i].followers[j]);
    }
  }

  /** With words as handles: exactly when the first two pieces of every edge line are handles. */
  lemma WordsStartIff(users: seq<User>)
    requires Closed(users) && |users| <= INT_MAX && forall i :: 0 <= i < |users| ==> IsWord(users[i].handle)
    ensures Load(Some(Printed(users))).Loaded?
            <==> forall i, j :: 0 <= i < |users| && 0 <= j < |users[i].followers| ==>
                   Joins(Handles(users), EdgeWord(users[i].handle, users[i].followers[j]))
  {
    hide Load, Printed, FileWords, Joins, IsWord, Closed;
    StartsIff(users);
    WordsAreTokens(users);
    var names, lines := Handles(users), EdgeWords(users);
    var words := names + lines;
    assert words[..|users|] == names;
    forall k | 0 <= k < |lines| ensures lines[k] == words[|users| + k] {
    }
    if forall k :: |users| <= k < |words| ==> Joins(names, words[k]) {
      forall i, j | 0 <= i < |users| && 0 <= j < |users[i].followers|
        ensures Joins(names, EdgeWord(users[i].handle, users[i].followers[j]))
      {
        EdgeHasLine(users, i, j);
        var k :| 0 <= k < |lines| && lines[k] == EdgeWord(users[i].handle, users[i].followers[j]);
        assert Joins(names, words[|users| + k]);
      }
    }
    if forall i, j :: 0 <= i < |users| && 0 <= j < |users[i].followers| ==>
      Joins(names, EdgeWord(users[i].handle, users[i].followers[j])) {
      forall k | |users| <= k < |words| ensures Joins(names, words[k]) {
        var i, j := EdgeWordsAreEdges(users, words[k]);
      }
    }
  }

  // ----- Over runs -----

  /** After any run from a readable file: the server starts again exactly on the old file or a startable graph. */
  lemma RestartsIff(role: Role, users: seq<User>, disk: Option<string>, events: seq<Event>)
    requires Load(disk) == Loaded(users)
    ensures var s := Run(role, Booted(users, disk), events);
            Load(s.disk).Loaded? <==> s.disk == disk || Startable(s.users)
  {
    hide Load, Startable, Run;
    RunKeepsDisk(role, Booted(users, disk), events);
    StartsIff(Run(role, Booted(users, disk), events).users);
  }

  /** "a,b" connects, "c" connects and follows it. */
  function CommaRun(home: SocketAddress, other: SocketAddress): seq<Event> {
    [Receive(Packet(Connect, 1, "a,b"), home), Receive(Packet(Connect, 1, "c"), other),
     Receive(Packet(Follow, 2, "a,b"), other)]
  }

  function CommaGraph(): seq<User> {
    [User("a,b", ["c"]), User("c", [])]
  }

  /** Its one edge line is read as an edge between "a" and "b". */
  lemma CommaGraphCannotStart()
    ensures Load(Some(Printed(CommaGraph()))) == Undefined
  {
    hide Load, Printed, IsWord, Closed, Split;
    var users := CommaGraph();
    CommaGraphWords();
    WordsStartIff(users);
    assert Handles(users) == ["a,b", "c"] && EdgeWord(users[0].handle, users[0].followers[0]) == "a,b,c";
    FirstPiece();
    assert !Joins(Handles(users), EdgeWord(users[0].handle, users[0].followers[0]));
  }

  lemma CommaGraphWords()
    ensures Closed(CommaGraph()) && forall i :: 0 <= i < |CommaGraph()| ==> IsWord(CommaGraph()[i].handle)
  {
    var users := CommaGraph();
    FindIs(users, 1);
  }

  lemma FirstPiece()
    ensures |Split("a,b,c", ',')| > 0 && Split("a,b,c", ',')[0] == "a"
  {
    assert PieceLen("a,b,c"[1..], ',') == 0;
    assert PieceLen("a,b,c", ',') == 1;
  }

  lemma RunThree(role: Role, s: State, e: Event, f: Event, g: Event)
    ensures Run(role, s, [e, f, g]) == Step(role, Step(role, Step(role, s, e).0, f).0, g).0
  {
    hide Step;
    assert [e, f, g][..2] == [e, f] && [e, f][..1] == [e] && [e][..0] == [];
    assert Run(role, s, [e]) == Step(role, s, e).0;
    assert Run(role, s, [e, f]) == Step(role, Step(role, s, e).0, f).0;
  }

  lemma FirstConnect(role: Role, s: State, packet: Packet, from: SocketAddress)
    requires packet.kind.Connect? && !Known(s.users, packet.payload) && packet.payload !in s.sessions
    ensures var s' := Step(role, s, Receive(packet, from)).0;
            && s'.users == s.users + [User(packet.payload, [])]
            && s'.sessions == s.sessions[packet.payload := [from]]
  {
    assert [] + [from] == [from];
  }

  /** A comma in a handle is enough: after this run the server cannot start again on its own file. */
  lemma CommaCrash(role: Role, home: SocketAddress, other: SocketAddress)
    requires home != other
    ensures var s := Run(role, Booted([], None), CommaRun(home, other));
            s.users == CommaGraph() && s.disk == Some(Printed(s.users)) && Load(s.disk) == Undefined
  {
    hide Load, Printed, Run, Step;
    var boot := Booted([], None);
    var run := CommaRun(home, other);
    RunThree(role, boot, run[0], run[1], run[2]);
    var s1 := Step(role, boot, run[0]).0;
    FirstConnect(role, boot, run[0].packet, home);
    assert s1.users == [User("a,b", [])] && s1.sessions == map["a,b" := [home]];
    var s2 := Step(role, s1, run[1]).0;
    FirstConnect(role, s1, run[1].packet, other);
    assert s2.users == [User("a,b", []), User("c", [])];
    assert s2.sessions == map["a,b" := [home], "c" := [other]];
    CommaFollow(role, s2, home, other);
    CommaGraphCannotStart();
  }

  lemma CommaFollow(role: Role, s: State, home: SocketAddress, other: SocketAddress)
    requires home != other && s.users == [User("a,b", []), User("c", [])]
    requires s.sessions == map["a,b" := [home], "c" := [other]]
    ensures var s' := Step(role, s, Receive(Packet(Follow, 2, "a,b"), other)).0;
            s'.users == CommaGraph() && s'.disk == Some(Printed(s'.users))
  {
    hide Printed;
    assert Holders(s.sessions, other) == {"c"};
    assert UserAt(s.sessions, other) == Some("c");
    FindIs(s.users, 0);
    FindIs(s.users, 1);
    assert FollowOutcome(s, "a,b", other).NowFollowing?;
    assert [] + ["c"] == ["c"];
    assert WithFollower(s.users, 0, "c") == CommaGraph();
  }
}
