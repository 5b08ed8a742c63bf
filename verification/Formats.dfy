/**
 The texts themselves, character by character: which characters are blanks, how numbers are
 written and read, the layout of the profile file and of the PEERS variable, and what start-up
 makes of files that do not begin with a count.
 */
module Formats {
  import opened Messages
  import opened Text
  import opened ProfileStore
  import Peers
  import opened ServerSpec

  // ----- Characters and numbers -----

  /** The blanks of the C locale, and the range of a 32-bit int. */
  lemma Blanks(c: char)
    ensures IsSpace(c) <==> c in {' ', '\t', '\n', '\U{B}', '\U{C}', '\r'}
    ensures IsDigit(c) <==> c in "0123456789"
    ensures INT_MIN == -2147483648 && INT_MAX == 2147483647
  {
    assert "0123456789"[0] == '0' && "0123456789"[1] == '1' && "0123456789"[2] == '2' && "0123456789"[3] == '3'
        && "0123456789"[4] == '4' && "0123456789"[5] == '5' && "0123456789"[6] == '6' && "0123456789"[7] == '7'
        && "0123456789"[8] == '8' && "0123456789"[9] == '9';
    if IsDigit(c) {
      assert "0123456789"[c as int - '0' as int] == c;
    }
  }

  lemma NumberSamples()
    ensures Dec(0) == "0" && Dec(2022) == "2022" && Str(-17) == "-17"
  {
    assert Dec(2) == "2" && Dec(20) == "20" && Dec(202) == "202";
    assert Dec(1) == "1" && Dec(17) == "17";
  }

  lemma {:induction false} SkipBlanks(blanks: string, rest: string)
    requires forall i :: 0 <= i < |blanks| ==> IsSpace(blanks[i])
    requires rest == "" || !IsSpace(rest[0])
    ensures SkipSpace(blanks + rest) == rest
  {
    if blanks == "" {
      assert blanks + rest == rest;
    } else {
      SkipBlanks(blanks[1..], rest);
      assert (blanks + rest)[1..] == blanks[1..] + rest;
    }
  }

  /** A sign, the digits, and whatever follows them. */
  lemma ScanReads(n: nat, rest: string)
    requires rest == "" || !IsDigit(rest[0])
    ensures ScanInt(Dec(n) + rest).value == n
    ensures ScanInt("+" + Dec(n) + rest).value == n
    ensures ScanInt("-" + Dec(n) + rest).value == 0 - n
  {
    hide Dec, Value, DigitsLen;
    var digits := Dec(n);
    ValueOfDec(n);
    DigitsLenOf(digits, rest);
    ScanUnsigned(digits, rest);
    ScanSigned(digits, rest);
    var plus := "+" + digits + rest;
    assert plus[1..] == digits + rest && plus[1..1 + |digits|] == digits;
  }

  /** `atoi`: blanks, a sign, the digits; whatever follows them is ignored. */
  lemma AtoiReads(blanks: string, n: nat, rest: string)
    requires forall i :: 0 <= i < |blanks| ==> IsSpace(blanks[i])
    requires rest == "" || !IsDigit(rest[0])
    ensures Atoi(blanks + (Dec(n) + rest)) == if n <= 2147483647 then Some(n as int) else None
    ensures Atoi(blanks + ("+" + Dec(n) + rest)) == if n <= 2147483647 then Some(n as int) else None
    ensures Atoi(blanks + ("-" + Dec(n) + rest)) == if n <= 2147483648 then Some(0 - (n as int)) else None
  {
    hide Dec, ScanInt, SkipSpace;
    SkipBlanks(blanks, Dec(n) + rest);
    SkipBlanks(blanks, "+" + Dec(n) + rest);
    SkipBlanks(blanks, "-" + Dec(n) + rest);
    ScanReads(n, rest);
  }

  /** A number for the count out of range is stored as the nearest int, with fail set. */
  lemma CountOutOfRange(n: nat, rest: string)
    requires rest == "" || !IsDigit(rest[0])
    ensures n > 2147483647 ==>
              && ExtractInt(Stream(Dec(n) + rest, false, false)).1 == Some(2147483647)
              && ExtractInt(Stream(Dec(n) + rest, false, false)).0.fail
    ensures n > 2147483648 ==>
              && ExtractInt(Stream("-" + Dec(n) + rest, false, false)).1 == Some(-2147483648)
              && ExtractInt(Stream("-" + Dec(n) + rest, false, false)).0.fail
  {
    hide Dec, Value, DigitsLen;
    var digits := Dec(n);
    SkipBlanks("", digits + rest);
    SkipBlanks("", "-" + digits + rest);
    assert "" + (digits + rest) == digits + rest && "" + ("-" + digits + rest) == "-" + digits + rest;
    ValueOfDec(n);
    DigitsLenOf(digits, rest);
    ScanUnsigned(digits, rest);
    ScanSigned(digits, rest);
  }

  /** A word that the file ends with sets eof, so a last line without a newline is applied once. */
  lemma UnterminatedWord(word: string, str: string, users: seq<User>)
    requires IsWord(word)
    ensures ExtractWord(Stream(word, false, false), str) == (Stream("", true, false), word)
    ensures ReadEdges(Stream(word, false, false), str, users) == ApplyEdge(users, word)
  {
    assert SkipSpace(word) == word;
    WordLenWhole(word);
    assert word[|word|..] == "" && word[..|word|] == word;
  }

  lemma {:induction false} WordLenWhole(word: string)
    requires forall i :: 0 <= i < |word| ==> !IsSpace(word[i])
    ensures WordLen(word) == |word|
  {
    if word != "" {
      WordLenWhole(word[1..]);
    }
  }

  /** No digits: zero. */
  lemma AtoiWithoutDigits(blanks: string, rest: string)
    requires forall i :: 0 <= i < |blanks| ==> IsSpace(blanks[i])
    requires rest == "" || (!IsSpace(rest[0]) && !IsDigit(rest[0]) && rest[0] != '+' && rest[0] != '-')
    ensures Atoi(blanks + rest) == Some(0)
  {
    SkipBlanks(blanks, rest);
  }

  // ----- The profile file -----

  /** One line per handle. */
  function HandleText(users: seq<User>): string {
    if users == [] then "" else users[0].handle + "\n" + HandleText(users[1..])
  }

  /** One "followed,follower" line per follower. */
  function FollowerText(handle: string, followers: seq<string>): string {
    if followers == [] then "" else handle + "," + followers[0] + "\n" + FollowerText(handle, followers[1..])
  }

  function EdgeText(users: seq<User>): string {
    if users == [] then "" else FollowerText(users[0].handle, users[0].followers) + EdgeText(users[1..])
  }

  /** The file, character by character: the count, the handles, the edges profile by profile. */
  lemma FileLayout(users: seq<User>)
    ensures Printed(users) == Dec(|users|) + "\n" + HandleText(users) + EdgeText(users)
  {
    hide Lines, Dec;
    var count := [Dec(|users|)];
    LinesConcat(count + Handles(users), EdgeWords(users));
    LinesConcat(count, Handles(users));
    OneLine(Dec(|users|));
    HandleLayout(users);
    EdgeLayout(users);
  }

  lemma OneLine(word: string)
    ensures Lines([]) == "" && Lines([word]) == word + "\n"
  {
  }

  lemma {:induction false} HandleLayout(users: seq<User>)
    ensures Lines(Handles(users)) == HandleText(users)
  {
    if users != [] {
      HandleLayout(users[1..]);
      assert Handles(users)[1..] == Handles(users[1..]);
    }
  }

  lemma {:induction false} FollowerLayout(user: User)
    ensures Lines(EdgesOf(user)) == FollowerText(user.handle, user.followers)
    decreases |user.followers|
  {
    if user.followers != [] {
      var rest := User(user.handle, user.followers[1..]);
      FollowerLayout(rest);
      assert EdgesOf(user)[1..] == EdgesOf(rest);
    }
  }

  lemma {:induction false} EdgeLayout(users: seq<User>)
    ensures Lines(EdgeWords(users)) == EdgeText(users)
  {
    hide EdgesOf;
    if users == [] {
      OneLine("");
    } else {
      EdgeWordsFront(users);
      LinesConcat(EdgesOf(users[0]), EdgeWords(users[1..]));
      FollowerLayout(users[0]);
      EdgeLayout(users[1..]);
    }
  }

  lemma {:induction false} EdgeWordsFront(users: seq<User>)
    requires users != []
    ensures EdgeWords(users) == EdgesOf(users[0]) + EdgeWords(users[1..])
    decreases |users|
  {
    hide EdgesOf;
    var n := |users| - 1;
    if n == 0 {
      assert EdgeWords(users[..0]) == [] && EdgeWords(users[1..]) == [];
    } else {
      EdgeWordsFront(users[..n]);
      assert users[..n][1..] == users[1..][..n - 1] && users[1..][n - 1] == users[n];
    }
  }

  /** An empty file, or one of blanks, leaves the count uninitialised. */
  lemma BlankFile(text: string)
    requires forall i :: 0 <= i < |text| ==> IsSpace(text[i])
    ensures Load(Some(text)) == Undefined
  {
    SkipBlanks(text, "");
    assert text + "" == text;
  }

  /** A file that does not begin with a number: the count is zero, reading fails, no profiles. */
  lemma FileWithoutCount(text: string)
    requires text != "" && !IsSpace(text[0]) && !IsDigit(text[0]) && text[0] != '+' && text[0] != '-'
    ensures Load(Some(text)) == Loaded([])
  {
    var st := ExtractInt(Stream(text, false, false)).0;
    assert st.fail && ReadHandles(st, "", 0, []) == (st, []);
  }

  /** A negative count reads no handle, so the first word after it is an edge between strangers. */
  lemma NegativeCount(n: nat, word: string)
    requires 0 < n <= 2147483648 && IsWord(word)
    ensures Load(Some(Lines(["-" + Dec(n), word]))) == Undefined
  {
    var digits := Dec(n);
    var rest := "\n" + Lines([word]);
    var text := Lines(["-" + digits, word]);
    assert ["-" + digits, word][1..] == [word];
    assert text == "-" + digits + rest;
    ValueOfDec(n);
    DigitsLenOf(digits, rest);
    ScanSigned(digits, rest);
    assert SkipSpace(text) == text;
    assert text[1 + |digits|..] == rest;
    ExtractNextWord([word], "");
    assert ReadHandles(AtLineEnd([word]), "", 0 - (n as int), []) == (AtLineEnd([word]), []);
  }

  // ----- The PEERS variable and the roles -----

  /** "host:port:p" or "host:port:s", separated by commas. */
  function VariableText(peers: seq<Peers.Peer>): string {
    if peers == [] then ""
    else
      peers[0].address + ":" + Str(peers[0].port) + (if peers[0].primary then ":p" else ":s")
      + if |peers| == 1 then "" else "," + VariableText(peers[1..])
  }

  /** The variable, character by character. */
  lemma VariableLayout(peers: seq<Peers.Peer>, self: Peers.Peer)
    ensures Peers.PeersVariable(peers, self) == VariableText(Peers.Others(peers, self))
  {
    EntriesLayout(Peers.Others(peers, self));
  }

  lemma {:induction false} EntriesLayout(peers: seq<Peers.Peer>)
    ensures Join(Peers.Entries(peers), ',') == VariableText(peers)
  {
    hide Str;
    if peers != [] {
      EntriesLayout(peers[1..]);
      var entries := Peers.Entries(peers);
      assert entries[1..] == Peers.Entries(peers[1..]);
      assert entries[0] == peers[0].address + ":" + Str(peers[0].port) + (if peers[0].primary then ":p" else ":s") by {
        EntryLayout(peers[0]);
      }
    }
  }

  lemma EntryLayout(p: Peers.Peer)
    ensures Peers.Entry(p) == p.address + ":" + Str(p.port) + (if p.primary then ":p" else ":s")
  {
    hide Str;
  }

  /** An entry: host, port, flag; fewer pieces are undefined, more are ignored, and only "p" means primary. */
  lemma ParsePeerIs(pieces: seq<string>)
    requires DelimiterFree(pieces, ':') && pieces != [] && pieces[|pieces| - 1] != ""
    ensures Peers.ParsePeer(Join(pieces, ':'))
            == if |pieces| < 3 || Atoi(pieces[1]).None? then None
               else Some(Peers.Peer(pieces[0], Atoi(pieces[1]).value, pieces[2] == "p"))
  {
    hide Atoi, Split;
    SplitJoin(pieces, ':');
  }

  /** The others are those with another port, in order: this and the empty list determine them. */
  lemma OthersAre(peers: seq<Peers.Peer>, p: Peers.Peer, self: Peers.Peer)
    ensures Peers.Others([], self) == []
    ensures Peers.Others(peers + [p], self) == Peers.Others(peers, self) + if p.port == self.port then [] else [p]
  {
    assert (peers + [p])[..|peers|] == peers;
  }

  lemma SecondariesAre(peers: seq<Peers.Peer>, p: Peers.Peer)
    ensures Peers.Secondaries([]) == []
    ensures Peers.Secondaries(peers + [p]) == Peers.Secondaries(peers) + if p.primary then [] else [p]
  {
    assert (peers + [p])[..|peers|] == peers;
  }

  /** The role of a secondary follows from the first primary in its list, or there is none. */
  lemma RoleIs(peers: seq<Peers.Peer>, k: nat)
    ensures Peers.RoleOf(true, peers).Primary?
    ensures (forall i :: 0 <= i < |peers| ==> !peers[i].primary) ==> Peers.RoleOf(false, peers) == Orphan
    ensures k < |peers| && peers[k].primary && (forall i :: 0 <= i < k ==> !peers[i].primary) ==>
              Peers.RoleOf(false, peers) == Secondary(SocketAddress(peers[k].address, peers[k].port))
  {
    if k < |peers| && peers[k].primary && (forall i :: 0 <= i < k ==> !peers[i].primary) {
      FirstIs(peers, k);
    }
  }

  lemma {:induction false} FirstIs(peers: seq<Peers.Peer>, k: nat)
    requires k < |peers| && peers[k].primary && forall i :: 0 <= i < k ==> !peers[i].primary
    ensures Peers.FirstPrimary(peers) == Some(peers[k])
  {
    if k > 0 {
      FirstIs(peers[1..], k - 1);
    }
  }
}
