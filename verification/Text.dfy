/**
 The character-level library behaviour the server relies on: `std::getline` with a
 delimiter (the two `split` functions), decimal printing, `atoi` and the two
 `operator>>` extractions used to read the profile file.
 */
module Text {
  import opened Messages

  const INT_MIN := -0x8000_0000
  const INT_MAX := 0x7fff_ffff

  /** `isspace` in the C locale: blank, or tab to carriage return. */
  predicate IsSpace(c: char) {
    c == ' ' || '\t' <= c <= '\r'
  }

  predicate IsDigit(c: char) {
    '0' <= c <= '9'
  }

  // ----- getline -----

  /** Length of the piece before the first delimiter. */
  function PieceLen(s: string, d: char): (k: nat)
    ensures k <= |s| && d !in s[..k] && (k < |s| ==> s[k] == d)
  {
    if s == "" || s[0] == d then 0
    else
      var k := PieceLen(s[1..], d);
      assert s[..k + 1] == [s[0]] + s[1..][..k];
      k + 1
  }

  /** The pieces a `getline` loop collects: a delimiter at the very end adds no empty piece. */
  function Split(s: string, d: char): (r: seq<string>)
    ensures forall i :: 0 <= i < |r| ==> d !in r[i]
  {
    if s == "" then []
    else
      var k := PieceLen(s, d);
      [s[..k]] + if k == |s| then [] else Split(s[k + 1..], d)
  }

  /** One `getline`: the end of the piece that starts at `at`. */
  method GetLine(s: string, d: char, at: nat) returns (end: nat)
    requires at <= |s|
    ensures at <= end <= |s| && d !in s[at..end] && (end < |s| ==> s[end] == d)
  {
    end := at;
    while end < |s| && s[end] != d
      invariant at <= end <= |s|
      invariant d !in s[at..end]
    {
      end := end + 1;
    }
  }

  /** The `getline` loop. */
  method SplitLoop(s: string, d: char) returns (results: seq<string>)
    ensures results == Split(s, d)
  {
    results := [];
    var at := 0;
    assert s[0..] == s;
    while at < |s|
      invariant 0 <= at <= |s|
      invariant results + Split(s[at..], d) == Split(s, d)
    {
      var end := GetLine(s, d, at);
      SplitFrom(s, d, at, end);
      var next := if end < |s| then end + 1 else end;
      assert results + ([s[at..end]] + Split(s[next..], d)) == results + [s[at..end]] + Split(s[next..], d);
      results := results + [s[at..end]];
      at := next;
    }
  }

  lemma SplitFrom(s: string, d: char, at: nat, end: nat)
    requires at <= end <= |s| && at < |s| && d !in s[at..end] && (end < |s| ==> s[end] == d)
    ensures Split(s[at..], d) == [s[at..end]] + Split(s[if end < |s| then end + 1 else end..], d)
  {
    assert s[at..][..end - at] == s[at..end];
    PieceLenIs(s[at..], d, end - at);
    if end < |s| {
      assert s[at..][end - at + 1..] == s[end + 1..];
    }
  }

  lemma PieceLenIs(s: string, d: char, k: nat)
    requires k <= |s| && d !in s[..k] && (k < |s| ==> s[k] == d)
    ensures PieceLen(s, d) == k
  {
  }

  function Join(pieces: seq<string>, d: char): string {
    if pieces == [] then ""
    else if |pieces| == 1 then pieces[0]
    else pieces[0] + [d] + Join(pieces[1..], d)
  }

  predicate DelimiterFree(pieces: seq<string>, d: char) {
    forall i :: 0 <= i < |pieces| ==> d !in pieces[i]
  }

  /** Pieces without the delimiter come back, except that a last empty one is dropped. */
  lemma {:induction false} SplitJoinKeeps(pieces: seq<string>, d: char)
    requires DelimiterFree(pieces, d) && pieces != []
    ensures Split(Join(pieces, d), d) == if pieces[|pieces| - 1] != "" then pieces else pieces[..|pieces| - 1]
  {
    hide Split;
    if |pieces| == 1 {
      SplitWhole(pieces[0], d);
    } else {
      var tail := pieces[1..];
      SplitJoinKeeps(tail, d);
      SplitHead(pieces[0], Join(tail, d), d);
      assert tail[|tail| - 1] == pieces[|pieces| - 1];
      assert pieces == [pieces[0]] + tail;
      assert pieces[..|pieces| - 1] == [pieces[0]] + tail[..|tail| - 1];
    }
  }

  /** Splitting undoes joining exactly when no piece holds the delimiter and the last one is not empty. */
  lemma SplitJoin(pieces: seq<string>, d: char)
    ensures Split(Join(pieces, d), d) == pieces
            <==> DelimiterFree(pieces, d) && (pieces != [] ==> pieces[|pieces| - 1] != "")
  {
    if DelimiterFree(pieces, d) && pieces != [] {
      SplitJoinKeeps(pieces, d);
    }
  }

  lemma SplitWhole(piece: string, d: char)
    requires d !in piece
    ensures Split(piece, d) == if piece == "" then [] else [piece]
  {
    if piece != "" {
      assert piece[..|piece|] == piece;
      PieceLenIs(piece, d, |piece|);
    }
  }

  lemma SplitHead(piece: string, rest: string, d: char)
    requires d !in piece
    ensures Split(piece + [d] + rest, d) == [piece] + Split(rest, d)
  {
    var s := piece + [d] + rest;
    assert s[..|piece|] == piece && s[|piece|] == d;
    PieceLenIs(s, d, |piece|);
    assert s[|piece| + 1..] == rest;
  }

  // ----- Decimal numbers -----

  function DigitChar(n: nat): (c: char)
    requires n < 10
    ensures IsDigit(c) && c as int - '0' as int == n
  {
    ('0' as int + n) as char
  }

  /** A non-negative number in decimal. */
  function Dec(n: nat): (s: string)
    ensures s != "" && forall i :: 0 <= i < |s| ==> IsDigit(s[i])
  {
    if n < 10 then [DigitChar(n)] else Dec(n / 10) + [DigitChar(n % 10)]
  }

  /** A number in decimal, with a minus sign when negative (Python's `str`). */
  function Str(n: int): string {
    if n < 0 then "-" + Dec(-n) else Dec(n)
  }

  function DigitsLen(s: string): (k: nat)
    ensures k <= |s|
  {
    if s != "" && IsDigit(s[0]) then 1 + DigitsLen(s[1..]) else 0
  }

  function Value(s: string): int {
    if s == "" then 0 else 10 * Value(s[..|s| - 1]) + (s[|s| - 1] as int - '0' as int)
  }

  lemma {:induction false} ValueOfDec(n: nat)
    ensures Value(Dec(n)) == n
  {
    if n >= 10 {
      ValueOfDec(n / 10);
      assert Dec(n)[..|Dec(n)| - 1] == Dec(n / 10);
    } else {
      assert Dec(n)[..0] == "";
    }
  }

  lemma {:induction false} DigitsLenOf(a: string, b: string)
    requires forall i :: 0 <= i < |a| ==> IsDigit(a[i])
    requires b == "" || !IsDigit(b[0])
    ensures DigitsLen(a + b) == |a|
  {
    if a == "" {
      assert a + b == b;
    } else {
      DigitsLenOf(a[1..], b);
      assert (a + b)[1..] == a[1..] + b;
    }
  }

  /** The number at the start of a text: an optional sign, then digits. */
  datatype Scan = Scan(length: nat, digits: nat, value: int)

  function ScanInt(s: string): (r: Scan)
    ensures r.length <= |s|
  {
    var sign := if s != "" && (s[0] == '-' || s[0] == '+') then 1 else 0;
    var k := DigitsLen(s[sign..]);
    var v := Value(s[sign..sign + k]);
    Scan(sign + k, k, if s != "" && s[0] == '-' then -v else v)
  }

  lemma ScanStr(n: int, rest: string)
    requires rest == "" || !IsDigit(rest[0])
    ensures ScanInt(Str(n) + rest).length == |Str(n)|
    ensures ScanInt(Str(n) + rest).digits > 0
    ensures ScanInt(Str(n) + rest).value == n
  {
    var size: nat := if n < 0 then -n else n;
    ValueOfDec(size);
    DigitsLenOf(Dec(size), rest);
    if n < 0 {
      ScanSigned(Dec(size), rest);
    } else {
      ScanUnsigned(Dec(size), rest);
    }
  }

  lemma ScanSigned(digits: string, rest: string)
    requires DigitsLen(digits + rest) == |digits|
    ensures ScanInt("-" + digits + rest) == Scan(1 + |digits|, |digits|, -Value(digits))
  {
    var s := "-" + digits + rest;
    assert s[1..] == digits + rest;
    assert s[1..1 + |digits|] == digits;
  }

  lemma ScanUnsigned(digits: string, rest: string)
    requires DigitsLen(digits + rest) == |digits| && digits != "" && IsDigit(digits[0])
    ensures ScanInt(digits + rest) == Scan(|digits|, |digits|, Value(digits))
  {
  }

  function SkipSpace(s: string): (r: string)
    ensures |r| <= |s| && (r != "" ==> !IsSpace(r[0]))
  {
    if s != "" && IsSpace(s[0]) then SkipSpace(s[1..]) else s
  }

  /** `atoi`: zero without digits, undefined (`None`) when the number does not fit an int. */
  function Atoi(s: string): Option<int> {
    var scan := ScanInt(SkipSpace(s));
    if INT_MIN <= scan.value <= INT_MAX then Some(scan.value) else None
  }

  lemma AtoiStr(n: int)
    ensures Atoi(Str(n)) == if INT_MIN <= n <= INT_MAX then Some(n) else None
  {
    ScanStr(n, "");
    assert Str(n) + "" == Str(n);
    assert Str(n)[0] == '-' || IsDigit(Str(n)[0]);
  }

  // ----- Input streams -----

  /** What is left of an input file, with its eof and fail bits. */
  datatype Stream = Stream(rest: string, eof: bool, fail: bool)

  predicate IsWord(w: string) {
    w != "" && forall i :: 0 <= i < |w| ==> !IsSpace(w[i])
  }

  function WordLen(s: string): (k: nat)
    ensures k <= |s| && (forall i :: 0 <= i < k ==> !IsSpace(s[i])) && (k < |s| ==> IsSpace(s[k]))
  {
    if s != "" && !IsSpace(s[0]) then 1 + WordLen(s[1..]) else 0
  }

  /**
   `stream >> str`: when the sentry fails (a bit already set, or only blanks left) the
   string keeps its value; reaching the end while reading a word sets eof only.
   */
  function ExtractWord(st: Stream, str: string): (r: (Stream, string))
    ensures r.1 == str || IsWord(r.1)
    ensures |r.0.rest| <= |st.rest|
    ensures r.0.fail ==> r.1 == str
    ensures !r.0.fail ==> IsWord(r.1) && |r.0.rest| < |st.rest|
    ensures r.0.fail && !r.0.eof ==> st.fail
  {
    var t := SkipSpace(st.rest);
    if st.eof || st.fail then (st.(fail := true), str)
    else if t == "" then (Stream("", true, true), str)
    else
      var k := WordLen(t);
      (Stream(t[k..], k == |t|, false), t[..k])
  }

  /**
   `stream >> number` for an int: `None` when the sentry fails (the variable keeps its
   indeterminate value), otherwise the number, with fail set and 0, INT_MIN or INT_MAX
   stored when there is none or it does not fit.
   */
  function ExtractInt(st: Stream): (r: (Stream, Option<int>)) {
    var t := SkipSpace(st.rest);
    if st.eof || st.fail then (st.(fail := true), None)
    else if t == "" then (Stream("", true, true), None)
    else
      var scan := ScanInt(t);
      var next := Stream(t[scan.length..], scan.length == |t|, true);
      if scan.digits == 0 then (next, Some(0))
      else if scan.value > INT_MAX then (next, Some(INT_MAX))
      else if scan.value < INT_MIN then (next, Some(INT_MIN))
      else (next.(fail := false), Some(scan.value))
  }

  /** Words written one per line, each line closed by `std::endl`. */
  function Lines(words: seq<string>): string {
    if words == [] then "" else words[0] + "\n" + Lines(words[1..])
  }

  lemma {:induction false} LinesConcat(a: seq<string>, b: seq<string>)
    ensures Lines(a + b) == Lines(a) + Lines(b)
  {
    if a == [] {
      assert a + b == b;
    } else {
      LinesConcat(a[1..], b);
      assert (a + b)[1..] == a[1..] + b;
    }
  }

  /** A stream standing at the end of a line, with whole lines left. */
  function AtLineEnd(words: seq<string>): Stream {
    Stream("\n" + Lines(words), false, false)
  }

  lemma {:induction false} WordLenIs(a: string, b: string)
    requires forall i :: 0 <= i < |a| ==> !IsSpace(a[i])
    requires b != "" && IsSpace(b[0])
    ensures WordLen(a + b) == |a|
  {
    if a == "" {
      assert a + b == b;
    } else {
      WordLenIs(a[1..], b);
      assert (a + b)[1..] == a[1..] + b;
    }
  }

  lemma ExtractNextWord(words: seq<string>, str: string)
    requires words != [] && IsWord(words[0])
    ensures ExtractWord(AtLineEnd(words), str) == (AtLineEnd(words[1..]), words[0])
  {
    var rest := "\n" + Lines(words);
    var t := Lines(words);
    assert rest[1..] == t;
    assert t[0] == words[0][0];
    assert SkipSpace(rest) == t;
    assert t == words[0] + ("\n" + Lines(words[1..]));
    WordLenIs(words[0], "\n" + Lines(words[1..]));
  }

  lemma ExtractAtEnd(str: string)
    ensures ExtractWord(AtLineEnd([]), str) == (Stream("", true, true), str)
  {
  }

  lemma ExtractCount(n: nat, words: seq<string>)
    ensures var r := ExtractInt(Stream(Lines([Dec(n)] + words), false, false));
            if n <= INT_MAX then r == (AtLineEnd(words), Some(n))
            else r == (AtLineEnd(words).(fail := true), Some(INT_MAX))
  {
    var t := Lines([Dec(n)] + words);
    assert ([Dec(n)] + words)[1..] == words;
    assert t == Str(n) + ("\n" + Lines(words));
    ScanStr(n, "\n" + Lines(words));
    assert t[0] == Dec(n)[0] && IsDigit(t[0]);
    assert SkipSpace(t) == t;
  }
}
