/** The comment-stripping scanner that every request passes through before it
    is matched and looked up. */
module Comments {

  // ---- trimming ---------------------------------------------------------

  /** The Unicode White_Space characters. */
  predicate IsSpace(c: char) {
    var n := c as int;
    || 0x09 <= n <= 0x0d || n == 0x20 || n == 0x85 || n == 0xa0 || n == 0x1680
    || 0x2000 <= n <= 0x200a || n == 0x2028 || n == 0x2029 || n == 0x202f
    || n == 0x205f || n == 0x3000
  }

  function TrimStart(s: string): string {
    if s != "" && IsSpace(s[0]) then TrimStart(s[1..]) else s
  }

  function TrimEnd(s: string): string {
    if s != "" && IsSpace(s[|s| - 1]) then TrimEnd(s[..|s| - 1]) else s
  }

  function Trim(s: string): string {
    TrimEnd(TrimStart(s))
  }

  // ---- the scanner ------------------------------------------------------

  predicate Opens(s: string) {
    |s| >= 2 && s[0] == '/' && s[1] == '*'
  }

  predicate Closes(s: string) {
    |s| >= 2 && s[0] == '*' && s[1] == '/'
  }

  /** What the scanner still pushes when it has `s` left to read and is, or is
      not, inside a comment. */
  function Scan(s: string, skip: bool): string {
    if s == "" then ""
    else if Opens(s) then Scan(s[2..], true)
    else if skip && Closes(s) then Scan(s[2..], false)
    else (if skip then "" else [s[0]]) + Scan(s[1..], skip)
  }

  function Stripped(query: string): string {
    Trim(Scan(query, false))
  }

  method RemoveComments(query: string) returns (result: string)
    ensures result == Stripped(query)
  {
    result := "";
    var skip := false;
    var i := 0;
    while i < |query|
      invariant 0 <= i <= |query|
      invariant result + Scan(query[i..], skip) == Scan(query, false)
      decreases |query| - i
    {
      var c := query[i];
      var next := if i + 1 < |query| then query[i + 1..i + 2] else "";
      assert query[i..][1..] == query[i + 1..];
      i := i + 1;
      if c == '/' && next == "*" {
        assert query[i - 1..][2..] == query[i + 1..];
        skip := true;
        i := i + 1;
      } else if skip && c == '*' && next == "/" {
        assert query[i - 1..][2..] == query[i + 1..];
        skip := false;
        i := i + 1;
      } else if !skip {
        result := result + [c];
      }
    }
    assert query[i..] == "" && result == Scan(query, false);
    result := Trim(result);
  }

  // ---- against a declarative form ---------------------------------------

  predicate PairAt(s: string, i: int, a: char, b: char) {
    0 <= i && i + 1 < |s| && s[i] == a && s[i + 1] == b
  }

  predicate HasOpener(s: string) {
    exists i :: 0 <= i < |s| && PairAt(s, i, '/', '*')
  }

  predicate HasCloser(s: string) {
    exists i :: 0 <= i < |s| && PairAt(s, i, '*', '/')
  }

  /** A text with comments: a comment body and the text that follows it. */
  datatype Commented = Commented(comment: string, text: string)

  function Source(text: string, rest: seq<Commented>): string
    decreases |rest|
  {
    if rest == [] then text
    else text + "/*" + rest[0].comment + "*/" + Source(rest[0].text, rest[1..])
  }

  function Plain(text: string, rest: seq<Commented>): string
    decreases |rest|
  {
    if rest == [] then text else text + Plain(rest[0].text, rest[1..])
  }

  predicate CleanComment(c: string) {
    !HasOpener(c) && !HasCloser(c) && (c == "" || c[|c| - 1] != '/')
  }

  predicate WellCommented(text: string, rest: seq<Commented>) {
    && !HasOpener(text)
    && forall i :: 0 <= i < |rest| ==> CleanComment(rest[i].comment) && !HasOpener(rest[i].text)
  }

  lemma OpenerTail(s: string)
    requires s != ""
    ensures HasOpener(s) <==> Opens(s) || HasOpener(s[1..])
    ensures HasCloser(s) <==> Closes(s) || HasCloser(s[1..])
  {
    PairTail(s, '/', '*');
    PairTail(s, '*', '/');
  }

  lemma PairTail(s: string, a: char, b: char)
    requires s != ""
    ensures (exists i :: PairAt(s, i, a, b)) <==> PairAt(s, 0, a, b) || exists i :: PairAt(s[1..], i, a, b)
  {
    if i :| PairAt(s, i, a, b) {
      assert i == 0 || PairAt(s[1..], i - 1, a, b);
    }
    if i :| PairAt(s[1..], i, a, b) {
      assert PairAt(s, i + 1, a, b);
    }
  }

  lemma {:induction false} ScanText(text: string, rest: string)
    requires !HasOpener(text)
    requires rest == "" || rest[0] == '/'
    ensures Scan(text + rest, false) == text + Scan(rest, false)
  {
    if text == "" {
      assert text + rest == rest;
    } else {
      assert (text + rest)[1..] == text[1..] + rest;
      OpenerTail(text);
      ScanText(text[1..], rest);
      assert !PairAt(text, 0, '/', '*');
    }
  }

  lemma {:induction false} ScanComment(c: string, rest: string)
    requires CleanComment(c)
    ensures Scan(c + "*/" + rest, true) == Scan(rest, false)
  {
    var s := c + "*/" + rest;
    if c == "" {
      assert s[0] == '*' && s[1] == '/';
      assert s[2..] == rest;
    } else {
      assert s[0] == c[0];
      assert s[1..] == c[1..] + "*/" + rest;
      OpenerTail(c);
      assert s[1] == if |c| == 1 then '*' else c[1];
      ScanComment(c[1..], rest);
    }
  }

  /** On texts whose comments are properly delimited, the scanner removes the
      comments and nothing else. */
  lemma {:induction false} ScanRemovesComments(text: string, rest: seq<Commented>)
    requires WellCommented(text, rest)
    ensures Scan(Source(text, rest), false) == Plain(text, rest)
    ensures Stripped(Source(text, rest)) == Trim(Plain(text, rest))
    decreases |rest|
  {
    if rest == [] {
      ScanText(text, "");
      assert text + "" == text;
    } else {
      var tail := Source(rest[0].text, rest[1..]);
      var inner := rest[0].comment + "*/" + tail;
      assert Source(text, rest) == text + ("/*" + inner);
      ScanText(text, "/*" + inner);
      assert ("/*" + inner)[2..] == inner;
      ScanComment(rest[0].comment, tail);
      ScanRemovesComments(rest[0].text, rest[1..]);
    }
  }

  // ---- every input ------------------------------------------------------

  /** `a` is `b` with some characters left out. */
  predicate Subsequence(a: string, b: string) {
    if a == "" then true
    else if b == "" then false
    else if a[0] == b[0] then Subsequence(a[1..], b[1..])
    else Subsequence(a, b[1..])
  }

  lemma {:induction false} SubsequenceSkip(a: string, b: string, c: char)
    requires Subsequence(a, b)
    ensures Subsequence(a, [c] + b)
    ensures a != "" ==> Subsequence(a[1..], b)
    decreases |b|
  {
    assert ([c] + b)[1..] == b;
    if a != "" {
      assert [b[0]] + b[1..] == b;
      if a[0] == b[0] {
        SubsequenceSkip(a[1..], b[1..], b[0]);
      } else {
        SubsequenceSkip(a, b[1..], b[0]);
        SubsequenceSkip(a[1..], b[1..], b[0]);
      }
    }
  }

  lemma {:induction false} SubsequenceTrans(a: string, b: string, c: string)
    requires Subsequence(a, b) && Subsequence(b, c)
    ensures Subsequence(a, c)
    decreases |c|
  {
    if a != "" {
      if b[0] == c[0] {
        if a[0] == b[0] {
          SubsequenceTrans(a[1..], b[1..], c[1..]);
        } else {
          SubsequenceTrans(a, b[1..], c[1..]);
          assert [c[0]] + c[1..] == c;
        }
      } else {
        SubsequenceTrans(a, b, c[1..]);
        SubsequenceSkip(a, c[1..], c[0]);
        assert [c[0]] + c[1..] == c;
      }
    }
  }

  lemma {:induction false} SubsequenceLength(a: string, b: string)
    requires Subsequence(a, b)
    ensures |a| <= |b|
    ensures |a| == |b| ==> a == b
    decreases |b|
  {
    if a != "" {
      if a[0] == b[0] {
        SubsequenceLength(a[1..], b[1..]);
      } else {
        SubsequenceLength(a, b[1..]);
      }
    }
  }

  lemma {:induction false} ScanSubsequence(s: string, skip: bool)
    ensures Subsequence(Scan(s, skip), s)
    decreases |s|
  {
    if s != "" {
      if Opens(s) || (skip && Closes(s)) {
        ScanSubsequence(s[2..], Opens(s));
        SubsequenceSkip(Scan(s, skip), s[2..], s[1]);
        assert [s[1]] + s[2..] == s[1..];
        SubsequenceSkip(Scan(s, skip), s[1..], s[0]);
      } else {
        ScanSubsequence(s[1..], skip);
        if skip {
          assert Scan(s, skip) == Scan(s[1..], skip);
          SubsequenceSkip(Scan(s, skip), s[1..], s[0]);
        } else {
          assert Scan(s, skip)[1..] == Scan(s[1..], skip);
        }
      }
      assert [s[0]] + s[1..] == s;
    }
  }

  lemma {:induction false} SelfSubsequence(s: string)
    ensures Subsequence(s, s)
  {
    if s != "" {
      SelfSubsequence(s[1..]);
    }
  }

  lemma {:induction false} SubsequencePrefix(s: string, n: nat)
    requires n <= |s|
    ensures Subsequence(s[..n], s)
  {
    if n > 0 {
      SubsequencePrefix(s[1..], n - 1);
      assert s[..n][1..] == s[1..][..n - 1];
    }
  }

  lemma {:induction false} TrimStartSubsequence(s: string)
    ensures Subsequence(TrimStart(s), s)
  {
    SelfSubsequence(s);
    if s != "" && IsSpace(s[0]) {
      TrimStartSubsequence(s[1..]);
      SubsequenceSkip(TrimStart(s), s[1..], s[0]);
      assert [s[0]] + s[1..] == s;
    }
  }

  lemma {:induction false} TrimEndPrefix(s: string)
    ensures TrimEnd(s) <= s
    ensures TrimEnd(s) != "" ==> !IsSpace(TrimEnd(s)[|TrimEnd(s)| - 1])
  {
    if s != "" && IsSpace(s[|s| - 1]) {
      TrimEndPrefix(s[..|s| - 1]);
    }
  }

  lemma {:induction false} TrimStartHead(s: string)
    ensures TrimStart(s) != "" ==> !IsSpace(TrimStart(s)[0])
  {
    if s != "" && IsSpace(s[0]) {
      TrimStartHead(s[1..]);
    }
  }

  lemma TrimIdempotent(s: string)
    ensures Trim(Trim(s)) == Trim(s)
    ensures Subsequence(Trim(s), s)
  {
    TrimStartHead(s);
    TrimEndPrefix(TrimStart(s));
    TrimStartSubsequence(s);
    SubsequencePrefix(TrimStart(s), |Trim(s)|);
    assert Trim(s) == TrimStart(s)[..|Trim(s)|];
    SubsequenceTrans(Trim(s), TrimStart(s), s);
  }

  /** Stripping only ever leaves characters out. */
  lemma StrippedSubsequence(s: string)
    ensures Subsequence(Stripped(s), s)
    ensures |Stripped(s)| <= |s|
    ensures |Stripped(s)| == |s| ==> Stripped(s) == s
  {
    ScanSubsequence(s, false);
    TrimIdempotent(Scan(s, false));
    SubsequenceTrans(Stripped(s), Scan(s, false), s);
    SubsequenceLength(Stripped(s), s);
  }

  lemma {:induction false} ScanFixed(s: string)
    ensures HasOpener(s) ==> |Scan(s, false)| < |s|
    ensures !HasOpener(s) ==> Scan(s, false) == s
  {
    if s != "" {
      OpenerTail(s);
      if Opens(s) {
        ScanSubsequence(s[2..], true);
        SubsequenceLength(Scan(s[2..], true), s[2..]);
      } else {
        ScanFixed(s[1..]);
      }
    }
  }

  /** Stripping again changes nothing exactly when the first pass left no
      comment opener behind (joining the text around a comment can make one). */
  lemma StripIdempotent(s: string)
    ensures Stripped(Stripped(s)) == Stripped(s) <==> !HasOpener(Stripped(s))
  {
    var once := Stripped(s);
    ScanFixed(once);
    TrimIdempotent(Scan(s, false));
    if HasOpener(once) {
      TrimIdempotent(Scan(once, false));
      SubsequenceLength(Stripped(once), Scan(once, false));
    }
  }

  // ---- every input, by positions -----------------------------------------------

  /** A comment ends at the star of a star and a slash, unless a slash before that
      star has taken it for another opener. */
  predicate ClosesAt(s: string, i: int) {
    PairAt(s, i, '*', '/') && (i == 0 || s[i - 1] != '/')
  }

  predicate FirstOpener(s: string, i: int) {
    PairAt(s, i, '/', '*') && forall j :: 0 <= j < i ==> !PairAt(s, j, '/', '*')
  }

  predicate FirstClose(s: string, i: int) {
    ClosesAt(s, i) && forall j :: 0 <= j < i ==> !ClosesAt(s, j)
  }

  /** Everything before the first opener is kept. */
  lemma TextRuns(s: string, i: nat)
    requires FirstOpener(s, i)
    ensures Scan(s, false) == s[..i] + Scan(s[i + 2..], true)
  {
    assert s == s[..i] + s[i..];
    assert forall j :: 0 <= j < i && PairAt(s[..i], j, '/', '*') ==> PairAt(s, j, '/', '*');
    ScanText(s[..i], s[i..]);
    assert s[i..][2..] == s[i + 2..];
  }

  lemma CloseShift(s: string, n: nat, j: int)
    requires n <= j && n <= |s| && (n < j || n == 0 || s[n - 1] != '/')
    ensures ClosesAt(s, j) <==> ClosesAt(s[n..], j - n)
  {
  }

  /** Everything up to the first close is dropped. */
  lemma {:induction false} CommentRuns(s: string, i: nat)
    requires FirstClose(s, i)
    ensures Scan(s, true) == Scan(s[i + 2..], false)
  {
    if i > 0 {
      assert !ClosesAt(s, 0);
      var n := if Opens(s) then 2 else 1;
      assert n <= i;
      forall j | n <= j <= i
        ensures ClosesAt(s, j) <==> ClosesAt(s[n..], j - n)
      {
        CommentShift(s, n, j);
      }
      assert forall j :: 0 <= j < i - n && ClosesAt(s[n..], j) ==> ClosesAt(s, j + n);
      CommentRuns(s[n..], i - n);
      assert s[n..][i - n + 2..] == s[i + 2..];
    }
  }

  lemma CommentShift(s: string, n: nat, j: nat)
    requires s != "" && n == (if Opens(s) then 2 else 1) && n <= j
    ensures ClosesAt(s, j) <==> ClosesAt(s[n..], j - n)
  {
    if n < j || s[n - 1] != '/' {
      CloseShift(s, n, j);
    }
  }

  /** A comment that is never closed takes all the rest. */
  lemma {:induction false} Unclosed(s: string)
    requires forall i :: 0 <= i < |s| ==> !ClosesAt(s, i)
    ensures Scan(s, true) == ""
  {
    if s != "" {
      assert !ClosesAt(s, 0);
      var n := if Opens(s) then 2 else 1;
      forall j | 0 <= j < |s[n..]|
        ensures !ClosesAt(s[n..], j)
      {
        CommentShift(s, n, j + n);
      }
      Unclosed(s[n..]);
    }
  }

  // ---- what trimming leaves -------------------------------------------------------

  predicate AllSpace(s: string) {
    forall i :: 0 <= i < |s| ==> IsSpace(s[i])
  }

  lemma {:induction false} TrimStartExact(s: string) returns (n: nat)
    ensures n <= |s| && AllSpace(s[..n]) && TrimStart(s) == s[n..]
    ensures n < |s| ==> !IsSpace(s[n])
  {
    if s != "" && IsSpace(s[0]) {
      n := TrimStartExact(s[1..]);
      n := n + 1;
      assert s[..n] == [s[0]] + s[1..][..n - 1];
    } else {
      n := 0;
    }
  }

  lemma {:induction false} TrimEndExact(s: string) returns (n: nat)
    ensures n <= |s| && AllSpace(s[n..]) && TrimEnd(s) == s[..n]
    ensures n > 0 ==> !IsSpace(s[n - 1])
  {
    if s != "" && IsSpace(s[|s| - 1]) {
      var init := s[..|s| - 1];
      n := TrimEndExact(init);
      assert s[n..] == init[n..] + [s[|s| - 1]];
    } else {
      n := |s|;
    }
  }

  /** Trimming removes spaces at both ends, all of them, and nothing else. */
  lemma TrimExact(s: string) returns (before: string, after: string)
    ensures s == before + Trim(s) + after && AllSpace(before) && AllSpace(after)
    ensures Trim(s) != "" ==> !IsSpace(Trim(s)[0]) && !IsSpace(Trim(s)[|Trim(s)| - 1])
  {
    var n := TrimStartExact(s);
    var m := TrimEndExact(s[n..]);
    before, after := s[..n], s[n..][m..];
    assert s == s[..n] + (s[n..][..m] + s[n..][m..]);
  }

  /** Of the ASCII characters, exactly the blank and the five controls from
      horizontal tab to carriage return are spaces. */
  lemma AsciiSpaces(c: char)
    requires c as int < 0x80
    ensures IsSpace(c) <==> c == ' ' || c == '\t' || c == '\n' || c == '\r' || c as int == 11 || c as int == 12
  {
  }
}
