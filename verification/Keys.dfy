/** The two ways the proxy spells a cache key: the worker that stores a body
    quotes the original SQL with Rust's Debug escaping, the lookup puts the
    comment-stripped SQL between plain quotes. */
module Keys {
  import opened Basics
  import opened Comments

  const HEX := "0123456789abcdef"

  function Hex(n: nat): string {
    if n < 16 then [HEX[n]] else Hex(n / 16) + [HEX[n % 16]]
  }

  /** Debug escaping of one character; `plain` says which of the ordinary
      characters are printed as themselves. */
  function EscapeChar(plain: char -> bool, c: char): string {
    if c == '\0' then "\\0"
    else if c == '\t' then "\\t"
    else if c == '\r' then "\\r"
    else if c == '\n' then "\\n"
    else if c == '"' then "\\\""
    else if c == '\\' then "\\\\"
    else if plain(c) then [c]
    else "\\u{" + Hex(c as int) + "}"
  }

  function Escape(plain: char -> bool, s: string): string {
    if s == "" then "" else EscapeChar(plain, s[0]) + Escape(plain, s[1..])
  }

  function StoreKey(plain: char -> bool, sql: string): string {
    "cache:\"" + Escape(plain, sql) + "\""
  }

  function LookupKey(sql: string): string {
    "cache:\"" + Stripped(sql) + "\""
  }

  /** The spellings that Debug formatting fixes, and an example of the others. */
  lemma EscapeTable(plain: char -> bool, c: char)
    ensures c == '\0' ==> EscapeChar(plain, c) == ['\\', '0']
    ensures c == '\t' ==> EscapeChar(plain, c) == ['\\', 't']
    ensures c == '\r' ==> EscapeChar(plain, c) == ['\\', 'r']
    ensures c == '\n' ==> EscapeChar(plain, c) == ['\\', 'n']
    ensures c == '"' ==> EscapeChar(plain, c) == ['\\', '"']
    ensures c == '\\' ==> EscapeChar(plain, c) == ['\\', '\\']
    ensures c as int == 0x1b && !plain(c) ==> EscapeChar(plain, c) == ['\\', 'u', '{', '1', 'b', '}']
    ensures c as int == 0x9f && !plain(c) ==> EscapeChar(plain, c) == ['\\', 'u', '{', '9', 'f', '}']
    ensures c as int > 0x7f && plain(c) ==> EscapeChar(plain, c) == [c]
  {
    if c as int == 0x1b {
      assert Hex(0x1b) == Hex(1) + [HEX[0xb]];
    }
    if c as int == 0x9f {
      assert Hex(0x9f) == Hex(9) + [HEX[0xf]];
    }
  }

  /** Both keys are the text between the prefix `cache:` in quotation marks. */
  lemma KeyShape(plain: char -> bool, sql: string)
    ensures StoreKey(plain, sql) == ['c', 'a', 'c', 'h', 'e', ':', '"'] + Escape(plain, sql) + ['"']
    ensures LookupKey(sql) == ['c', 'a', 'c', 'h', 'e', ':', '"'] + Stripped(sql) + ['"']
  {
  }

  // ---- hexadecimal numerals ---------------------------------------------

  predicate IsHexDigit(c: char) {
    '0' <= c <= '9' || 'a' <= c <= 'f'
  }

  function DigitValue(c: char): int {
    if c <= '9' then c as int - '0' as int else c as int - 'a' as int + 10
  }

  function HexValue(s: string): int {
    if s == "" then 0 else HexValue(s[..|s| - 1]) * 16 + DigitValue(s[|s| - 1])
  }

  lemma DigitOfHex(n: nat)
    requires n < 16
    ensures IsHexDigit(HEX[n]) && DigitValue(HEX[n]) == n
  {
  }

  lemma {:induction false} HexInverse(n: nat)
    ensures HexValue(Hex(n)) == n
    ensures forall i :: 0 <= i < |Hex(n)| ==> IsHexDigit(Hex(n)[i])
  {
    DigitOfHex(n % 16);
    if n < 16 {
      assert Hex(n)[..0] == "";
    } else {
      HexInverse(n / 16);
      assert Hex(n)[..|Hex(n)| - 1] == Hex(n / 16);
    }
  }

  // ---- escaping is injective ----------------------------------------------

  function BraceAt(s: string): nat
    ensures BraceAt(s) <= |s|
  {
    if s == "" || s[0] == '}' then 0 else 1 + BraceAt(s[1..])
  }

  lemma {:induction false} BraceAfterNumeral(numeral: string, rest: string)
    requires forall i :: 0 <= i < |numeral| ==> IsHexDigit(numeral[i])
    ensures BraceAt(numeral + "}" + rest) == |numeral|
  {
    if numeral != "" {
      assert (numeral + "}" + rest)[1..] == numeral[1..] + "}" + rest;
      BraceAfterNumeral(numeral[1..], rest);
    }
  }

  /** A reader of one escaped character: its code point, and the text left. */
  function ReadChar(s: string): (int, string) {
    if s == "" then (-1, "")
    else if s[0] != '\\' then (s[0] as int, s[1..])
    else if |s| < 2 then (-1, "")
    else if s[1] == '0' then (0, s[2..])
    else if s[1] == 't' then (9, s[2..])
    else if s[1] == 'r' then (13, s[2..])
    else if s[1] == 'n' then (10, s[2..])
    else if s[1] == '"' || s[1] == '\\' then (s[1] as int, s[2..])
    else if |s| < 3 || BraceAt(s[3..]) == |s[3..]| then (-1, "")
    else ReadNumeral(s[3..])
  }

  function ReadNumeral(tail: string): (int, string)
    requires BraceAt(tail) < |tail|
  {
    (HexValue(tail[..BraceAt(tail)]), tail[BraceAt(tail) + 1..])
  }

  lemma ReadCodePoint(n: nat, rest: string)
    ensures ReadChar("\\u{" + Hex(n) + "}" + rest) == (n, rest)
  {
    var h := Hex(n);
    var tail := h + "}" + rest;
    HexInverse(n);
    BraceAfterNumeral(h, rest);
    assert tail[..|h|] == h && tail[|h| + 1..] == rest;
    assert "\\u{" + h + "}" + rest == "\\u{" + tail;
    assert ("\\u{" + tail)[3..] == tail;
  }

  lemma ReadEscaped(plain: char -> bool, c: char, rest: string)
    ensures ReadChar(EscapeChar(plain, c) + rest) == (c as int, rest)
  {
    var e := EscapeChar(plain, c);
    if |e| == 1 {
      assert (e + rest)[1..] == rest;
    } else if e[1] != 'u' {
      assert (e + rest)[2..] == rest;
    } else {
      assert e == "\\u{" + Hex(c as int) + "}";
      ReadCodePoint(c as int, rest);
    }
  }

  lemma EscapeCharShape(plain: char -> bool, c: char)
    ensures (EscapeChar(plain, c) == [c] && c != '\\')
         || (|EscapeChar(plain, c)| >= 2 && EscapeChar(plain, c)[0] == '\\')
  {
  }

  /** Two statements that escape alike are the same statement. */
  lemma {:induction false} EscapeInjective(plain: char -> bool, a: string, b: string)
    requires Escape(plain, a) == Escape(plain, b)
    ensures a == b
  {
    if a != "" { EscapeCharShape(plain, a[0]); }
    if b != "" { EscapeCharShape(plain, b[0]); }
    if a != "" && b != "" {
      ReadEscaped(plain, a[0], Escape(plain, a[1..]));
      ReadEscaped(plain, b[0], Escape(plain, b[1..]));
      EscapeInjective(plain, a[1..], b[1..]);
      assert a == [a[0]] + a[1..] && b == [b[0]] + b[1..];
    }
  }

  lemma SameHead(head: string, tail: string, c: char, rest: string)
    requires |head| == 1
    ensures head + tail == [c] + rest <==> head == [c] && tail == rest
    ensures '\\' in head + tail <==> '\\' in head || '\\' in tail
  {
    assert (head + tail)[1..] == tail && ([c] + rest)[1..] == rest;
    assert (head + tail)[0] == head[0] && ([c] + rest)[0] == c;
  }

  lemma {:induction false} EscapeFixed(plain: char -> bool, s: string)
    ensures |s| <= |Escape(plain, s)|
    ensures Escape(plain, s) == s <==> '\\' !in Escape(plain, s)
    ensures |Escape(plain, s)| == |s| ==> Escape(plain, s) == s
  {
    if s != "" {
      var head, tail := EscapeChar(plain, s[0]), Escape(plain, s[1..]);
      EscapeFixed(plain, s[1..]);
      EscapeCharShape(plain, s[0]);
      EscapeCons(plain, s);
      assert s == [s[0]] + s[1..];
      if |head| == 1 {
        SameHead(head, tail, s[0], s[1..]);
      } else {
        assert (head + tail)[0] == '\\';
        assert |head + tail| > |s|;
      }
    }
  }

  // ---- soundness and completeness of the keys -------------------------------

  lemma KeysMatch(plain: char -> bool, stored: string, asked: string)
    ensures StoreKey(plain, stored) == LookupKey(asked) <==> Escape(plain, stored) == Stripped(asked)
  {
    var s, l := StoreKey(plain, stored), LookupKey(asked);
    assert s[7..|s| - 1] == Escape(plain, stored);
    assert l[7..|l| - 1] == Stripped(asked);
  }

  /** Different texts never share a store key. */
  lemma StoreKeyInjective(plain: char -> bool, a: string, b: string)
    requires StoreKey(plain, a) == StoreKey(plain, b)
    ensures a == b
  {
    var s, t := StoreKey(plain, a), StoreKey(plain, b);
    assert s[7..|s| - 1] == Escape(plain, a);
    assert t[7..|t| - 1] == Escape(plain, b);
    EscapeInjective(plain, a, b);
  }

  /** A hit for `asked` comes from at most one stored statement, and from its
      own stripped text whenever that text has no backslash. */
  lemma KeySound(plain: char -> bool, stored: string, asked: string)
    requires StoreKey(plain, stored) == LookupKey(asked)
    ensures Escape(plain, stored) == Stripped(asked)
    ensures stored == Stripped(asked) <==> '\\' !in Stripped(asked)
    ensures forall other :: StoreKey(plain, other) == LookupKey(asked) ==> other == stored
  {
    KeysMatch(plain, stored, asked);
    EscapeFixed(plain, stored);
    forall other | StoreKey(plain, other) == LookupKey(asked)
      ensures other == stored
    {
      KeysMatch(plain, other, asked);
      EscapeInjective(plain, other, stored);
    }
  }

  /** A stored statement is found again by its own text exactly when stripping
      and escaping both leave that text alone. */
  lemma KeyComplete(plain: char -> bool, sql: string)
    ensures StoreKey(plain, sql) == LookupKey(sql)
       <==> Stripped(sql) == sql && Escape(plain, sql) == sql
  {
    KeysMatch(plain, sql, sql);
    EscapeFixed(plain, sql);
    StrippedSubsequence(sql);
  }

  // ---- where the keys go wrong ------------------------------------------------

  predicate PrintsAscii(plain: char -> bool) {
    forall c :: ' ' <= c <= '~' ==> plain(c)
  }

  lemma EscapeCons(plain: char -> bool, s: string)
    requires s != ""
    ensures Escape(plain, s) == EscapeChar(plain, s[0]) + Escape(plain, s[1..])
  {
  }

  predicate Ordinary(s: string) {
    forall i :: 0 <= i < |s| ==> ' ' <= s[i] <= '~' && s[i] != '"' && s[i] != '\\'
  }

  lemma {:induction false} EscapeOrdinary(plain: char -> bool, s: string, rest: string)
    requires PrintsAscii(plain) && Ordinary(s)
    ensures Escape(plain, s + rest) == s + Escape(plain, rest)
  {
    if s == "" {
      assert s + rest == rest;
    } else {
      var whole := s + rest;
      EscapeOrdinary(plain, s[1..], rest);
      Rejoined(s, rest);
      Rejoined(s, Escape(plain, rest));
      EscapeCons(plain, whole);
      OrdinaryChar(plain, s[0]);
    }
  }

  lemma Rejoined(s: string, rest: string)
    requires s != ""
    ensures (s + rest)[0] == s[0] && (s + rest)[1..] == s[1..] + rest && [s[0]] + (s[1..] + rest) == s + rest
  {
  }

  lemma OrdinaryChar(plain: char -> bool, c: char)
    requires PrintsAscii(plain) && ' ' <= c <= '~' && c != '"' && c != '\\'
    ensures EscapeChar(plain, c) == [c]
  {
  }

  lemma OrdinaryFixed(plain: char -> bool, s: string)
    requires PrintsAscii(plain) && Ordinary(s)
    ensures Escape(plain, s) == s
  {
    EscapeOrdinary(plain, s, "");
    AppendNothing(s);
  }

  lemma StrippedPlain(s: string)
    requires !HasOpener(s) && s != "" && !IsSpace(s[0]) && !IsSpace(s[|s| - 1])
    ensures Stripped(s) == s
  {
    ScanFixed(s);
    assert TrimStart(s) == s;
  }

  /** A text with one quotation mark is stored under the key of the text that has
      it escaped. */
  lemma QuoteCollides(plain: char -> bool, before: string, after: string)
    requires PrintsAscii(plain) && Ordinary(before) && Ordinary(after)
    requires var asked := before + "\\\"" + after;
             before != "" && after != "" && !HasOpener(asked) && !IsSpace(before[0]) && !IsSpace(after[|after| - 1])
    ensures StoreKey(plain, before + "\"" + after) == LookupKey(before + "\\\"" + after)
  {
    var tail := "\"" + after;
    assert before + "\"" + after == before + tail;
    EscapeOrdinary(plain, before, tail);
    EscapeCons(plain, tail);
    assert tail[1..] == after;
    OrdinaryFixed(plain, after);
    assert before + ("\\\"" + after) == before + "\\\"" + after;
    StrippedPlain(before + "\\\"" + after);
    KeysMatch(plain, before + "\"" + after, before + "\\\"" + after);
  }

  /** The backslash condition is needed: looking up a SELECT of one escaped
      quotation mark finds the body stored for a SELECT of the bare one. */
  lemma KeyCollision(plain: char -> bool, stored: string, asked: string)
    requires PrintsAscii(plain) && stored == "SELECT '\"'" && asked == "SELECT '\\\"'"
    ensures StoreKey(plain, stored) == LookupKey(asked)
    ensures Stripped(stored) == stored && Stripped(asked) == asked && stored != asked
  {
    var before, after := "SELECT '", "'";
    assert before + "\"" + after == stored && before + "\\\"" + after == asked;
    QuoteCollides(plain, before, after);
    StrippedPlain(stored);
    StrippedPlain(asked);
  }

  /** String literals are not recognised: looking up the text with a comment
      inside its quotes finds the body stored for the text without. */
  lemma QuotedComment(plain: char -> bool, before: string, comment: string, after: string)
    requires PrintsAscii(plain) && Ordinary(before) && Ordinary(after)
    requires CleanComment(comment) && !HasOpener(before) && !HasOpener(after) && !HasOpener(before + after)
    requires before != "" && after != "" && !IsSpace(before[0]) && !IsSpace(after[|after| - 1])
    ensures StoreKey(plain, before + after) == LookupKey(before + "/*" + comment + "*/" + after)
  {
    var asked, rest := before + "/*" + comment + "*/" + after, [Commented(comment, after)];
    assert Source(after, rest[1..]) == after && Plain(after, rest[1..]) == after;
    assert Source(before, rest) == asked && Plain(before, rest) == before + after;
    ScanRemovesComments(before, rest);
    StrippedPlain(before + after);
    ScanFixed(before + after);
    assert Ordinary(before + after);
    OrdinaryFixed(plain, before + after);
    KeysMatch(plain, before + after, asked);
  }

  lemma QuotedCommentCollides(plain: char -> bool, stored: string, asked: string)
    requires PrintsAscii(plain) && stored == "SELECT ''" && asked == "SELECT '/*a*/'"
    ensures StoreKey(plain, stored) == LookupKey(asked)
    ensures Stripped(stored) == stored && Stripped(asked) == stored && stored != asked
  {
    var before, comment, after := "SELECT '", "a", "'";
    assert before + after == stored && before + "/*" + comment + "*/" + after == asked;
    QuotedComment(plain, before, comment, after);
    StrippedPlain(stored);
    KeysMatch(plain, stored, asked);
    OrdinaryFixed(plain, stored);
  }
}
