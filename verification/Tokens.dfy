/** SQL tokens and the matcher that compares a template with a statement. */
module Tokens {
  import opened Basics

  /** The token kinds the matcher names; every other kind is compared as a
      whole and appears here as a symbol with its spelling. */
  datatype Token =
    | EOF
    | Word(value: string, quoteStyle: Option<char>, keyword: string)
    | Number(digits: string, long: bool)
    | Character(c: char)
    | SingleQuotedString(text: string)
    | NationalStringLiteral(text: string)
    | EscapedStringLiteral(text: string)
    | HexStringLiteral(text: string)
    | Whitespace(kind: string)
    | Placeholder(name: string)
    | Symbol(spelling: string)

  predicate Visible(t: Token) {
    !t.EOF? && !t.Whitespace?
  }

  function TrimTokens(tokens: seq<Token>): seq<Token> {
    if tokens == [] then []
    else (if Visible(tokens[0]) then [tokens[0]] else []) + TrimTokens(tokens[1..])
  }

  /** The filter removes exactly the end-of-file and whitespace tokens; with
      TrimTokensAppend this leaves no other function. */
  lemma {:induction false} Trimmed(tokens: seq<Token>)
    ensures forall i :: 0 <= i < |TrimTokens(tokens)| ==> !TrimTokens(tokens)[i].EOF? && !TrimTokens(tokens)[i].Whitespace?
    ensures TrimTokens(tokens) == tokens <==> forall i :: 0 <= i < |tokens| ==> !tokens[i].EOF? && !tokens[i].Whitespace?
    ensures |TrimTokens(tokens)| <= |tokens|
  {
    if tokens != [] {
      Trimmed(tokens[1..]);
      assert tokens == [tokens[0]] + tokens[1..];
      if Visible(tokens[0]) {
        assert ([tokens[0]] + TrimTokens(tokens[1..]))[1..] == TrimTokens(tokens[1..]);
      }
    }
  }

  /** One position of the matcher, case by case in its order. */
  predicate IsSame(a: Token, b: Token) {
    match (a, b)
    case (Word(v, _, _), Word(w, _, _)) => v == w
    case (Number(m, k), Number(n, l)) => m == n && k == l
    case (Character(c), Character(d)) => c == d
    case (SingleQuotedString(s), SingleQuotedString(t)) => s == t
    case (NationalStringLiteral(s), NationalStringLiteral(t)) => s == t
    case (EscapedStringLiteral(_), EscapedStringLiteral(_)) => true
    case (HexStringLiteral(s), HexStringLiteral(t)) => s == t
    case (Whitespace(_), Whitespace(_)) => true
    case (Placeholder(_), _) => true
    case (_, Placeholder(_)) => true
    case _ => a == b
  }

  predicate Matches(template: seq<Token>, tokens: seq<Token>) {
    |template| == |tokens| && forall i :: 0 <= i < |template| ==> IsSame(template[i], tokens[i])
  }

  method IsPatternMatch(template: seq<Token>, sql: string, tokenize: string -> seq<Token>) returns (same: bool)
    ensures same == Matches(template, TrimTokens(tokenize(sql)))
  {
    var tokens := TrimTokens(tokenize(sql));
    if |template| != |tokens| {
      return false;
    }
    for index := 0 to |template|
      invariant forall i :: 0 <= i < index ==> IsSame(template[i], tokens[i])
    {
      if !IsSame(template[index], tokens[index]) {
        return false;
      }
    }
    return true;
  }

  // ---- matching is substitution ------------------------------------------

  /** What the matcher cannot tell apart once no placeholder is involved: words
      by value, all escaped literals, all whitespace; the rest must be equal. */
  predicate Alike(a: Token, b: Token) {
    || a == b
    || (a.Word? && b.Word? && a.value == b.value)
    || (a.EscapedStringLiteral? && b.EscapedStringLiteral?)
    || (a.Whitespace? && b.Whitespace?)
  }

  predicate AllAlike(xs: seq<Token>, ys: seq<Token>) {
    |xs| == |ys| && forall i :: 0 <= i < |xs| ==> Alike(xs[i], ys[i])
  }

  predicate Ground(xs: seq<Token>) {
    forall i :: 0 <= i < |xs| ==> !xs[i].Placeholder?
  }

  /** `ys` is `xs` with each placeholder replaced by exactly one token that is
      not a placeholder, and nothing else changed. */
  predicate Instance(xs: seq<Token>, ys: seq<Token>) {
    && |xs| == |ys|
    && Ground(ys)
    && forall i :: 0 <= i < |xs| && !xs[i].Placeholder? ==> ys[i] == xs[i]
  }

  /** Fill the placeholders of `xs` from `ys`, and from a fixed token where
      both sides have one. */
  function Fill(xs: seq<Token>, ys: seq<Token>): (zs: seq<Token>)
    requires |xs| == |ys|
    ensures Instance(xs, zs)
  {
    seq(|xs|, i requires 0 <= i < |xs| =>
      if !xs[i].Placeholder? then xs[i] else if !ys[i].Placeholder? then ys[i] else EOF)
  }

  lemma MatchingIsSubstitution(xs: seq<Token>, ys: seq<Token>)
    ensures Matches(xs, ys)
       <==> exists us, vs :: Instance(xs, us) && Instance(ys, vs) && AllAlike(us, vs)
  {
    if Matches(xs, ys) {
      var us, vs := Fill(xs, ys), Fill(ys, xs);
      forall i | 0 <= i < |us|
        ensures Alike(us[i], vs[i])
      {
        assert IsSame(xs[i], ys[i]);
      }
      assert Instance(xs, us) && Instance(ys, vs) && AllAlike(us, vs);
    }
    if us, vs :| Instance(xs, us) && Instance(ys, vs) && AllAlike(us, vs) {
      forall i | 0 <= i < |xs|
        ensures IsSame(xs[i], ys[i])
      {
        assert Alike(us[i], vs[i]);
      }
    }
  }

  /** Reflexive and symmetric always, transitive through a middle list without
      placeholders. */
  lemma MatchingRelation(xs: seq<Token>, ys: seq<Token>, zs: seq<Token>)
    ensures Matches(xs, xs)
    ensures Matches(xs, ys) <==> Matches(ys, xs)
    ensures Matches(xs, ys) && Matches(ys, zs) && Ground(ys) ==> Matches(xs, zs)
  {
    if Matches(xs, ys) && Matches(ys, zs) && Ground(ys) {
      forall i | 0 <= i < |xs|
        ensures IsSame(xs[i], zs[i])
      {
        assert IsSame(xs[i], ys[i]) && IsSame(ys[i], zs[i]);
      }
    }
  }

  /** A placeholder in the middle list breaks transitivity. */
  lemma PlaceholderNotTransitive(a: Token, b: Token, name: string)
    requires !a.Placeholder? && !b.Placeholder? && !Alike(a, b)
    ensures Matches([a], [Placeholder(name)]) && Matches([Placeholder(name)], [b]) && !Matches([a], [b])
  {
    assert !IsSame([a][0], [b][0]);
  }

  /** So matching is transitive through `ys`, whatever stands on either side, exactly
      when `ys` has no placeholder. */
  lemma TransitiveThrough(ys: seq<Token>)
    ensures Ground(ys) <==> forall xs, zs :: Matches(xs, ys) && Matches(ys, zs) ==> Matches(xs, zs)
  {
    forall xs, zs | Ground(ys) && Matches(xs, ys) && Matches(ys, zs)
      ensures Matches(xs, zs)
    {
      MatchingRelation(xs, ys, zs);
    }
    if !Ground(ys) {
      var i :| 0 <= i < |ys| && ys[i].Placeholder?;
      var xs, zs := ys[i := EOF], ys[i := Character('a')];
      MatchingRelation(ys, ys, ys);
      assert forall j :: 0 <= j < |ys| ==> IsSame(ys[j], ys[j]);
      assert Matches(xs, ys) && Matches(ys, zs);
      assert !IsSame(xs[i], zs[i]);
    }
  }

  lemma {:induction false} TrimTokensAppend(xs: seq<Token>, ys: seq<Token>)
    ensures TrimTokens(xs + ys) == TrimTokens(xs) + TrimTokens(ys)
  {
    if xs == [] {
      assert xs + ys == ys;
    } else {
      TrimTokensAppend(xs[1..], ys);
      assert (xs + ys)[1..] == xs[1..] + ys;
      var head := if Visible(xs[0]) then [xs[0]] else [];
      assert head + (TrimTokens(xs[1..]) + TrimTokens(ys)) == head + TrimTokens(xs[1..]) + TrimTokens(ys);
    }
  }

  /** Blanks anywhere in template or statement do not change the verdict. */
  lemma BlanksDoNotMatter(before: seq<Token>, blanks: seq<Token>, after: seq<Token>, other: seq<Token>)
    requires forall i :: 0 <= i < |blanks| ==> blanks[i].EOF? || blanks[i].Whitespace?
    ensures TrimTokens(before + blanks + after) == TrimTokens(before + after)
    ensures Matches(TrimTokens(before + blanks + after), TrimTokens(other))
       <==> Matches(TrimTokens(before + after), TrimTokens(other))
  {
    TrimTokensAppend(before + blanks, after);
    TrimTokensAppend(before, blanks);
    TrimTokensAppend(before, after);
    BlanksVanish(blanks);
  }

  lemma {:induction false} BlanksVanish(blanks: seq<Token>)
    requires forall i :: 0 <= i < |blanks| ==> blanks[i].EOF? || blanks[i].Whitespace?
    ensures TrimTokens(blanks) == []
  {
    if blanks != [] {
      BlanksVanish(blanks[1..]);
    }
  }
}
