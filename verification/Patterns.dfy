/** The rewriter that turns a query into its metric pattern: right operands of
    every operator but AND, and both bounds of BETWEEN, become placeholders. */
module Patterns {
  import opened Basics
  import opened Tokens

  const AND_TOKEN := Word("AND", None, "AND")
  const BETWEEN_TOKEN := Word("BETWEEN", None, "BETWEEN")
  const NOT_TOKEN := Word("NOT", None, "NOT")
  const HOLE := Placeholder("?")

  /** Operators other than AND (OR is one of them) carry their spelling. */
  datatype BinaryOperator = And | Other(spelling: seq<Token>)

  /** `Opaque` stands for every expression the rewriter leaves whole, literals,
      identifiers, calls and parenthesised expressions among them. */
  datatype Expr =
    | BinaryOp(op: BinaryOperator, left: Expr, right: Expr)
    | Between(expr: Expr, negated: bool, low: Expr, high: Expr)
    | UnaryOp(sign: seq<Token>, expr: Expr)
    | Hole
    | Opaque(tokens: seq<Token>)

  function ReplaceExpr(e: Expr): Expr {
    match e
    case BinaryOp(And, left, right) => BinaryOp(And, ReplaceExpr(left), ReplaceExpr(right))
    case BinaryOp(op, left, _) => BinaryOp(op, ReplaceExpr(left), Hole)
    case Between(expr, negated, _, _) => Between(ReplaceExpr(expr), negated, Hole, Hole)
    case UnaryOp(sign, expr) => UnaryOp(sign, ReplaceExpr(expr))
    case _ => e
  }

  // ---- the rewriter is a normal form ----------------------------------------

  /** Equal up to what the rewriter drops. */
  predicate SameSkeleton(a: Expr, b: Expr) {
    match (a, b)
    case (BinaryOp(o, l, r), BinaryOp(p, m, s)) =>
      o == p && SameSkeleton(l, m) && (o.And? ==> SameSkeleton(r, s))
    case (Between(e, n, _, _), Between(f, m, _, _)) => n == m && SameSkeleton(e, f)
    case (UnaryOp(s, e), UnaryOp(t, f)) => s == t && SameSkeleton(e, f)
    case _ => a == b
  }

  lemma {:induction false} ReplaceIdempotent(e: Expr)
    ensures ReplaceExpr(ReplaceExpr(e)) == ReplaceExpr(e)
    ensures SameSkeleton(e, ReplaceExpr(e))
  {
    match e
    case BinaryOp(op, left, right) =>
      ReplaceIdempotent(left);
      ReplaceIdempotent(right);
    case Between(expr, _, _, _) => ReplaceIdempotent(expr);
    case UnaryOp(_, expr) => ReplaceIdempotent(expr);
    case _ =>
  }

  lemma {:induction false} ReplaceKernel(a: Expr, b: Expr)
    ensures ReplaceExpr(a) == ReplaceExpr(b) <==> SameSkeleton(a, b)
  {
    match (a, b)
    case (BinaryOp(_, l, r), BinaryOp(_, m, s)) =>
      ReplaceKernel(l, m);
      ReplaceKernel(r, s);
    case (Between(e, _, _, _), Between(f, _, _, _)) => ReplaceKernel(e, f);
    case (UnaryOp(_, e), UnaryOp(_, f)) => ReplaceKernel(e, f);
    case _ =>
  }

  // ---- printed tokens ---------------------------------------------------------

  predicate Printable(e: Expr) {
    match e
    case BinaryOp(op, left, right) => Printable(left) && Printable(right)
    case Between(expr, _, low, high) => Printable(expr) && Printable(low) && Printable(high)
    case UnaryOp(_, expr) => Printable(expr)
    case Hole => true
    case Opaque(tokens) => tokens != []
  }

  /** The visible tokens of the printed expression. */
  function Print(e: Expr): seq<Token> {
    match e
    case BinaryOp(op, left, right) =>
      Print(left) + (if op.And? then [AND_TOKEN] else op.spelling) + Print(right)
    case Between(expr, negated, low, high) =>
      Print(expr) + (if negated then [NOT_TOKEN, BETWEEN_TOKEN] else [BETWEEN_TOKEN])
      + Print(low) + [AND_TOKEN] + Print(high)
    case UnaryOp(sign, expr) => sign + Print(expr)
    case Hole => [HOLE]
    case Opaque(tokens) => tokens
  }

  /** The operands the rewriter drops from `e`. */
  function Dropped(e: Expr): seq<Expr> {
    match e
    case BinaryOp(And, left, right) => Dropped(left) + Dropped(right)
    case BinaryOp(_, left, right) => Dropped(left) + [right]
    case Between(expr, _, low, high) => Dropped(expr) + [low, high]
    case UnaryOp(_, expr) => Dropped(expr)
    case _ => []
  }

  predicate SingleTokens(es: seq<Expr>) {
    forall i :: 0 <= i < |es| ==> |Print(es[i])| == 1
  }

  lemma SingleTokensAppend(xs: seq<Expr>, ys: seq<Expr>)
    ensures SingleTokens(xs + ys) <==> SingleTokens(xs) && SingleTokens(ys)
  {
    assert forall i :: 0 <= i < |xs| ==> (xs + ys)[i] == xs[i];
    assert forall i :: 0 <= i < |ys| ==> (xs + ys)[|xs| + i] == ys[i];
  }

  lemma {:induction false} PrintNonEmpty(e: Expr)
    requires Printable(e)
    ensures Print(e) != []
  {
    match e
    case BinaryOp(_, left, right) => PrintNonEmpty(left);
    case Between(expr, _, _, _) => PrintNonEmpty(expr);
    case UnaryOp(_, expr) => PrintNonEmpty(expr);
    case _ =>
  }

  lemma MatchesAppend(a: seq<Token>, b: seq<Token>, c: seq<Token>, d: seq<Token>)
    requires Matches(a, b) && Matches(c, d)
    ensures Matches(a + c, b + d)
  {
  }

  lemma HoleMatches(x: seq<Token>)
    requires |x| == 1
    ensures Matches([HOLE], x)
  {
  }

  /** The template is never longer than the original, as long exactly when all
      dropped operands are single tokens, and then it matches. */
  lemma {:induction false} TemplateShape(e: Expr)
    requires Printable(e)
    ensures |Print(ReplaceExpr(e))| <= |Print(e)|
    ensures |Print(ReplaceExpr(e))| == |Print(e)| <==> SingleTokens(Dropped(e))
    ensures SingleTokens(Dropped(e)) ==> Matches(Print(ReplaceExpr(e)), Print(e))
  {
    match e
    case BinaryOp(op, left, right) =>
      TemplateShape(left);
      var middle := if op.And? then [AND_TOKEN] else op.spelling;
      var start, start' := Print(ReplaceExpr(left)) + middle, Print(left) + middle;
      PrintNonEmpty(right);
      if op.And? {
        TemplateShape(right);
        SingleTokensAppend(Dropped(left), Dropped(right));
      } else {
        SingleTokensAppend(Dropped(left), [right]);
      }
      if SingleTokens(Dropped(e)) {
        MatchingRelation(middle, middle, middle);
        MatchesAppend(Print(ReplaceExpr(left)), Print(left), middle, middle);
        if !op.And? {
          assert |Print([right][0])| == 1;
          HoleMatches(Print(right));
        }
        MatchesAppend(start, start', Print(ReplaceExpr(e).right), Print(right));
      }
    case Between(expr, negated, low, high) =>
      TemplateShape(expr);
      PrintNonEmpty(low);
      PrintNonEmpty(high);
      SingleTokensAppend(Dropped(expr), [low, high]);
      assert SingleTokens([low, high]) <==> |Print(low)| == 1 && |Print(high)| == 1 by {
        assert [low, high][0] == low && [low, high][1] == high;
      }
      if SingleTokens(Dropped(e)) {
        var middle := if negated then [NOT_TOKEN, BETWEEN_TOKEN] else [BETWEEN_TOKEN];
        var a, a' := Print(ReplaceExpr(expr)) + middle, Print(expr) + middle;
        MatchesAppend(Print(ReplaceExpr(expr)), Print(expr), middle, middle);
        MatchesAppend(a, a', [HOLE], Print(low));
        MatchesAppend(a + [HOLE], a' + Print(low), [AND_TOKEN], [AND_TOKEN]);
        MatchesAppend(a + [HOLE] + [AND_TOKEN], a' + Print(low) + [AND_TOKEN], [HOLE], Print(high));
      }
    case UnaryOp(sign, expr) =>
      TemplateShape(expr);
      if SingleTokens(Dropped(e)) {
        MatchingRelation(sign, sign, sign);
        MatchesAppend(sign, sign, Print(ReplaceExpr(expr)), Print(expr));
      }
    case Hole =>
    case Opaque(tokens) =>
      MatchingRelation(tokens, tokens, tokens);
  }

  // ---- whole statements ----------------------------------------------------------

  /** The statements the pattern function distinguishes: a query whose body is
      a SELECT, any other query, and everything else. */
  datatype Statement =
    | Select(before: seq<Token>, selection: Option<Expr>, after: seq<Token>)
    | OtherQuery(tokens: seq<Token>)
    | NotAQuery

  /** The text parses, and the last of its statements is a query. */
  predicate EndsInQuery(parsed: Option<seq<Statement>>) {
    && parsed.Some? && |parsed.value| > 0
    && var last := parsed.value[|parsed.value| - 1];
    last.Select? || last.OtherQuery?
  }

  /** Only the last statement of a successfully parsed text counts, and only
      when it is a query. */
  function SqlToPattern(parsed: Option<seq<Statement>>): (pattern: Option<Statement>)
    ensures pattern.Some? <==> EndsInQuery(parsed)
  {
    match parsed
    case None => None
    case Some(statements) =>
      if statements == [] then None
      else
        match statements[|statements| - 1]
        case NotAQuery => None
        case OtherQuery(tokens) => Some(OtherQuery(tokens))
        case Select(before, selection, after) =>
          Some(Select(before, if selection.Some? then Some(ReplaceExpr(selection.value)) else None, after))
  }

  const WHERE_TOKEN := Word("WHERE", None, "WHERE")

  function PrintStatement(s: Statement): seq<Token>
    requires !s.NotAQuery?
  {
    match s
    case OtherQuery(tokens) => tokens
    case Select(before, None, after) => before + after
    case Select(before, Some(e), after) => before + [WHERE_TOKEN] + Print(e) + after
  }

  function DroppedBy(s: Statement): seq<Expr> {
    if s.Select? && s.selection.Some? then Dropped(s.selection.value) else []
  }

  predicate PrintableStatement(s: Statement) {
    !s.NotAQuery? && (s.Select? && s.selection.Some? ==> Printable(s.selection.value))
  }

  /** A query matches the template made of its own metric pattern exactly when
      each operand the rewriter dropped is a single token. */
  lemma TemplateSelfMatch(statements: seq<Statement>)
    requires statements != [] && PrintableStatement(statements[|statements| - 1])
    ensures var s := statements[|statements| - 1];
            var template := SqlToPattern(Some(statements));
            && template.Some?
            && (Matches(PrintStatement(template.value), PrintStatement(s)) <==> SingleTokens(DroppedBy(s)))
  {
    var s := statements[|statements| - 1];
    var t := SqlToPattern(Some(statements)).value;
    MatchingRelation(PrintStatement(s), PrintStatement(s), []);
    if s.Select? && s.selection.Some? {
      var e := s.selection.value;
      TemplateShape(e);
      var start := s.before + [WHERE_TOKEN];
      if SingleTokens(Dropped(e)) {
        MatchingRelation(start, start, []);
        MatchingRelation(s.after, s.after, []);
        MatchesAppend(start, start, Print(ReplaceExpr(e)), Print(e));
        MatchesAppend(start + Print(ReplaceExpr(e)), start + Print(e), s.after, s.after);
      }
    }
  }

  /** Of all queries with one metric pattern, that pattern used as a template
      matches exactly those whose dropped operands are single tokens. */
  lemma SamePatternMatches(a: seq<Statement>, b: seq<Statement>)
    requires a != [] && PrintableStatement(a[|a| - 1])
    requires b != [] && PrintableStatement(b[|b| - 1])
    requires SqlToPattern(Some(a)) == SqlToPattern(Some(b))
    ensures Matches(PrintStatement(SqlToPattern(Some(a)).value), PrintStatement(b[|b| - 1]))
       <==> SingleTokens(DroppedBy(b[|b| - 1]))
  {
    TemplateSelfMatch(b);
  }
}
