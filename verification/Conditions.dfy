/** Match-variable conditions: the grammar, the recursive-descent parser and evaluation.
    crates/eqtrigger/src/conditions.rs. */
module Conditions {
  import opened Foundations

  const MAX_NESTING_DEPTH: nat := 10

  datatype CompareOp = Eq | Ne | Gt | Ge | Lt | Le | Contains

  datatype Operand = Variable(name: string) | Str(text: string) | Number(value: real) | Bool(flag: bool) | Null

  datatype Token =
    | Literal(operand: Operand) | Op(op: CompareOp) | TAnd | TOr | TNot | LeftParen | RightParen | End

  datatype Condition =
    | Or(left: Condition, right: Condition)
    | And(left: Condition, right: Condition)
    | Not(inner: Condition)
    | Compare(lhs: Operand, op: CompareOp, rhs: Operand)
    | Truthy(operand: Operand)

  // ----- the grammar -----

  /** Concrete syntax, one type per rule of the grammar; chains grow to the left. A
      comparison has plain operands on both sides. */
  datatype OrExpr = OrFirst(first: AndExpr) | OrNext(front: OrExpr, last: AndExpr)
  datatype AndExpr = AndFirst(first: Unary) | AndNext(front: AndExpr, last: Unary)
  datatype Unary = Negated(inner: Unary) | Plain(lit: Operand) | Compared(left: Operand, op: CompareOp, right: Operand) | Group(expr: OrExpr)

  /** The tokens an expression is written with. */
  function OrTokens(e: OrExpr): seq<Token> {
    match e
    case OrFirst(a) => AndTokens(a)
    case OrNext(f, a) => OrTokens(f) + [TOr] + AndTokens(a)
  }

  function AndTokens(e: AndExpr): seq<Token> {
    match e
    case AndFirst(u) => UnaryTokens(u)
    case AndNext(f, u) => AndTokens(f) + [TAnd] + UnaryTokens(u)
  }

  function UnaryTokens(e: Unary): seq<Token> {
    match e
    case Negated(u) => [TNot] + UnaryTokens(u)
    case Plain(x) => [Literal(x)]
    case Compared(l, op, r) => [Literal(l), Op(op), Literal(r)]
    case Group(x) => [LeftParen] + OrTokens(x) + [RightParen]
  }

  /** How deep NOTs and parentheses nest. */
  function OrDepth(e: OrExpr): nat {
    match e
    case OrFirst(a) => AndDepth(a)
    case OrNext(f, a) => Max(OrDepth(f), AndDepth(a))
  }

  function AndDepth(e: AndExpr): nat {
    match e
    case AndFirst(u) => UnaryDepth(u)
    case AndNext(f, u) => Max(AndDepth(f), UnaryDepth(u))
  }

  function UnaryDepth(e: Unary): nat {
    match e
    case Negated(u) => 1 + UnaryDepth(u)
    case Plain(_) => 0
    case Compared(_, _, _) => 0
    case Group(x) => 1 + OrDepth(x)
  }

  /** The tree an expression stands for: chains associate to the left. */
  function OrTree(e: OrExpr): Condition {
    match e
    case OrFirst(a) => AndTree(a)
    case OrNext(f, a) => Or(OrTree(f), AndTree(a))
  }

  function AndTree(e: AndExpr): Condition {
    match e
    case AndFirst(u) => UnaryTree(u)
    case AndNext(f, u) => And(AndTree(f), UnaryTree(u))
  }

  function UnaryTree(e: Unary): Condition {
    match e
    case Negated(u) => Not(UnaryTree(u))
    case Plain(x) => Truthy(x)
    case Compared(l, op, r) => Compare(l, op, r)
    case Group(x) => OrTree(x)
  }

  // ----- the parser, on what is left of the tokens -----

  /** A reading of a first part of the tokens, and what is left of them. */
  datatype Parse<+E> = Fail | Done(expr: E, rest: seq<Token>)

  predicate At(ts: seq<Token>, t: Token) { ts != [] && ts[0] == t }

  /** The depth counts up to the bound; a negative depth leaves more room, which the source
      never does. */
  function ParseOr(ts: seq<Token>, depth: int): (r: Parse<OrExpr>)
    ensures r.Done? ==> |r.rest| < |ts|
    decreases |ts|, 5
  {
    match ParseAnd(ts, depth)
    case Fail => Fail
    case Done(a, rest) => OrLoop(OrFirst(a), rest, depth)
  }

  function OrLoop(front: OrExpr, ts: seq<Token>, depth: int): (r: Parse<OrExpr>)
    ensures r.Done? ==> |r.rest| <= |ts|
    decreases |ts|, 6
  {
    if !At(ts, TOr) then Done(front, ts)
    else
      match ParseAnd(ts[1..], depth)
      case Fail => Fail
      case Done(a, rest) => OrLoop(OrNext(front, a), rest, depth)
  }

  function ParseAnd(ts: seq<Token>, depth: int): (r: Parse<AndExpr>)
    ensures r.Done? ==> |r.rest| < |ts|
    decreases |ts|, 3
  {
    match ParseUnary(ts, depth)
    case Fail => Fail
    case Done(u, rest) => AndLoop(AndFirst(u), rest, depth)
  }

  function AndLoop(front: AndExpr, ts: seq<Token>, depth: int): (r: Parse<AndExpr>)
    ensures r.Done? ==> |r.rest| <= |ts|
    decreases |ts|, 4
  {
    if !At(ts, TAnd) then Done(front, ts)
    else
      match ParseUnary(ts[1..], depth)
      case Fail => Fail
      case Done(u, rest) => AndLoop(AndNext(front, u), rest, depth)
  }

  function ParseUnary(ts: seq<Token>, depth: int): (r: Parse<Unary>)
    ensures r.Done? ==> |r.rest| < |ts|
    decreases |ts|, 2
  {
    if At(ts, TNot) then
      if depth + 1 > MAX_NESTING_DEPTH then Fail
      else
        match ParseUnary(ts[1..], depth + 1)
        case Fail => Fail
        case Done(u, rest) => Done(Negated(u), rest)
    else ParseComparison(ts, depth)
  }

  function ParseComparison(ts: seq<Token>, depth: int): (r: Parse<Unary>)
    ensures r.Done? ==> |r.rest| < |ts|
    decreases |ts|, 1
  {
    if At(ts, LeftParen) then ParseGroup(ts, depth)
    else if ts == [] || !ts[0].Literal? then Fail
    else if |ts| > 1 && ts[1].Op? then
      if |ts| > 2 && ts[2].Literal? then Done(Compared(ts[0].operand, ts[1].op, ts[2].operand), ts[3..]) else Fail
    else Done(Plain(ts[0].operand), ts[1..])
  }

  /** A parenthesised expression; it is no operand of a comparison. */
  function ParseGroup(ts: seq<Token>, depth: int): (r: Parse<Unary>)
    requires At(ts, LeftParen)
    ensures r.Done? ==> |r.rest| < |ts|
    decreases |ts|, 0
  {
    if depth + 1 > MAX_NESTING_DEPTH then Fail
    else
      match ParseOr(ts[1..], depth + 1)
      case Fail => Fail
      case Done(x, rest) =>
        if !At(rest, RightParen) || (|rest| > 1 && rest[1].Op?) then Fail else Done(Group(x), rest[1..])
  }

  /** `parse` over tokens. */
  function ParseAll(ts: seq<Token>): Option<Condition> {
    match ParseOr(ts, 0)
    case Fail => None
    case Done(e, rest) => if At(rest, End) then Some(OrTree(e)) else None
  }

  /** What `tokenize` returns: one End, at the end. */
  predicate Tokens(ts: seq<Token>) { ts != [] && forall i | 0 <= i < |ts| :: ts[i] == End <==> i == |ts| - 1 }

  // ----- it accepts only the grammar -----

  /** What the parser reads is written exactly there, within the depth. */
  lemma {:induction false} OrSound(ts: seq<Token>, depth: int)
    requires depth <= MAX_NESTING_DEPTH
    ensures var p := ParseOr(ts, depth);
            p.Done? ==> ts == OrTokens(p.expr) + p.rest && depth + OrDepth(p.expr) <= MAX_NESTING_DEPTH
    decreases |ts|, 5
  {
    hide AndTokens, AndDepth, ParseAnd;
    AndSound(ts, depth);
    var a := ParseAnd(ts, depth);
    if a.Done? { OrLoopSound(OrFirst(a.expr), a.rest, depth); }
  }

  lemma {:induction false} OrLoopSound(front: OrExpr, ts: seq<Token>, depth: int)
    requires depth + OrDepth(front) <= MAX_NESTING_DEPTH
    ensures var p := OrLoop(front, ts, depth);
            p.Done? ==> OrTokens(front) + ts == OrTokens(p.expr) + p.rest && depth + OrDepth(p.expr) <= MAX_NESTING_DEPTH
    decreases |ts|, 6
  {
    hide AndTokens, AndDepth, ParseAnd;
    if At(ts, TOr) {
      AndSound(ts[1..], depth);
      var a := ParseAnd(ts[1..], depth);
      if a.Done? {
        OrLoopSound(OrNext(front, a.expr), a.rest, depth);
        assert ts == [TOr] + AndTokens(a.expr) + a.rest;
        assert OrTokens(front) + ts == OrTokens(OrNext(front, a.expr)) + a.rest;
      }
    }
  }

  lemma {:induction false} AndSound(ts: seq<Token>, depth: int)
    requires depth <= MAX_NESTING_DEPTH
    ensures var p := ParseAnd(ts, depth);
            p.Done? ==> ts == AndTokens(p.expr) + p.rest && depth + AndDepth(p.expr) <= MAX_NESTING_DEPTH
    decreases |ts|, 3
  {
    hide UnaryTokens, UnaryDepth, ParseUnary;
    UnarySound(ts, depth);
    var u := ParseUnary(ts, depth);
    if u.Done? { AndLoopSound(AndFirst(u.expr), u.rest, depth); }
  }

  lemma {:induction false} AndLoopSound(front: AndExpr, ts: seq<Token>, depth: int)
    requires depth + AndDepth(front) <= MAX_NESTING_DEPTH
    ensures var p := AndLoop(front, ts, depth);
            p.Done? ==> AndTokens(front) + ts == AndTokens(p.expr) + p.rest && depth + AndDepth(p.expr) <= MAX_NESTING_DEPTH
    decreases |ts|, 4
  {
    hide UnaryTokens, UnaryDepth, ParseUnary;
    if At(ts, TAnd) {
      UnarySound(ts[1..], depth);
      var u := ParseUnary(ts[1..], depth);
      if u.Done? {
        AndLoopSound(AndNext(front, u.expr), u.rest, depth);
        assert ts == [TAnd] + UnaryTokens(u.expr) + u.rest;
        assert AndTokens(front) + ts == AndTokens(AndNext(front, u.expr)) + u.rest;
      }
    }
  }

  lemma {:induction false} UnarySound(ts: seq<Token>, depth: int)
    requires depth <= MAX_NESTING_DEPTH
    ensures var p := ParseUnary(ts, depth);
            p.Done? ==> ts == UnaryTokens(p.expr) + p.rest && depth + UnaryDepth(p.expr) <= MAX_NESTING_DEPTH
    decreases |ts|, 2
  {
    if At(ts, TNot) {
      if depth + 1 <= MAX_NESTING_DEPTH {
        UnarySound(ts[1..], depth + 1);
        assert ts == [TNot] + ts[1..];
      }
    } else if At(ts, LeftParen) {
      UnaryIsGroup(ts, depth);
      GroupSound(ts, depth);
    } else if |ts| > 2 && ts[1].Op? {
      assert ts == [ts[0], ts[1], ts[2]] + ts[3..];
    } else if ts != [] {
      assert ts == [ts[0]] + ts[1..];
    }
  }

  lemma UnaryIsGroup(ts: seq<Token>, depth: int)
    requires At(ts, LeftParen)
    ensures ParseUnary(ts, depth) == ParseGroup(ts, depth)
  { hide ParseGroup; }

  lemma {:induction false} GroupSound(ts: seq<Token>, depth: int)
    requires At(ts, LeftParen) && depth <= MAX_NESTING_DEPTH
    ensures var p := ParseGroup(ts, depth);
            p.Done? ==> ts == UnaryTokens(p.expr) + p.rest && depth + UnaryDepth(p.expr) <= MAX_NESTING_DEPTH
    decreases |ts|, 0
  {
    hide ParseOr, OrTokens;
    if depth + 1 <= MAX_NESTING_DEPTH {
      OrSound(ts[1..], depth + 1);
      var x := ParseOr(ts[1..], depth + 1);
      if x.Done? && At(x.rest, RightParen) {
        assert x.rest == [RightParen] + x.rest[1..];
        assert ts == [LeftParen] + ts[1..];
      }
    }
  }

  // ----- and all of it -----

  /** What may follow an expression of each level without being taken into it. */
  predicate AfterUnary(ts: seq<Token>) { ts != [] ==> !ts[0].Op? }
  predicate AfterAnd(ts: seq<Token>) { AfterUnary(ts) && !At(ts, TAnd) }

  /** Every expression within the depth is read back as it was written. */
  lemma {:induction false} OrComplete(e: OrExpr, rest: seq<Token>, depth: int)
    requires depth + OrDepth(e) <= MAX_NESTING_DEPTH && AfterAnd(rest)
    ensures ParseOr(OrTokens(e) + rest, depth) == OrLoop(e, rest, depth)
    decreases e, 0
  {
    hide AndTokens, ParseAnd;
    match e
    case OrFirst(a) => AndFinishes(a, rest, depth);
    case OrNext(f, a) =>
      var more := [TOr] + AndTokens(a) + rest;
      OrComplete(f, more, depth);
      AndFinishes(a, rest, depth);
      assert OrTokens(e) + rest == OrTokens(f) + more;
      assert more[1..] == AndTokens(a) + rest;
  }

  lemma AndFinishes(e: AndExpr, rest: seq<Token>, depth: int)
    requires depth + AndDepth(e) <= MAX_NESTING_DEPTH && AfterAnd(rest)
    ensures ParseAnd(AndTokens(e) + rest, depth) == Done(e, rest)
    decreases e, 1
  { AndComplete(e, rest, depth); }

  lemma {:induction false} AndComplete(e: AndExpr, rest: seq<Token>, depth: int)
    requires depth + AndDepth(e) <= MAX_NESTING_DEPTH && AfterUnary(rest)
    ensures ParseAnd(AndTokens(e) + rest, depth) == AndLoop(e, rest, depth)
    decreases e, 0
  {
    hide UnaryTokens, ParseUnary;
    match e
    case AndFirst(u) => UnaryComplete(u, rest, depth);
    case AndNext(f, u) =>
      var more := [TAnd] + UnaryTokens(u) + rest;
      AndComplete(f, more, depth);
      UnaryComplete(u, rest, depth);
      assert AndTokens(e) + rest == AndTokens(f) + more;
      assert more[1..] == UnaryTokens(u) + rest;
  }

  lemma {:induction false} UnaryComplete(e: Unary, rest: seq<Token>, depth: int)
    requires depth + UnaryDepth(e) <= MAX_NESTING_DEPTH && AfterUnary(rest)
    ensures ParseUnary(UnaryTokens(e) + rest, depth) == Done(e, rest)
    decreases e, 0
  {
    var ts := UnaryTokens(e) + rest;
    hide OrTokens, ParseOr;
    match e
    case Negated(u) =>
      UnaryComplete(u, rest, depth + 1);
      assert ts[1..] == UnaryTokens(u) + rest;
    case Plain(x) =>
      assert ts[1..] == rest;
    case Compared(l, op, r) =>
      assert ts[0] == Literal(l) && ts[1] == Op(op) && ts[2] == Literal(r) && ts[3..] == rest;
    case Group(x) =>
      GroupComplete(x, rest, depth);
      UnaryIsGroup(ts, depth);
  }

  lemma {:induction false} GroupComplete(x: OrExpr, rest: seq<Token>, depth: int)
    requires depth + 1 + OrDepth(x) <= MAX_NESTING_DEPTH && AfterUnary(rest)
    ensures ParseGroup([LeftParen] + OrTokens(x) + [RightParen] + rest, depth) == Done(Group(x), rest)
    decreases x, 1
  {
    hide ParseOr, OrTokens;
    var ts, more := [LeftParen] + OrTokens(x) + [RightParen] + rest, [RightParen] + rest;
    OrComplete(x, more, depth + 1);
    assert ts[1..] == OrTokens(x) + more;
    assert OrLoop(x, more, depth + 1) == Done(x, more);
    assert more[1..] == rest;
  }

  /** `parse` accepts exactly the grammar within the nesting bound and returns its
      left-associated tree. */
  lemma ParsesExactlyTheGrammar(ts: seq<Token>, c: Condition)
    requires Tokens(ts)
    ensures ParseAll(ts) == Some(c) <==> Derives(ts, c)
  {
    hide ParseOr, OrTokens, OrTree, OrDepth;
    if ParseAll(ts) == Some(c) {
      OrSound(ts, 0);
      var p := ParseOr(ts, 0);
      LastOnly(ts, OrTokens(p.expr), p.rest);
      assert Witness(ts, c, p.expr);
    }
    if Derives(ts, c) {
      var e :| Witness(ts, c, e);
      OrComplete(e, [End], 0);
    }
  }

  ghost predicate Witness(ts: seq<Token>, c: Condition, e: OrExpr) {
    ts == OrTokens(e) + [End] && OrDepth(e) <= MAX_NESTING_DEPTH && c == OrTree(e)
  }

  ghost predicate Derives(ts: seq<Token>, c: Condition) { exists e :: Witness(ts, c, e) }

  lemma LastOnly(ts: seq<Token>, front: seq<Token>, rest: seq<Token>)
    requires Tokens(ts) && ts == front + rest && At(rest, End)
    ensures rest == [End]
  {
    assert ts[|front|] == End;
    assert |rest| == 1;
  }

  /** The grammar is unambiguous, however deep: the same tokens are the same expression. */
  lemma GrammarIsUnambiguous(e: OrExpr, d: OrExpr)
    requires OrTokens(e) == OrTokens(d)
    ensures e == d
  {
    hide ParseOr, OrTokens, OrDepth;
    var depth := -Max(OrDepth(e), OrDepth(d));
    OrComplete(e, [], depth);
    OrComplete(d, [], depth);
  }

  // ----- evaluation -----

  /** The variables, and how two operands compare. */
  datatype Env = Env(resolve: string -> Option<string>, compares: (Operand, CompareOp, Operand) -> bool)

  predicate Evaluate(c: Condition, env: Env) {
    match c
    case Or(l, r) => Evaluate(l, env) || Evaluate(r, env)
    case And(l, r) => Evaluate(l, env) && Evaluate(r, env)
    case Not(x) => !Evaluate(x, env)
    case Truthy(o) =>
      (match o
       case Variable(name) => env.resolve(name).Some? && env.resolve(name).value != ""
       case Bool(b) => b
       case Null => false
       case _ => true)
    case Compare(l, op, r) => env.compares(l, op, r)
  }

  function OrOperands(e: OrExpr): seq<AndExpr> {
    match e case OrFirst(a) => [a] case OrNext(f, a) => OrOperands(f) + [a]
  }

  function AndOperands(e: AndExpr): seq<Unary> {
    match e case AndFirst(u) => [u] case AndNext(f, u) => AndOperands(f) + [u]
  }

  ghost predicate Any(os: seq<AndExpr>, env: Env) { exists i :: 0 <= i < |os| && Evaluate(AndTree(os[i]), env) }
  ghost predicate All(os: seq<Unary>, env: Env) { forall i | 0 <= i < |os| :: Evaluate(UnaryTree(os[i]), env) }

  lemma AnyGrows(os: seq<AndExpr>, a: AndExpr, env: Env)
    ensures Any(os + [a], env) <==> Any(os, env) || Evaluate(AndTree(a), env)
  {
    hide Evaluate, AndTree;
    var more := os + [a];
    assert more[|os|] == a;
    assert forall i | 0 <= i < |os| :: more[i] == os[i];
  }

  lemma AllGrows(os: seq<Unary>, u: Unary, env: Env)
    ensures All(os + [u], env) <==> All(os, env) && Evaluate(UnaryTree(u), env)
  {
    hide Evaluate, UnaryTree;
    var more := os + [u];
    assert more[|os|] == u;
    assert forall i | 0 <= i < |os| :: more[i] == os[i];
  }

  /** An OR chain holds exactly when one of its operands does. */
  lemma {:induction false} OrIsAny(e: OrExpr, env: Env)
    ensures Evaluate(OrTree(e), env) <==> Any(OrOperands(e), env)
  {
    match e
    case OrFirst(a) => AnyGrows([], a, env); assert OrOperands(e) == [] + [a];
    case OrNext(f, a) =>
      hide AndTree, Any;
      OrIsAny(f, env);
      AnyGrows(OrOperands(f), a, env);
  }

  /** An AND chain holds exactly when all of its operands do. */
  lemma {:induction false} AndIsAll(e: AndExpr, env: Env)
    ensures Evaluate(AndTree(e), env) <==> All(AndOperands(e), env)
  {
    match e
    case AndFirst(u) => AllGrows([], u, env); assert AndOperands(e) == [] + [u];
    case AndNext(f, u) =>
      hide UnaryTree, All;
      AndIsAll(f, env);
      AllGrows(AndOperands(f), u, env);
  }
}
