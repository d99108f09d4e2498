/** The parser object: an index that moves over the tokens and a nesting depth.
    crates/eqtrigger/src/conditions.rs, `Parser`. */
module ConditionParser {
  import opened Foundations
  import opened Conditions

  /** The tree of what was read. */
  ghost function OrNode(p: Parse<OrExpr>): Parse<Condition> {
    match p case Fail => Fail case Done(e, rest) => Done(OrTree(e), rest)
  }

  ghost function AndNode(p: Parse<AndExpr>): Parse<Condition> {
    match p case Fail => Fail case Done(e, rest) => Done(AndTree(e), rest)
  }

  ghost function UnaryNode(p: Parse<Unary>): Parse<Condition> {
    match p case Fail => Fail case Done(e, rest) => Done(UnaryTree(e), rest)
  }

  class Parser {
    const tokens: seq<Token>
    var index: nat
    var depth: nat

    /** The End token is never passed. */
    predicate Valid()
      reads this
    { Tokens(tokens) && index < |tokens| }

    function Rest(): seq<Token>
      reads this
      requires Valid()
    { tokens[index..] }

    constructor (tokens: seq<Token>)
      requires Tokens(tokens)
      ensures Valid() && Rest() == tokens && depth == 0 && this.tokens == tokens
    { this.tokens, index, depth := tokens, 0, 0; }

    /** What a parsing method leaves behind, against the parser on values. */
    ghost predicate Follows(p: Parse<Condition>, before: nat, r: Option<Condition>)
      reads this
    {
      Valid()
      && match p
         case Fail => r == None
         case Done(n, rest) => r == Some(n) && Rest() == rest && depth == before
    }

    method Advance()
      requires Valid()
      modifies this`index
      ensures Valid() && Rest() == if old(tokens[index]) == End then old(Rest()) else old(Rest())[1..]
    {
      if index < |tokens| - 1 { index := index + 1; }
    }

    method ParseOrExpr() returns (r: Option<Condition>)
      requires Valid()
      modifies this
      ensures Follows(OrNode(ParseOr(old(Rest()), old(depth))), old(depth), r)
      decreases |tokens| - index, 4
    {
      hide ParseAnd;
      ghost var read := ParseAnd(Rest(), depth);
      var first := ParseAndExpr();
      if first.None? { return None; }
      var node := first.value;
      ghost var front := OrFirst(read.expr);
      while tokens[index] == TOr
        invariant Valid() && depth == old(depth) && index > old(index)
        invariant node == OrTree(front) && OrLoop(front, Rest(), depth) == ParseOr(old(Rest()), old(depth))
        decreases |tokens| - index
      {
        Advance();
        read := ParseAnd(Rest(), depth);
        var next := ParseAndExpr();
        if next.None? { return None; }
        node := Or(node, next.value);
        front := OrNext(front, read.expr);
      }
      r := Some(node);
    }

    method ParseAndExpr() returns (r: Option<Condition>)
      requires Valid()
      modifies this
      ensures Follows(AndNode(ParseAnd(old(Rest()), old(depth))), old(depth), r)
      ensures r.Some? ==> index > old(index)
      decreases |tokens| - index, 3
    {
      hide ParseUnary;
      ghost var read := ParseUnary(Rest(), depth);
      var first := ParseUnaryExpr();
      if first.None? { return None; }
      var node := first.value;
      ghost var front := AndFirst(read.expr);
      while tokens[index] == TAnd
        invariant Valid() && depth == old(depth) && index > old(index)
        invariant node == AndTree(front) && AndLoop(front, Rest(), depth) == ParseAnd(old(Rest()), old(depth))
        decreases |tokens| - index
      {
        Advance();
        read := ParseUnary(Rest(), depth);
        var next := ParseUnaryExpr();
        if next.None? { return None; }
        node := And(node, next.value);
        front := AndNext(front, read.expr);
      }
      r := Some(node);
    }

    method ParseUnaryExpr() returns (r: Option<Condition>)
      requires Valid()
      modifies this
      ensures Follows(UnaryNode(ParseUnary(old(Rest()), old(depth))), old(depth), r)
      ensures r.Some? ==> index > old(index)
      decreases |tokens| - index, 2
    {
      if tokens[index] == TNot {
        depth := depth + 1;
        if depth > MAX_NESTING_DEPTH { return None; }
        Advance();
        var operand := ParseUnaryExpr();
        if operand.None? { return None; }
        depth := depth - 1;
        return Some(Not(operand.value));
      }
      r := ParseComparisonExpr();
    }

    method ParseComparisonExpr() returns (r: Option<Condition>)
      requires Valid() && tokens[index] != TNot
      modifies this
      ensures Follows(UnaryNode(ParseComparison(old(Rest()), old(depth))), old(depth), r)
      ensures r.Some? ==> index > old(index)
      decreases |tokens| - index, 1
    {
      hide ParseGroup;
      if tokens[index] == LeftParen {
        r := ParseGroupExpr();
        return;
      }
      var left := ParseOperand();
      if left.None? { return None; }
      if tokens[index].Op? {
        var op := tokens[index].op;
        Advance();
        var right := ParseOperand();
        if right.None? { return None; }
        return Some(Compare(left.value, op, right.value));
      }
      r := Some(Truthy(left.value));
    }

    method ParseGroupExpr() returns (r: Option<Condition>)
      requires Valid() && tokens[index] == LeftParen
      modifies this
      ensures Follows(UnaryNode(ParseGroup(old(Rest()), old(depth))), old(depth), r)
      ensures r.Some? ==> index > old(index)
      decreases |tokens| - index, 0
    {
      hide ParseOr;
      depth := depth + 1;
      if depth > MAX_NESTING_DEPTH { return None; }
      Advance();
      var node := ParseOrExpr();
      if node.None? || tokens[index] != RightParen { return None; }
      Advance();
      depth := depth - 1;
      if tokens[index].Op? {
        Advance();
        var _ := ParseOperand();
        return None;
      }
      r := node;
    }

    method ParseOperand() returns (r: Option<Operand>)
      requires Valid()
      modifies this`index
      ensures Valid()
      ensures if old(tokens[index]).Literal? then r == Some(old(tokens[index]).operand) && Rest() == old(Rest())[1..]
              else r == None && index == old(index)
    {
      if !tokens[index].Literal? { return None; }
      r := Some(tokens[index].operand);
      Advance();
    }
  }

  /** `parse` over tokens. */
  method ParseTokens(tokens: seq<Token>) returns (r: Option<Condition>)
    requires Tokens(tokens)
    ensures r == ParseAll(tokens)
  {
    hide ParseOr;
    var parser := new Parser(tokens);
    var node := parser.ParseOrExpr();
    if node.None? || parser.tokens[parser.index] != End { return None; }
    r := node;
  }
}
