/** The restricted LaTeX parser: tokens, trees, what each parsing routine
    computes, and the cursor class that computes it. */
module Latex {
  import opened Wrappers

  /** The tokens the lexer can produce. */
  datatype Token =
    | FracCommand | SqrtCommand | Cdot | TimesSign
    | Le | Leq | Ge | Geq | Neq | Less | Greater | Equal
    | Word(name: string) | Numeral(text: string)
    | Plus | Hyphen | MinusSign | Star | Slash | Caret
    | LParen | RParen | LBrace | RBrace

  datatype Operator = Add | Subtract | Multiply

  datatype Node =
    | Number(text: string)
    | Symbol(name: string)
    | Function(name: string, argument: Node)
    | Fraction(numerator: Node, denominator: Node)
    | Radical(radicand: Node)
    | Group(inner: Node)
    | Power(base: Node, exponent: Node)
    | Operation(op: Operator, left: Node, right: Node)
    | Relation(relator: Token, lhs: Node, rhs: Node)

  datatype Error =
    | TrailingExpression | UnbalancedGroup | UnbalancedFunction
    | UnsupportedToken | ExpectedGroup | UnexpectedEnd

  /** A parsed tree and the position after it. */
  datatype Parsed = Parsed(node: Node, next: nat)
  type Outcome = Result<Parsed, Error>

  predicate IsFunctionName(name: string) { name in {"sin", "cos", "tan", "abs"} }
  predicate IsRelator(t: Token) { t in {Equal, Less, Greater, Le, Leq, Ge, Geq, Neq} }
  predicate IsSum(t: Token) { t == Plus || t == Hyphen || t == MinusSign }
  predicate IsProduct(t: Token) { t == Star || t == Slash || t == Cdot || t == TimesSign }
  predicate StartsFactor(t: Token) {
    t.Word? || t.Numeral? || t == LParen || t == LBrace || t == FracCommand || t == SqrtCommand
  }

  function Closer(opener: Token): Token { if opener == LParen then RParen else RBrace }

  predicate NextIs(ts: seq<Token>, i: nat, t: Token) { i < |ts| && ts[i] == t }

  function SumNode(t: Token, left: Node, right: Node): Node {
    Operation(if t == Plus then Add else Subtract, left, right)
  }

  function ProductNode(t: Token, left: Node, right: Node): Node {
    if t == Slash then Fraction(left, right) else Operation(Multiply, left, right)
  }

  /** What an enclosed expression becomes: a bare operand, a group or a call. */
  datatype Wrap = Bare | AsGroup | AsCall(name: string)

  function Wrapped(wrap: Wrap, x: Node): Node {
    match wrap
    case Bare => x
    case AsGroup => Group(x)
    case AsCall(name) => Function(name, x)
  }

  // ----- what each routine computes from the tokens and a start position -----

  function ParseExpression(ts: seq<Token>, i: nat): (r: Outcome)
    requires i <= |ts|
    ensures r.Success? ==> i < r.value.next <= |ts|
    decreases |ts| - i, 4
  {
    match ParseTerm(ts, i)
    case Failure(e) => Failure(e)
    case Success(p) => SumLoop(ts, p.node, p.next)
  }

  function SumLoop(ts: seq<Token>, node: Node, i: nat): (r: Outcome)
    requires i <= |ts|
    ensures r.Success? ==> i <= r.value.next <= |ts|
    decreases |ts| - i, 4
  {
    if i < |ts| && IsSum(ts[i]) then
      match ParseTerm(ts, i + 1)
      case Failure(e) => Failure(e)
      case Success(p) => SumLoop(ts, SumNode(ts[i], node, p.node), p.next)
    else Success(Parsed(node, i))
  }

  function ParseTerm(ts: seq<Token>, i: nat): (r: Outcome)
    requires i <= |ts|
    ensures r.Success? ==> i < r.value.next <= |ts|
    decreases |ts| - i, 3
  {
    match ParsePower(ts, i)
    case Failure(e) => Failure(e)
    case Success(p) => ProductLoop(ts, p.node, p.next)
  }

  function ProductLoop(ts: seq<Token>, node: Node, i: nat): (r: Outcome)
    requires i <= |ts|
    ensures r.Success? ==> i <= r.value.next <= |ts|
    decreases |ts| - i, 3
  {
    if i < |ts| && (IsProduct(ts[i]) || StartsFactor(ts[i])) then
      match ParsePower(ts, if StartsFactor(ts[i]) then i else i + 1)
      case Failure(e) => Failure(e)
      case Success(p) => ProductLoop(ts, ProductNode(ts[i], node, p.node), p.next)
    else Success(Parsed(node, i))
  }

  function ParsePower(ts: seq<Token>, i: nat): (r: Outcome)
    requires i <= |ts|
    ensures r.Success? ==> i < r.value.next <= |ts|
    decreases |ts| - i, 2
  {
    match ParseAtom(ts, i)
    case Failure(e) => Failure(e)
    case Success(base) =>
      if NextIs(ts, base.next, Caret) then
        match ParseAtom(ts, base.next + 1)
        case Failure(e) => Failure(e)
        case Success(exponent) => Success(Parsed(Power(base.node, exponent.node), exponent.next))
      else Success(base)
  }

  function ParseAtom(ts: seq<Token>, i: nat): (r: Outcome)
    requires i <= |ts|
    ensures r.Success? ==> i < r.value.next <= |ts|
    decreases |ts| - i, 1
  {
    if i == |ts| then Failure(UnexpectedEnd)
    else
      match ts[i]
      case FracCommand =>
        (match ParseGroup(ts, i + 1)
         case Failure(e) => Failure(e)
         case Success(n) =>
           match ParseGroup(ts, n.next)
           case Failure(e) => Failure(e)
           case Success(d) => Success(Parsed(Fraction(n.node, d.node), d.next)))
      case SqrtCommand =>
        (match ParseGroup(ts, i + 1)
         case Failure(e) => Failure(e)
         case Success(x) => Success(Parsed(Radical(x.node), x.next)))
      case LParen => Enclosed(ts, i + 1, RParen, UnbalancedGroup, AsGroup)
      case LBrace => Enclosed(ts, i + 1, RBrace, UnbalancedGroup, AsGroup)
      case Numeral(text) => Success(Parsed(Number(text), i + 1))
      case Word(name) =>
        if NextIs(ts, i + 1, LParen) && IsFunctionName(name) then
          Enclosed(ts, i + 2, RParen, UnbalancedFunction, AsCall(name))
        else Success(Parsed(Symbol(name), i + 1))
      case _ => Failure(UnsupportedToken)
  }

  /** An expression, then the closing token. */
  function Enclosed(ts: seq<Token>, i: nat, closer: Token, unbalanced: Error, wrap: Wrap): (r: Outcome)
    requires i <= |ts|
    ensures r.Success? ==> i < r.value.next <= |ts|
    decreases |ts| - i, 5
  {
    match ParseExpression(ts, i)
    case Failure(e) => Failure(e)
    case Success(x) =>
      if x.next == |ts| then Failure(UnexpectedEnd)
      else if ts[x.next] != closer then Failure(unbalanced)
      else Success(Parsed(Wrapped(wrap, x.node), x.next + 1))
  }

  function ParseGroup(ts: seq<Token>, i: nat): (r: Outcome)
    requires i <= |ts|
    ensures r.Success? ==> i < r.value.next <= |ts|
    decreases |ts| - i, 1
  {
    if i == |ts| then Failure(UnexpectedEnd)
    else if ts[i] != LBrace && ts[i] != LParen then Failure(ExpectedGroup)
    else Enclosed(ts, i + 1, Closer(ts[i]), UnbalancedGroup, Bare)
  }

  function ParseTokens(ts: seq<Token>): Result<Node, Error> {
    match ParseExpression(ts, 0)
    case Failure(e) => Failure(e)
    case Success(left) =>
      if left.next < |ts| && IsRelator(ts[left.next]) then
        match ParseExpression(ts, left.next + 1)
        case Failure(e) => Failure(e)
        case Success(right) =>
          if right.next != |ts| then Failure(TrailingExpression)
          else Success(Relation(ts[left.next], left.node, right.node))
      else if left.next != |ts| then Failure(TrailingExpression)
      else Success(left.node)
  }

  // ----- one turn of the product loop -----

  predicate Continues(t: Token) { IsProduct(t) || StartsFactor(t) }

  /** Where the next factor starts; a juxtaposed one has no sign before it. */
  function FactorAt(ts: seq<Token>, i: nat): (k: nat)
    requires i < |ts|
    ensures i <= k <= i + 1
  {
    if StartsFactor(ts[i]) then i else i + 1
  }

  lemma ProductLoopTurns(ts: seq<Token>, node: Node, i: nat)
    requires i < |ts| && Continues(ts[i])
    ensures var r := ParsePower(ts, FactorAt(ts, i));
      ProductLoop(ts, node, i) ==
        if r.Success? then ProductLoop(ts, ProductNode(ts[i], node, r.value.node), r.value.next) else r
  {
    hide ParsePower;
  }

  lemma ProductLoopEnds(ts: seq<Token>, node: Node, i: nat)
    requires i <= |ts| && (i < |ts| ==> !Continues(ts[i]))
    ensures ProductLoop(ts, node, i) == Success(Parsed(node, i))
  {
    hide ParsePower;
  }

  /** An implicit product is one with a star. */
  lemma Juxtaposing(t: Token, left: Node, right: Node)
    ensures StartsFactor(t) ==> ProductNode(t, left, right) == ProductNode(Star, left, right)
  {
  }

  // ----- the cursor -----

  /** The outcome a routine reports and where it leaves the cursor. */
  ghost predicate Delivers(want: Outcome, got: Result<Node, Error>, position: nat) {
    match want
    case Failure(e) => got == Failure(e)
    case Success(p) => got == Success(p.node) && position == p.next
  }

  class Parser {
    const tokens: seq<Token>
    var position: nat

    constructor (tokens: seq<Token>)
      ensures this.tokens == tokens && position == 0
    {
      this.tokens := tokens;
      position := 0;
    }

    function Peek(): (t: Option<Token>)
      reads this
    {
      if position < |tokens| then Some(tokens[position]) else None
    }

    method Take() returns (r: Result<Token, Error>)
      requires position <= |tokens|
      modifies this
      ensures old(position) == |tokens| ==> r == Failure(UnexpectedEnd) && position == old(position)
      ensures old(position) < |tokens| ==> r == Success(tokens[old(position)]) && position == old(position) + 1
    {
      if position >= |tokens| {
        return Failure(UnexpectedEnd);
      }
      r := Success(tokens[position]);
      position := position + 1;
    }

    method Parse() returns (r: Result<Node, Error>)
      requires position == 0
      modifies this
      ensures r == ParseTokens(tokens)
      ensures r.Success? ==> position == |tokens|
    {
      hide ParseExpression;
      var left := Expression();
      if left.Failure? {
        return left;
      }
      r := left;
      var next := Peek();
      if next.Some? && IsRelator(next.value) {
        var operator := Take();
        var right := Expression();
        if right.Failure? {
          return right;
        }
        r := Success(Relation(operator.value, left.value, right.value));
      }
      if position != |tokens| {
        return Failure(TrailingExpression);
      }
    }

    method Expression() returns (r: Result<Node, Error>)
      requires position <= |tokens|
      modifies this
      ensures position <= |tokens| && Delivers(ParseExpression(tokens, old(position)), r, position)
      ensures r.Success? ==> old(position) < position
      decreases |tokens| - position, 4
    {
      hide ParseTerm;
      r := Term();
      if r.Failure? {
        return;
      }
      var node := r.value;
      while Peek().Some? && IsSum(Peek().value)
        invariant old(position) < position <= |tokens|
        invariant SumLoop(tokens, node, position) == ParseExpression(tokens, old(position))
        decreases |tokens| - position
      {
        var operator := Take();
        var right := Term();
        if right.Failure? {
          return right;
        }
        node := SumNode(operator.value, node, right.value);
      }
      return Success(node);
    }

    method Term() returns (r: Result<Node, Error>)
      requires position <= |tokens|
      modifies this
      ensures position <= |tokens| && Delivers(ParseTerm(tokens, old(position)), r, position)
      ensures r.Success? ==> old(position) < position
      decreases |tokens| - position, 3
    {
      hide ParsePower, ProductLoop, ProductNode, IsProduct, StartsFactor;
      r := PowerOf();
      if r.Failure? {
        return;
      }
      var node := r.value;
      while Peek().Some? && (IsProduct(Peek().value) || StartsFactor(Peek().value))
        invariant old(position) < position <= |tokens|
        invariant ProductLoop(tokens, node, position) == ParseTerm(tokens, old(position))
        decreases |tokens| - position
      {
        ProductLoopTurns(tokens, node, position);
        ghost var next := Peek().value;
        var operator := Star;
        if !StartsFactor(Peek().value) {
          var taken := Take();
          operator := taken.value;
        }
        var right := PowerOf();
        if right.Failure? {
          return right;
        }
        Juxtaposing(next, node, right.value);
        node := ProductNode(operator, node, right.value);
      }
      ProductLoopEnds(tokens, node, position);
      return Success(node);
    }

    method PowerOf() returns (r: Result<Node, Error>)
      requires position <= |tokens|
      modifies this
      ensures position <= |tokens| && Delivers(ParsePower(tokens, old(position)), r, position)
      ensures r.Success? ==> old(position) < position
      decreases |tokens| - position, 2
    {
      hide ParseAtom;
      r := Atom();
      if r.Success? && Peek() == Some(Caret) {
        var caret := Take();
        var exponent := Atom();
        if exponent.Failure? {
          return exponent;
        }
        return Success(Power(r.value, exponent.value));
      }
    }

    method Atom() returns (r: Result<Node, Error>)
      requires position <= |tokens|
      modifies this
      ensures position <= |tokens| && Delivers(ParseAtom(tokens, old(position)), r, position)
      ensures r.Success? ==> old(position) < position
      decreases |tokens| - position, 1
    {
      hide ParseGroup, Enclosed;
      var token := Take();
      if token.Failure? {
        return Failure(token.error);
      }
      match token.value {
        case FracCommand =>
          var numerator := GroupOf();
          if numerator.Failure? {
            return numerator;
          }
          var denominator := GroupOf();
          if denominator.Failure? {
            return denominator;
          }
          return Success(Fraction(numerator.value, denominator.value));
        case SqrtCommand =>
          var radicand := GroupOf();
          if radicand.Failure? {
            return radicand;
          }
          return Success(Radical(radicand.value));
        case LParen =>
          r := UpTo(RParen, UnbalancedGroup, AsGroup);
        case LBrace =>
          r := UpTo(RBrace, UnbalancedGroup, AsGroup);
        case Numeral(text) =>
          return Success(Number(text));
        case Word(name) =>
          if Peek() == Some(LParen) && IsFunctionName(name) {
            var paren := Take();
            r := UpTo(RParen, UnbalancedFunction, AsCall(name));
          } else {
            return Success(Symbol(name));
          }
        case _ =>
          return Failure(UnsupportedToken);
      }
    }

    method GroupOf() returns (r: Result<Node, Error>)
      requires position <= |tokens|
      modifies this
      ensures position <= |tokens| && Delivers(ParseGroup(tokens, old(position)), r, position)
      ensures r.Success? ==> old(position) < position
      decreases |tokens| - position, 1
    {
      hide Enclosed;
      var opener := Take();
      if opener.Failure? {
        return Failure(opener.error);
      }
      if opener.value != LBrace && opener.value != LParen {
        return Failure(ExpectedGroup);
      }
      r := UpTo(Closer(opener.value), UnbalancedGroup, Bare);
    }

    /** The common tail of a group or a call: an expression and its closer. */
    method UpTo(closer: Token, unbalanced: Error, wrap: Wrap) returns (r: Result<Node, Error>)
      requires position <= |tokens|
      modifies this
      ensures position <= |tokens|
      ensures Delivers(Enclosed(tokens, old(position), closer, unbalanced, wrap), r, position)
      ensures r.Success? ==> old(position) < position
      decreases |tokens| - position, 5
    {
      hide ParseExpression;
      var inner := Expression();
      if inner.Failure? {
        return inner;
      }
      var close := Take();
      if close.Failure? {
        return Failure(close.error);
      }
      if close.value != closer {
        return Failure(unbalanced);
      }
      return Success(Wrapped(wrap, inner.value));
    }
  }
}
