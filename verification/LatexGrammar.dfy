/** The language of the parser: a grammar of written forms, each with its
    tokens and its tree, and the proof that the parser decides exactly it. */
module LatexGrammar {
  import opened Wrappers
  import opened Latex

  datatype Bracket = Paren | Brace
  datatype SumSign = PlusSign | HyphenSign | UnicodeMinus
  datatype ProductSign = StarSign | CdotSign | CrossSign | Juxtaposed

  /** An expression as it is written, every choice of notation included. */
  datatype Written =
    | WNumber(text: string)
    | WSymbol(name: string)
    | WCall(name: string, argument: Written)
    | WFrac(nb: Bracket, numerator: Written, db: Bracket, denominator: Written)
    | WSqrt(b: Bracket, radicand: Written)
    | WGroup(b: Bracket, inner: Written)
    | WPower(base: Written, exponent: Written)
    | WProduct(left: Written, sign: ProductSign, right: Written)
    | WQuotient(left: Written, right: Written)
    | WSum(left: Written, sum: SumSign, right: Written)

  function Open(b: Bracket): Token { if b == Paren then LParen else LBrace }
  function Close(b: Bracket): Token { if b == Paren then RParen else RBrace }

  function SumToken(s: SumSign): Token {
    match s case PlusSign => Plus case HyphenSign => Hyphen case UnicodeMinus => MinusSign
  }

  function ProductTokens(s: ProductSign): seq<Token> {
    match s case StarSign => [Star] case CdotSign => [Cdot] case CrossSign => [TimesSign] case Juxtaposed => []
  }

  function Print(w: Written): (ts: seq<Token>)
    ensures |ts| > 0
  {
    match w
    case WNumber(text) => [Numeral(text)]
    case WSymbol(name) => [Word(name)]
    case WCall(name, x) => [Word(name), LParen] + (Print(x) + [RParen])
    case WFrac(nb, n, db, d) =>
      [FracCommand] + (Braced(nb, Print(n)) + Braced(db, Print(d)))
    case WSqrt(b, x) => [SqrtCommand] + Braced(b, Print(x))
    case WGroup(b, x) => Braced(b, Print(x))
    case WPower(x, e) => Print(x) + ([Caret] + Print(e))
    case WProduct(l, s, r) => Print(l) + (ProductTokens(s) + Print(r))
    case WQuotient(l, r) => Print(l) + ([Slash] + Print(r))
    case WSum(l, s, r) => Print(l) + ([SumToken(s)] + Print(r))
  }

  function Braced(b: Bracket, ts: seq<Token>): seq<Token> { [Open(b)] + (ts + [Close(b)]) }

  /** The tree a written form stands for. */
  function Meaning(w: Written): Node {
    match w
    case WNumber(text) => Number(text)
    case WSymbol(name) => Symbol(name)
    case WCall(name, x) => Function(name, Meaning(x))
    case WFrac(_, n, _, d) => Fraction(Meaning(n), Meaning(d))
    case WSqrt(_, x) => Radical(Meaning(x))
    case WGroup(_, x) => Group(Meaning(x))
    case WPower(x, e) => Power(Meaning(x), Meaning(e))
    case WProduct(l, _, r) => Operation(Multiply, Meaning(l), Meaning(r))
    case WQuotient(l, r) => Fraction(Meaning(l), Meaning(r))
    case WSum(l, s, r) => Operation(if s == PlusSign then Add else Subtract, Meaning(l), Meaning(r))
  }

  /** 0 atom, 1 power, 2 product, 3 sum. */
  function Level(w: Written): nat {
    if w.WSum? then 3 else if w.WProduct? || w.WQuotient? then 2 else if w.WPower? then 1 else 0
  }

  /** The last token is a function name used as a plain symbol. */
  predicate EndsInFunctionName(w: Written) {
    match w
    case WSymbol(name) => IsFunctionName(name)
    case WPower(_, e) => EndsInFunctionName(e)
    case WProduct(_, _, r) => EndsInFunctionName(r)
    case WQuotient(_, r) => EndsInFunctionName(r)
    case WSum(_, _, r) => EndsInFunctionName(r)
    case _ => false
  }

  predicate StartsWithParen(w: Written) {
    match w
    case WGroup(b, _) => b == Paren
    case WPower(x, _) => StartsWithParen(x)
    case WProduct(l, _, _) => StartsWithParen(l)
    case WQuotient(l, _) => StartsWithParen(l)
    case WSum(l, _, _) => StartsWithParen(l)
    case _ => false
  }

  /** Sums are of products, products of powers, powers of atoms, all grouping to
      the left; and a function name may not be juxtaposed with a parenthesis. */
  predicate WellFormed(w: Written) {
    match w
    case WNumber(_) => true
    case WSymbol(_) => true
    case WCall(name, x) => IsFunctionName(name) && WellFormed(x)
    case WFrac(_, n, _, d) => WellFormed(n) && WellFormed(d)
    case WSqrt(_, x) => WellFormed(x)
    case WGroup(_, x) => WellFormed(x)
    case WPower(x, e) => Level(x) == 0 && Level(e) == 0 && WellFormed(x) && WellFormed(e)
    case WProduct(l, s, r) =>
      && Level(l) <= 2 && Level(r) <= 1 && WellFormed(l) && WellFormed(r)
      && (s == Juxtaposed ==> !(EndsInFunctionName(l) && StartsWithParen(r)))
    case WQuotient(l, r) => Level(l) <= 2 && Level(r) <= 1 && WellFormed(l) && WellFormed(r)
    case WSum(l, _, r) => Level(r) <= 2 && WellFormed(l) && WellFormed(r)
  }

  // ----- positions -----

  /** The words w stand in ts from position i on. */
  ghost predicate At(ts: seq<Token>, i: nat, w: seq<Token>) {
    i + |w| <= |ts| && ts[i..i + |w|] == w
  }

  lemma AtConcat(ts: seq<Token>, i: nat, a: seq<Token>, b: seq<Token>)
    ensures At(ts, i, a + b) <==> At(ts, i, a) && At(ts, i + |a|, b)
  {
    if At(ts, i, a + b) {
      assert ts[i..i + |a + b|][..|a|] == a && ts[i..i + |a + b|][|a|..] == b;
    }
    if At(ts, i, a) && At(ts, i + |a|, b) {
      assert ts[i..i + |a + b|] == ts[i..i + |a|] + ts[i + |a|..i + |a| + |b|];
    }
  }

  lemma AtOne(ts: seq<Token>, i: nat, t: Token)
    ensures At(ts, i, [t]) <==> NextIs(ts, i, t)
  {
    if i < |ts| {
      assert ts[i..i + 1] == [ts[i]];
    }
  }

  lemma AtBraced(ts: seq<Token>, i: nat, b: Bracket, w: seq<Token>)
    ensures At(ts, i, Braced(b, w))
      <==> NextIs(ts, i, Open(b)) && At(ts, i + 1, w) && NextIs(ts, i + 1 + |w|, Close(b))
  {
    AtConcat(ts, i, [Open(b)], w + [Close(b)]);
    AtConcat(ts, i + 1, w, [Close(b)]);
    AtOne(ts, i, Open(b));
    AtOne(ts, i + 1 + |w|, Close(b));
  }

  /** First tokens: a written form of level at most 2 starts like a factor. */
  lemma {:induction false} FirstToken(ts: seq<Token>, i: nat, w: Written)
    requires At(ts, i, Print(w))
    ensures i < |ts| && StartsFactor(ts[i])
    ensures StartsWithParen(w) <==> ts[i] == LParen
  {
    match w
    case WNumber(text) => AtOne(ts, i, Numeral(text));
    case WSymbol(name) => AtOne(ts, i, Word(name));
    case WCall(name, x) => AtConcat(ts, i, [Word(name), LParen], Print(x) + [RParen]);
      assert ts[i] == ts[i..i + 2][0];
    case WFrac(nb, n, db, d) =>
      AtConcat(ts, i, [FracCommand], Braced(nb, Print(n)) + Braced(db, Print(d)));
      AtOne(ts, i, FracCommand);
    case WSqrt(b, x) =>
      AtConcat(ts, i, [SqrtCommand], Braced(b, Print(x)));
      AtOne(ts, i, SqrtCommand);
    case WGroup(b, x) => AtBraced(ts, i, b, Print(x));
    case WPower(x, e) => AtConcat(ts, i, Print(x), [Caret] + Print(e)); FirstToken(ts, i, x);
    case WProduct(l, s, r) => AtConcat(ts, i, Print(l), ProductTokens(s) + Print(r)); FirstToken(ts, i, l);
    case WQuotient(l, r) => AtConcat(ts, i, Print(l), [Slash] + Print(r)); FirstToken(ts, i, l);
    case WSum(l, s, r) => AtConcat(ts, i, Print(l), [SumToken(s)] + Print(r)); FirstToken(ts, i, l);
  }

  // ----- what may follow -----

  /** A trailing function name must not be read as a call. */
  ghost predicate NotACall(ts: seq<Token>, j: nat, w: Written) {
    EndsInFunctionName(w) ==> !NextIs(ts, j, LParen)
  }

  ghost predicate NoProduct(ts: seq<Token>, j: nat) {
    j < |ts| ==> !IsProduct(ts[j]) && !StartsFactor(ts[j])
  }

  ghost predicate NoSum(ts: seq<Token>, j: nat) {
    j < |ts| ==> !IsSum(ts[j])
  }

  // ----- every written form is parsed to its meaning -----

  lemma {:induction false} ParsesBraced(ts: seq<Token>, i: nat, b: Bracket, x: Written, wrap: Wrap, unbalanced: Error)
    requires WellFormed(x) && At(ts, i, Braced(b, Print(x)))
    ensures var j := i + |Print(x)| + 2;
      i < j <= |ts| && Enclosed(ts, i + 1, Close(b), unbalanced, wrap) == Success(Parsed(Wrapped(wrap, Meaning(x)), j))
    decreases x, 6
  {
    hide ParseExpression, Braced, At, Print, Meaning, WellFormed, EndsInFunctionName;
    AtBraced(ts, i, b, Print(x));
    ParsesExpression(ts, i + 1, x);
  }

  lemma {:induction false} ParsesGroup(ts: seq<Token>, i: nat, b: Bracket, x: Written)
    requires WellFormed(x) && At(ts, i, Braced(b, Print(x)))
    ensures var j := i + |Print(x)| + 2;
      i < j <= |ts| && ParseGroup(ts, i) == Success(Parsed(Meaning(x), j))
    decreases x, 7
  {
    AtBraced(ts, i, b, Print(x));
    ParsesBraced(ts, i, b, x, Bare, UnbalancedGroup);
  }

  lemma {:induction false} ParsesFrac(ts: seq<Token>, i: nat, w: Written)
    requires w.WFrac? && WellFormed(w) && At(ts, i, Print(w))
    ensures i < |ts| && ParseAtom(ts, i) == Success(Parsed(Meaning(w), i + |Print(w)|))
    decreases w, 0
  {
    hide ParseGroup, Enclosed, Braced, At;
    var n, d := w.numerator, w.denominator;
    BracedLength(w.nb, Print(n));
    BracedLength(w.db, Print(d));
    AtConcat(ts, i, [FracCommand], Braced(w.nb, Print(n)) + Braced(w.db, Print(d)));
    AtOne(ts, i, FracCommand);
    AtConcat(ts, i + 1, Braced(w.nb, Print(n)), Braced(w.db, Print(d)));
    ParsesGroup(ts, i + 1, w.nb, n);
    ParsesGroup(ts, i + 3 + |Print(n)|, w.db, d);
  }

  lemma {:induction false} ParsesSqrt(ts: seq<Token>, i: nat, w: Written)
    requires w.WSqrt? && WellFormed(w) && At(ts, i, Print(w))
    ensures i < |ts| && ParseAtom(ts, i) == Success(Parsed(Meaning(w), i + |Print(w)|))
    decreases w, 0
  {
    hide ParseGroup, Enclosed, Braced, At;
    BracedLength(w.b, Print(w.radicand));
    AtConcat(ts, i, [SqrtCommand], Braced(w.b, Print(w.radicand)));
    AtOne(ts, i, SqrtCommand);
    ParsesGroup(ts, i + 1, w.b, w.radicand);
  }

  lemma {:induction false} ParsesCall(ts: seq<Token>, i: nat, w: Written)
    requires w.WCall? && WellFormed(w) && At(ts, i, Print(w))
    ensures i < |ts| && ParseAtom(ts, i) == Success(Parsed(Meaning(w), i + |Print(w)|))
    decreases w, 0
  {
    hide ParseGroup, Enclosed, At;
    var x := w.argument;
    CallTokens(w.name, Print(x));
    AtConcat(ts, i, [Word(w.name)], Braced(Paren, Print(x)));
    AtOne(ts, i, Word(w.name));
    AtBraced(ts, i + 1, Paren, Print(x));
    ParsesBraced(ts, i + 1, Paren, x, AsCall(w.name), UnbalancedFunction);
  }

  lemma {:induction false} ParsesAtom(ts: seq<Token>, i: nat, w: Written)
    requires WellFormed(w) && Level(w) == 0 && At(ts, i, Print(w)) && NotACall(ts, i + |Print(w)|, w)
    ensures i < |ts| && ParseAtom(ts, i) == Success(Parsed(Meaning(w), i + |Print(w)|))
    decreases w, 1
  {
    hide ParseGroup, Enclosed, Braced, At;
    match w
    case WNumber(text) => AtOne(ts, i, Numeral(text));
    case WSymbol(name) => AtOne(ts, i, Word(name));
    case WCall(_, _) => ParsesCall(ts, i, w);
    case WFrac(_, _, _, _) => ParsesFrac(ts, i, w);
    case WSqrt(_, _) => ParsesSqrt(ts, i, w);
    case WGroup(b, x) =>
      BracedLength(b, Print(x));
      AtBraced(ts, i, b, Print(x));
      ParsesBraced(ts, i, b, x, AsGroup, UnbalancedGroup);
  }

  lemma CallTokens(name: string, w: seq<Token>)
    ensures [Word(name), LParen] + (w + [RParen]) == [Word(name)] + Braced(Paren, w)
  {
  }

  lemma BracedLength(b: Bracket, w: seq<Token>)
    ensures |Braced(b, w)| == |w| + 2
  {
  }

  lemma PowerSides(ts: seq<Token>, i: nat, w: Written)
    requires w.WPower? && WellFormed(w) && At(ts, i, Print(w))
    ensures WellFormed(w.base) && Level(w.base) == 0 && WellFormed(w.exponent) && Level(w.exponent) == 0
    ensures EndsInFunctionName(w) <==> EndsInFunctionName(w.exponent)
    ensures var j := i + |Print(w.base)|;
      && At(ts, i, Print(w.base)) && NextIs(ts, j, Caret) && At(ts, j + 1, Print(w.exponent))
      && i + |Print(w)| == j + 1 + |Print(w.exponent)| && Meaning(w) == Power(Meaning(w.base), Meaning(w.exponent))
  {
    hide At;
    var j := i + |Print(w.base)|;
    AtConcat(ts, i, Print(w.base), [Caret] + Print(w.exponent));
    AtConcat(ts, j, [Caret], Print(w.exponent));
    AtOne(ts, j, Caret);
  }

  lemma PlainAtom(ts: seq<Token>, i: nat)
    requires i <= |ts| && ParseAtom(ts, i).Success? && !NextIs(ts, ParseAtom(ts, i).value.next, Caret)
    ensures ParsePower(ts, i) == ParseAtom(ts, i)
  {
    hide ParseAtom;
  }

  lemma RaisedAtom(ts: seq<Token>, i: nat)
    requires i <= |ts| && ParseAtom(ts, i).Success? && NextIs(ts, ParseAtom(ts, i).value.next, Caret)
    requires ParseAtom(ts, ParseAtom(ts, i).value.next + 1).Success?
    ensures var base := ParseAtom(ts, i).value;
      var exponent := ParseAtom(ts, base.next + 1).value;
      ParsePower(ts, i) == Success(Parsed(Power(base.node, exponent.node), exponent.next))
  {
    hide ParseAtom;
  }

  lemma {:induction false} ParsesPower(ts: seq<Token>, i: nat, w: Written)
    requires WellFormed(w) && Level(w) <= 1 && At(ts, i, Print(w))
    requires NotACall(ts, i + |Print(w)|, w) && !NextIs(ts, i + |Print(w)|, Caret)
    ensures i < |ts| && ParsePower(ts, i) == Success(Parsed(Meaning(w), i + |Print(w)|))
    decreases w, 2
  {
    hide ParseAtom, ParsePower, At, Print, Meaning, WellFormed, EndsInFunctionName;
    if w.WPower? {
      var j := i + |Print(w.base)|;
      PowerSides(ts, i, w);
      ParsesAtom(ts, i, w.base);
      ParsesAtom(ts, j + 1, w.exponent);
      RaisedAtom(ts, i);
    } else {
      ParsesAtom(ts, i, w);
      PlainAtom(ts, i);
    }
  }

  /** The sign between the two sides of a product or quotient; none when juxtaposed. */
  function Signs(w: Written): seq<Token>
    requires w.WProduct? || w.WQuotient?
  {
    if w.WQuotient? then [Slash] else ProductTokens(w.sign)
  }

  lemma ProductParts(w: Written)
    requires (w.WProduct? || w.WQuotient?) && WellFormed(w)
    ensures WellFormed(w.left) && Level(w.left) <= 2 && WellFormed(w.right) && Level(w.right) <= 1
    ensures EndsInFunctionName(w) <==> EndsInFunctionName(w.right)
    ensures Signs(w) == [] ==> !(EndsInFunctionName(w.left) && StartsWithParen(w.right))
    ensures Print(w) == Print(w.left) + (Signs(w) + Print(w.right))
    ensures Signs(w) == [] || exists t :: Signs(w) == [t] && IsProduct(t)
    ensures forall t :: Signs(w) == [t] || (Signs(w) == [] && t != Slash) ==>
      Meaning(w) == ProductNode(t, Meaning(w.left), Meaning(w.right))
  {
    if Signs(w) != [] { assert Signs(w) == [Signs(w)[0]]; }
  }

  lemma ProductSides(ts: seq<Token>, i: nat, w: Written)
    requires (w.WProduct? || w.WQuotient?) && WellFormed(w) && At(ts, i, Print(w))
    ensures WellFormed(w.left) && Level(w.left) <= 2 && WellFormed(w.right) && Level(w.right) <= 1
    ensures EndsInFunctionName(w) <==> EndsInFunctionName(w.right)
    ensures var j := i + |Print(w.left)|;
      var k := j + |Signs(w)|;
      && At(ts, i, Print(w.left)) && At(ts, k, Print(w.right)) && i + |Print(w)| == k + |Print(w.right)|
      && k < |ts| && StartsFactor(ts[k])
      && NotACall(ts, j, w.left) && !NextIs(ts, j, Caret)
      && (k == j || k == j + 1)
      && (k == j + 1 ==> IsProduct(ts[j]))
      && Meaning(w) == ProductNode(ts[j], Meaning(w.left), Meaning(w.right))
  {
    hide At, Print, Meaning, WellFormed, EndsInFunctionName, StartsWithParen, Signs, ProductNode, Level;
    ProductParts(w);
    var j, signs := i + |Print(w.left)|, Signs(w);
    AtConcat(ts, i, Print(w.left), signs + Print(w.right));
    AtConcat(ts, j, signs, Print(w.right));
    FirstToken(ts, j + |signs|, w.right);
    if signs != [] {
      AtOne(ts, j, signs[0]);
    }
  }

  lemma ProductLoopStep(ts: seq<Token>, node: Node, j: nat, k: nat)
    requires j <= k < |ts| && StartsFactor(ts[k]) && (k == j || (k == j + 1 && IsProduct(ts[j])))
    requires ParsePower(ts, k).Success?
    ensures var p := ParsePower(ts, k).value;
      ProductLoop(ts, node, j) == ProductLoop(ts, ProductNode(ts[j], node, p.node), p.next)
  {
    hide ParsePower, ProductLoop, ProductNode, StartsFactor, IsProduct;
    NoSignStarts(ts[j]);
    ProductLoopTurns(ts, node, j);
  }

  lemma NoSignStarts(t: Token)
    ensures !(IsProduct(t) && StartsFactor(t))
  {
  }

  lemma SumLoopStep(ts: seq<Token>, node: Node, j: nat)
    requires j < |ts| && IsSum(ts[j]) && ParseTerm(ts, j + 1).Success?
    ensures var p := ParseTerm(ts, j + 1).value;
      SumLoop(ts, node, j) == SumLoop(ts, SumNode(ts[j], node, p.node), p.next)
  {
    hide ParseTerm;
  }

  /** Parsing a product leaves the loop with the product in hand. */
  lemma {:induction false} ParsesProduct(ts: seq<Token>, i: nat, w: Written)
    requires WellFormed(w) && Level(w) <= 2 && At(ts, i, Print(w))
    requires NotACall(ts, i + |Print(w)|, w) && !NextIs(ts, i + |Print(w)|, Caret)
    ensures i + |Print(w)| <= |ts| && ParseTerm(ts, i) == ProductLoop(ts, Meaning(w), i + |Print(w)|)
    decreases w, 3
  {
    if Level(w) <= 1 {
      hide ParsePower, At, ProductLoop;
      ParsesPower(ts, i, w);
    } else {
      hide ParsePower, ParseTerm, At, ProductLoop, WellFormed, Print, Meaning;
      ParsesPair(ts, i, w);
    }
  }

  lemma {:induction false} ParsesPair(ts: seq<Token>, i: nat, w: Written)
    requires (w.WProduct? || w.WQuotient?) && WellFormed(w) && At(ts, i, Print(w))
    requires NotACall(ts, i + |Print(w)|, w) && !NextIs(ts, i + |Print(w)|, Caret)
    ensures i + |Print(w)| <= |ts| && ParseTerm(ts, i) == ProductLoop(ts, Meaning(w), i + |Print(w)|)
    decreases w, 2
  {
    hide ParsePower, ParseTerm, ProductLoop, At, Print, Meaning, ProductNode, WellFormed, EndsInFunctionName,
      Level, Signs;
    hide IsProduct, StartsFactor;
    var j, k := i + |Print(w.left)|, i + |Print(w.left)| + |Signs(w)|;
    ProductSides(ts, i, w);
    ParsesProduct(ts, i, w.left);
    ParsesPower(ts, k, w.right);
    ProductLoopStep(ts, Meaning(w.left), j, k);
  }

  lemma SumParts(w: Written)
    requires w.WSum? && WellFormed(w)
    ensures WellFormed(w.left) && WellFormed(w.right) && Level(w.right) <= 2
    ensures EndsInFunctionName(w) <==> EndsInFunctionName(w.right)
    ensures Print(w) == Print(w.left) + ([SumToken(w.sum)] + Print(w.right))
    ensures Meaning(w) == SumNode(SumToken(w.sum), Meaning(w.left), Meaning(w.right))
  {
  }

  lemma SumSides(ts: seq<Token>, i: nat, w: Written)
    requires w.WSum? && WellFormed(w) && At(ts, i, Print(w))
    ensures WellFormed(w.left) && WellFormed(w.right) && Level(w.right) <= 2
    ensures EndsInFunctionName(w) <==> EndsInFunctionName(w.right)
    ensures var j := i + |Print(w.left)|;
      && At(ts, i, Print(w.left)) && At(ts, j + 1, Print(w.right))
      && i + |Print(w)| == j + 1 + |Print(w.right)| && j < |ts|
      && ts[j] == SumToken(w.sum)
      && Meaning(w) == SumNode(ts[j], Meaning(w.left), Meaning(w.right))
  {
    hide At, Print, Meaning, WellFormed, EndsInFunctionName, Level, SumNode, SumToken;
    SumParts(w);
    var j, t := i + |Print(w.left)|, SumToken(w.sum);
    AtConcat(ts, i, Print(w.left), [t] + Print(w.right));
    AtConcat(ts, j, [t], Print(w.right));
    AtOne(ts, j, t);
  }

  lemma {:induction false} ParsesSum(ts: seq<Token>, i: nat, w: Written)
    requires WellFormed(w) && At(ts, i, Print(w))
    requires NotACall(ts, i + |Print(w)|, w) && !NextIs(ts, i + |Print(w)|, Caret) && NoProduct(ts, i + |Print(w)|)
    ensures i + |Print(w)| <= |ts| && ParseExpression(ts, i) == SumLoop(ts, Meaning(w), i + |Print(w)|)
    decreases w, 4
  {
    hide ParsePower, ParseTerm, At, SumLoop, Print, Meaning, WellFormed, EndsInFunctionName;
    if w.WSum? {
      ParsesSumPair(ts, i, w);
    } else {
      ParsesProduct(ts, i, w);
    }
  }

  lemma {:induction false} ParsesSumPair(ts: seq<Token>, i: nat, w: Written)
    requires w.WSum? && WellFormed(w) && At(ts, i, Print(w))
    requires NotACall(ts, i + |Print(w)|, w) && !NextIs(ts, i + |Print(w)|, Caret) && NoProduct(ts, i + |Print(w)|)
    ensures i + |Print(w)| <= |ts| && ParseExpression(ts, i) == SumLoop(ts, Meaning(w), i + |Print(w)|)
    decreases w, 3
  {
    hide ParsePower, ParseTerm, ParseExpression, At, SumLoop, Print, Meaning, WellFormed, EndsInFunctionName, SumNode;
    var j := i + |Print(w.left)|;
    SumSides(ts, i, w);
    ParsesSum(ts, i, w.left);
    ParsesProduct(ts, j + 1, w.right);
    SumLoopStep(ts, Meaning(w.left), j);
  }

  /** A whole expression, up to a token that continues nothing. */
  lemma {:induction false} ParsesExpression(ts: seq<Token>, i: nat, w: Written)
    requires WellFormed(w) && At(ts, i, Print(w))
    requires NotACall(ts, i + |Print(w)|, w) && !NextIs(ts, i + |Print(w)|, Caret)
    requires NoProduct(ts, i + |Print(w)|) && NoSum(ts, i + |Print(w)|)
    ensures i + |Print(w)| <= |ts| && ParseExpression(ts, i) == Success(Parsed(Meaning(w), i + |Print(w)|))
    decreases w, 5
  {
    hide ParseTerm, ParseExpression;
    ParsesSum(ts, i, w);
  }

  // ----- everything parsed was written -----

  /** w is a written form of tokens i..j with the given tree. */
  ghost predicate WrittenAs(ts: seq<Token>, i: nat, j: nat, node: Node, w: Written) {
    && WellFormed(w) && At(ts, i, Print(w)) && j == i + |Print(w)| && Meaning(w) == node
    && NotACall(ts, j, w)
  }

  lemma {:induction false} AtomWasWritten(ts: seq<Token>, i: nat) returns (w: Written)
    requires i <= |ts| && ParseAtom(ts, i).Success?
    ensures WrittenAs(ts, i, ParseAtom(ts, i).value.next, ParseAtom(ts, i).value.node, w) && Level(w) == 0
    decreases |ts| - i, 1
  {
    hide ParseGroup, Enclosed, At;
    match ts[i] {
      case FracCommand => w := FracWasWritten(ts, i);
      case SqrtCommand =>
        var b, x := GroupWasWritten(ts, i + 1);
        w := WSqrt(b, x);
        AtOne(ts, i, SqrtCommand);
        AtConcat(ts, i, [SqrtCommand], Braced(b, Print(x)));
      case LParen =>
        var x := EnclosedWasWritten(ts, i + 1, RParen, UnbalancedGroup, AsGroup);
        w := WGroup(Paren, x);
        AtBraced(ts, i, Paren, Print(x));
      case LBrace =>
        var x := EnclosedWasWritten(ts, i + 1, RBrace, UnbalancedGroup, AsGroup);
        w := WGroup(Brace, x);
        AtBraced(ts, i, Brace, Print(x));
      case Numeral(text) => w := WNumber(text); AtOne(ts, i, ts[i]);
      case Word(_) => w := WordWasWritten(ts, i);
    }
  }

  lemma {:induction false} WordWasWritten(ts: seq<Token>, i: nat) returns (w: Written)
    requires i < |ts| && ts[i].Word? && ParseAtom(ts, i).Success?
    ensures WrittenAs(ts, i, ParseAtom(ts, i).value.next, ParseAtom(ts, i).value.node, w) && Level(w) == 0
    decreases |ts| - i, 0
  {
    hide Enclosed, At;
    var name := ts[i].name;
    AtOne(ts, i, Word(name));
    if NextIs(ts, i + 1, LParen) && IsFunctionName(name) {
      var x := EnclosedWasWritten(ts, i + 2, RParen, UnbalancedFunction, AsCall(name));
      w := WCall(name, x);
      AtBraced(ts, i + 1, Paren, Print(x));
      AtConcat(ts, i, [Word(name)], Braced(Paren, Print(x)));
      CallTokens(name, Print(x));
    } else {
      w := WSymbol(name);
    }
  }

  lemma {:induction false} FracWasWritten(ts: seq<Token>, i: nat) returns (w: Written)
    requires i < |ts| && ts[i] == FracCommand && ParseAtom(ts, i).Success?
    ensures WrittenAs(ts, i, ParseAtom(ts, i).value.next, ParseAtom(ts, i).value.node, w) && Level(w) == 0
    decreases |ts| - i, 0
  {
    hide ParseGroup, At;
    var nb, n := GroupWasWritten(ts, i + 1);
    var db, d := GroupWasWritten(ts, ParseGroup(ts, i + 1).value.next);
    w := WFrac(nb, n, db, d);
    AtOne(ts, i, FracCommand);
    AtConcat(ts, i + 1, Braced(nb, Print(n)), Braced(db, Print(d)));
    AtConcat(ts, i, [FracCommand], Braced(nb, Print(n)) + Braced(db, Print(d)));
  }

  lemma {:induction false} EnclosedWasWritten(ts: seq<Token>, i: nat, closer: Token, unbalanced: Error, wrap: Wrap)
    returns (x: Written)
    requires i <= |ts| && Enclosed(ts, i, closer, unbalanced, wrap).Success?
    ensures var p := Enclosed(ts, i, closer, unbalanced, wrap).value;
      && WellFormed(x) && At(ts, i, Print(x)) && NextIs(ts, i + |Print(x)|, closer)
      && p == Parsed(Wrapped(wrap, Meaning(x)), i + |Print(x)| + 1)
    decreases |ts| - i, 5
  {
    hide ParseExpression, At;
    x := ExpressionWasWritten(ts, i);
  }

  lemma {:induction false} GroupWasWritten(ts: seq<Token>, i: nat) returns (b: Bracket, x: Written)
    requires i <= |ts| && ParseGroup(ts, i).Success?
    ensures var p := ParseGroup(ts, i).value;
      WellFormed(x) && At(ts, i, Braced(b, Print(x))) && p == Parsed(Meaning(x), i + |Braced(b, Print(x))|)
    decreases |ts| - i, 1
  {
    hide Enclosed, At, Print;
    x := EnclosedWasWritten(ts, i + 1, Closer(ts[i]), UnbalancedGroup, Bare);
    b := if ts[i] == LParen then Paren else Brace;
    AtBraced(ts, i, b, Print(x));
  }

  lemma {:induction false} PowerWasWritten(ts: seq<Token>, i: nat) returns (w: Written)
    requires i <= |ts| && ParsePower(ts, i).Success?
    ensures WrittenAs(ts, i, ParsePower(ts, i).value.next, ParsePower(ts, i).value.node, w) && Level(w) <= 1
    decreases |ts| - i, 2
  {
    hide ParseAtom, At;
    w := AtomWasWritten(ts, i);
    var j := ParseAtom(ts, i).value.next;
    if NextIs(ts, j, Caret) {
      var base := w;
      var e := AtomWasWritten(ts, j + 1);
      w := WPower(base, e);
      AtOne(ts, j, Caret);
      AtConcat(ts, j, [Caret], Print(e));
      AtConcat(ts, i, Print(base), [Caret] + Print(e));
    }
  }

  /** One turn of the product loop extends the written form. */
  lemma ExtendProduct(ts: seq<Token>, i: nat, j: nat, k: nat, next: nat, node: Node, right: Node, l: Written,
      r: Written)
    returns (w: Written)
    requires WrittenAs(ts, i, j, node, l) && Level(l) <= 2 && j < |ts|
    requires WrittenAs(ts, k, next, right, r) && Level(r) <= 1
    requires if StartsFactor(ts[j]) then k == j else k == j + 1 && IsProduct(ts[j])
    ensures WrittenAs(ts, i, next, ProductNode(ts[j], node, right), w) && Level(w) <= 2
  {
    if k == j {
      w := Juxtapose(ts, i, j, next, node, right, l, r);
    } else {
      w := JoinWithSign(ts, i, j, next, node, right, l, r);
    }
  }

  lemma Juxtapose(ts: seq<Token>, i: nat, j: nat, next: nat, node: Node, right: Node, l: Written, r: Written)
    returns (w: Written)
    requires WrittenAs(ts, i, j, node, l) && Level(l) <= 2 && j < |ts| && StartsFactor(ts[j])
    requires WrittenAs(ts, j, next, right, r) && Level(r) <= 1
    ensures WrittenAs(ts, i, next, ProductNode(ts[j], node, right), w) && Level(w) <= 2
  {
    hide At;
    FirstToken(ts, j, r);
    w := WProduct(l, Juxtaposed, r);
    assert [] + Print(r) == Print(r);
    AtConcat(ts, i, Print(l), Print(r));
  }

  function SignOf(t: Token): ProductSign {
    if t == Star then StarSign else if t == Cdot then CdotSign else CrossSign
  }

  function Signed(t: Token, l: Written, r: Written): Written {
    if t == Slash then WQuotient(l, r) else WProduct(l, SignOf(t), r)
  }

  lemma SignedPrints(t: Token, l: Written, r: Written)
    requires IsProduct(t)
    ensures Print(Signed(t, l, r)) == Print(l) + ([t] + Print(r))
  {
    hide Meaning, EndsInFunctionName, WellFormed;
    var w := Signed(t, l, r);
    assert (if w.WQuotient? then [Slash] else ProductTokens(w.sign)) == [t];
  }

  lemma SignedMeans(t: Token, l: Written, r: Written)
    ensures Meaning(Signed(t, l, r)) == ProductNode(t, Meaning(l), Meaning(r))
    ensures Level(Signed(t, l, r)) == 2
  {
    hide Print, WellFormed, EndsInFunctionName, SignOf;
  }

  lemma SignedWellFormed(t: Token, l: Written, r: Written)
    requires WellFormed(l) && WellFormed(r) && Level(l) <= 2 && Level(r) <= 1
    ensures WellFormed(Signed(t, l, r))
  {
    hide Print, Meaning, WellFormed, SignOf, EndsInFunctionName, StartsWithParen, Level;
    SignIsExplicit(t);
    PairWellFormed(l, SignOf(t), r);
  }

  lemma PairWellFormed(l: Written, s: ProductSign, r: Written)
    requires WellFormed(l) && WellFormed(r) && Level(l) <= 2 && Level(r) <= 1 && s != Juxtaposed
    ensures WellFormed(WQuotient(l, r)) && WellFormed(WProduct(l, s, r))
  {
    hide EndsInFunctionName, StartsWithParen, Level;
  }

  lemma SignIsExplicit(t: Token)
    ensures SignOf(t) != Juxtaposed
  {
  }

  lemma SignedEnds(t: Token, l: Written, r: Written)
    ensures EndsInFunctionName(Signed(t, l, r)) <==> EndsInFunctionName(r)
  {
    hide Print, Meaning, WellFormed, SignOf;
  }

  lemma JoinWithSign(ts: seq<Token>, i: nat, j: nat, next: nat, node: Node, right: Node, l: Written, r: Written)
    returns (w: Written)
    requires WrittenAs(ts, i, j, node, l) && Level(l) <= 2 && j < |ts| && IsProduct(ts[j])
    requires WrittenAs(ts, j + 1, next, right, r) && Level(r) <= 1
    ensures WrittenAs(ts, i, next, ProductNode(ts[j], node, right), w) && Level(w) <= 2
  {
    hide At, Print, Meaning, EndsInFunctionName, WellFormed, Signed, ProductNode;
    AtOne(ts, j, ts[j]);
    AtConcat(ts, j, [ts[j]], Print(r));
    AtConcat(ts, i, Print(l), [ts[j]] + Print(r));
    w := Signed(ts[j], l, r);
    SignedPrints(ts[j], l, r);
    SignedMeans(ts[j], l, r);
    SignedWellFormed(ts[j], l, r);
    SignedEnds(ts[j], l, r);
  }

  lemma ExtendSum(ts: seq<Token>, i: nat, j: nat, next: nat, node: Node, right: Node, l: Written, r: Written)
    returns (w: Written)
    requires WrittenAs(ts, i, j, node, l) && j < |ts| && IsSum(ts[j])
    requires WrittenAs(ts, j + 1, next, right, r) && Level(r) <= 2
    ensures WrittenAs(ts, i, next, SumNode(ts[j], node, right), w)
  {
    hide At;
    w := WSum(l, if ts[j] == Plus then PlusSign else if ts[j] == Hyphen then HyphenSign else UnicodeMinus, r);
    AtOne(ts, j, ts[j]);
    AtConcat(ts, j, [ts[j]], Print(r));
    AtConcat(ts, i, Print(l), [ts[j]] + Print(r));
  }

  lemma {:induction false} ProductLoopWasWritten(ts: seq<Token>, i: nat, node: Node, j: nat, l: Written)
      returns (w: Written)
    requires i < j <= |ts| && WrittenAs(ts, i, j, node, l) && Level(l) <= 2
    requires ProductLoop(ts, node, j).Success?
    ensures var p := ProductLoop(ts, node, j).value; WrittenAs(ts, i, p.next, p.node, w) && Level(w) <= 2
    decreases |ts| - j, 3
  {
    hide ParsePower, WrittenAs, Level;
    if j < |ts| && (IsProduct(ts[j]) || StartsFactor(ts[j])) {
      var k := if StartsFactor(ts[j]) then j else j + 1;
      var r := PowerWasWritten(ts, k);
      var p := ParsePower(ts, k).value;
      var grown := ExtendProduct(ts, i, j, k, p.next, node, p.node, l, r);
      w := ProductLoopWasWritten(ts, i, ProductNode(ts[j], node, p.node), p.next, grown);
    } else {
      w := l;
    }
  }

  lemma {:induction false} TermWasWritten(ts: seq<Token>, i: nat) returns (w: Written)
    requires i <= |ts| && ParseTerm(ts, i).Success?
    ensures WrittenAs(ts, i, ParseTerm(ts, i).value.next, ParseTerm(ts, i).value.node, w) && Level(w) <= 2
    decreases |ts| - i, 3
  {
    hide ParsePower, ProductLoop, WrittenAs, Level;
    var l := PowerWasWritten(ts, i);
    var p := ParsePower(ts, i).value;
    w := ProductLoopWasWritten(ts, i, p.node, p.next, l);
  }

  lemma {:induction false} SumLoopWasWritten(ts: seq<Token>, i: nat, node: Node, j: nat, l: Written)
      returns (w: Written)
    requires i < j <= |ts| && WrittenAs(ts, i, j, node, l) && SumLoop(ts, node, j).Success?
    ensures var p := SumLoop(ts, node, j).value; WrittenAs(ts, i, p.next, p.node, w)
    decreases |ts| - j, 4
  {
    hide ParseTerm, WrittenAs, Level;
    if j < |ts| && IsSum(ts[j]) {
      var r := TermWasWritten(ts, j + 1);
      var p := ParseTerm(ts, j + 1).value;
      var grown := ExtendSum(ts, i, j, p.next, node, p.node, l, r);
      w := SumLoopWasWritten(ts, i, SumNode(ts[j], node, p.node), p.next, grown);
    } else {
      w := l;
    }
  }

  lemma {:induction false} ExpressionWasWritten(ts: seq<Token>, i: nat) returns (w: Written)
    requires i <= |ts| && ParseExpression(ts, i).Success?
    ensures WrittenAs(ts, i, ParseExpression(ts, i).value.next, ParseExpression(ts, i).value.node, w)
    decreases |ts| - i, 4
  {
    hide ParseTerm, SumLoop, WrittenAs, Level;
    var l := TermWasWritten(ts, i);
    var p := ParseTerm(ts, i).value;
    w := SumLoopWasWritten(ts, i, p.node, p.next, l);
  }

  // ----- whole inputs -----

  /** What a complete input says: an expression, or two related by a relator. */
  datatype Sentence = Plain(w: Written) | Related(relator: Token, l: Written, r: Written)

  predicate SentenceOk(s: Sentence) {
    match s
    case Plain(w) => WellFormed(w)
    case Related(t, l, r) => IsRelator(t) && WellFormed(l) && WellFormed(r)
  }

  function PrintSentence(s: Sentence): seq<Token> {
    match s
    case Plain(w) => Print(w)
    case Related(t, l, r) => Print(l) + ([t] + Print(r))
  }

  function SentenceMeaning(s: Sentence): Node {
    match s
    case Plain(w) => Meaning(w)
    case Related(t, l, r) => Relation(t, Meaning(l), Meaning(r))
  }

  lemma AtWhole(ts: seq<Token>)
    ensures At(ts, 0, ts)
    ensures forall w: seq<Token> :: At(ts, 0, w) && |w| == |ts| ==> w == ts
  {
    assert ts[0..|ts|] == ts;
  }

  lemma ParsesPlain(w: Written)
    requires WellFormed(w)
    ensures ParseTokens(Print(w)) == Success(Meaning(w))
  {
    hide ParseExpression, At, Print, Meaning, WellFormed, EndsInFunctionName;
    AtWhole(Print(w));
    ParsesExpression(Print(w), 0, w);
  }

  lemma ParsesRelated(t: Token, l: Written, r: Written)
    requires WellFormed(l) && WellFormed(r) && IsRelator(t)
    ensures ParseTokens(Print(l) + ([t] + Print(r))) == Success(Relation(t, Meaning(l), Meaning(r)))
  {
    hide ParseExpression, ParseTokens, At, Print, Meaning, WellFormed, EndsInFunctionName, IsRelator,
      NoProduct, NoSum;
    var ts, j := Print(l) + ([t] + Print(r)), |Print(l)|;
    AtWhole(ts);
    AtConcat(ts, 0, Print(l), [t] + Print(r));
    AtConcat(ts, j, [t], Print(r));
    AtOne(ts, j, t);
    NothingContinues(ts, j, l);
    NothingContinues(ts, |ts|, r);
    ParsesExpression(ts, 0, l);
    ParsesExpression(ts, j + 1, r);
    RelationIsRead(ts, Parsed(Meaning(l), j), Meaning(r));
  }

  /** Neither a relation sign nor the end of the input continues an expression. */
  lemma NothingContinues(ts: seq<Token>, j: nat, w: Written)
    requires j < |ts| ==> IsRelator(ts[j])
    ensures NotACall(ts, j, w) && !NextIs(ts, j, Caret) && NoProduct(ts, j) && NoSum(ts, j)
  {
  }

  lemma RelationIsRead(ts: seq<Token>, l: Parsed, r: Node)
    requires ParseExpression(ts, 0) == Success(l) && l.next < |ts| && IsRelator(ts[l.next])
    requires ParseExpression(ts, l.next + 1) == Success(Parsed(r, |ts|))
    ensures ParseTokens(ts) == Success(Relation(ts[l.next], l.node, r))
  {
    hide ParseExpression, IsRelator;
  }

  /** Parsing undoes printing, whatever notation was chosen. */
  lemma ParseUndoesPrint(s: Sentence)
    requires SentenceOk(s)
    ensures ParseTokens(PrintSentence(s)) == Success(SentenceMeaning(s))
  {
    hide ParseTokens, Print, Meaning, WellFormed;
    match s
    case Plain(w) => ParsesPlain(w);
    case Related(t, l, r) => ParsesRelated(t, l, r);
  }

  /** Every accepted input was printed from a sentence with that meaning. */
  lemma AcceptedWasWritten(ts: seq<Token>) returns (s: Sentence)
    requires ParseTokens(ts).Success?
    ensures SentenceOk(s) && PrintSentence(s) == ts && SentenceMeaning(s) == ParseTokens(ts).value
  {
    hide ParseExpression, At, Print, Meaning, WellFormed, EndsInFunctionName;
    AtWhole(ts);
    var l := ExpressionWasWritten(ts, 0);
    var j := ParseExpression(ts, 0).value.next;
    if j < |ts| {
      var r := ExpressionWasWritten(ts, j + 1);
      s := Related(ts[j], l, r);
      AtOne(ts, j, ts[j]);
      AtConcat(ts, j, [ts[j]], Print(r));
      AtConcat(ts, 0, Print(l), [ts[j]] + Print(r));
    } else {
      s := Plain(l);
    }
  }

  /** The parser accepts exactly the grammar, and returns the meaning. */
  lemma ParserDecidesGrammar(ts: seq<Token>, node: Node)
    ensures ParseTokens(ts) == Success(node)
      <==> exists s :: SentenceOk(s) && PrintSentence(s) == ts && SentenceMeaning(s) == node
  {
    hide ParseTokens, PrintSentence, SentenceMeaning, SentenceOk;
    if ParseTokens(ts) == Success(node) {
      var s := AcceptedWasWritten(ts);
    }
    forall s | SentenceOk(s) && PrintSentence(s) == ts && SentenceMeaning(s) == node
      ensures ParseTokens(ts) == Success(node)
    {
      ParseUndoesPrint(s);
    }
  }

  /** No input has two meanings. */
  lemma GrammarIsUnambiguous(s: Sentence, t: Sentence)
    requires SentenceOk(s) && SentenceOk(t) && PrintSentence(s) == PrintSentence(t)
    ensures SentenceMeaning(s) == SentenceMeaning(t)
  {
    hide ParseTokens, PrintSentence, SentenceMeaning, SentenceOk;
    ParseUndoesPrint(s);
    ParseUndoesPrint(t);
  }

  // ----- one canonical way to write each tree -----

  /** Trees of the four levels the parser can build. */
  predicate IsTree(node: Node, level: nat) {
    match node
    case Number(_) => true
    case Symbol(_) => true
    case Function(name, x) => IsFunctionName(name) && IsTree(x, 3)
    case Fraction(n, d) => IsTree(n, 3) && IsTree(d, 3)
    case Radical(x) => IsTree(x, 3)
    case Group(x) => IsTree(x, 3)
    case Power(b, e) => level >= 1 && IsTree(b, 0) && IsTree(e, 0)
    case Operation(op, l, r) =>
      if op == Multiply then level >= 2 && IsTree(l, 2) && IsTree(r, 1)
      else level >= 3 && IsTree(l, 3) && IsTree(r, 2)
    case Relation(_, _, _) => false
  }

  predicate IsParseResult(node: Node) {
    if node.Relation? then IsRelator(node.relator) && IsTree(node.lhs, 3) && IsTree(node.rhs, 3)
    else IsTree(node, 3)
  }

  /** Fractions as commands, products with a star, groups in parentheses. */
  function Canonical(node: Node, level: nat): Written
    requires IsTree(node, level)
    decreases node
  {
    match node
    case Number(text) => WNumber(text)
    case Symbol(name) => WSymbol(name)
    case Function(name, x) => WCall(name, Canonical(x, 3))
    case Fraction(n, d) => WFrac(Brace, Canonical(n, 3), Brace, Canonical(d, 3))
    case Radical(x) => WSqrt(Brace, Canonical(x, 3))
    case Group(x) => WGroup(Paren, Canonical(x, 3))
    case Power(b, e) => WPower(Canonical(b, 0), Canonical(e, 0))
    case Operation(op, l, r) =>
      if op == Multiply then WProduct(Canonical(l, 2), StarSign, Canonical(r, 1))
      else WSum(Canonical(l, 3), if op == Add then PlusSign else HyphenSign, Canonical(r, 2))
  }

  lemma {:induction false} CanonicalMeans(node: Node, level: nat)
    requires IsTree(node, level)
    ensures var w := Canonical(node, level); WellFormed(w) && Meaning(w) == node && Level(w) <= level
    decreases node
  {
    match node
    case Number(_) =>
    case Symbol(_) =>
    case Function(_, x) => CanonicalMeans(x, 3);
    case Fraction(n, d) => CanonicalMeans(n, 3); CanonicalMeans(d, 3);
    case Radical(x) => CanonicalMeans(x, 3);
    case Group(x) => CanonicalMeans(x, 3);
    case Power(b, e) => CanonicalMeans(b, 0); CanonicalMeans(e, 0);
    case Operation(op, l, r) =>
      if op == Multiply {
        CanonicalMeans(l, 2);
        CanonicalMeans(r, 1);
      } else {
        CanonicalMeans(l, 3);
        CanonicalMeans(r, 2);
      }
  }

  function PrintTree(node: Node): seq<Token>
    requires IsParseResult(node)
  {
    if node.Relation? then Print(Canonical(node.lhs, 3)) + ([node.relator] + Print(Canonical(node.rhs, 3)))
    else Print(Canonical(node, 3))
  }

  lemma {:induction false} MeaningIsTree(w: Written, level: nat)
    requires WellFormed(w) && Level(w) <= level
    ensures IsTree(Meaning(w), level)
  {
    match w
    case WNumber(_) =>
    case WSymbol(_) =>
    case WCall(_, x) => MeaningIsTree(x, 3);
    case WFrac(_, n, _, d) => MeaningIsTree(n, 3); MeaningIsTree(d, 3);
    case WSqrt(_, x) => MeaningIsTree(x, 3);
    case WGroup(_, x) => MeaningIsTree(x, 3);
    case WPower(b, e) => MeaningIsTree(b, 0); MeaningIsTree(e, 0);
    case WProduct(l, _, r) => MeaningIsTree(l, 2); MeaningIsTree(r, 1);
    case WQuotient(l, r) => MeaningIsTree(l, 3); MeaningIsTree(r, 3);
    case WSum(l, _, r) => MeaningIsTree(l, 3); MeaningIsTree(r, 2);
  }

  /** Printing a tree canonically and parsing it gives the same tree back. */
  lemma ParseUndoesPrintTree(node: Node)
    requires IsParseResult(node)
    ensures ParseTokens(PrintTree(node)) == Success(node)
  {
    hide ParseTokens, Print, Canonical, IsTree, Meaning, WellFormed;
    if node.Relation? {
      CanonicalMeans(node.lhs, 3);
      CanonicalMeans(node.rhs, 3);
      ParseUndoesPrint(Related(node.relator, Canonical(node.lhs, 3), Canonical(node.rhs, 3)));
    } else {
      CanonicalMeans(node, 3);
      ParseUndoesPrint(Plain(Canonical(node, 3)));
    }
  }

  /** The trees the parser can return are exactly those of the four levels. */
  lemma ParseResultsAreTrees(node: Node)
    ensures IsParseResult(node) <==> exists ts :: ParseTokens(ts) == Success(node)
  {
    hide ParseTokens, IsTree;
    if IsParseResult(node) {
      ParseUndoesPrintTree(node);
    }
    forall ts | ParseTokens(ts) == Success(node) ensures IsParseResult(node) {
      var s := AcceptedWasWritten(ts);
      SentenceIsTree(s);
    }
  }

  lemma SentenceIsTree(s: Sentence)
    requires SentenceOk(s)
    ensures IsParseResult(SentenceMeaning(s))
  {
    hide IsTree, WellFormed;
    match s
    case Plain(w) => MeaningIsTree(w, 3); MeaningIsNoRelation(w);
    case Related(_, l, r) => MeaningIsTree(l, 3); MeaningIsTree(r, 3);
  }

  lemma MeaningIsNoRelation(w: Written)
    ensures !Meaning(w).Relation?
  {
  }

  /** Parse, print, parse: the second parse returns the first one's tree. */
  lemma ParsePrintParse(ts: seq<Token>)
    requires ParseTokens(ts).Success?
    ensures IsParseResult(ParseTokens(ts).value)
    ensures ParseTokens(PrintTree(ParseTokens(ts).value)) == ParseTokens(ts)
  {
    hide ParseTokens, IsTree;
    ParseResultsAreTrees(ParseTokens(ts).value);
    ParseUndoesPrintTree(ParseTokens(ts).value);
  }
}
