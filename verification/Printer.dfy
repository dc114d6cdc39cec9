/** Printing a syntax tree with parentheses only where it binds looser than its place, and why
    parsing inverts it. */
module Printer {
  import opened Grammar

  /** How tightly a tree binds: 0 ternary, 1 to 6 binary, 7 unary, 8 postfix, 9 primary. */
  function Level(n: Expr): nat {
    match n
    case Ternary(_, _, _) => 0
    case Binary(op, _, _) => BinLevel(op)
    case Unary(_, _) => 7
    case Member(_, _) => 8
    case Index(_, _) => 8
    case _ => 9
  }

  /** The trees the parser builds. */
  predicate WellFormed(n: Expr, readable: string -> bool) {
    match n
    case Number(text) => readable(text)
    case List(items) => forall i :: 0 <= i < |items| ==> WellFormed(items[i], readable)
    case Call(_, args) => forall i :: 0 <= i < |args| ==> WellFormed(args[i], readable)
    case Unary(op, x) => op in {Not, Minus} && WellFormed(x, readable)
    case Binary(op, l, r) => BinLevel(op) > 0 && WellFormed(l, readable) && WellFormed(r, readable)
    case Ternary(c, t, e) => WellFormed(c, readable) && WellFormed(t, readable) && WellFormed(e, readable)
    case Member(x, _) => WellFormed(x, readable)
    case Index(x, idx) => WellFormed(x, readable) && WellFormed(idx, readable)
    case _ => true
  }

  function Size(n: Expr): nat {
    match n
    case List(items) => 1 + SizeAll(items)
    case Call(_, args) => 1 + SizeAll(args)
    case Unary(_, x) => 1 + Size(x)
    case Binary(_, l, r) => 1 + Size(l) + Size(r)
    case Ternary(c, t, e) => 1 + Size(c) + Size(t) + Size(e)
    case Member(x, _) => 1 + Size(x)
    case Index(x, idx) => 1 + Size(x) + Size(idx)
    case _ => 1
  }

  function SizeAll(items: seq<Expr>): nat {
    if items == [] then 0 else 1 + Size(items[0]) + SizeAll(items[1..])
  }

  /** The tokens of a tree in a place that takes level `k` or tighter. */
  function Print(n: Expr, k: nat): seq<Tok>
    decreases Size(n), 1
  {
    if Level(n) < k then [OpTok(LParen)] + Bare(n) + [OpTok(RParen)] else Bare(n)
  }

  function Bare(n: Expr): seq<Tok>
    decreases Size(n), 0
  {
    match n
    case Number(text) => [NumberTok(text)]
    case Str(text) => [StringTok(text)]
    case Bool(value) => [BoolTok(value)]
    case Null => [NullTok]
    case Var(name) => [Ident(name)]
    case List(items) => [OpTok(LBracket)] + PrintAll(items) + [OpTok(RBracket)]
    case Call(name, args) => [Ident(name), OpTok(LParen)] + PrintAll(args) + [OpTok(RParen)]
    case Unary(op, x) => [OpTok(op)] + Print(x, 7)
    case Binary(op, l, r) => Print(l, BinLevel(op)) + [OpTok(op)] + Print(r, BinLevel(op) + 1)
    case Ternary(c, t, e) => Print(c, 1) + [OpTok(Question)] + Print(t, 0) + [OpTok(Colon)] + Print(e, 0)
    case Member(x, name) => Print(x, 8) + [OpTok(Dot), Ident(name)]
    case Index(x, idx) => Print(x, 8) + [OpTok(LBracket)] + Print(idx, 0) + [OpTok(RBracket)]
  }

  function PrintAll(items: seq<Expr>): seq<Tok>
    decreases SizeAll(items), 0
  {
    if items == [] then []
    else if |items| == 1 then Print(items[0], 0)
    else Print(items[0], 0) + [OpTok(Comma)] + PrintAll(items[1..])
  }

  // ---- what may follow ------------------------------------------------------------------------

  /** The level at which an operator continues an expression to its left; 10 if none does. */
  function Continues(op: Op): nat {
    match op
    case Question => 0
    case Dot => 8
    case LBracket => 8
    case LParen => 9
    case _ => if BinLevel(op) > 0 then BinLevel(op) else 10
  }

  /** Nothing in `rest` is taken by level `k` or tighter. */
  predicate Stops(k: nat, rest: seq<Tok>) {
    rest != [] && rest[0].OpTok? ==> Continues(rest[0].op) < k || Continues(rest[0].op) == 10
  }

  /** Parsing at a level: 0 whole expressions, 1 to 6 binary, 7 unary, 8 postfix, 9 primary. */
  function ParseAt(k: nat, ts: seq<Tok>, readable: string -> bool): Res
    requires k <= 9
  {
    if k == 0 then ParseExpr(ts, readable)
    else if k <= 7 then ParseBin(k, ts, readable)
    else if k == 8 then ParsePostfix(ts, readable)
    else ParsePrimary(ts, readable)
  }

  /** What level `k` makes of a tree it already has. */
  function TailAt(k: nat, n: Expr, rest: seq<Tok>, readable: string -> bool): Res
    requires k <= 9
  {
    if 1 <= k <= 6 then BinTail(k, n, rest, readable)
    else if k == 8 then PostTail(n, rest, readable)
    else Got(n, rest)
  }

  /** What level `k` leaves alone goes to the next tighter level first. */
  lemma ParseDown(k: nat, ts: seq<Tok>, readable: string -> bool)
    requires k <= 8
    requires k == 7 ==> !Is(ts, Not) && !Is(ts, Minus)
    ensures ParseAt(k, ts, readable) ==
      match ParseAt(k + 1, ts, readable)
      case Fail => Fail
      case Got(n, rest) =>
        if k == 0 && Is(rest, Question) then ParseAt(0, ts, readable) else TailAt(k, n, rest, readable)
  {
    if k == 7 {
      assert ParseBin(7, ts, readable) == ParseUnary(ts, readable) == ParsePostfix(ts, readable);
    } else if k == 8 {
      assert ParsePostfix(ts, readable) == ParseAt(8, ts, readable);
    } else if k == 0 {
      assert ParseExpr(ts, readable) == ParseAt(0, ts, readable);
    } else {
      assert ParseBin(k, ts, readable) == ParseAt(k, ts, readable);
    }
  }

  lemma TailStops(k: nat, n: Expr, rest: seq<Tok>, readable: string -> bool)
    requires k <= 9 && Stops(k, rest)
    ensures TailAt(k, n, rest, readable) == Got(n, rest)
  {
  }

  /** A tree that binds at level 8 or tighter does not start with a prefix operator. */
  lemma {:induction false} PostfixHead(n: Expr, readable: string -> bool)
    requires WellFormed(n, readable)
    ensures Print(n, 8) != [] && !Is(Print(n, 8), Not) && !Is(Print(n, 8), Minus)
    decreases Size(n)
  {
    if Level(n) >= 8 {
      match n {
        case Member(x, name) => PostfixHead(x, readable);
        case Index(x, idx) => PostfixHead(x, readable);
        case _ =>
      }
    }
  }

  /** The measure of the proof: a parenthesised tree goes down to primary, then starts over
      at level 0 inside. */
  function Rank(n: Expr, k: nat): nat
    requires k <= 9
  {
    if Level(n) < k then 20 - k else 10 - k
  }

  /** Printed at level `k` before `rest`, a tree parses to itself as far as tighter levels
      go, and level `k` carries on from there. */
  lemma {:induction false} PrintParses(n: Expr, k: nat, rest: seq<Tok>, readable: string -> bool)
    requires WellFormed(n, readable) && k <= 9
    requires if k == 0 then Stops(0, rest) else if k == 9 then Stops(9, rest) else Stops(k + 1, rest)
    ensures ParseAt(k, Print(n, k) + rest, readable) == TailAt(k, n, rest, readable)
    decreases Size(n), Rank(n, k), 2
  {
    if Level(n) == k {
      OwnLevel(n, rest, readable);
    } else if k == 9 {
      Parenthesised(n, rest, readable);
    } else {
      PrintParses(n, k + 1, rest, readable);
      Loosened(n, k, rest, readable);
    }
  }

  /** From one level to the next looser one, for a tree that is not of that level. */
  lemma Loosened(n: Expr, k: nat, rest: seq<Tok>, readable: string -> bool)
    requires WellFormed(n, readable) && k <= 8 && Level(n) != k
    requires if k == 0 then Stops(0, rest) else Stops(k + 1, rest)
    requires ParseAt(k + 1, Print(n, k + 1) + rest, readable) == TailAt(k + 1, n, rest, readable)
    ensures ParseAt(k, Print(n, k) + rest, readable) == TailAt(k, n, rest, readable)
  {
    assert Print(n, k) == Print(n, k + 1);
    if k == 7 {
      HeadKept(n, rest, readable);
    }
    TailStops(k + 1, n, rest, readable);
    ParseDown(k, Print(n, k) + rest, readable);
  }

  lemma HeadKept(n: Expr, rest: seq<Tok>, readable: string -> bool)
    requires WellFormed(n, readable)
    ensures !Is(Print(n, 8) + rest, Not) && !Is(Print(n, 8) + rest, Minus)
  {
    PostfixHead(n, readable);
    assert (Print(n, 8) + rest)[0] == Print(n, 8)[0];
  }

  /** Parentheses: primary hands the inside back to level 0. */
  lemma Parenthesised(n: Expr, rest: seq<Tok>, readable: string -> bool)
    requires WellFormed(n, readable) && Level(n) < 9 && Stops(9, rest)
    ensures ParseAt(9, Print(n, 9) + rest, readable) == Got(n, rest)
    decreases Size(n), Rank(n, 9), 1
  {
    PrintParses(n, 0, [OpTok(RParen)] + rest, readable);
    ParenTokens(n, rest);
    ParenPrimary(n, [OpTok(RParen)] + rest, Print(n, 9) + rest, readable);
  }

  /** A parenthesis opens a whole expression. */
  lemma ParenPrimary(n: Expr, after: seq<Tok>, ts: seq<Tok>, readable: string -> bool)
    requires Is(ts, LParen) && Is(after, RParen) && ParseExpr(ts[1..], readable) == Got(n, after)
    ensures ParsePrimary(ts, readable) == Got(n, after[1..])
  {
  }

  lemma ParenTokens(n: Expr, rest: seq<Tok>)
    requires Level(n) < 9
    ensures var ts := Print(n, 9) + rest;
      ts != [] && ts[0] == OpTok(LParen) && ts[1..] == Print(n, 0) + ([OpTok(RParen)] + rest)
    ensures ([OpTok(RParen)] + rest)[1..] == rest
  {
  }

  /** A tree at its own level. */
  lemma OwnLevel(n: Expr, rest: seq<Tok>, readable: string -> bool)
    requires WellFormed(n, readable) && Level(n) <= 9
    requires var k := Level(n); if k == 0 then Stops(0, rest) else if k == 9 then Stops(9, rest) else Stops(k + 1, rest)
    ensures ParseAt(Level(n), Print(n, Level(n)) + rest, readable) == TailAt(Level(n), n, rest, readable)
    decreases Size(n), Rank(n, Level(n)), 1
  {
    match n {
      case Binary(op, l, r) => OwnBinary(n, rest, readable);
      case Unary(op, x) => OwnUnary(n, rest, readable);
      case Ternary(c, t, e) => OwnTernary(n, rest, readable);
      case Member(x, name) => OwnMember(n, rest, readable);
      case Index(x, idx) => OwnIndex(n, rest, readable);
      case List(items) => OwnList(n, rest, readable);
      case Call(name, args) => OwnCall(n, rest, readable);
      case _ => OwnLeaf(n, rest, readable);
    }
  }

  lemma OwnLeaf(n: Expr, rest: seq<Tok>, readable: string -> bool)
    requires WellFormed(n, readable) && Stops(9, rest)
    requires n.Number? || n.Str? || n.Bool? || n.Null? || n.Var?
    ensures ParseAt(9, Print(n, 9) + rest, readable) == Got(n, rest)
  {
    var ts := Print(n, 9) + rest;
    assert |Bare(n)| == 1 && Print(n, 9) == Bare(n);
    assert ts[0] == Bare(n)[0] && ts[1..] == rest;
  }

  lemma OwnBinary(n: Expr, rest: seq<Tok>, readable: string -> bool)
    requires n.Binary? && WellFormed(n, readable) && Stops(Level(n) + 1, rest)
    ensures ParseAt(Level(n), Print(n, Level(n)) + rest, readable) == TailAt(Level(n), n, rest, readable)
    decreases Size(n), 0
  {
    var k := Level(n);
    var right := Print(n.r, k + 1) + rest;
    var after := [OpTok(n.op)] + right;
    assert Print(n, k) + rest == Print(n.l, k) + after;
    PrintParses(n.l, k, after, readable);
    assert after[1..] == right;
    RightOperand(n.r, k, rest, readable);
  }

  lemma RightOperand(r: Expr, k: nat, rest: seq<Tok>, readable: string -> bool)
    requires WellFormed(r, readable) && 1 <= k <= 6 && Stops(k + 1, rest)
    ensures ParseBin(k + 1, Print(r, k + 1) + rest, readable) == Got(r, rest)
    decreases Size(r), 30
  {
    PrintParses(r, k + 1, rest, readable);
    TailStops(k + 1, r, rest, readable);
  }

  lemma OwnUnary(n: Expr, rest: seq<Tok>, readable: string -> bool)
    requires n.Unary? && WellFormed(n, readable) && Stops(8, rest)
    ensures ParseAt(7, Print(n, 7) + rest, readable) == Got(n, rest)
    decreases Size(n), 0
  {
    PrintParses(n.x, 7, rest, readable);
    var ts := Print(n, 7) + rest;
    UnaryTokens(n, rest);
    assert ParseBin(7, ts, readable) == ParseUnary(ts, readable);
    assert ParseBin(7, ts[1..], readable) == ParseUnary(ts[1..], readable);
  }

  lemma UnaryTokens(n: Expr, rest: seq<Tok>)
    requires n.Unary?
    ensures var ts := Print(n, 7) + rest; ts != [] && ts[0] == OpTok(n.op) && ts[1..] == Print(n.x, 7) + rest
  {
    BareUnary(n);
    HeadOf(OpTok(n.op), Print(n.x, 7), rest);
  }

  lemma BareUnary(n: Expr)
    requires n.Unary?
    ensures Print(n, 7) == [OpTok(n.op)] + Print(n.x, 7)
  {
    assert Print(n, 7) == Bare(n);
  }

  lemma HeadOf(t: Tok, body: seq<Tok>, rest: seq<Tok>)
    ensures var ts := [t] + body + rest; ts != [] && ts[0] == t && ts[1..] == body + rest
  {
  }

  lemma OwnTernary(n: Expr, rest: seq<Tok>, readable: string -> bool)
    requires n.Ternary? && WellFormed(n, readable) && Stops(0, rest)
    ensures ParseAt(0, Print(n, 0) + rest, readable) == Got(n, rest)
    decreases Size(n), 0
  {
    var last := Print(n.onFalse, 0) + rest;
    var colon := [OpTok(Colon)] + last;
    var after := [OpTok(Question)] + (Print(n.onTrue, 0) + colon);
    TernaryTokens(n, rest);
    PrintParses(n.cond, 1, after, readable);
    TailStops(1, n.cond, after, readable);
    PrintParses(n.onTrue, 0, colon, readable);
    PrintParses(n.onFalse, 0, rest, readable);
    TernaryParses(n.cond, n.onTrue, n.onFalse, Print(n, 0) + rest, after, colon, rest, readable);
  }

  lemma TernaryTokens(n: Expr, rest: seq<Tok>)
    requires n.Ternary?
    ensures Print(n, 0) + rest
      == Print(n.cond, 1) + ([OpTok(Question)] + (Print(n.onTrue, 0) + ([OpTok(Colon)] + (Print(n.onFalse, 0) + rest))))
  {
  }

  lemma TernaryParses(c: Expr, t: Expr, e: Expr, ts: seq<Tok>, after: seq<Tok>, colon: seq<Tok>, rest: seq<Tok>, readable: string -> bool)
    requires ParseBin(1, ts, readable) == Got(c, after) && Is(after, Question)
    requires ParseExpr(after[1..], readable) == Got(t, colon) && Is(colon, Colon)
    requires ParseExpr(colon[1..], readable) == Got(e, rest)
    ensures ParseExpr(ts, readable) == Got(Ternary(c, t, e), rest)
  {
  }

  lemma OwnMember(n: Expr, rest: seq<Tok>, readable: string -> bool)
    requires n.Member? && WellFormed(n, readable) && Stops(9, rest)
    ensures ParseAt(8, Print(n, 8) + rest, readable) == TailAt(8, n, rest, readable)
    decreases Size(n), 0
  {
    var after := [OpTok(Dot), Ident(n.name)] + rest;
    assert Print(n, 8) + rest == Print(n.x, 8) + after;
    PrintParses(n.x, 8, after, readable);
    assert after[1..][1..] == rest;
  }

  lemma OwnIndex(n: Expr, rest: seq<Tok>, readable: string -> bool)
    requires n.Index? && WellFormed(n, readable) && Stops(9, rest)
    ensures ParseAt(8, Print(n, 8) + rest, readable) == TailAt(8, n, rest, readable)
    decreases Size(n), 0
  {
    var close := [OpTok(RBracket)] + rest;
    var after := [OpTok(LBracket)] + (Print(n.idx, 0) + close);
    assert Print(n, 8) + rest == Print(n.x, 8) + after;
    PrintParses(n.x, 8, after, readable);
    PrintParses(n.idx, 0, close, readable);
    assert after[1..] == Print(n.idx, 0) + close && close[1..] == rest;
  }

  lemma OwnList(n: Expr, rest: seq<Tok>, readable: string -> bool)
    requires n.List? && WellFormed(n, readable)
    ensures ParseAt(9, Print(n, 9) + rest, readable) == Got(n, rest)
    decreases Size(n), 0
  {
    ItemsParse(n.items, RBracket, rest, readable);
    ListTokens(n, rest);
    var ts := Print(n, 9) + rest;
    assert ParsePrimary(ts, readable) == Got(n, rest);
  }

  lemma ListTokens(n: Expr, rest: seq<Tok>)
    requires n.List?
    ensures var ts := Print(n, 9) + rest;
      ts != [] && ts[0] == OpTok(LBracket) && ts[1..] == PrintAll(n.items) + [OpTok(RBracket)] + rest
  {
  }

  lemma OwnCall(n: Expr, rest: seq<Tok>, readable: string -> bool)
    requires n.Call? && WellFormed(n, readable)
    ensures ParseAt(9, Print(n, 9) + rest, readable) == Got(n, rest)
    decreases Size(n), 0
  {
    ItemsParse(n.args, RParen, rest, readable);
    CallTokens(n, rest);
    var ts := Print(n, 9) + rest;
    assert ParsePrimary(ts, readable) == Got(n, rest);
  }

  lemma CallTokens(n: Expr, rest: seq<Tok>)
    requires n.Call?
    ensures var ts := Print(n, 9) + rest;
      |ts| > 1 && ts[0] == Ident(n.name) && Is(ts[1..], LParen) && ts[1..][1..] == PrintAll(n.args) + [OpTok(RParen)] + rest
  {
    assert Print(n, 9) == Bare(n);
    TwoHeads(Ident(n.name), OpTok(LParen), PrintAll(n.args), [OpTok(RParen)], rest);
  }

  lemma TwoHeads(t: Tok, u: Tok, body: seq<Tok>, close: seq<Tok>, rest: seq<Tok>)
    ensures var ts := [t, u] + body + close + rest;
      |ts| > 1 && ts[0] == t && ts[1..] != [] && ts[1..][0] == u && ts[1..][1..] == body + close + rest
  {
    var ts := [t, u] + body + close + rest;
    assert ts == [t] + ([u] + (body + close + rest));
  }

  /** A printed list parses back up to its closing token. */
  lemma {:induction false} ItemsParse(items: seq<Expr>, close: Op, rest: seq<Tok>, readable: string -> bool)
    requires close in {RParen, RBracket} && forall i :: 0 <= i < |items| ==> WellFormed(items[i], readable)
    ensures ParseList(PrintAll(items) + [OpTok(close)] + rest, close, readable) == GotList(items, rest)
    ensures items != [] ==> ParseItems(PrintAll(items) + [OpTok(close)] + rest, close, readable) == GotList(items, rest)
    decreases SizeAll(items), 40
  {
    if items == [] {
      assert (PrintAll(items) + [OpTok(close)] + rest)[1..] == rest;
    } else {
      ItemHead(items[0], readable);
      ItemsTokens(items, close, rest);
      if |items| == 1 {
        OneItemParses(items, close, rest, readable);
      } else {
        ItemsParse(items[1..], close, rest, readable);
        MoreItemsParse(items, PrintAll(items) + [OpTok(close)] + rest, PrintAll(items[1..]) + [OpTok(close)] + rest,
                       close, rest, readable);
      }
    }
  }

  /** One item, followed by something no expression takes. */
  lemma ItemExpr(x: Expr, ts: seq<Tok>, after: seq<Tok>, readable: string -> bool)
    requires WellFormed(x, readable) && Stops(0, after) && ts == Print(x, 0) + after
    ensures ParseExpr(ts, readable) == Got(x, after)
    decreases Size(x), 35
  {
    PrintParses(x, 0, after, readable);
  }

  lemma OneItemParses(items: seq<Expr>, close: Op, rest: seq<Tok>, readable: string -> bool)
    requires close in {RParen, RBracket} && |items| == 1 && WellFormed(items[0], readable)
    ensures var ts := PrintAll(items) + [OpTok(close)] + rest;
      ParseItems(ts, close, readable) == GotList(items, rest) && ParseList(ts, close, readable) == GotList(items, rest)
    decreases SizeAll(items), 35
  {
    var ts := PrintAll(items) + [OpTok(close)] + rest;
    var after := [OpTok(close)] + rest;
    ItemHead(items[0], readable);
    ItemsTokens(items, close, rest);
    ItemExpr(items[0], ts, after, readable);
    LastItem(items[0], ts, after, close, readable);
    assert items == [items[0]] && after[1..] == rest;
  }

  lemma MoreItemsParse(items: seq<Expr>, ts: seq<Tok>, more: seq<Tok>, close: Op, rest: seq<Tok>, readable: string -> bool)
    requires close in {RParen, RBracket} && |items| > 1 && WellFormed(items[0], readable)
    requires ParseItems(more, close, readable) == GotList(items[1..], rest)
    requires ts == Print(items[0], 0) + ([OpTok(Comma)] + more) && !Is(ts, close)
    ensures ParseItems(ts, close, readable) == GotList(items, rest) && ParseList(ts, close, readable) == GotList(items, rest)
    decreases SizeAll(items), 35
  {
    var after := [OpTok(Comma)] + more;
    ItemExpr(items[0], ts, after, readable);
    DropFirst(OpTok(Comma), more);
    NextItem(items[0], items[1..], ts, after, rest, close, readable);
    SplitFirst(items);
  }

  lemma ItemsTokens(items: seq<Expr>, close: Op, rest: seq<Tok>)
    requires items != [] && Print(items[0], 0) != []
    ensures var ts := PrintAll(items) + [OpTok(close)] + rest;
      && ts != [] && ts[0] == Print(items[0], 0)[0]
      && (|items| == 1 ==> ts == Print(items[0], 0) + ([OpTok(close)] + rest))
      && (|items| > 1 ==> ts == Print(items[0], 0) + ([OpTok(Comma)] + (PrintAll(items[1..]) + [OpTok(close)] + rest)))
  {
    var head := Print(items[0], 0);
    if |items| == 1 {
      assert PrintAll(items) == head;
      assert head + [OpTok(close)] + rest == head + ([OpTok(close)] + rest);
    } else {
      assert PrintAll(items) == head + [OpTok(Comma)] + PrintAll(items[1..]);
      Regroup(head, [OpTok(Comma)], PrintAll(items[1..]), [OpTok(close)], rest);
    }
  }

  lemma Regroup(a: seq<Tok>, b: seq<Tok>, c: seq<Tok>, d: seq<Tok>, e: seq<Tok>)
    ensures a + b + c + d + e == a + (b + (c + d + e))
  {
  }

  lemma LastItem(x: Expr, ts: seq<Tok>, after: seq<Tok>, close: Op, readable: string -> bool)
    requires ParseExpr(ts, readable) == Got(x, after) && Is(after, close) && !Is(ts, close)
    ensures ParseItems(ts, close, readable) == ParseList(ts, close, readable) == GotList([x], after[1..])
  {
  }

  lemma NextItem(x: Expr, xs: seq<Expr>, ts: seq<Tok>, after: seq<Tok>, rest: seq<Tok>, close: Op, readable: string -> bool)
    requires ParseExpr(ts, readable) == Got(x, after) && Is(after, Comma) && !Is(ts, close) && !close.Comma?
    requires ParseItems(after[1..], close, readable) == GotList(xs, rest)
    ensures ParseItems(ts, close, readable) == GotList([x] + xs, rest)
    ensures ParseList(ts, close, readable) == GotList([x] + xs, rest)
  {
  }

  lemma SplitFirst(items: seq<Expr>)
    requires items != []
    ensures [items[0]] + items[1..] == items
  {
  }

  lemma DropFirst(t: Tok, more: seq<Tok>)
    ensures ([t] + more)[1..] == more
  {
  }

  /** No tree starts with a closing token. */
  lemma {:induction false} ItemHead(n: Expr, readable: string -> bool)
    requires WellFormed(n, readable)
    ensures forall k :: k <= 9 ==> Print(n, k) != [] && !Is(Print(n, k), RParen) && !Is(Print(n, k), RBracket)
    decreases Size(n)
  {
    match n {
      case Binary(_, l, _) => ItemHead(l, readable); assert Print(l, Level(n)) != [];
      case Ternary(c, _, _) => ItemHead(c, readable); assert Print(c, 1) != [];
      case Member(x, _) => ItemHead(x, readable); assert Print(x, 8) != [];
      case Index(x, _) => ItemHead(x, readable); assert Print(x, 8) != [];
      case _ =>
    }
  }

  /** The round trip: the tokens of any tree the parser can build, with an end marker, parse
      back to that tree and are used up exactly to the end marker. */
  lemma PrintThenParse(n: Expr, readable: string -> bool)
    requires WellFormed(n, readable)
    ensures Parse(Print(n, 0) + [Eof], readable) == Got(n, [Eof])
  {
    PrintParses(n, 0, [Eof], readable);
  }

  // ---- the parser builds nothing else ------------------------------------------------------------

  lemma {:induction false} ExprBuilds(ts: seq<Tok>, readable: string -> bool)
    ensures ParseExpr(ts, readable).Got? ==> WellFormed(ParseExpr(ts, readable).tree, readable)
    decreases |ts|, 12
  {
    BinBuilds(1, ts, readable);
    var c := ParseBin(1, ts, readable);
    if c.Got? && Is(c.rest, Question) {
      ExprBuilds(c.rest[1..], readable);
      var t := ParseExpr(c.rest[1..], readable);
      if t.Got? && Is(t.rest, Colon) {
        ExprBuilds(t.rest[1..], readable);
      }
    }
  }

  lemma {:induction false} BinBuilds(k: nat, ts: seq<Tok>, readable: string -> bool)
    requires 1 <= k <= 7
    ensures ParseBin(k, ts, readable).Got? ==> WellFormed(ParseBin(k, ts, readable).tree, readable)
    decreases |ts|, 11 - k
  {
    if k == 7 {
      UnaryBuilds(ts, readable);
    } else {
      BinBuilds(k + 1, ts, readable);
      var l := ParseBin(k + 1, ts, readable);
      if l.Got? {
        TailBuilds(k, l.tree, l.rest, readable);
      }
    }
  }

  lemma {:induction false} TailBuilds(k: nat, l: Expr, ts: seq<Tok>, readable: string -> bool)
    requires 1 <= k <= 6 && WellFormed(l, readable)
    ensures BinTail(k, l, ts, readable).Got? ==> WellFormed(BinTail(k, l, ts, readable).tree, readable)
    decreases |ts|, 0
  {
    if IsBin(ts, k) {
      BinBuilds(k + 1, ts[1..], readable);
      var r := ParseBin(k + 1, ts[1..], readable);
      if r.Got? {
        TailBuilds(k, Binary(ts[0].op, l, r.tree), r.rest, readable);
      }
    }
  }

  lemma {:induction false} UnaryBuilds(ts: seq<Tok>, readable: string -> bool)
    ensures ParseUnary(ts, readable).Got? ==> WellFormed(ParseUnary(ts, readable).tree, readable)
    decreases |ts|, 3
  {
    if Is(ts, Not) || Is(ts, Minus) {
      UnaryBuilds(ts[1..], readable);
    } else {
      PrimaryBuilds(ts, readable);
      var x := ParsePrimary(ts, readable);
      if x.Got? {
        PostBuilds(x.tree, x.rest, readable);
      }
    }
  }

  lemma {:induction false} PostBuilds(x: Expr, ts: seq<Tok>, readable: string -> bool)
    requires WellFormed(x, readable)
    ensures PostTail(x, ts, readable).Got? ==> WellFormed(PostTail(x, ts, readable).tree, readable)
    decreases |ts|, 0
  {
    if Is(ts, Dot) {
      if |ts| > 1 && ts[1].Ident? {
        PostBuilds(Member(x, ts[1].name), ts[1..][1..], readable);
      }
    } else if Is(ts, LBracket) {
      ExprBuilds(ts[1..], readable);
      var idx := ParseExpr(ts[1..], readable);
      if idx.Got? && Is(idx.rest, RBracket) {
        PostBuilds(Index(x, idx.tree), idx.rest[1..], readable);
      }
    }
  }

  lemma {:induction false} PrimaryBuilds(ts: seq<Tok>, readable: string -> bool)
    ensures ParsePrimary(ts, readable).Got? ==> WellFormed(ParsePrimary(ts, readable).tree, readable)
    decreases |ts|, 1
  {
    if ts != [] {
      match ts[0] {
        case Ident(name) =>
          if Is(ts[1..], LParen) { ListBuilds(ts[1..][1..], RParen, readable); }
        case OpTok(op) =>
          if op.LParen? { ExprBuilds(ts[1..], readable); }
          if op.LBracket? { ListBuilds(ts[1..], RBracket, readable); }
        case _ =>
      }
    }
  }

  predicate AllWellFormed(items: seq<Expr>, readable: string -> bool) {
    forall i :: 0 <= i < |items| ==> WellFormed(items[i], readable)
  }

  lemma {:induction false} ListBuilds(ts: seq<Tok>, close: Op, readable: string -> bool)
    ensures ParseList(ts, close, readable).GotList? ==> AllWellFormed(ParseList(ts, close, readable).items, readable)
    decreases |ts|, 14
  {
    if !Is(ts, close) {
      ItemsBuild(ts, close, readable);
    }
  }

  lemma {:induction false} ItemsBuild(ts: seq<Tok>, close: Op, readable: string -> bool)
    ensures ParseItems(ts, close, readable).GotList? ==> AllWellFormed(ParseItems(ts, close, readable).items, readable)
    decreases |ts|, 13
  {
    ExprBuilds(ts, readable);
    var x := ParseExpr(ts, readable);
    if x.Got? && !Is(x.rest, close) && Is(x.rest, Comma) {
      ItemsBuild(x.rest[1..], close, readable);
    }
  }

  /** Every tree the parser builds prints to tokens that parse to it again: reprinting any
      accepted expression with minimal parentheses keeps its meaning. */
  lemma ParsePrintParse(ts: seq<Tok>, readable: string -> bool)
    requires Parse(ts, readable).Got?
    ensures Parse(Print(Parse(ts, readable).tree, 0) + [Eof], readable) == Got(Parse(ts, readable).tree, [Eof])
  {
    ExprBuilds(ts, readable);
    PrintThenParse(Parse(ts, readable).tree, readable);
  }
}
