/** No token list that parses to a tree has fewer parentheses than its print. */
module Minimal {
  import opened Grammar
  import opened Printer

  /** The opening parentheses of a token list, those of calls included. */
  function Opens(ts: seq<Tok>): nat {
    if ts == [] then 0 else (if ts[0] == OpTok(LParen) then 1 else 0) + Opens(ts[1..])
  }

  lemma {:induction false} OpensConcat(a: seq<Tok>, b: seq<Tok>)
    ensures Opens(a + b) == Opens(a) + Opens(b)
    decreases |a|
  {
    if a == [] {
      assert a + b == b;
    } else {
      assert (a + b)[1..] == a[1..] + b;
      OpensConcat(a[1..], b);
    }
  }

  lemma OpensOne(t: Tok)
    ensures Opens([t]) == if t == OpTok(LParen) then 1 else 0
  {
    assert [t][1..] == [];
  }

  /** What a tree in a place of level `k` costs. */
  function Cost(n: Expr, k: nat): nat {
    Opens(Print(n, k))
  }

  /** A place that takes only tighter trees costs a pair more, or nothing. */
  lemma CostIs(n: Expr, k: nat)
    ensures Cost(n, k) == Opens(Bare(n)) + (if Level(n) < k then 1 else 0)
  {
    if Level(n) < k {
      OpensConcat([OpTok(LParen)] + Bare(n), [OpTok(RParen)]);
      OpensConcat([OpTok(LParen)], Bare(n));
      OpensOne(OpTok(LParen));
      OpensOne(OpTok(RParen));
    }
  }

  lemma CostRises(n: Expr, j: nat, k: nat)
    requires j <= k
    ensures Cost(n, j) <= Cost(n, k)
  {
    CostIs(n, j);
    CostIs(n, k);
  }

  lemma BinaryCost(op: Op, l: Expr, r: Expr)
    requires BinLevel(op) > 0
    ensures Cost(Binary(op, l, r), BinLevel(op)) == Cost(l, BinLevel(op)) + Cost(r, BinLevel(op) + 1)
  {
    var k := BinLevel(op);
    assert Print(Binary(op, l, r), k) == Print(l, k) + [OpTok(op)] + Print(r, k + 1);
    OpensConcat(Print(l, k) + [OpTok(op)], Print(r, k + 1));
    OpensConcat(Print(l, k), [OpTok(op)]);
    OpensOne(OpTok(op));
  }

  lemma UnaryCost(op: Op, x: Expr)
    requires op in {Not, Minus}
    ensures Cost(Unary(op, x), 7) == Cost(x, 7)
  {
    assert Print(Unary(op, x), 7) == [OpTok(op)] + Print(x, 7);
    OpensConcat([OpTok(op)], Print(x, 7));
    OpensOne(OpTok(op));
  }

  lemma TernaryPrint(c: Expr, t: Expr, e: Expr)
    ensures Print(Ternary(c, t, e), 0) == Print(c, 1) + [OpTok(Question)] + (Print(t, 0) + [OpTok(Colon)] + Print(e, 0))
  {
    var x, y, z := Print(c, 1), Print(t, 0), Print(e, 0);
    assert x + [OpTok(Question)] + y + [OpTok(Colon)] + z == x + [OpTok(Question)] + (y + [OpTok(Colon)] + z);
  }

  lemma TernaryCost(c: Expr, t: Expr, e: Expr)
    ensures Cost(Ternary(c, t, e), 0) == Cost(c, 1) + Cost(t, 0) + Cost(e, 0)
  {
    var a, b := Print(c, 1) + [OpTok(Question)], Print(t, 0) + [OpTok(Colon)];
    TernaryPrint(c, t, e);
    hide Print, Bare;
    OpensConcat(a, b + Print(e, 0));
    OpensConcat(b, Print(e, 0));
    OpensConcat(Print(c, 1), [OpTok(Question)]);
    OpensConcat(Print(t, 0), [OpTok(Colon)]);
    OpensOne(OpTok(Question));
    OpensOne(OpTok(Colon));
  }

  lemma MemberCost(x: Expr, name: string)
    ensures Cost(Member(x, name), 8) == Cost(x, 8)
  {
    assert Print(Member(x, name), 8) == Print(x, 8) + ([OpTok(Dot)] + [Ident(name)]);
    OpensConcat(Print(x, 8), [OpTok(Dot)] + [Ident(name)]);
    OpensConcat([OpTok(Dot)], [Ident(name)]);
    OpensOne(OpTok(Dot));
    OpensOne(Ident(name));
  }

  lemma IndexCost(x: Expr, idx: Expr)
    ensures Cost(Index(x, idx), 8) == Cost(x, 8) + Cost(idx, 0)
  {
    var a, b := Print(x, 8) + [OpTok(LBracket)], Print(idx, 0) + [OpTok(RBracket)];
    assert Print(Index(x, idx), 8) == a + b;
    OpensConcat(a, b);
    OpensConcat(Print(x, 8), [OpTok(LBracket)]);
    OpensConcat(Print(idx, 0), [OpTok(RBracket)]);
    OpensOne(OpTok(LBracket));
    OpensOne(OpTok(RBracket));
  }

  lemma ListCost(items: seq<Expr>)
    ensures Cost(List(items), 9) == Opens(PrintAll(items))
  {
    OpensConcat([OpTok(LBracket)] + PrintAll(items), [OpTok(RBracket)]);
    OpensConcat([OpTok(LBracket)], PrintAll(items));
    OpensOne(OpTok(LBracket));
    OpensOne(OpTok(RBracket));
  }

  lemma CallCost(name: string, args: seq<Expr>)
    ensures Cost(Call(name, args), 9) == 1 + Opens(PrintAll(args))
  {
    assert Print(Call(name, args), 9) == [Ident(name)] + ([OpTok(LParen)] + (PrintAll(args) + [OpTok(RParen)]));
    OpensConcat([Ident(name)], [OpTok(LParen)] + (PrintAll(args) + [OpTok(RParen)]));
    OpensConcat([OpTok(LParen)], PrintAll(args) + [OpTok(RParen)]);
    OpensConcat(PrintAll(args), [OpTok(RParen)]);
    OpensOne(Ident(name));
    OpensOne(OpTok(LParen));
    OpensOne(OpTok(RParen));
  }

  lemma ItemsCost(x: Expr, items: seq<Expr>)
    requires items != []
    ensures Opens(PrintAll([x] + items)) == Cost(x, 0) + Opens(PrintAll(items))
  {
    assert ([x] + items)[1..] == items;
    assert PrintAll([x] + items) == Print(x, 0) + [OpTok(Comma)] + PrintAll(items);
    OpensConcat(Print(x, 0) + [OpTok(Comma)], PrintAll(items));
    OpensConcat(Print(x, 0), [OpTok(Comma)]);
    OpensOne(OpTok(Comma));
  }

  // ---- every tree the parser builds has been paid for ------------------------------------------

  lemma {:induction false} ExprPays(ts: seq<Tok>, readable: string -> bool)
    ensures var r := ParseExpr(ts, readable); r.Got? ==> Cost(r.tree, 0) + Opens(r.rest) <= Opens(ts)
    decreases |ts|, 12
  {
    BinPays(1, ts, readable);
    var c := ParseBin(1, ts, readable);
    if c.Got? && Is(c.rest, Question) {
      ExprPays(c.rest[1..], readable);
      var t := ParseExpr(c.rest[1..], readable);
      if t.Got? && Is(t.rest, Colon) {
        ExprPays(t.rest[1..], readable);
        var e := ParseExpr(t.rest[1..], readable);
        if e.Got? {
          TernaryCost(c.tree, t.tree, e.tree);
        }
      }
    } else if c.Got? {
      CostRises(c.tree, 0, 1);
    }
  }

  lemma {:induction false} BinPays(k: nat, ts: seq<Tok>, readable: string -> bool)
    requires 1 <= k <= 7
    ensures var r := ParseBin(k, ts, readable); r.Got? ==> Cost(r.tree, k) + Opens(r.rest) <= Opens(ts)
    decreases |ts|, 11 - k
  {
    if k == 7 {
      UnaryPays(ts, readable);
    } else {
      BinPays(k + 1, ts, readable);
      var l := ParseBin(k + 1, ts, readable);
      if l.Got? {
        CostRises(l.tree, k, k + 1);
        TailPays(k, l.tree, l.rest, readable);
      }
    }
  }

  lemma {:induction false} TailPays(k: nat, l: Expr, ts: seq<Tok>, readable: string -> bool)
    requires 1 <= k <= 6
    ensures var r := BinTail(k, l, ts, readable); r.Got? ==> Cost(r.tree, k) + Opens(r.rest) <= Cost(l, k) + Opens(ts)
    decreases |ts|, 0
  {
    if IsBin(ts, k) {
      BinPays(k + 1, ts[1..], readable);
      var r := ParseBin(k + 1, ts[1..], readable);
      if r.Got? {
        BinaryCost(ts[0].op, l, r.tree);
        TailPays(k, Binary(ts[0].op, l, r.tree), r.rest, readable);
      }
    }
  }

  lemma {:induction false} UnaryPays(ts: seq<Tok>, readable: string -> bool)
    ensures var r := ParseUnary(ts, readable); r.Got? ==> Cost(r.tree, 7) + Opens(r.rest) <= Opens(ts)
    decreases |ts|, 3
  {
    if Is(ts, Not) || Is(ts, Minus) {
      UnaryPays(ts[1..], readable);
      var x := ParseUnary(ts[1..], readable);
      if x.Got? {
        UnaryCost(ts[0].op, x.tree);
      }
    } else {
      PrimaryPays(ts, readable);
      var x := ParsePrimary(ts, readable);
      if x.Got? {
        PostPays(x.tree, x.rest, readable);
        CostRises(x.tree, 8, 9);
        var r := PostTail(x.tree, x.rest, readable);
        if r.Got? {
          CostRises(r.tree, 7, 8);
        }
      }
    }
  }

  lemma {:induction false} PostPays(x: Expr, ts: seq<Tok>, readable: string -> bool)
    ensures var r := PostTail(x, ts, readable); r.Got? ==> Cost(r.tree, 8) + Opens(r.rest) <= Cost(x, 8) + Opens(ts)
    decreases |ts|, 0
  {
    if Is(ts, Dot) {
      if |ts| > 1 && ts[1].Ident? {
        MemberCost(x, ts[1].name);
        PostPays(Member(x, ts[1].name), ts[1..][1..], readable);
      }
    } else if Is(ts, LBracket) {
      ExprPays(ts[1..], readable);
      var idx := ParseExpr(ts[1..], readable);
      if idx.Got? && Is(idx.rest, RBracket) {
        IndexCost(x, idx.tree);
        PostPays(Index(x, idx.tree), idx.rest[1..], readable);
      }
    }
  }

  lemma {:induction false} PrimaryPays(ts: seq<Tok>, readable: string -> bool)
    ensures var r := ParsePrimary(ts, readable); r.Got? ==> Cost(r.tree, 9) + Opens(r.rest) <= Opens(ts)
    decreases |ts|, 1
  {
    var r := ParsePrimary(ts, readable);
    if r.Got? {
      match ts[0] {
        case Ident(name) =>
          if Is(ts[1..], LParen) {
            ListPays(ts[1..][1..], RParen, readable);
            CallCost(name, r.tree.args);
          } else {
            OpensOne(Ident(name));
          }
        case OpTok(op) =>
          if op.LParen? {
            ExprPays(ts[1..], readable);
            CostIs(r.tree, 0);
            CostIs(r.tree, 9);
          } else {
            ListPays(ts[1..], RBracket, readable);
            ListCost(r.tree.items);
          }
        case Eof =>
        case _ =>
          assert Print(r.tree, 9) == [ts[0]];
          OpensOne(ts[0]);
      }
    }
  }

  lemma {:induction false} ListPays(ts: seq<Tok>, close: Op, readable: string -> bool)
    ensures var r := ParseList(ts, close, readable); r.GotList? ==> Opens(PrintAll(r.items)) + Opens(r.rest) <= Opens(ts)
    decreases |ts|, 14
  {
    if !Is(ts, close) {
      ItemsPay(ts, close, readable);
    }
  }

  lemma {:induction false} ItemsPay(ts: seq<Tok>, close: Op, readable: string -> bool)
    ensures var r := ParseItems(ts, close, readable);
      r.GotList? ==> r.items != [] && Opens(PrintAll(r.items)) + Opens(r.rest) <= Opens(ts)
    decreases |ts|, 13
  {
    ExprPays(ts, readable);
    var x := ParseExpr(ts, readable);
    if x.Got? && !Is(x.rest, close) && Is(x.rest, Comma) {
      ItemsPay(x.rest[1..], close, readable);
      var more := ParseItems(x.rest[1..], close, readable);
      if more.GotList? {
        ItemsCost(x.tree, more.items);
      }
    }
  }

  /** Of all token lists that parse to a tree, its print has the fewest parentheses. */
  lemma FewestParentheses(ts: seq<Tok>, readable: string -> bool)
    requires Parse(ts, readable).Got?
    ensures var n := Parse(ts, readable).tree;
      Parse(Print(n, 0) + [Eof], readable) == Got(n, [Eof]) && Opens(Print(n, 0) + [Eof]) <= Opens(ts)
  {
    ParsePrintParse(ts, readable);
    ExprPays(ts, readable);
    OpensConcat(Print(Parse(ts, readable).tree, 0), [Eof]);
    OpensOne(Eof);
  }
}
