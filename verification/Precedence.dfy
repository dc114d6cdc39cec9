/** How the expression grammar reads operators, told without its parser: phrases are written
    out flat, and a chain of operators means the tree whose root is the last of its loosest. */
module Precedence {
  import opened Grammar

  // ---- binary operators -------------------------------------------------------------------

  /** The binary operators by how loosely they bind, `??` first; those of one set group to the
      left. 6 for what is no binary operator. */
  function Rung(op: Op): nat {
    if op in {Coalesce} then 0
    else if op in {OrElse} then 1
    else if op in {AndAlso} then 2
    else if op in {Eq, Ne, Le, Ge, Lt, Gt, In} then 3
    else if op in {Plus, Minus} then 4
    else if op in {Star, Slash, Percent} then 5
    else 6
  }

  predicate IsBinary(op: Op) {
    Rung(op) < 6
  }

  predicate AllBinary(ops: seq<Op>) {
    forall i :: 0 <= i < |ops| ==> IsBinary(ops[i])
  }

  /** Position `i` holds the last of the loosest operators. */
  predicate Splits(ops: seq<Op>, i: nat) {
    && i < |ops|
    && (forall j :: 0 <= j < i ==> Rung(ops[i]) <= Rung(ops[j]))
    && (forall j :: i < j < |ops| ==> Rung(ops[i]) < Rung(ops[j]))
  }

  function SplitAt(ops: seq<Op>): (i: nat)
    requires ops != []
    ensures Splits(ops, i)
  {
    if |ops| == 1 then 0
    else
      var n := |ops| - 1;
      var i := SplitAt(ops[..n]);
      if Rung(ops[n]) <= Rung(ops[i]) then n else i
  }

  /** The tree of a chain of operands: split at the last of the loosest operators. */
  function Tree(xs: seq<Expr>, ops: seq<Op>): Expr
    requires |xs| == |ops| + 1
    decreases |ops|
  {
    if ops == [] then xs[0]
    else
      var i := SplitAt(ops);
      Binary(ops[i], Tree(xs[..i + 1], ops[..i]), Tree(xs[i + 1..], ops[i + 1..]))
  }

  // ---- phrases ----------------------------------------------------------------------------

  /** An expression as it is written: parentheses are kept and chains are flat. */
  datatype Phrase =
    | Atom(tok: Tok)
    | Parens(x: Phrase)
    | Items(items: seq<Phrase>)
    | Apply(name: string, args: seq<Phrase>)
    | Dotted(x: Phrase, name: string)
    | Indexed(x: Phrase, idx: Phrase)
    | Prefixed(op: Op, x: Phrase)
    | Chain(operands: seq<Phrase>, ops: seq<Op>)
    | Choice(cond: Phrase, onTrue: Phrase, onFalse: Phrase)

  /** How tightly a phrase holds together: 0 for what needs no parentheses anywhere. */
  function Tier(p: Phrase): nat {
    match p
    case Dotted(_, _) => 1
    case Indexed(_, _) => 1
    case Prefixed(_, _) => 2
    case Chain(_, _) => 3
    case Choice(_, _, _) => 4
    case _ => 0
  }

  predicate IsAtom(tok: Tok, readable: string -> bool) {
    match tok
    case NumberTok(text) => readable(text)
    case OpTok(_) => false
    case Eof => false
    case _ => true
  }

  /** Member access and indexing apply to primaries, `!` and `-` to those, the operands of a
      chain are no chains themselves, and only the condition of a choice is no choice. */
  predicate Formed(p: Phrase, readable: string -> bool) {
    match p
    case Atom(tok) => IsAtom(tok, readable)
    case Parens(x) => Formed(x, readable)
    case Items(items) => forall i :: 0 <= i < |items| ==> Formed(items[i], readable)
    case Apply(_, args) => forall i :: 0 <= i < |args| ==> Formed(args[i], readable)
    case Dotted(x, _) => Formed(x, readable) && Tier(x) <= 1
    case Indexed(x, idx) => Formed(x, readable) && Tier(x) <= 1 && Formed(idx, readable)
    case Prefixed(op, x) => (op.Not? || op.Minus?) && Formed(x, readable) && Tier(x) <= 2
    case Chain(operands, ops) =>
      && |operands| == |ops| + 1 > 1 && AllBinary(ops)
      && forall i :: 0 <= i < |operands| ==> Formed(operands[i], readable) && Tier(operands[i]) <= 2
    case Choice(cond, onTrue, onFalse) =>
      Formed(cond, readable) && Tier(cond) <= 3 && Formed(onTrue, readable) && Formed(onFalse, readable)
  }

  function Spell(p: Phrase): seq<Tok> {
    match p
    case Atom(tok) => [tok]
    case Parens(x) => [OpTok(LParen)] + Spell(x) + [OpTok(RParen)]
    case Items(items) => [OpTok(LBracket)] + SpellItems(items) + [OpTok(RBracket)]
    case Apply(name, args) => [Ident(name), OpTok(LParen)] + SpellItems(args) + [OpTok(RParen)]
    case Dotted(x, name) => Spell(x) + [OpTok(Dot), Ident(name)]
    case Indexed(x, idx) => Spell(x) + [OpTok(LBracket)] + Spell(idx) + [OpTok(RBracket)]
    case Prefixed(op, x) => [OpTok(op)] + Spell(x)
    case Chain(operands, ops) => SpellChain(operands, ops)
    case Choice(cond, onTrue, onFalse) =>
      Spell(cond) + [OpTok(Question)] + Spell(onTrue) + [OpTok(Colon)] + Spell(onFalse)
  }

  function SpellItems(ps: seq<Phrase>): seq<Tok> {
    if ps == [] then [] else if |ps| == 1 then Spell(ps[0])
    else Spell(ps[0]) + [OpTok(Comma)] + SpellItems(ps[1..])
  }

  function SpellChain(ps: seq<Phrase>, ops: seq<Op>): seq<Tok> {
    if ps == [] then [] else if ops == [] then Spell(ps[0])
    else Spell(ps[0]) + [OpTok(ops[0])] + SpellChain(ps[1..], ops[1..])
  }

  function Means(p: Phrase): Expr {
    match p
    case Atom(tok) =>
      (match tok
       case NumberTok(text) => Number(text)
       case StringTok(text) => Str(text)
       case BoolTok(value) => Bool(value)
       case Ident(name) => Var(name)
       case _ => Null)
    case Parens(x) => Means(x)
    case Items(items) => List(MeanAll(items))
    case Apply(name, args) => Call(name, MeanAll(args))
    case Dotted(x, name) => Member(Means(x), name)
    case Indexed(x, idx) => Index(Means(x), Means(idx))
    case Prefixed(op, x) => Unary(op, Means(x))
    case Chain(operands, ops) =>
      if |operands| == |ops| + 1 then Tree(MeanAll(operands), ops) else Null
    case Choice(cond, onTrue, onFalse) => Ternary(Means(cond), Means(onTrue), Means(onFalse))
  }

  function MeanAll(ps: seq<Phrase>): (xs: seq<Expr>)
    ensures |xs| == |ps|
    ensures forall i :: 0 <= i < |ps| ==> xs[i] == Means(ps[i])
  {
    if ps == [] then [] else [Means(ps[0])] + MeanAll(ps[1..])
  }

  // ---- chains -------------------------------------------------------------------------------

  /** What may follow an operand. */
  predicate Stops(rest: seq<Tok>) {
    !Is(rest, Dot) && !Is(rest, LBracket) && !Is(rest, LParen)
  }

  /** What may follow a chain parsed at level `k`: no operator that binds tighter. */
  predicate StopsAt(k: nat, rest: seq<Tok>) {
    Stops(rest) && !(rest != [] && rest[0].OpTok? && IsBinary(rest[0].op) && Rung(rest[0].op) >= k)
  }

  lemma RungIs(op: Op)
    ensures IsBinary(op) <==> BinLevel(op) > 0
    ensures IsBinary(op) ==> BinLevel(op) == Rung(op) + 1
  {
  }

  lemma BinaryAt(ops: seq<Op>, i: nat)
    requires AllBinary(ops) && i < |ops|
    ensures Rung(ops[i]) < 6
  {
  }

  lemma OperatorStops(k: nat, op: Op, rest: seq<Tok>)
    requires IsBinary(op) && Rung(op) <= k
    ensures StopsAt(k + 1, [OpTok(op)] + rest)
  {
  }

  /** The token list reads as the operand, whatever follows. */
  ghost predicate Reads(ts: seq<Tok>, x: Expr, readable: string -> bool) {
    forall rest {:trigger ts + rest} :: Stops(rest) ==> ParseUnary(ts + rest, readable) == Got(x, rest)
  }

  function Written(tss: seq<seq<Tok>>, ops: seq<Op>): seq<Tok>
    requires |tss| == |ops| + 1
    decreases |ops|
  {
    if ops == [] then tss[0] else tss[0] + [OpTok(ops[0])] + Written(tss[1..], ops[1..])
  }

  lemma {:induction false} WrittenSplits(tss: seq<seq<Tok>>, ops: seq<Op>, i: nat, more: seq<Tok>)
    requires |tss| == |ops| + 1 && i < |ops|
    ensures Written(tss, ops) + more ==
      Written(tss[..i + 1], ops[..i]) + ([OpTok(ops[i])] + (Written(tss[i + 1..], ops[i + 1..]) + more))
    decreases i
  {
    if i > 0 {
      WrittenSplits(tss[1..], ops[1..], i - 1, more);
      var first := tss[0] + [OpTok(ops[0])];
      assert Written(tss, ops) + more == first + (Written(tss[1..], ops[1..]) + more);
      assert Written(tss[..i + 1], ops[..i]) == first + Written(tss[..i + 1][1..], ops[..i][1..]);
      assert tss[1..][..i] == tss[..i + 1][1..] && ops[1..][..i - 1] == ops[..i][1..];
      assert tss[1..][i..] == tss[i + 1..] && ops[1..][i..] == ops[i + 1..];
    }
  }

  /** A chain whose operators all bind at least as tightly as level `k + 1` reads as its tree,
      and the parser of that level goes on from there. */
  lemma {:induction false} ChainReads(k: nat, tss: seq<seq<Tok>>, xs: seq<Expr>, ops: seq<Op>, more: seq<Tok>, readable: string -> bool)
    requires k <= 5 && |tss| == |xs| == |ops| + 1 && AllBinary(ops)
    requires forall i :: 0 <= i < |tss| ==> Reads(tss[i], xs[i], readable)
    requires forall i :: 0 <= i < |ops| ==> Rung(ops[i]) >= k
    requires StopsAt(k + 1, more)
    ensures ParseBin(k + 1, Written(tss, ops) + more, readable) == BinTail(k + 1, Tree(xs, ops), more, readable)
    decreases |ops|, 6 - k
  {
    hide Rung, Reads, Stops;
    if ops != [] && Rung(ops[SplitAt(ops)]) == k {
      var i := SplitAt(ops);
      var right := [OpTok(ops[i])] + (Written(tss[i + 1..], ops[i + 1..]) + more);
      WrittenSplits(tss, ops, i, more);
      RungIs(ops[i]);
      OperatorStops(k, ops[i], Written(tss[i + 1..], ops[i + 1..]) + more);
      ChainReads(k, tss[..i + 1], xs[..i + 1], ops[..i], right, readable);
      assert right[1..] == Written(tss[i + 1..], ops[i + 1..]) + more;
      TighterReads(k, tss[i + 1..], xs[i + 1..], ops[i + 1..], more, readable);
    } else {
      TighterReads(k, tss, xs, ops, more, readable);
    }
  }

  /** The same one level further in, where nothing that follows is taken. */
  lemma {:induction false} TighterReads(k: nat, tss: seq<seq<Tok>>, xs: seq<Expr>, ops: seq<Op>, more: seq<Tok>, readable: string -> bool)
    requires k <= 5 && |tss| == |xs| == |ops| + 1 && AllBinary(ops)
    requires forall i :: 0 <= i < |tss| ==> Reads(tss[i], xs[i], readable)
    requires forall i :: 0 <= i < |ops| ==> Rung(ops[i]) > k
    requires StopsAt(k + 1, more)
    ensures ParseBin(k + 2, Written(tss, ops) + more, readable) == Got(Tree(xs, ops), more)
    decreases |ops|, 6 - k, 0
  {
    hide Rung;
    if k == 5 {
      assert Reads(tss[0], xs[0], readable);
      if ops != [] { BinaryAt(ops, 0); }
      assert tss[0] + more == Written(tss, ops) + more;
    } else {
      ChainReads(k + 1, tss, xs, ops, more, readable);
      if more != [] && more[0].OpTok? { RungIs(more[0].op); }
    }
  }

  // ---- the parser, one token at a time ----------------------------------------------------------

  lemma ParenStep(ts: seq<Tok>, rest: seq<Tok>, x: Expr, readable: string -> bool)
    requires ParseExpr(ts, readable) == Got(x, [OpTok(RParen)] + rest)
    ensures ParsePrimary([OpTok(LParen)] + ts, readable) == Got(x, rest)
  {
    assert ([OpTok(LParen)] + ts)[1..] == ts && ([OpTok(RParen)] + rest)[1..] == rest;
  }

  lemma BracketStep(ts: seq<Tok>, rest: seq<Tok>, xs: seq<Expr>, readable: string -> bool)
    requires ParseList(ts, RBracket, readable) == GotList(xs, rest)
    ensures ParsePrimary([OpTok(LBracket)] + ts, readable) == Got(List(xs), rest)
  {
    assert ([OpTok(LBracket)] + ts)[1..] == ts;
  }

  lemma CallStep(name: string, ts: seq<Tok>, rest: seq<Tok>, xs: seq<Expr>, readable: string -> bool)
    requires ParseList(ts, RParen, readable) == GotList(xs, rest)
    ensures ParsePrimary([Ident(name), OpTok(LParen)] + ts, readable) == Got(Call(name, xs), rest)
  {
    assert ([Ident(name), OpTok(LParen)] + ts)[1..] == [OpTok(LParen)] + ts;
    assert ([OpTok(LParen)] + ts)[1..] == ts;
  }

  lemma DotStep(x: Expr, name: string, rest: seq<Tok>, readable: string -> bool)
    ensures PostTail(x, [OpTok(Dot), Ident(name)] + rest, readable) == PostTail(Member(x, name), rest, readable)
  {
    assert ([OpTok(Dot), Ident(name)] + rest)[1..][1..] == rest;
  }

  lemma IndexStep(x: Expr, ts: seq<Tok>, idx: Expr, rest: seq<Tok>, readable: string -> bool)
    requires ParseExpr(ts, readable) == Got(idx, [OpTok(RBracket)] + rest)
    ensures PostTail(x, [OpTok(LBracket)] + ts, readable) == PostTail(Index(x, idx), rest, readable)
  {
    assert ([OpTok(LBracket)] + ts)[1..] == ts && ([OpTok(RBracket)] + rest)[1..] == rest;
  }

  lemma PrefixStep(op: Op, ts: seq<Tok>, x: Expr, rest: seq<Tok>, readable: string -> bool)
    requires (op.Not? || op.Minus?) && ParseUnary(ts, readable) == Got(x, rest)
    ensures ParseUnary([OpTok(op)] + ts, readable) == Got(Unary(op, x), rest)
  {
    assert ([OpTok(op)] + ts)[1..] == ts;
  }

  lemma PlainStep(ts: seq<Tok>, x: Expr, rest: seq<Tok>, readable: string -> bool)
    requires !Is(ts, Not) && !Is(ts, Minus) && Stops(rest) && ParsePostfix(ts, readable) == PostTail(x, rest, readable)
    ensures ParseUnary(ts, readable) == Got(x, rest)
  {
  }

  lemma PostfixStep(ts: seq<Tok>, x: Expr, rest: seq<Tok>, readable: string -> bool)
    requires ParsePrimary(ts, readable) == Got(x, rest)
    ensures ParsePostfix(ts, readable) == PostTail(x, rest, readable)
  {
  }

  lemma ChoiceStep(ts: seq<Tok>, us: seq<Tok>, vs: seq<Tok>, c: Expr, t: Expr, e: Expr, rest: seq<Tok>, readable: string -> bool)
    requires ParseBin(1, ts, readable) == Got(c, [OpTok(Question)] + us)
    requires ParseExpr(us, readable) == Got(t, [OpTok(Colon)] + vs) && ParseExpr(vs, readable) == Got(e, rest)
    ensures ParseExpr(ts, readable) == Got(Ternary(c, t, e), rest)
  {
    assert ([OpTok(Question)] + us)[1..] == us && ([OpTok(Colon)] + vs)[1..] == vs;
  }

  lemma NoChoiceStep(ts: seq<Tok>, x: Expr, rest: seq<Tok>, readable: string -> bool)
    requires ParseBin(1, ts, readable) == Got(x, rest) && !Is(rest, Question)
    ensures ParseExpr(ts, readable) == Got(x, rest)
  {
  }

  lemma LastItemStep(ts: seq<Tok>, close: Op, x: Expr, rest: seq<Tok>, readable: string -> bool)
    requires ParseExpr(ts, readable) == Got(x, [OpTok(close)] + rest)
    ensures ParseItems(ts, close, readable) == GotList([x], rest)
  {
    assert ([OpTok(close)] + rest)[1..] == rest;
  }

  lemma NextItemStep(ts: seq<Tok>, us: seq<Tok>, close: Op, x: Expr, xs: seq<Expr>, rest: seq<Tok>, readable: string -> bool)
    requires !close.Comma? && ParseExpr(ts, readable) == Got(x, [OpTok(Comma)] + us)
    requires ParseItems(us, close, readable) == GotList(xs, rest)
    ensures ParseItems(ts, close, readable) == GotList([x] + xs, rest)
  {
    assert ([OpTok(Comma)] + us)[1..] == us;
  }

  // ---- from phrases to trees ------------------------------------------------------------------

  /** What may follow a whole expression. */
  predicate Closes(rest: seq<Tok>) {
    StopsAt(0, rest) && !Is(rest, Question)
  }

  /** Phrases open with no operator but a parenthesis, a bracket or, at tier 2 and above, a prefix. */
  lemma {:induction false} Opening(p: Phrase, readable: string -> bool)
    requires Formed(p, readable)
    ensures Spell(p) != []
    ensures var t := Spell(p)[0];
      t.OpTok? ==> t.op.LParen? || t.op.LBracket? || (Tier(p) >= 2 && (t.op.Not? || t.op.Minus?))
    decreases p
  {
    match p {
      case Dotted(x, _) => Opening(x, readable);
      case Indexed(x, _) => Opening(x, readable);
      case Chain(operands, ops) => Opening(operands[0], readable);
      case Choice(cond, _, _) => Opening(cond, readable);
      case _ =>
    }
  }

  lemma AtomReads(tok: Tok, rest: seq<Tok>, readable: string -> bool)
    requires IsAtom(tok, readable) && !Is(rest, LParen)
    ensures ParsePrimary([tok] + rest, readable) == Got(Means(Atom(tok)), rest)
  {
    assert ([tok] + rest)[1..] == rest;
  }

  lemma {:induction false} PrimaryReads(p: Phrase, rest: seq<Tok>, readable: string -> bool)
    requires Formed(p, readable) && Tier(p) == 0 && !Is(rest, LParen)
    ensures ParsePrimary(Spell(p) + rest, readable) == Got(Means(p), rest)
    decreases p, 0
  {
    hide ParseExpr, ParseBin, BinTail, ParseUnary, ParsePostfix, PostTail, ParsePrimary, ParseList, ParseItems, Rung;
    match p {
      case Atom(tok) => AtomReads(tok, rest, readable);
      case Parens(x) =>
        var more := [OpTok(RParen)] + rest;
        CloserCloses(RParen, rest);
        SentenceReads(x, more, readable);
        ParenStep(Spell(x) + more, rest, Means(x), readable);
        assert Spell(p) + rest == [OpTok(LParen)] + (Spell(x) + more);
      case Items(items) =>
        var more := [OpTok(RBracket)] + rest;
        ListReads(items, RBracket, rest, readable);
        BracketStep(SpellItems(items) + more, rest, MeanAll(items), readable);
        assert Spell(p) + rest == [OpTok(LBracket)] + (SpellItems(items) + more);
      case Apply(name, args) =>
        var more := [OpTok(RParen)] + rest;
        ListReads(args, RParen, rest, readable);
        CallStep(name, SpellItems(args) + more, rest, MeanAll(args), readable);
        assert Spell(p) + rest == [Ident(name), OpTok(LParen)] + (SpellItems(args) + more);
      case _ =>
    }
  }

  lemma CloserCloses(op: Op, rest: seq<Tok>)
    requires op in {RParen, RBracket, Comma, Colon}
    ensures Closes([OpTok(op)] + rest)
  {
  }

  lemma DottedSpelled(p: Phrase, rest: seq<Tok>)
    requires p.Dotted?
    ensures Spell(p) + rest == Spell(p.x) + ([OpTok(Dot), Ident(p.name)] + rest)
  {
    var a := Spell(p.x);
    hide Spell;
    assert a + [OpTok(Dot), Ident(p.name)] + rest == a + ([OpTok(Dot), Ident(p.name)] + rest);
  }

  lemma IndexedSpelled(p: Phrase, rest: seq<Tok>)
    requires p.Indexed?
    ensures Spell(p) + rest == Spell(p.x) + ([OpTok(LBracket)] + (Spell(p.idx) + ([OpTok(RBracket)] + rest)))
  {
    var a, b := Spell(p.x), Spell(p.idx);
    hide Spell;
    assert a + [OpTok(LBracket)] + b + [OpTok(RBracket)] + rest == a + ([OpTok(LBracket)] + (b + ([OpTok(RBracket)] + rest)));
  }

  lemma {:induction false} PostfixReads(p: Phrase, rest: seq<Tok>, readable: string -> bool)
    requires Formed(p, readable) && Tier(p) <= 1 && !Is(rest, LParen)
    ensures ParsePostfix(Spell(p) + rest, readable) == PostTail(Means(p), rest, readable)
    decreases p, 1
  {
    hide ParseExpr, ParseBin, BinTail, ParseUnary, ParsePostfix, PostTail, ParsePrimary, ParseList, ParseItems, Rung,
         Spell, Closes, Stops, StopsAt;
    if p.Dotted? {
      var more := [OpTok(Dot), Ident(p.name)] + rest;
      PostfixReads(p.x, more, readable);
      DotStep(Means(p.x), p.name, rest, readable);
      DottedSpelled(p, rest);
    } else if p.Indexed? {
      var close := [OpTok(RBracket)] + rest;
      var more := [OpTok(LBracket)] + (Spell(p.idx) + close);
      PostfixReads(p.x, more, readable);
      CloserCloses(RBracket, rest);
      SentenceReads(p.idx, close, readable);
      IndexStep(Means(p.x), Spell(p.idx) + close, Means(p.idx), rest, readable);
      IndexedSpelled(p, rest);
    } else {
      PrimaryReads(p, rest, readable);
      PostfixStep(Spell(p) + rest, Means(p), rest, readable);
    }
  }

  lemma {:induction false} OperandReads(p: Phrase, rest: seq<Tok>, readable: string -> bool)
    requires Formed(p, readable) && Tier(p) <= 2 && Stops(rest)
    ensures ParseUnary(Spell(p) + rest, readable) == Got(Means(p), rest)
    decreases p, 2
  {
    hide ParseExpr, ParseBin, BinTail, ParseUnary, ParsePostfix, PostTail, ParsePrimary, ParseList, ParseItems, Rung;
    if p.Prefixed? {
      OperandReads(p.x, rest, readable);
      PrefixStep(p.op, Spell(p.x) + rest, Means(p.x), rest, readable);
      assert Spell(p) + rest == [OpTok(p.op)] + (Spell(p.x) + rest);
    } else {
      Opening(p, readable);
      PostfixReads(p, rest, readable);
      assert (Spell(p) + rest)[0] == Spell(p)[0];
      PlainStep(Spell(p) + rest, Means(p), rest, readable);
    }
  }

  function SpellAll(ps: seq<Phrase>): (tss: seq<seq<Tok>>)
    ensures |tss| == |ps|
    ensures forall i :: 0 <= i < |ps| ==> tss[i] == Spell(ps[i])
  {
    if ps == [] then [] else [Spell(ps[0])] + SpellAll(ps[1..])
  }

  lemma {:induction false} ChainWritten(ps: seq<Phrase>, ops: seq<Op>)
    requires |ps| == |ops| + 1
    ensures SpellChain(ps, ops) == Written(SpellAll(ps), ops)
    decreases ops
  {
    if ops != [] {
      ChainWritten(ps[1..], ops[1..]);
    }
  }

  lemma {:induction false} LowReads(p: Phrase, rest: seq<Tok>, readable: string -> bool)
    requires Formed(p, readable) && Tier(p) <= 3 && StopsAt(0, rest)
    ensures ParseBin(1, Spell(p) + rest, readable) == Got(Means(p), rest)
    decreases p, 4
  {
    if rest != [] && rest[0].OpTok? { RungIs(rest[0].op); }
    hide Rung;
    if p.Chain? {
      forall i | 0 <= i < |p.operands| ensures Reads(SpellAll(p.operands)[i], MeanAll(p.operands)[i], readable) {
        OperandAlways(p.operands[i], readable);
      }
      ChainWritten(p.operands, p.ops);
      ChainReads(0, SpellAll(p.operands), MeanAll(p.operands), p.ops, rest, readable);
    } else {
      OperandAlways(p, readable);
      ChainReads(0, [Spell(p)], [Means(p)], [], rest, readable);
    }
  }

  lemma {:induction false} OperandAlways(p: Phrase, readable: string -> bool)
    requires Formed(p, readable) && Tier(p) <= 2
    ensures Reads(Spell(p), Means(p), readable)
    decreases p, 3
  {
    hide Spell, Means, Formed, ParseUnary;
    forall rest | Stops(rest) ensures ParseUnary(Spell(p) + rest, readable) == Got(Means(p), rest) {
      OperandReads(p, rest, readable);
    }
  }

  lemma {:induction false} SentenceReads(p: Phrase, rest: seq<Tok>, readable: string -> bool)
    requires Formed(p, readable) && Closes(rest)
    ensures ParseExpr(Spell(p) + rest, readable) == Got(Means(p), rest)
    decreases p, 5
  {
    hide ParseExpr, ParseBin, BinTail, ParseUnary, ParsePostfix, PostTail, ParsePrimary, ParseList, ParseItems, Rung, StopsAt, Spell;
    if p.Choice? {
      var last := [OpTok(Colon)] + (Spell(p.onFalse) + rest);
      var more := [OpTok(Question)] + (Spell(p.onTrue) + last);
      QuestionStops(Spell(p.onTrue) + last);
      CloserCloses(Colon, Spell(p.onFalse) + rest);
      LowReads(p.cond, more, readable);
      SentenceReads(p.onTrue, last, readable);
      SentenceReads(p.onFalse, rest, readable);
      ChoiceStep(Spell(p.cond) + more, Spell(p.onTrue) + last, Spell(p.onFalse) + rest,
                 Means(p.cond), Means(p.onTrue), Means(p.onFalse), rest, readable);
      ChoiceSpelled(p, rest);
    } else {
      LowReads(p, rest, readable);
      NoChoiceStep(Spell(p) + rest, Means(p), rest, readable);
    }
  }

  lemma ChoiceSpelled(p: Phrase, rest: seq<Tok>)
    requires p.Choice?
    ensures var last := [OpTok(Colon)] + (Spell(p.onFalse) + rest);
      Spell(p) + rest == Spell(p.cond) + ([OpTok(Question)] + (Spell(p.onTrue) + last))
  {
    Regroup(Spell(p.cond), [OpTok(Question)], Spell(p.onTrue), [OpTok(Colon)], Spell(p.onFalse), rest);
  }

  lemma Regroup(a: seq<Tok>, b: seq<Tok>, c: seq<Tok>, d: seq<Tok>, e: seq<Tok>, rest: seq<Tok>)
    ensures a + b + c + d + e + rest == a + (b + (c + (d + (e + rest))))
  {
  }

  lemma QuestionStops(rest: seq<Tok>)
    ensures StopsAt(0, [OpTok(Question)] + rest)
  {
  }

  lemma {:induction false} ListReads(ps: seq<Phrase>, close: Op, rest: seq<Tok>, readable: string -> bool)
    requires forall i :: 0 <= i < |ps| ==> Formed(ps[i], readable)
    requires close.RParen? || close.RBracket?
    ensures ParseList(SpellItems(ps) + ([OpTok(close)] + rest), close, readable) == GotList(MeanAll(ps), rest)
    decreases ps, 6
  {
    hide ParseItems, Formed, Means;
    var end := [OpTok(close)] + rest;
    if ps == [] {
      assert SpellItems(ps) + end == end && end[1..] == rest;
    } else {
      Opening(ps[0], readable);
      ItemsRead(ps, close, rest, readable);
      assert (SpellItems(ps) + end)[0] == Spell(ps[0])[0];
    }
  }

  lemma {:induction false} ItemsRead(ps: seq<Phrase>, close: Op, rest: seq<Tok>, readable: string -> bool)
    requires ps != [] && forall i :: 0 <= i < |ps| ==> Formed(ps[i], readable)
    requires close.RParen? || close.RBracket?
    ensures ParseItems(SpellItems(ps) + ([OpTok(close)] + rest), close, readable) == GotList(MeanAll(ps), rest)
    decreases ps, 5
  {
    hide ParseExpr, ParseBin, BinTail, ParseUnary, ParsePostfix, PostTail, ParsePrimary, ParseList, ParseItems, Rung,
         Spell, Closes, Stops, StopsAt, Tier;
    var end := [OpTok(close)] + rest;
    CloserCloses(close, rest);
    if |ps| == 1 {
      SentenceReads(ps[0], end, readable);
      LastItemStep(Spell(ps[0]) + end, close, Means(ps[0]), rest, readable);
    } else {
      var more := [OpTok(Comma)] + (SpellItems(ps[1..]) + end);
      CloserCloses(Comma, SpellItems(ps[1..]) + end);
      SentenceReads(ps[0], more, readable);
      ItemsRead(ps[1..], close, rest, readable);
      NextItemStep(Spell(ps[0]) + more, SpellItems(ps[1..]) + end, close, Means(ps[0]), MeanAll(ps[1..]), rest, readable);
      MoreSpelled(ps, end);
    }
  }

  lemma MoreSpelled(ps: seq<Phrase>, end: seq<Tok>)
    requires |ps| > 1
    ensures SpellItems(ps) + end == Spell(ps[0]) + ([OpTok(Comma)] + (SpellItems(ps[1..]) + end))
  {
    var a, b := Spell(ps[0]), SpellItems(ps[1..]);
    hide Spell;
    assert a + [OpTok(Comma)] + b + end == a + ([OpTok(Comma)] + (b + end));
  }

  /** Every phrase parses to what it means, whatever follows its end marker. */
  lemma PhraseParses(p: Phrase, rest: seq<Tok>, readable: string -> bool)
    requires Formed(p, readable) && rest != [] && rest[0].Eof?
    ensures Parse(Spell(p) + rest, readable) == Got(Means(p), rest)
  {
    SentenceReads(p, rest, readable);
  }

  /** Two operators between three atoms: the tighter one takes its operands first, and of two
      that bind alike the left one does. */
  lemma TwoOperators(a: Tok, b: Tok, c: Tok, p: Op, q: Op, readable: string -> bool)
    requires IsAtom(a, readable) && IsAtom(b, readable) && IsAtom(c, readable) && IsBinary(p) && IsBinary(q)
    ensures var x, y, z := Means(Atom(a)), Means(Atom(b)), Means(Atom(c));
      Parse([a, OpTok(p), b, OpTok(q), c, Eof], readable) ==
        Got(if Rung(p) < Rung(q) then Binary(p, x, Binary(q, y, z)) else Binary(q, Binary(p, x, y), z), [Eof])
  {
    var ps := [Atom(a), Atom(b), Atom(c)];
    var chain := Chain(ps, [p, q]);
    hide Rung, Parse;
    assert forall i :: 0 <= i < |ps| ==> Formed(ps[i], readable) && Tier(ps[i]) <= 2;
    assert Formed(chain, readable);
    PhraseParses(chain, [Eof], readable);
    SpelledTwo(ps, p, q);
    assert Spell(chain) + [Eof] == [a, OpTok(p), b, OpTok(q), c, Eof];
    TreeOfTwo(MeanAll(ps), p, q);
  }

  lemma SpelledTwo(ps: seq<Phrase>, p: Op, q: Op)
    requires |ps| == 3
    ensures SpellChain(ps, [p, q]) == Spell(ps[0]) + [OpTok(p)] + (Spell(ps[1]) + [OpTok(q)] + Spell(ps[2]))
  {
    var rest := ps[1..];
    assert [p, q][1..] == [q] && [q][1..] == [];
    assert SpellChain(rest[1..], []) == Spell(ps[2]);
    assert SpellChain(rest, [q]) == Spell(ps[1]) + [OpTok(q)] + Spell(ps[2]);
  }

  lemma TreeOfTwo(xs: seq<Expr>, p: Op, q: Op)
    requires |xs| == 3
    ensures Tree(xs, [p, q]) ==
      if Rung(p) < Rung(q) then Binary(p, xs[0], Binary(q, xs[1], xs[2])) else Binary(q, Binary(p, xs[0], xs[1]), xs[2])
  {
    var i := SplitAt([p, q]);
    hide Rung;
    assert Splits([p, q], i) && [p, q][0] == p && [p, q][1] == q;
    assert i == 0 <==> Rung(p) < Rung(q);
    TreeOfOne(xs[..i + 1], [p, q][..i]);
    TreeOfOne(xs[i + 1..], [p, q][i + 1..]);
  }

  lemma TreeOfOne(xs: seq<Expr>, ops: seq<Op>)
    requires 1 <= |xs| == |ops| + 1 <= 2
    ensures Tree(xs, ops) == if ops == [] then xs[0] else Binary(ops[0], xs[0], xs[1])
  {
    if ops != [] {
      assert SplitAt(ops) == 0;
      assert Tree(xs[..1], ops[..0]) == xs[0] && Tree(xs[1..], ops[1..]) == xs[1];
    }
  }

  // ---- from trees to phrases ------------------------------------------------------------------

  /** The tokens up to `rest` spell the phrase, and it means the tree. */
  predicate Accounts(p: Phrase, ts: seq<Tok>, x: Expr, rest: seq<Tok>, readable: string -> bool) {
    Formed(p, readable) && Means(p) == x && ts == Spell(p) + rest
  }

  /** The same for a chain of operands whose operators bind at least as tightly as level `k`. */
  predicate ChainAccounts(k: nat, ps: seq<Phrase>, ops: seq<Op>, ts: seq<Tok>, x: Expr, rest: seq<Tok>, readable: string -> bool) {
    && |ps| == |ops| + 1
    && (forall i :: 0 <= i < |ps| ==> Formed(ps[i], readable) && Tier(ps[i]) <= 2)
    && (forall i :: 0 <= i < |ops| ==> k <= Rung(ops[i]) + 1 && IsBinary(ops[i]))
    && x == Tree(MeanAll(ps), ops) && ts == SpellChain(ps, ops) + rest
  }

  predicate ListAccounts(ps: seq<Phrase>, close: Op, ts: seq<Tok>, xs: seq<Expr>, rest: seq<Tok>, readable: string -> bool) {
    && (forall i :: 0 <= i < |ps| ==> Formed(ps[i], readable))
    && xs == MeanAll(ps) && ts == SpellItems(ps) + [OpTok(close)] + rest
  }

  lemma {:induction false} SpellChainConcat(ps: seq<Phrase>, ops: seq<Op>, op: Op, qs: seq<Phrase>, os: seq<Op>)
    requires |ps| == |ops| + 1 && |qs| == |os| + 1
    ensures SpellChain(ps + qs, ops + [op] + os) == SpellChain(ps, ops) + [OpTok(op)] + SpellChain(qs, os)
    decreases ops
  {
    if ops == [] {
      assert (ps + qs)[1..] == qs && (ops + [op] + os)[1..] == os;
    } else {
      SpellChainConcat(ps[1..], ops[1..], op, qs, os);
      assert (ps + qs)[1..] == ps[1..] + qs && (ops + [op] + os)[1..] == ops[1..] + [op] + os;
    }
  }

  lemma MeanAllConcat(ps: seq<Phrase>, qs: seq<Phrase>)
    ensures MeanAll(ps + qs) == MeanAll(ps) + MeanAll(qs)
  {
  }

  /** An operator looser than all to its right and no tighter than any to its left is the root. */
  lemma TreeConcat(xs: seq<Expr>, ops: seq<Op>, op: Op, ys: seq<Expr>, os: seq<Op>)
    requires |xs| == |ops| + 1 && |ys| == |os| + 1
    requires forall i :: 0 <= i < |ops| ==> Rung(op) <= Rung(ops[i])
    requires forall i :: 0 <= i < |os| ==> Rung(op) < Rung(os[i])
    ensures Tree(xs + ys, ops + [op] + os) == Binary(op, Tree(xs, ops), Tree(ys, os))
  {
    hide Rung;
    var all := ops + [op] + os;
    assert Splits(all, |ops|);
    assert SplitAt(all) == |ops|;
    assert (xs + ys)[..|ops| + 1] == xs && (xs + ys)[|ops| + 1..] == ys;
    assert all[..|ops|] == ops && all[|ops| + 1..] == os;
  }

  lemma ChainGrows(k: nat, ps: seq<Phrase>, ops: seq<Op>, ts: seq<Tok>, x: Expr, us: seq<Tok>, op: Op,
                   qs: seq<Phrase>, os: seq<Op>, y: Expr, rest: seq<Tok>, readable: string -> bool)
    requires ChainAccounts(k, ps, ops, ts, x, [OpTok(op)] + us, readable) && IsBinary(op) && Rung(op) + 1 == k
    requires ChainAccounts(k + 1, qs, os, us, y, rest, readable)
    ensures ChainAccounts(k, ps + qs, ops + [op] + os, ts, Binary(op, x, y), rest, readable)
  {
    hide Rung, Formed, Tree, SpellChain, MeanAll;
    MeanAllConcat(ps, qs);
    TreeConcat(MeanAll(ps), ops, op, MeanAll(qs), os);
    SpellChainConcat(ps, ops, op, qs, os);
    var a, b := SpellChain(ps, ops), SpellChain(qs, os);
    assert a + ([OpTok(op)] + (b + rest)) == a + [OpTok(op)] + b + rest;
  }

  lemma {:induction false} ExprSpelled(ts: seq<Tok>, readable: string -> bool) returns (p: Phrase)
    requires ParseExpr(ts, readable).Got?
    ensures var r := ParseExpr(ts, readable); Accounts(p, ts, r.tree, r.rest, readable)
    decreases |ts|, 12
  {
    var ps, ops := BinSpelled(1, ts, readable);
    var r0 := ParseBin(1, ts, readable).rest;
    p := Wrapped(ps, ops, ts, readable);
    if Is(r0, Question) {
      var cond := p;
      var onTrue := ExprSpelled(r0[1..], readable);
      var r1 := ParseExpr(r0[1..], readable).rest;
      var onFalse := ExprSpelled(r1[1..], readable);
      p := Choice(cond, onTrue, onFalse);
      ChoiceSpelled(p, ParseExpr(r1[1..], readable).rest);
      assert r0 == [OpTok(Question)] + r0[1..] && r1 == [OpTok(Colon)] + r1[1..];
    }
  }

  lemma Wrapped(ps: seq<Phrase>, ops: seq<Op>, ts: seq<Tok>, readable: string -> bool) returns (p: Phrase)
    requires ParseBin(1, ts, readable).Got?
    requires var r := ParseBin(1, ts, readable); ChainAccounts(1, ps, ops, ts, r.tree, r.rest, readable)
    ensures var r := ParseBin(1, ts, readable); Accounts(p, ts, r.tree, r.rest, readable) && Tier(p) <= 3
  {
    p := if ops == [] then ps[0] else Chain(ps, ops);
  }

  lemma {:induction false} BinSpelled(k: nat, ts: seq<Tok>, readable: string -> bool) returns (ps: seq<Phrase>, ops: seq<Op>)
    requires 1 <= k <= 7 && ParseBin(k, ts, readable).Got?
    ensures var r := ParseBin(k, ts, readable); ChainAccounts(k, ps, ops, ts, r.tree, r.rest, readable)
    decreases |ts|, 11 - k
  {
    if k == 7 {
      var p := UnarySpelled(ts, readable);
      ps, ops := [p], [];
    } else {
      ps, ops := BinSpelled(k + 1, ts, readable);
      var l := ParseBin(k + 1, ts, readable);
      ps, ops := TailSpelled(k, ps, ops, ts, l.tree, l.rest, readable);
    }
  }

  lemma {:induction false} TailSpelled(k: nat, ps: seq<Phrase>, ops: seq<Op>, ts: seq<Tok>, l: Expr, us: seq<Tok>, readable: string -> bool)
    returns (ps': seq<Phrase>, ops': seq<Op>)
    requires 1 <= k <= 6 && ChainAccounts(k, ps, ops, ts, l, us, readable) && BinTail(k, l, us, readable).Got? && |us| < |ts|
    ensures var r := BinTail(k, l, us, readable); ChainAccounts(k, ps', ops', ts, r.tree, r.rest, readable)
    decreases |ts|, 0, |us|
  {
    ps', ops' := ps, ops;
    if IsBin(us, k) {
      var op := us[0].op;
      RungIs(op);
      var qs, os := BinSpelled(k + 1, us[1..], readable);
      var r := ParseBin(k + 1, us[1..], readable);
      assert us == [OpTok(op)] + us[1..];
      ChainGrows(k, ps, ops, ts, l, us[1..], op, qs, os, r.tree, r.rest, readable);
      ps', ops' := TailSpelled(k, ps + qs, ops + [op] + os, ts, Binary(op, l, r.tree), r.rest, readable);
    }
  }

  lemma {:induction false} UnarySpelled(ts: seq<Tok>, readable: string -> bool) returns (p: Phrase)
    requires ParseUnary(ts, readable).Got?
    ensures var r := ParseUnary(ts, readable); Accounts(p, ts, r.tree, r.rest, readable) && Tier(p) <= 2
    decreases |ts|, 3
  {
    if Is(ts, Not) || Is(ts, Minus) {
      var x := UnarySpelled(ts[1..], readable);
      p := Prefixed(ts[0].op, x);
      assert ts == [ts[0]] + ts[1..];
    } else {
      p := PostfixSpelled(ts, readable);
    }
  }

  lemma {:induction false} PostfixSpelled(ts: seq<Tok>, readable: string -> bool) returns (p: Phrase)
    requires ParsePostfix(ts, readable).Got?
    ensures var r := ParsePostfix(ts, readable); Accounts(p, ts, r.tree, r.rest, readable) && Tier(p) <= 1
    decreases |ts|, 2
  {
    p := PrimarySpelled(ts, readable);
    var x := ParsePrimary(ts, readable);
    p := PostTailSpelled(p, ts, x.tree, x.rest, readable);
  }

  lemma {:induction false} PostTailSpelled(p: Phrase, ts: seq<Tok>, x: Expr, us: seq<Tok>, readable: string -> bool) returns (p': Phrase)
    requires Accounts(p, ts, x, us, readable) && Tier(p) <= 1 && PostTail(x, us, readable).Got? && |us| < |ts|
    ensures var r := PostTail(x, us, readable); Accounts(p', ts, r.tree, r.rest, readable) && Tier(p') <= 1
    decreases |ts|, 0, |us|
  {
    p' := p;
    if Is(us, Dot) {
      var q := Dotted(p, us[1].name);
      assert us == [OpTok(Dot), Ident(us[1].name)] + us[1..][1..];
      DottedSpelled(q, us[1..][1..]);
      p' := PostTailSpelled(q, ts, Member(x, us[1].name), us[1..][1..], readable);
    } else if Is(us, LBracket) {
      var idx := ExprSpelled(us[1..], readable);
      var r := ParseExpr(us[1..], readable);
      var q := Indexed(p, idx);
      assert us == [OpTok(LBracket)] + us[1..] && r.rest == [OpTok(RBracket)] + r.rest[1..];
      IndexedSpelled(q, r.rest[1..]);
      p' := PostTailSpelled(q, ts, Index(x, r.tree), r.rest[1..], readable);
    }
  }

  lemma {:induction false} PrimarySpelled(ts: seq<Tok>, readable: string -> bool) returns (p: Phrase)
    requires ParsePrimary(ts, readable).Got?
    ensures var r := ParsePrimary(ts, readable); Accounts(p, ts, r.tree, r.rest, readable) && Tier(p) == 0
    decreases |ts|, 1
  {
    assert ts == [ts[0]] + ts[1..];
    if Is(ts, LParen) {
      var x := ExprSpelled(ts[1..], readable);
      var r := ParseExpr(ts[1..], readable);
      p := Parens(x);
      assert r.rest == [OpTok(RParen)] + r.rest[1..];
      assert Spell(p) + r.rest[1..] == [OpTok(LParen)] + (Spell(x) + r.rest);
    } else if Is(ts, LBracket) {
      var items := ListSpelled(ts[1..], RBracket, readable);
      p := Items(items);
      assert Spell(p) + ParseList(ts[1..], RBracket, readable).rest == ts;
    } else if ts[0].Ident? && Is(ts[1..], LParen) {
      var args := ListSpelled(ts[1..][1..], RParen, readable);
      p := Apply(ts[0].name, args);
      assert ts == [ts[0], OpTok(LParen)] + ts[1..][1..];
      assert Spell(p) + ParseList(ts[1..][1..], RParen, readable).rest == ts;
    } else {
      p := Atom(ts[0]);
    }
  }

  lemma {:induction false} ListSpelled(ts: seq<Tok>, close: Op, readable: string -> bool) returns (ps: seq<Phrase>)
    requires ParseList(ts, close, readable).GotList?
    ensures var r := ParseList(ts, close, readable); ListAccounts(ps, close, ts, r.items, r.rest, readable)
    decreases |ts|, 14
  {
    if Is(ts, close) {
      ps := [];
      assert ts == [OpTok(close)] + ts[1..];
    } else {
      ps := ItemsSpelled(ts, close, readable);
    }
  }

  lemma {:induction false} ItemsSpelled(ts: seq<Tok>, close: Op, readable: string -> bool) returns (ps: seq<Phrase>)
    requires ParseItems(ts, close, readable).GotList?
    ensures ps != []
    ensures var r := ParseItems(ts, close, readable); ListAccounts(ps, close, ts, r.items, r.rest, readable)
    decreases |ts|, 13
  {
    var p := ExprSpelled(ts, readable);
    var r := ParseExpr(ts, readable);
    ps := [p];
    if Is(r.rest, close) {
      assert r.rest == [OpTok(close)] + r.rest[1..];
    } else {
      var us := r.rest[1..];
      var more := ItemsSpelled(us, close, readable);
      assert r.rest == [OpTok(Comma)] + us;
      ListGrows(p, ts, r.tree, us, more, close, ParseItems(us, close, readable).items, ParseItems(us, close, readable).rest, readable);
      ps := [p] + more;
    }
  }

  lemma ListGrows(p: Phrase, ts: seq<Tok>, x: Expr, us: seq<Tok>, ps: seq<Phrase>, close: Op, xs: seq<Expr>, rest: seq<Tok>,
                  readable: string -> bool)
    requires Accounts(p, ts, x, [OpTok(Comma)] + us, readable) && ps != [] && ListAccounts(ps, close, us, xs, rest, readable)
    ensures ListAccounts([p] + ps, close, ts, [x] + xs, rest, readable)
  {
    MoreSpelled([p] + ps, [OpTok(close)] + rest);
    var a := SpellItems([p] + ps);
    hide SpellItems, Spell, Formed;
    assert ([p] + ps)[1..] == ps;
    assert a + [OpTok(close)] + rest == a + ([OpTok(close)] + rest);
    assert SpellItems(ps) + [OpTok(close)] + rest == SpellItems(ps) + ([OpTok(close)] + rest);
  }

  /** The parser accepts exactly the phrases, and reads each as what it means. */
  lemma ParsesExactly(ts: seq<Tok>, x: Expr, rest: seq<Tok>, readable: string -> bool)
    requires rest != [] && rest[0].Eof?
    ensures Parse(ts, readable) == Got(x, rest) <==> exists p :: Accounts(p, ts, x, rest, readable)
  {
    if Parse(ts, readable) == Got(x, rest) {
      var p := ExprSpelled(ts, readable);
      assert Accounts(p, ts, x, rest, readable);
    }
    if exists p :: Accounts(p, ts, x, rest, readable) {
      var p :| Accounts(p, ts, x, rest, readable);
      PhraseParses(p, rest, readable);
    }
  }
}
