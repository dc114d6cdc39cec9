/** The recursive-descent parser: a cursor over a token list that ends with an end marker. */
module Parser {
  import opened StoreState
  import opened Grammar
  import opened Precedence

  /** Items parsed so far, then whatever the rest of the list brings. */
  function Onto(items: seq<Expr>, r: ResList): ResList {
    if r.FailList? then FailList else GotList(items + r.items, r.rest)
  }

  lemma OntoMore(items: seq<Expr>, x: Expr, r: ResList)
    ensures Onto(items + [x], r) == Onto(items, if r.FailList? then FailList else GotList([x] + r.items, r.rest))
  {
    if r.GotList? {
      assert items + [x] + r.items == items + ([x] + r.items);
    }
  }

  lemma OntoNothing(r: ResList)
    ensures Onto([], r) == r
  {
    if r.GotList? {
      assert [] + r.items == r.items;
    }
  }

  /** One round of the list loop. */
  lemma ItemsIs(x: Expr, ts: seq<Tok>, after: seq<Tok>, close: Op, readable: string -> bool)
    requires ParseExpr(ts, readable) == Got(x, after)
    ensures Is(after, close) ==> ParseItems(ts, close, readable) == GotList([x], after[1..])
    ensures !Is(after, close) && !Is(after, Comma) ==> ParseItems(ts, close, readable) == FailList
    ensures !Is(after, close) && Is(after, Comma) ==>
      var more := ParseItems(after[1..], close, readable);
      ParseItems(ts, close, readable) == if more.FailList? then FailList else GotList([x] + more.items, more.rest)
  {
  }

  class Parser {
    const toks: seq<Tok>
    const readable: string -> bool
    var pos: nat

    /** The cursor is on a token; reading it is in bounds. */
    ghost predicate Valid()
      reads this
    {
      pos < |toks| && Ended(toks)
    }

    constructor (toks: seq<Tok>, readable: string -> bool)
      requires Ended(toks)
      ensures this.toks == toks && this.readable == readable && pos == 0 && Valid()
    {
      this.toks, this.readable, pos := toks, readable, 0;
    }

    ghost function Rest(): seq<Tok>
      reads this
      requires pos <= |toks|
    {
      toks[pos..]
    }

    /** The method did what the grammar says, and stands where the grammar stops. */
    ghost predicate Agrees(r: Res, out: Option<Expr>)
      reads this
    {
      match r
      case Fail => out.None?
      case Got(tree, rest) => out == Some(tree) && Valid() && rest == toks[pos..]
    }

    method Accept(op: Op) returns (ok: bool)
      requires Valid()
      modifies this`pos
      ensures Valid() && (ok <==> Is(old(Rest()), op)) && pos == old(pos) + (if ok then 1 else 0)
      ensures Rest() == if ok then old(Rest())[1..] else old(Rest())
    {
      ok := toks[pos] == OpTok(op);
      if ok {
        pos := pos + 1;
      }
    }

    method Next() returns (t: Tok)
      requires Valid()
      modifies this`pos
      ensures t == old(toks[pos]) && pos == old(pos) + 1 <= |toks| && (!t.Eof? ==> Valid()) && Rest() == old(Rest())[1..]
    {
      t := toks[pos];
      pos := pos + 1;
    }

    method ParseExpr() returns (out: Option<Expr>)
      requires Valid()
      modifies this`pos
      ensures Agrees(Grammar.ParseExpr(old(Rest()), readable), out) && old(pos) <= pos <= |toks|
      ensures out.Some? ==> old(pos) < pos
      decreases |toks| - pos, 12
    {
      var cond := ParseBinary(1);
      if cond.None? {
        return None;
      }
      var question := Accept(Question);
      if !question {
        return cond;
      }
      var onTrue := ParseExpr();
      if onTrue.None? {
        return None;
      }
      var colon := Accept(Colon);
      if !colon {
        return None;
      }
      var onFalse := ParseExpr();
      if onFalse.None? {
        return None;
      }
      out := Some(Ternary(cond.value, onTrue.value, onFalse.value));
    }

    /** parseCoalesce, parseOr, parseAnd, parseCmp, parseAdd and parseMul, level by level. */
    method ParseBinary(k: nat) returns (out: Option<Expr>)
      requires Valid() && 1 <= k <= 7
      modifies this`pos
      ensures Agrees(ParseBin(k, old(Rest()), readable), out) && old(pos) <= pos <= |toks|
      ensures out.Some? ==> old(pos) < pos
      decreases |toks| - pos, 11 - k
    {
      if k == 7 {
        out := ParseUnary();
        return;
      }
      out := ParseBinary(k + 1);
      if out.None? {
        return;
      }
      while toks[pos].OpTok? && BinLevel(toks[pos].op) == k
        invariant Valid() && old(pos) < pos && out.Some?
        invariant BinTail(k, out.value, Rest(), readable) == ParseBin(k, old(Rest()), readable)
        decreases |toks| - pos
      {
        var op := Next();
        var right := ParseBinary(k + 1);
        if right.None? {
          return None;
        }
        out := Some(Binary(op.op, out.value, right.value));
      }
    }

    method ParseUnary() returns (out: Option<Expr>)
      requires Valid()
      modifies this`pos
      ensures Agrees(Grammar.ParseUnary(old(Rest()), readable), out) && old(pos) <= pos <= |toks|
      ensures out.Some? ==> old(pos) < pos
      decreases |toks| - pos, 3
    {
      if toks[pos] == OpTok(Not) || toks[pos] == OpTok(Minus) {
        var op := Next();
        var x := ParseUnary();
        out := if x.None? then None else Some(Unary(op.op, x.value));
      } else {
        out := ParsePostfix();
      }
    }

    method ParsePostfix() returns (out: Option<Expr>)
      requires Valid()
      modifies this`pos
      ensures Agrees(Grammar.ParsePostfix(old(Rest()), readable), out) && old(pos) <= pos <= |toks|
      ensures out.Some? ==> old(pos) < pos
      decreases |toks| - pos, 2
    {
      hide Grammar.ParsePrimary, Grammar.ParseExpr;
      out := ParsePrimary();
      if out.None? {
        return;
      }
      assert PostTail(out.value, Rest(), readable) == Grammar.ParsePostfix(old(Rest()), readable);
      hide Grammar.ParsePostfix;
      while toks[pos] == OpTok(Dot) || toks[pos] == OpTok(LBracket)
        invariant Valid() && old(pos) < pos && out.Some?
        invariant PostTail(out.value, Rest(), readable) == Grammar.ParsePostfix(old(Rest()), readable)
        decreases |toks| - pos
      {
        var dot := Accept(Dot);
        if dot {
          var name := Next();
          if !name.Ident? {
            return None;
          }
          out := Some(Member(out.value, name.name));
        } else {
          var _ := Next();
          var idx := ParseExpr();
          if idx.None? {
            return None;
          }
          var closed := Accept(RBracket);
          if !closed {
            return None;
          }
          out := Some(Index(out.value, idx.value));
        }
      }
    }

    method ParsePrimary() returns (out: Option<Expr>)
      requires Valid()
      modifies this`pos
      ensures Agrees(Grammar.ParsePrimary(old(Rest()), readable), out) && old(pos) <= pos <= |toks|
      ensures out.Some? ==> old(pos) < pos
      decreases |toks| - pos, 1
    {
      var t := Next();
      match t {
        case NumberTok(text) => out := if readable(text) then Some(Number(text)) else None;
        case StringTok(text) => out := Some(Str(text));
        case BoolTok(value) => out := Some(Bool(value));
        case NullTok => out := Some(Null);
        case Ident(name) =>
          var call := Accept(LParen);
          if !call {
            return Some(Var(name));
          }
          var args := ParseList(RParen);
          out := if args.None? then None else Some(Call(name, args.value));
        case OpTok(op) =>
          if op.LParen? {
            var x := ParseExpr();
            if x.None? {
              return None;
            }
            var closed := Accept(RParen);
            out := if closed then x else None;
          } else if op.LBracket? {
            var items := ParseList(RBracket);
            out := if items.None? then None else Some(List(items.value));
          } else {
            out := None;
          }
        case Eof => out := None;
      }
    }

    /** The list shared by calls and list literals. */
    method ParseList(close: Op) returns (out: Option<seq<Expr>>)
      requires Valid() && close in {RParen, RBracket}
      modifies this`pos
      ensures old(pos) <= pos <= |toks|
      ensures AgreesList(Grammar.ParseList(old(Rest()), close, readable), out)
      decreases |toks| - pos, 14
    {
      var closed := Accept(close);
      if closed {
        out := Some([]);
      } else {
        out := ParseItems(close);
      }
    }

    ghost predicate AgreesList(r: ResList, out: Option<seq<Expr>>)
      reads this
    {
      match r
      case FailList => out.None?
      case GotList(items, rest) => out == Some(items) && Valid() && rest == toks[pos..]
    }

    method ParseItems(close: Op) returns (out: Option<seq<Expr>>)
      requires Valid() && close in {RParen, RBracket}
      modifies this`pos
      ensures old(pos) <= pos <= |toks|
      ensures AgreesList(Grammar.ParseItems(old(Rest()), close, readable), out)
      decreases |toks| - pos, 13
    {
      var items: seq<Expr> := [];
      OntoNothing(Grammar.ParseItems(Rest(), close, readable));
      while true
        invariant Valid() && old(pos) <= pos
        invariant Onto(items, Grammar.ParseItems(Rest(), close, readable)) == Grammar.ParseItems(old(Rest()), close, readable)
        decreases |toks| - pos
      {
        ghost var before := Rest();
        var x := ParseExpr();
        if x.None? {
          return None;
        }
        ghost var after := Rest();
        ItemsIs(x.value, before, after, close, readable);
        items := items + [x.value];
        var closed := Accept(close);
        if closed {
          return Some(items);
        }
        var comma := Accept(Comma);
        if !comma {
          return None;
        }
        OntoMore(items[..|items| - 1], x.value, Grammar.ParseItems(Rest(), close, readable));
      }
    }

    /** Compile: the whole expression, up to its end marker. A tree comes out if and only if
        the tokens before an end marker spell a phrase, and it is what the phrase means. */
    method Compile() returns (out: Option<Expr>)
      requires Valid() && pos == 0
      modifies this`pos
      ensures out.Some? ==> pos < |toks| && toks[pos].Eof? && exists p :: Accounts(p, toks, out.value, toks[pos..], readable)
      ensures forall p: Phrase, x: Expr, rest: seq<Tok> :: Accounts(p, toks, x, rest, readable) && rest != [] && rest[0].Eof? ==> out == Some(x)
      ensures match Parse(toks, readable)
        case Fail => out.None?
        case Got(tree, rest) => out == Some(tree) && pos < |toks| && toks[pos].Eof? && rest == toks[pos..]
    {
      assert toks[0..] == toks;
      out := ParseExpr();
      if out.Some? && !toks[pos].Eof? {
        out := None;
      }
      if out.Some? {
        ParsesExactly(toks, out.value, toks[pos..], readable);
      }
      forall p: Phrase, x: Expr, rest: seq<Tok> | Accounts(p, toks, x, rest, readable) && rest != [] && rest[0].Eof? ensures out == Some(x) {
        ParsesExactly(toks, x, rest, readable);
      }
    }
  }
}
