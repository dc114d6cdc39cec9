/** The expression language over token lists: what the parser builds, and a printer that
    parenthesises only where precedence or associativity requires it. */
module Grammar {

  datatype Op =
    | Question | Colon | Coalesce | OrElse | AndAlso | Eq | Ne | Le | Ge | Lt | Gt | In
    | Plus | Minus | Star | Slash | Percent | Not | Dot | Comma | LParen | RParen | LBracket | RBracket

  datatype Tok = Eof | NumberTok(text: string) | StringTok(text: string) | BoolTok(value: bool) | NullTok
               | Ident(name: string) | OpTok(op: Op)

  /** Syntax trees; numbers keep their text. */
  datatype Expr =
    | Number(text: string) | Str(text: string) | Bool(value: bool) | Null | Var(name: string)
    | List(items: seq<Expr>) | Call(name: string, args: seq<Expr>)
    | Unary(op: Op, x: Expr) | Binary(op: Op, l: Expr, r: Expr)
    | Ternary(cond: Expr, onTrue: Expr, onFalse: Expr) | Member(x: Expr, name: string) | Index(x: Expr, idx: Expr)

  datatype Res = Got(tree: Expr, rest: seq<Tok>) | Fail

  datatype ResList = GotList(items: seq<Expr>, rest: seq<Tok>) | FailList

  predicate Is(ts: seq<Tok>, op: Op) {
    ts != [] && ts[0] == OpTok(op)
  }

  /** The level of a binary operator: 1 for `??` up to 6 for `*`; 0 if it is none. */
  function BinLevel(op: Op): nat {
    match op
    case Coalesce => 1
    case OrElse => 2
    case AndAlso => 3
    case Eq => 4 case Ne => 4 case Le => 4 case Ge => 4 case Lt => 4 case Gt => 4 case In => 4
    case Plus => 5 case Minus => 5
    case Star => 6 case Slash => 6 case Percent => 6
    case _ => 0
  }

  predicate IsBin(ts: seq<Tok>, k: nat) {
    ts != [] && ts[0].OpTok? && BinLevel(ts[0].op) == k
  }

  /** The lexer ends every token list with one end marker. */
  predicate Ended(ts: seq<Tok>) {
    ts != [] && ts[|ts| - 1].Eof?
  }

  // ---- parsing -------------------------------------------------------------------------------

  /** `readable` says which number texts denote a number. */
  function ParseExpr(ts: seq<Tok>, readable: string -> bool): (r: Res)
    ensures r.Got? ==> |r.rest| < |ts|
    decreases |ts|, 12
  {
    match ParseBin(1, ts, readable)
    case Fail => Fail
    case Got(cond, r0) =>
      if !Is(r0, Question) then Got(cond, r0)
      else match ParseExpr(r0[1..], readable)
        case Fail => Fail
        case Got(onTrue, r1) =>
          if !Is(r1, Colon) then Fail
          else match ParseExpr(r1[1..], readable)
            case Fail => Fail
            case Got(onFalse, r2) => Got(Ternary(cond, onTrue, onFalse), r2)
  }

  /** Levels 1 to 6 are left-associative binary operators; level 7 is unary. */
  function ParseBin(k: nat, ts: seq<Tok>, readable: string -> bool): (r: Res)
    requires 1 <= k <= 7
    ensures r.Got? ==> |r.rest| < |ts|
    decreases |ts|, 11 - k
  {
    if k == 7 then ParseUnary(ts, readable)
    else match ParseBin(k + 1, ts, readable)
      case Fail => Fail
      case Got(l, rest) => BinTail(k, l, rest, readable)
  }

  function BinTail(k: nat, l: Expr, ts: seq<Tok>, readable: string -> bool): (r: Res)
    requires 1 <= k <= 6
    ensures r.Got? ==> |r.rest| <= |ts|
    decreases |ts|, 0
  {
    if !IsBin(ts, k) then Got(l, ts)
    else match ParseBin(k + 1, ts[1..], readable)
      case Fail => Fail
      case Got(r, rest) => BinTail(k, Binary(ts[0].op, l, r), rest, readable)
  }

  function ParseUnary(ts: seq<Tok>, readable: string -> bool): (r: Res)
    ensures r.Got? ==> |r.rest| < |ts|
    decreases |ts|, 3
  {
    if Is(ts, Not) || Is(ts, Minus) then
      match ParseUnary(ts[1..], readable)
      case Fail => Fail
      case Got(x, rest) => Got(Unary(ts[0].op, x), rest)
    else ParsePostfix(ts, readable)
  }

  function ParsePostfix(ts: seq<Tok>, readable: string -> bool): (r: Res)
    ensures r.Got? ==> |r.rest| < |ts|
    decreases |ts|, 2
  {
    match ParsePrimary(ts, readable)
    case Fail => Fail
    case Got(x, rest) => PostTail(x, rest, readable)
  }

  function PostTail(x: Expr, ts: seq<Tok>, readable: string -> bool): (r: Res)
    ensures r.Got? ==> |r.rest| <= |ts|
    decreases |ts|, 0
  {
    if Is(ts, Dot) then
      if |ts| > 1 && ts[1].Ident? then PostTail(Member(x, ts[1].name), ts[1..][1..], readable) else Fail
    else if Is(ts, LBracket) then
      match ParseExpr(ts[1..], readable)
      case Fail => Fail
      case Got(idx, rest) => if Is(rest, RBracket) then PostTail(Index(x, idx), rest[1..], readable) else Fail
    else Got(x, ts)
  }

  function ParsePrimary(ts: seq<Tok>, readable: string -> bool): (r: Res)
    ensures r.Got? ==> |r.rest| < |ts|
    decreases |ts|, 1
  {
    if ts == [] then Fail
    else match ts[0]
      case NumberTok(text) => if readable(text) then Got(Number(text), ts[1..]) else Fail
      case StringTok(text) => Got(Str(text), ts[1..])
      case BoolTok(value) => Got(Bool(value), ts[1..])
      case NullTok => Got(Null, ts[1..])
      case Ident(name) =>
        if !Is(ts[1..], LParen) then Got(Var(name), ts[1..])
        else (match ParseList(ts[1..][1..], RParen, readable)
              case FailList => Fail
              case GotList(args, rest) => Got(Call(name, args), rest))
      case OpTok(op) =>
        if op.LParen? then
          (match ParseExpr(ts[1..], readable)
           case Fail => Fail
           case Got(x, rest) => if Is(rest, RParen) then Got(x, rest[1..]) else Fail)
        else if op.LBracket? then
          (match ParseList(ts[1..], RBracket, readable)
           case FailList => Fail
           case GotList(items, rest) => Got(List(items), rest))
        else Fail
      case Eof => Fail
  }

  /** A possibly empty comma-separated list up to the closing token. */
  function ParseList(ts: seq<Tok>, close: Op, readable: string -> bool): (r: ResList)
    ensures r.GotList? ==> |r.rest| < |ts|
    decreases |ts|, 14
  {
    if Is(ts, close) then GotList([], ts[1..]) else ParseItems(ts, close, readable)
  }

  function ParseItems(ts: seq<Tok>, close: Op, readable: string -> bool): (r: ResList)
    ensures r.GotList? ==> |r.rest| < |ts|
    decreases |ts|, 13
  {
    match ParseExpr(ts, readable)
    case Fail => FailList
    case Got(x, rest) =>
      if Is(rest, close) then GotList([x], rest[1..])
      else if !Is(rest, Comma) then FailList
      else match ParseItems(rest[1..], close, readable)
        case FailList => FailList
        case GotList(items, last) => GotList([x] + items, last)
  }

  /** Compile: the whole list up to its end marker. */
  function Parse(ts: seq<Tok>, readable: string -> bool): Res {
    match ParseExpr(ts, readable)
    case Fail => Fail
    case Got(tree, rest) => if rest != [] && rest[0].Eof? then Got(tree, rest) else Fail
  }
}
