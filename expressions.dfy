/**
 * The part of the map engine's expression language that the fixed label rule
 * uses: `get`, `has`, `case`, `concat`, `to-string`, `to-number` and `-`,
 * evaluated against one point feature. `None` stands for an expression the
 * engine would reject at evaluation time, or one outside these forms.
 */
module Expressions {
  import opened Wrappers
  import opened Style
  import opened LabelRule

  /** What an expression evaluates to. */
  datatype Datum = Text(s: string) | Number(n: int) | Bool(b: bool) | Null

  /** `["get", p]`: the feature's property `p`, `null` when it has none. */
  function Property(f: Feature, p: string): Datum
  {
    if p == "name" then Text(f.name)
    else if p == "ele" && f.ele.Some? then Number(f.ele.value)
    else Null
  }

  /** `["has", p]`. */
  predicate HasProperty(f: Feature, p: string)
  {
    p == "name" || (p == "ele" && f.ele.Some?)
  }

  /** `to-string`: numbers in decimal, `null` as the empty string. */
  function ToText(d: Datum): string
  {
    match d
    case Text(s) => s
    case Number(n) => IntToString(n)
    case Bool(b) => if b then "true" else "false"
    case Null => ""
  }

  /** `to-number`: text must spell a number; `null` and `false` are 0, `true` is 1. */
  function ToNumber(d: Datum): Option<int>
  {
    match d
    case Number(n) => Some(n)
    case Text(s) => ParseInt(s)
    case Bool(b) => Some(if b then 1 else 0)
    case Null => Some(0)
  }

  /** `concat`: the text of every argument, in order; fails when an argument fails. */
  function Concat(ds: seq<Option<Datum>>): Option<string>
  {
    if ds == [] then Some("")
    else match (Concat(ds[..|ds| - 1]), ds[|ds| - 1])
      case (Some(s), Some(d)) => Some(s + ToText(d))
      case _ => None
  }

  /** The value of expression `e` for feature `f`. */
  function Eval(e: Value, f: Feature): Option<Datum>
    decreases e
  {
    match e
    case Str(s) => Some(Text(s))
    case Int(i) => Some(Number(i))
    case Decimal(_) => None
    case Array(es) =>
      if |es| == 0 || !es[0].Str? then None
      else
        var op := es[0].s;
        if op == "get" && |es| == 2 && es[1].Str? then Some(Property(f, es[1].s))
        else if op == "has" && |es| == 2 && es[1].Str? then Some(Bool(HasProperty(f, es[1].s)))
        else if op == "to-string" && |es| == 2 then
          match Eval(es[1], f)
          case Some(d) => Some(Text(ToText(d)))
          case None => None
        else if op == "to-number" && |es| == 2 then
          match Eval(es[1], f)
          case Some(d) => (match ToNumber(d) case Some(n) => Some(Number(n)) case None => None)
          case None => None
        else if op == "concat" then
          match Concat(seq(|es| - 1, i requires 0 <= i < |es| - 1 => Eval(es[i + 1], f)))
          case Some(s) => Some(Text(s))
          case None => None
        else if op == "-" && |es| == 3 then
          match (Eval(es[1], f), Eval(es[2], f))
          case (Some(Number(a)), Some(Number(b))) => Some(Number(a - b))
          case _ => None
        else if op == "case" && |es| == 4 then
          match Eval(es[1], f)
          case Some(Bool(c)) => if c then Eval(es[2], f) else Eval(es[3], f)
          case _ => None
        else None
  }
}
