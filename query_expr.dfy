/**
 * The DQL expression objects (Doctrine\ORM\Query\Expr\*) and the expression
 * builder that creates them.  An expression is a value; rendering is the
 * objects' string conversion.  Only Expr\Orx and Expr\Andx grow in place
 * after creation; the class CompositeObject at the end of this module models that.
 */
module QueryExpr {
  import opened Wrappers
  import opened Strings

  /** A PHP value as the builder and the criteria pass it around (floats and objects are not modelled). */
  datatype Value = Null | Str(s: string) | Int(i: int) | Bool(b: bool) | List(items: seq<Value>)

  /** PHP's (string) conversion of a value. */
  function Text(v: Value): string
  {
    match v
    case Null => ""
    case Str(s) => s
    case Int(i) => IntToString(i)
    case Bool(b) => if b then "1" else ""
    case List(_) => "Array"
  }

  datatype Operator = Eq | Neq | Lt | Lte | Gt | Gte | Like

  function OperatorText(op: Operator): string
  {
    match op
    case Eq => "="
    case Neq => "<>"
    case Lt => "<"
    case Lte => "<="
    case Gt => ">"
    case Gte => ">="
    case Like => "LIKE"
  }

  datatype Junction = And | Or

  function Separator(j: Junction): string
  {
    match j
    case And => " AND "
    case Or => " OR "
  }

  /**
   * Raw is a plain DQL string handed to the builder; the other constructors
   * are the Expr classes: Composite is Expr\Andx / Expr\Orx, Literal holds the
   * already-quoted text of Expr\Literal, and Select, GroupBy and OrderBy are
   * the list-valued Expr\Base subclasses.
   */
  datatype Expr =
    | Raw(text: string)
    | Composite(junction: Junction, parts: seq<Expr>)
    | Comparison(left: Expr, op: Operator, right: Expr)
    | Func(name: string, args: seq<Expr>)
    | Literal(quoted: string)
    | Select(items: seq<Expr>)
    | GroupBy(items: seq<Expr>)
    | OrderBy(entries: seq<string>)

  /** The expression kinds, as named in the "not allowed in this context" error. */
  datatype Kind = RawKind | AndxKind | OrxKind | ComparisonKind | FuncKind | LiteralKind | SelectKind | GroupByKind | OrderByKind

  function KindOf(e: Expr): Kind
  {
    match e
    case Raw(_) => RawKind
    case Composite(j, _) => if j == And then AndxKind else OrxKind
    case Comparison(_, _, _) => ComparisonKind
    case Func(_, _) => FuncKind
    case Literal(_) => LiteralKind
    case Select(_) => SelectKind
    case GroupBy(_) => GroupByKind
    case OrderBy(_) => OrderByKind
  }

  /**
   * The Expr\Base subclasses, which all have a count().  Expr\OrderBy has a
   * count() too but is not a Base, so Base::add does not skip an empty one.
   */
  predicate IsBase(e: Expr)
  {
    e.Composite? || e.Literal? || e.Select? || e.GroupBy?
  }

  function Count(e: Expr): nat
    requires IsBase(e)
  {
    match e
    case Composite(_, ps) => |ps|
    case Literal(_) => 1
    case Select(ps) => |ps|
    case GroupBy(ps) => |ps|
  }

  /** Base::add ignores an empty Base argument. */
  predicate Ignored(arg: Expr)
  {
    IsBase(arg) && Count(arg) == 0
  }

  /** The containers Base::add fills, with their allowed classes. */
  datatype Container = AndxBox | OrxBox | SelectBox | GroupByBox

  /** Strings are always accepted; an object only when its class is allowed in the container. */
  predicate Allowed(c: Container, arg: Expr)
  {
    arg.Raw? ||
    match c
    case AndxBox => arg.Comparison? || arg.Func? || arg.Composite?
    case OrxBox => arg.Comparison? || arg.Func? || arg.Composite?
    case SelectBox => arg.Func?
    case GroupByBox => false
  }

  datatype ExprError = NotAllowedInContext(kind: Kind)

  /** The arguments Base::add keeps, in order. */
  function Kept(args: seq<Expr>): (r: seq<Expr>)
    ensures |r| <= |args|
  {
    if |args| == 0 then [] else (if Ignored(args[0]) then [] else [args[0]]) + Kept(args[1..])
  }

  /** What is kept is exactly the arguments that are not empty Bases. */
  lemma {:induction false} KeptMembers(args: seq<Expr>)
    ensures forall x :: x in Kept(args) <==> x in args && !Ignored(x)
  {
    if |args| > 0 {
      var tail := args[1..];
      KeptMembers(tail);
      assert Kept(args) == (if Ignored(args[0]) then [] else [args[0]]) + Kept(tail);
      assert args == [args[0]] + tail;
    }
  }

  lemma {:induction false} KeptAppend(xs: seq<Expr>, ys: seq<Expr>)
    ensures Kept(xs + ys) == Kept(xs) + Kept(ys)
  {
    if |xs| > 0 {
      var tail := xs[1..];
      assert (xs + ys)[0] == xs[0];
      assert (xs + ys)[1..] == tail + ys;
      KeptAppend(tail, ys);
      assert Kept(xs + ys) == (if Ignored(xs[0]) then [] else [xs[0]]) + Kept(tail + ys);
      assert Kept(xs) == (if Ignored(xs[0]) then [] else [xs[0]]) + Kept(tail);
    } else {
      assert xs + ys == ys;
    }
  }

  /** Arguments none of which is an empty Base are all kept, in order. */
  lemma {:induction false} KeptNone(args: seq<Expr>)
    requires forall i :: 0 <= i < |args| ==> !Ignored(args[i])
    ensures Kept(args) == args
  {
    if |args| > 0 {
      var tail := args[1..];
      assert forall i :: 0 <= i < |tail| ==> tail[i] == args[i + 1];
      KeptNone(tail);
      assert !Ignored(args[0]);
      assert Kept(args) == [args[0]] + Kept(tail);
      assert args == [args[0]] + tail;
    }
  }

  /**
   * Base::addMultiple: each argument in turn is ignored when it is an empty
   * Base, rejected when it is an object of a class the container does not
   * allow, and appended otherwise.  A rejection raises, so no result is kept.
   */
  function AddMultiple(c: Container, parts: seq<Expr>, args: seq<Expr>): (r: Result<seq<Expr>, ExprError>)
    decreases |args|
    ensures r.Ok? <==> forall i :: 0 <= i < |args| ==> Ignored(args[i]) || Allowed(c, args[i])
    ensures r.Ok? ==> r.value == parts + Kept(args)
  {
    if |args| == 0 then Ok(parts)
    else
      var tail := args[1..];
      assert forall i :: 1 <= i < |args| ==> args[i] == tail[i - 1];
      assert Kept(args) == (if Ignored(args[0]) then [] else [args[0]]) + Kept(tail);
      if Ignored(args[0]) then AddMultiple(c, parts, tail)
      else if !Allowed(c, args[0]) then Err(NotAllowedInContext(KindOf(args[0])))
      else
        assert (parts + [args[0]]) + Kept(tail) == parts + Kept(args);
        AddMultiple(c, parts + [args[0]], tail)
  }

  /** The error raised names the class of the first argument that is neither ignored nor allowed. */
  lemma {:induction false} AddMultipleRejectsFirst(c: Container, parts: seq<Expr>, args: seq<Expr>)
    ensures AddMultiple(c, parts, args).Err? ==>
      exists i :: 0 <= i < |args| && !Ignored(args[i]) && !Allowed(c, args[i])
        && (forall j :: 0 <= j < i ==> Ignored(args[j]) || Allowed(c, args[j]))
        && AddMultiple(c, parts, args).error == NotAllowedInContext(KindOf(args[i]))
    decreases |args|
  {
    if |args| > 0 && AddMultiple(c, parts, args).Err? {
      var tail := args[1..];
      if Ignored(args[0]) || Allowed(c, args[0]) {
        var rest := if Ignored(args[0]) then parts else parts + [args[0]];
        assert AddMultiple(c, parts, args) == AddMultiple(c, rest, tail);
        AddMultipleRejectsFirst(c, rest, tail);
        var k :| 0 <= k < |tail| && !Ignored(tail[k]) && !Allowed(c, tail[k])
          && (forall j :: 0 <= j < k ==> Ignored(tail[j]) || Allowed(c, tail[j]))
          && AddMultiple(c, rest, tail).error == NotAllowedInContext(KindOf(tail[k]));
        assert forall j :: 1 <= j < k + 1 ==> args[j] == tail[j - 1];
        assert args[k + 1] == tail[k];
      } else {
        assert AddMultiple(c, parts, args).error == NotAllowedInContext(KindOf(args[0]));
      }
    }
  }

  /** Where addMultiple raises: the first argument that is neither ignored nor allowed, if any. */
  function FirstRejected(c: Container, args: seq<Expr>): (r: Option<nat>)
    decreases |args|
    ensures r.Some? ==> r.value < |args| && !Ignored(args[r.value]) && !Allowed(c, args[r.value])
    ensures r.Some? ==> forall k :: 0 <= k < r.value ==> Ignored(args[k]) || Allowed(c, args[k])
    ensures r.None? ==> forall k :: 0 <= k < |args| ==> Ignored(args[k]) || Allowed(c, args[k])
  {
    if |args| == 0 then None
    else if !Ignored(args[0]) && !Allowed(c, args[0]) then Some(0)
    else
      var tail := args[1..];
      assert forall k :: 1 <= k < |args| ==> args[k] == tail[k - 1];
      match FirstRejected(c, tail)
      case None => None
      case Some(i) => Some(i + 1)
  }

  /** addMultiple raises exactly when some argument is rejected, and names the class of the first one. */
  lemma AddMultipleFailsAtFirstRejected(c: Container, parts: seq<Expr>, args: seq<Expr>)
    ensures AddMultiple(c, parts, args).Err? <==> FirstRejected(c, args).Some?
    ensures AddMultiple(c, parts, args).Err? ==>
      AddMultiple(c, parts, args).error == NotAllowedInContext(KindOf(args[FirstRejected(c, args).value]))
  {
    AddMultipleRejectsFirst(c, parts, args);
    if AddMultiple(c, parts, args).Err? {
      var i := FirstRejected(c, args).value;
      var k :| 0 <= k < |args| && !Ignored(args[k]) && !Allowed(c, args[k])
        && (forall j :: 0 <= j < k ==> Ignored(args[j]) || Allowed(c, args[j]))
        && AddMultiple(c, parts, args).error == NotAllowedInContext(KindOf(args[k]));
      assert !(k < i) && !(i < k);
    }
  }

  // ---------------------------------------------------------------------
  // Rendering

  /** The bracketing test of Composite::processQueryPart (DDC-1237). */
  predicate MentionsConnective(s: string)
  {
    ContainsCI(s, " OR ") || ContainsCI(s, " AND ")
  }

  function Render(e: Expr): string
    decreases e, 1
  {
    match e
    case Raw(t) => t
    case Composite(j, ps) =>
      if |ps| == 1 then Render(ps[0]) else Join(RenderParts(e, ps), Separator(j))
    case Comparison(l, op, r) => Render(l) + " " + OperatorText(op) + " " + Render(r)
    case Func(name, args) => name + "(" + Join(RenderAll(e, args), ", ") + ")"
    case Literal(q) => q
    case Select(ps) => Join(RenderAll(e, ps), ", ")
    case GroupBy(ps) => Join(RenderAll(e, ps), ", ")
    case OrderBy(ps) => Join(ps, ", ")
  }

  /** The texts of the children ps of e, each rendered as is. */
  function RenderAll(e: Expr, ps: seq<Expr>): (r: seq<string>)
    requires forall p :: p in ps ==> p < e
    decreases e, 0, |ps|
    ensures |r| == |ps|
  {
    if |ps| == 0 then []
    else
      assert ps[0] in ps && forall p :: p in ps[1..] ==> p in ps;
      [Render(ps[0])] + RenderAll(e, ps[1..])
  }

  /** The texts of the parts ps of composite e, each bracketed when processQueryPart says so. */
  function RenderParts(e: Expr, ps: seq<Expr>): (r: seq<string>)
    requires forall p :: p in ps ==> p < e
    decreases e, 0, |ps|
    ensures |r| == |ps|
  {
    if |ps| == 0 then []
    else
      assert ps[0] in ps && forall p :: p in ps[1..] ==> p in ps;
      [PartText(e, ps[0])] + RenderParts(e, ps[1..])
  }

  function PartText(e: Expr, p: Expr): string
    requires p < e
    decreases e, 0, 0
  {
    var s := Render(p);
    if p.Composite? && |p.parts| > 1 then "(" + s + ")"
    else if MentionsConnective(s) then "(" + s + ")"
    else s
  }

  // ---------------------------------------------------------------------
  // Literals

  /** Expr::_quoteLiteral */
  function QuoteLiteral(v: Value): string
  {
    if v.Int? then Text(v)
    else if v.Bool? then (if v.b then "true" else "false")
    else "'" + EscapeQuotes(Text(v)) + "'"
  }

  /** Expr::literal */
  function LiteralOf(v: Value): Expr
  {
    Literal(QuoteLiteral(v))
  }

  /** A quoted string literal is delimited by quotes, pairs every inner quote, and reads back as the string. */
  lemma StringLiteralReadsBack(s: string)
    ensures var q := Render(LiteralOf(Str(s)));
      && |q| >= 2 && q[0] == '\'' && q[|q| - 1] == '\''
      && QuotesPaired(q[1..|q| - 1])
      && UnescapeQuotes(q[1..|q| - 1]) == s
  {
    var q := Render(LiteralOf(Str(s)));
    assert q[1..|q| - 1] == EscapeQuotes(s);
    UnescapeEscape(s);
    EscapeQuotesPaired(s);
  }

  /** An integer literal is written as its decimal numeral, after a "-" when it is negative, so literal(0) is "0". */
  lemma IntegerLiteralIsNumeral(n: int)
    ensures var q := Render(LiteralOf(Int(n)));
      && |q| > 0 && (q[0] == '-' <==> n < 0)
      && var digits := if n < 0 then q[1..] else q;
        && |digits| > 0
        && (forall i :: 0 <= i < |digits| ==> IsDigit(digits[i]))
        && ParseNat(digits) == if n < 0 then -n else n
  {
    var q := Render(LiteralOf(Int(n)));
    if n < 0 {
      NatToStringParses(-n);
      assert q == "-" + NatToString(-n);
      assert q[1..] == NatToString(-n);
    } else {
      NatToStringParses(n);
      assert q == NatToString(n);
      assert IsDigit(q[0]);
    }
  }

  // ---------------------------------------------------------------------
  // The expression builder (Doctrine\ORM\Query\Expr)

  function AndX(args: seq<Expr>): Result<Expr, ExprError>
  {
    match AddMultiple(AndxBox, [], args)
    case Ok(ps) => Ok(Composite(And, ps))
    case Err(e) => Err(e)
  }

  function OrX(args: seq<Expr>): Result<Expr, ExprError>
  {
    match AddMultiple(OrxBox, [], args)
    case Ok(ps) => Ok(Composite(Or, ps))
    case Err(e) => Err(e)
  }

  function Compare(x: Expr, op: Operator, y: Expr): Expr
  {
    Comparison(x, op, y)
  }

  /** One element of an array given to in()/notIn(): a value, or an Expr\Literal kept as it is. */
  datatype InElement = ValueElement(v: Value) | LiteralElement(lit: string)

  /** The second argument of in()/notIn(): an array of elements, or a single string (placeholder or subquery). */
  datatype InOperand = Elements(elements: seq<InElement>) | Single(text: string)

  function InArguments(y: InOperand): (r: seq<Expr>)
    ensures y.Single? ==> r == [Raw(y.text)]
    ensures y.Elements? ==> |r| == |y.elements|
  {
    match y
    case Single(t) => [Raw(t)]
    case Elements(es) =>
      seq(|es|, i requires 0 <= i < |es| =>
        match es[i]
        case LiteralElement(q) => Literal(q)
        case ValueElement(v) => Raw(QuoteLiteral(v)))
  }

  function In(x: string, y: InOperand): Expr
  {
    Func(x + " IN", InArguments(y))
  }

  function NotIn(x: string, y: InOperand): Expr
  {
    Func(x + " NOT IN", InArguments(y))
  }

  function Not(restriction: Expr): Expr
  {
    Func("NOT", [restriction])
  }

  function CountOf(x: Expr): Expr
  {
    Func("COUNT", [x])
  }

  /** all(): the subquery text is passed through unparsed. */
  function All(subquery: string): Expr
  {
    Func("ALL", [Raw(subquery)])
  }

  function IsNull(x: string): Expr
  {
    Raw(x + " IS NULL")
  }

  function IsNotNull(x: string): Expr
  {
    Raw(x + " IS NOT NULL")
  }

  /** Expr\OrderBy::add: a missing, empty or "0" direction means ASC. */
  function OrderEntry(sort: string, order: Option<string>): string
  {
    sort + " " + (if order.None? || order.value == "" || order.value == "0" then "ASC" else order.value)
  }

  /** PHP truthiness of a string: everything except "" and "0". */
  predicate Truthy(s: string)
  {
    s != "" && s != "0"
  }

  /** new Expr\OrderBy(sort, order): the constructor adds its entry only for a truthy sort. */
  function NewOrderBy(sort: string, order: Option<string>): Expr
  {
    if Truthy(sort) then OrderBy([OrderEntry(sort, order)]) else OrderBy([])
  }

  function Asc(sort: string): Expr
  {
    NewOrderBy(sort, Some("ASC"))
  }

  function Desc(sort: string): Expr
  {
    NewOrderBy(sort, Some("DESC"))
  }

  /** asc(s) and desc(s) hold one entry, s and its direction, when s is truthy, and none otherwise. */
  lemma AscDescEntries(sort: string)
    ensures Asc(sort).OrderBy? && Desc(sort).OrderBy?
    ensures Truthy(sort) ==> Asc(sort).entries == [sort + " ASC"] && Desc(sort).entries == [sort + " DESC"]
    ensures !Truthy(sort) ==> Asc(sort).entries == [] && Desc(sort).entries == []
  {
    assert sort + " " + "ASC" == sort + " ASC";
    assert sort + " " + "DESC" == sort + " DESC";
  }

  /** An IN list renders as the field, the keyword and the bracketed, comma-separated quoted values. */
  lemma {:induction false} InListRendering(x: string, vs: seq<Value>)
    ensures Render(In(x, Elements(seq(|vs|, i requires 0 <= i < |vs| => ValueElement(vs[i])))))
         == x + " IN(" + Join(seq(|vs|, i requires 0 <= i < |vs| => QuoteLiteral(vs[i])), ", ") + ")"
  {
    var es := seq(|vs|, i requires 0 <= i < |vs| => ValueElement(vs[i]));
    var texts := seq(|vs|, i requires 0 <= i < |vs| => QuoteLiteral(vs[i]));
    var e := In(x, Elements(es));
    var args := InArguments(Elements(es));
    forall i | 0 <= i < |vs|
      ensures args[i] == Raw(texts[i])
    {
      assert es[i] == ValueElement(vs[i]);
    }
    RenderAllRaw(e, args);
    assert RenderAll(e, args) == texts;
    assert (x + " IN") + "(" == x + " IN(";
  }

  /** A NOT IN list renders the same way, with the keyword NOT IN. */
  lemma NotInListRendering(x: string, vs: seq<Value>)
    ensures Render(NotIn(x, Elements(seq(|vs|, i requires 0 <= i < |vs| => ValueElement(vs[i])))))
         == x + " NOT IN(" + Join(seq(|vs|, i requires 0 <= i < |vs| => QuoteLiteral(vs[i])), ", ") + ")"
  {
    var es := seq(|vs|, i requires 0 <= i < |vs| => ValueElement(vs[i]));
    var texts := seq(|vs|, i requires 0 <= i < |vs| => QuoteLiteral(vs[i]));
    var e := NotIn(x, Elements(es));
    var args := InArguments(Elements(es));
    forall i | 0 <= i < |vs|
      ensures args[i] == Raw(texts[i])
    {
      assert es[i] == ValueElement(vs[i]);
    }
    RenderAllRaw(e, args);
    assert RenderAll(e, args) == texts;
    assert (x + " NOT IN") + "(" == x + " NOT IN(";
  }

  /** Raw children render to their own text. */
  lemma {:induction false} RenderAllRaw(e: Expr, ps: seq<Expr>)
    requires forall p :: p in ps ==> p < e
    requires forall i :: 0 <= i < |ps| ==> ps[i].Raw?
    ensures RenderAll(e, ps) == seq(|ps|, i requires 0 <= i < |ps| => ps[i].text)
  {
    if |ps| > 0 {
      assert forall p :: p in ps[1..] ==> p in ps;
      RenderAllRaw(e, ps[1..]);
    }
  }

  // ---------------------------------------------------------------------
  // Bracketing of composites

  /** A plain part: one that processQueryPart leaves unbracketed. */
  predicate Plain(e: Expr)
  {
    !(e.Composite? && |e.parts| > 1) && !MentionsConnective(Render(e))
  }

  /** The texts of a list of expressions, each rendered on its own. */
  function Renders(ps: seq<Expr>): seq<string>
  {
    seq(|ps|, i requires 0 <= i < |ps| => Render(ps[i]))
  }

  /** Parts that are plain conditions are joined flat, without brackets. */
  lemma {:induction false} FlatParts(e: Expr, ps: seq<Expr>)
    requires forall p :: p in ps ==> p < e
    requires forall i :: 0 <= i < |ps| ==> Plain(ps[i])
    ensures RenderParts(e, ps) == Renders(ps)
  {
    if |ps| > 0 {
      assert forall p :: p in ps[1..] ==> p in ps;
      FlatParts(e, ps[1..]);
    }
  }

  /** A composite of plain conditions is their texts joined by its separator. */
  lemma FlatComposite(j: Junction, ps: seq<Expr>)
    requires |ps| > 0
    requires forall i :: 0 <= i < |ps| ==> Plain(ps[i])
    ensures Render(Composite(j, ps)) == Join(Renders(ps), Separator(j))
  {
    var e := Composite(j, ps);
    if |ps| > 1 {
      FlatParts(e, ps);
    } else {
      assert Renders(ps) == [Render(ps[0])];
    }
  }

  /** A nested composite of several parts is bracketed, whatever its text. */
  lemma NestedCompositeBracketed(j: Junction, inner: Expr, rest: seq<Expr>)
    requires inner.Composite? && |inner.parts| > 1
    requires |rest| > 0 && forall i :: 0 <= i < |rest| ==> Plain(rest[i])
    ensures Render(Composite(j, [inner] + rest))
         == "(" + Render(inner) + ")" + Separator(j) + Join(Renders(rest), Separator(j))
  {
    var e := Composite(j, [inner] + rest);
    LeadingPart(e, inner, rest);
    FlatParts(e, rest);
  }

  /** DDC-1237: a string part holding " OR " or " AND " (in any case) is bracketed; any other string part is not. */
  lemma StringPartBracketing(j: Junction, s: string, rest: seq<Expr>)
    requires |rest| > 0 && forall i :: 0 <= i < |rest| ==> Plain(rest[i])
    ensures Render(Composite(j, [Raw(s)] + rest))
         == (if MentionsConnective(s) then "(" + s + ")" else s) + Separator(j)
            + Join(Renders(rest), Separator(j))
  {
    var e := Composite(j, [Raw(s)] + rest);
    LeadingPart(e, Raw(s), rest);
    FlatParts(e, rest);
  }

  /** A composite of a first part and further parts renders the first part, the separator and the others. */
  lemma LeadingPart(e: Expr, first: Expr, rest: seq<Expr>)
    requires |rest| > 0 && e.Composite? && e.parts == [first] + rest
    ensures forall p :: p in rest ==> p < e
    ensures first < e
    ensures Render(e) == PartText(e, first) + Separator(e.junction) + Join(RenderParts(e, rest), Separator(e.junction))
  {
    var ps := [first] + rest;
    assert ps[0] == first && ps[1..] == rest;
    assert forall p :: p in rest ==> p in ps;
    assert RenderParts(e, ps) == [PartText(e, first)] + RenderParts(e, rest);
  }

  // ---------------------------------------------------------------------
  // Which texts mention a connective

  /** Where a connective occurs, the text has blanks around a space-free word spelling it. */
  lemma ConnectiveShape(s: string, p: string, i: nat)
    requires p == " OR " || p == " AND "
    requires MatchesAtCI(s, p, i)
    ensures s[i] == ' ' && s[i + |p| - 1] == ' '
    ensures forall k :: i < k < i + |p| - 1 ==> s[k] != ' '
    ensures LowerChar(s[i + 1]) == LowerChar(p[1])
  {
    assert p[0] == ' ' && p[|p| - 1] == ' ';
    assert LowerChar(s[i + 0]) == LowerChar(p[0]);
    assert LowerChar(s[i + (|p| - 1)]) == LowerChar(p[|p| - 1]);
    forall k | i < k < i + |p| - 1
      ensures s[k] != ' '
    {
      assert LowerChar(s[i + (k - i)]) == LowerChar(p[k - i]);
      assert p[k - i] != ' ';
    }
    assert LowerChar(s[i + 1]) == LowerChar(p[1]);
  }

  predicate NoBlank(s: string)
  {
    ' ' !in s
  }

  /**
   * The text "x op y" of a comparison between blank-free operands never
   * mentions a connective, so a comparison is never bracketed for its text.
   */
  lemma ComparisonTextPlain(x: string, op: Operator, y: string)
    requires NoBlank(x) && NoBlank(y)
    ensures !MentionsConnective(x + " " + OperatorText(op) + " " + y)
  {
    var o := OperatorText(op);
    var s := x + " " + o + " " + y;
    assert NoBlank(o);
    forall k | 0 <= k < |s| && k != |x| && k != |x| + 1 + |o|
      ensures s[k] != ' '
    {
      if k < |x| {
        assert s[k] == x[k] && x[k] in x;
      } else if k < |x| + 1 + |o| {
        assert s[k] == o[k - |x| - 1] && o[k - |x| - 1] in o;
      } else {
        assert s[k] == y[k - |x| - 2 - |o|] && y[k - |x| - 2 - |o|] in y;
      }
    }
    assert LowerChar(o[0]) != 'o' && LowerChar(o[0]) != 'a';
    assert s[|x| + 1] == o[0];
    forall p: string, i: nat | p == " OR " || p == " AND "
      ensures !MatchesAtCI(s, p, i)
    {
      if MatchesAtCI(s, p, i) {
        ConnectiveShape(s, p, i);
        assert false;
      }
    }
  }

  /** Two blank-free words joined by one blank, such as "u.id IN(1)", never mention a connective. */
  lemma OneBlankPlain(x: string, y: string)
    requires NoBlank(x) && NoBlank(y)
    ensures !MentionsConnective(x + " " + y)
  {
    var s := x + " " + y;
    forall k | 0 <= k < |s| && k != |x|
      ensures s[k] != ' '
    {
      if k < |x| {
        assert s[k] == x[k] && x[k] in x;
      } else {
        assert s[k] == y[k - |x| - 1] && y[k - |x| - 1] in y;
      }
    }
    forall p: string, i: nat | p == " OR " || p == " AND "
      ensures !MatchesAtCI(s, p, i)
    {
      if MatchesAtCI(s, p, i) {
        ConnectiveShape(s, p, i);
        assert false;
      }
    }
  }

  /** A comparison between blank-free strings is a plain part of any composite. */
  lemma ComparisonPlain(x: string, op: Operator, y: string)
    requires NoBlank(x) && NoBlank(y)
    ensures Plain(Comparison(Raw(x), op, Raw(y)))
  {
    ComparisonTextPlain(x, op, y);
  }

  // ---------------------------------------------------------------------
  // Query parameters

  /** Doctrine\ORM\Query\Parameter: a name, a value and the type the caller gave, if any. */
  datatype Parameter = Parameter(name: string, value: Value, typeName: Option<string>)

  function Names(ps: seq<Parameter>): seq<string>
  {
    seq(|ps|, i requires 0 <= i < |ps| => ps[i].name)
  }

  function Values(ps: seq<Parameter>): seq<Value>
  {
    seq(|ps|, i requires 0 <= i < |ps| => ps[i].value)
  }

  predicate Distinct(xs: seq<string>)
  {
    forall i, j :: 0 <= i < j < |xs| ==> xs[i] != xs[j]
  }

  // ---------------------------------------------------------------------
  // Expr\Orx / Expr\Andx grown in place with add()

  class CompositeObject {
    const junction: Junction
    var parts: seq<Expr>

    constructor (j: Junction)
      ensures junction == j && parts == []
    {
      junction := j;
      parts := [];
    }

    function Box(): Container
    {
      if junction == And then AndxBox else OrxBox
    }

    function Count(): nat
      reads this
    {
      |parts|
    }

    /** The composite as it now stands, as an expression value. */
    function Snapshot(): Expr
      reads this
    {
      Composite(junction, parts)
    }

    /** Base::add: ignores an empty Base, raises on a class the composite does not allow, else appends. */
    method Add(arg: Expr) returns (err: Option<ExprError>)
      modifies this
      ensures err.None? <==> Ignored(arg) || Allowed(Box(), arg)
      ensures err.None? ==> parts == old(parts) + Kept([arg])
      ensures err.Some? ==> parts == old(parts) && err.value == NotAllowedInContext(KindOf(arg))
    {
      if Ignored(arg) {
        return None;
      }
      if !Allowed(Box(), arg) {
        return Some(NotAllowedInContext(KindOf(arg)));
      }
      parts := parts + [arg];
      err := None;
    }
  }
}
