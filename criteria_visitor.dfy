/**
 * The translation addCriteria applies to a criteria expression
 * (Doctrine\ORM\Query\QueryExpressionVisitor): each field is qualified with
 * an alias of the query, each compared value becomes a named parameter, and
 * the criteria's AND/OR structure becomes Expr\Andx / Expr\Orx.  The
 * visitor's growing parameter list is threaded through the walk.
 */
module CriteriaVisitor {
  import opened Wrappers
  import opened Strings
  import opened QueryExpr
  import C = Criteria

  // ---------------------------------------------------------------------
  // Alias qualification

  /** strpos(field . '.', alias . '.') === 0: the path starts with the alias. */
  predicate HasAlias(field: string, alias: string)
  {
    alias + "." <= field + "."
  }

  predicate StartsWithKnownAlias(field: string, aliases: seq<string>)
  {
    exists a :: a in aliases && HasAlias(field, a)
  }

  /** A field that starts with a known alias is kept; any other is prefixed with the first alias. */
  function QualifyField(field: string, aliases: seq<string>): (r: string)
    requires |aliases| > 0
    ensures StartsWithKnownAlias(r, aliases)
    ensures StartsWithKnownAlias(field, aliases) ==> r == field
    ensures !StartsWithKnownAlias(field, aliases) ==> r == aliases[0] + "." + field
  {
    if StartsWithKnownAlias(field, aliases) then field
    else
      var r := aliases[0] + "." + field;
      assert r + "." == (aliases[0] + ".") + (field + ".");
      assert HasAlias(r, aliases[0]);
      r
  }

  // ---------------------------------------------------------------------
  // Parameter naming

  /** The name a field's parameter would like: its path with '.' replaced by '_'. */
  function ParameterName(field: string): string
  {
    ReplaceChar(field, '.', '_')
  }

  function Suffixed(desired: string, k: nat): string
  {
    desired + "_" + NatToString(k)
  }

  /** How the names already bound are compared with a new one. */
  datatype NamingScheme =
    | CountSuffix      // the visitor as written: on a clash, append "_" and the number of parameters bound so far
    | FirstFreeSuffix  // the corrected rule: from that number on, the first suffix no bound parameter has

  /** As written: a clash is resolved once, with the count of bound parameters, and never rechecked. */
  function CountSuffixName(names: seq<string>, desired: string): string
  {
    if desired in names then Suffixed(desired, |names|) else desired
  }

  function MaxLength(names: seq<string>): (r: nat)
    ensures forall x :: x in names ==> |x| <= r
  {
    if |names| == 0 then 0
    else
      var m := MaxLength(names[1..]);
      assert forall x :: x in names ==> x == names[0] || x in names[1..];
      if |names[0]| > m then |names[0]| else m
  }

  /** The first of the suffixes k, k+1, ... that gives a name outside names. */
  function FreeSuffixName(names: seq<string>, desired: string, k: nat): (r: string)
    decreases Pow10(MaxLength(names)) - k
    ensures r !in names
    ensures exists j :: k <= j && r == Suffixed(desired, j) && forall m :: k <= m < j ==> Suffixed(desired, m) in names
  {
    var c := Suffixed(desired, k);
    if c !in names then c
    else
      NatToStringParses(k);
      Pow10Monotone(|NatToString(k)|, MaxLength(names));
      var r := FreeSuffixName(names, desired, k + 1);
      var j :| k + 1 <= j && r == Suffixed(desired, j) && forall m :: k + 1 <= m < j ==> Suffixed(desired, m) in names;
      r
  }

  /**
   * The corrected rule: a free name is used as is; a clashing one gets the
   * first free suffix from the number of bound parameters on.  It never
   * returns a bound name, and it agrees with the rule as written whenever
   * that rule's answer is free.
   */
  function FreshName(names: seq<string>, desired: string): (r: string)
    ensures r !in names
    ensures desired !in names ==> r == desired
    ensures CountSuffixName(names, desired) !in names ==> r == CountSuffixName(names, desired)
  {
    if desired !in names then desired else FreeSuffixName(names, desired, |names|)
  }

  function ChooseName(scheme: NamingScheme, names: seq<string>, desired: string): string
  {
    match scheme
    case CountSuffix => CountSuffixName(names, desired)
    case FirstFreeSuffix => FreshName(names, desired)
  }

  /** The rule as written hands out a name that is already bound: "x_2", then "x", then "x" again. */
  lemma CountSuffixCollides()
    ensures CountSuffixName(["x_2", "x"], "x") == "x_2"
    ensures "x_2" in ["x_2", "x"]
  {
    assert NatToString(2) == "2";
    assert Suffixed("x", 2) == "x_2";
  }

  // ---------------------------------------------------------------------
  // The walk

  /** What the walk of one criteria expression returns: the predicate and the parameter list after it. */
  datatype Walked = Walked(expr: Expr, bound: seq<Parameter>)

  function ContainsPattern(v: Value): Value
  {
    Str("%" + Text(v) + "%")
  }

  /** walkComparison */
  function WalkComparison(field: string, op: C.CriteriaOperator, v: Value, aliases: seq<string>, bound: seq<Parameter>, scheme: NamingScheme): (r: Walked)
    requires |aliases| > 0
  {
    var f := QualifyField(field, aliases);
    var name := ChooseName(scheme, Names(bound), ParameterName(field));
    var placeholder := ":" + name;
    var p := Parameter(name, v, None);
    match op
    case InSet => Walked(In(f, Single(placeholder)), bound + [p])
    case NotInSet => Walked(NotIn(f, Single(placeholder)), bound + [p])
    case Equal => if v.Null? then Walked(IsNull(f), bound) else Walked(Comparison(Raw(f), Eq, Raw(placeholder)), bound + [p])
    case NotEqual => if v.Null? then Walked(IsNotNull(f), bound) else Walked(Comparison(Raw(f), Neq, Raw(placeholder)), bound + [p])
    case Contains => Walked(Comparison(Raw(f), Like, Raw(placeholder)), bound + [Parameter(name, ContainsPattern(v), None)])
    case Less => Walked(Comparison(Raw(f), Lt, Raw(placeholder)), bound + [p])
    case LessOrEqual => Walked(Comparison(Raw(f), Lte, Raw(placeholder)), bound + [p])
    case Greater => Walked(Comparison(Raw(f), Gt, Raw(placeholder)), bound + [p])
    case GreaterOrEqual => Walked(Comparison(Raw(f), Gte, Raw(placeholder)), bound + [p])
  }

  /** The values a criteria expression binds, leaf by leaf from left to right: the reference for the walk. */
  function BoundValues(e: C.CriteriaExpr): seq<Value>
    decreases e, 1
  {
    match e
    case Comparison(_, op, v) =>
      if (op == C.Equal || op == C.NotEqual) && v.Null? then []
      else if op == C.Contains then [ContainsPattern(v)]
      else [v]
    case CompositeExpression(_, children) => BoundValuesAll(e, children)
  }

  function BoundValuesAll(parent: C.CriteriaExpr, es: seq<C.CriteriaExpr>): seq<Value>
    requires forall x :: x in es ==> x < parent
    decreases parent, 0, |es|
  {
    if |es| == 0 then []
    else
      assert es[0] in es && forall x :: x in es[1..] ==> x in es;
      BoundValues(es[0]) + BoundValuesAll(parent, es[1..])
  }

  /**
   * dispatch: the walk keeps the parameters bound before it, appends
   * exactly the values BoundValues lists, yields an expression any
   * Andx/Orx accepts, and, under the corrected naming rule, never binds
   * two parameters under one name.
   */
  function Dispatch(e: C.CriteriaExpr, aliases: seq<string>, bound: seq<Parameter>, scheme: NamingScheme): (r: Walked)
    requires |aliases| > 0
    decreases e, 1
    ensures |bound| <= |r.bound| && r.bound[..|bound|] == bound
    ensures Values(r.bound[|bound|..]) == BoundValues(e)
    ensures Allowed(AndxBox, r.expr) && Allowed(OrxBox, r.expr)
    ensures scheme == FirstFreeSuffix && Distinct(Names(bound)) ==> Distinct(Names(r.bound))
  {
    match e
    case Comparison(field, op, v) =>
      WalkComparisonBinds(field, op, v, aliases, bound, scheme);
      WalkComparison(field, op, v, aliases, bound, scheme)
    case CompositeExpression(j, children) =>
      var w := DispatchAll(e, children, aliases, bound, scheme);
      Walked(Composite(j, Kept(w.0)), w.1)
  }

  function DispatchAll(parent: C.CriteriaExpr, es: seq<C.CriteriaExpr>, aliases: seq<string>, bound: seq<Parameter>, scheme: NamingScheme): (r: (seq<Expr>, seq<Parameter>))
    requires |aliases| > 0
    requires forall x :: x in es ==> x < parent
    decreases parent, 0, |es|
    ensures |r.0| == |es|
    ensures |bound| <= |r.1| && r.1[..|bound|] == bound
    ensures Values(r.1[|bound|..]) == BoundValuesAll(parent, es)
    ensures scheme == FirstFreeSuffix && Distinct(Names(bound)) ==> Distinct(Names(r.1))
  {
    if |es| == 0 then ([], bound)
    else
      assert es[0] in es && forall x :: x in es[1..] ==> x in es;
      var first := Dispatch(es[0], aliases, bound, scheme);
      var rest := DispatchAll(parent, es[1..], aliases, first.bound, scheme);
      ValuesSplit(bound, first.bound, rest.1);
      ([first.expr] + rest.0, rest.1)
  }

  /** One comparison binds at most one parameter, with the value BoundValues lists and a name chosen by the scheme. */
  lemma WalkComparisonBinds(field: string, op: C.CriteriaOperator, v: Value, aliases: seq<string>, bound: seq<Parameter>, scheme: NamingScheme)
    requires |aliases| > 0
    ensures var r := WalkComparison(field, op, v, aliases, bound, scheme);
      && |bound| <= |r.bound| && r.bound[..|bound|] == bound
      && Values(r.bound[|bound|..]) == BoundValues(C.Comparison(field, op, v))
      && Allowed(AndxBox, r.expr) && Allowed(OrxBox, r.expr)
      && (scheme == FirstFreeSuffix && Distinct(Names(bound)) ==> Distinct(Names(r.bound)))
  {
    var r := WalkComparison(field, op, v, aliases, bound, scheme);
    if r.bound != bound {
      var p := r.bound[|bound|];
      assert r.bound == bound + [p];
      assert r.bound[|bound|..] == [p];
      if scheme == FirstFreeSuffix && Distinct(Names(bound)) {
        AppendFreshName(bound, p);
      }
    }
  }

  /** Appending a parameter whose name is not bound keeps the names distinct. */
  lemma AppendFreshName(bound: seq<Parameter>, p: Parameter)
    requires Distinct(Names(bound)) && p.name !in Names(bound)
    ensures Distinct(Names(bound + [p]))
  {
    var ns := Names(bound + [p]);
    assert ns == Names(bound) + [p.name];
  }

  /** Values of a twice-extended list split at the middle. */
  lemma ValuesSplit(a: seq<Parameter>, b: seq<Parameter>, c: seq<Parameter>)
    requires |a| <= |b| <= |c| && b[..|a|] == a && c[..|b|] == b
    ensures c[..|a|] == a
    ensures Values(c[|a|..]) == Values(b[|a|..]) + Values(c[|b|..])
  {
    assert c[..|a|] == c[..|b|][..|a|];
    assert c[|a|..] == b[|a|..] + c[|b|..];
  }
}
