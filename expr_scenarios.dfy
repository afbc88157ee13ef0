/**
 * Conditions built as expression objects first: an Orx grown in place by
 * add(), then handed to where().
 */
module ExprScenarios {
  import opened Wrappers
  import opened Strings
  import opened QueryExpr
  import opened QueryParts
  import opened QueryBuilding
  import opened BuilderSequences

  /** in(x, [1]) renders as "x IN(1)". */
  lemma InOneText(x: string)
    ensures Render(In(x, Elements([ValueElement(Int(1))]))) == x + " IN(1)"
  {
    var vs := [Int(1)];
    InListRendering(x, vs);
    assert seq(|vs|, i requires 0 <= i < |vs| => ValueElement(vs[i])) == [ValueElement(Int(1))];
    assert NatToString(1) == "1";
    assert seq(|vs|, i requires 0 <= i < |vs| => QuoteLiteral(vs[i])) == ["1"];
    assert Join(["1"], ", ") == "1";
    assert " IN(" + "1" + ")" == " IN(1)";
  }

  /** not(e) renders as "NOT(" and the text of e, closed. */
  lemma NotText(r: Expr)
    ensures Render(Not(r)) == "NOT(" + Render(r) + ")"
  {
    var e := Not(r);
    assert RenderAll(e, [r]) == [Render(r)];
  }

  lemma NoBlankJoined(x: string, y: string)
    requires NoBlank(x) && NoBlank(y)
    ensures NoBlank(x + y)
  {
    forall k | 0 <= k < |x + y|
      ensures (x + y)[k] != ' '
    {
      if k < |x| {
        assert (x + y)[k] == x[k] && x[k] in x;
      } else {
        assert (x + y)[k] == y[k - |x|] && y[k - |x|] in y;
      }
    }
  }

  /** An IN test on a blank-free field is a plain part of any composite. */
  lemma InOnePlain(x: string)
    requires NoBlank(x)
    ensures Plain(In(x, Elements([ValueElement(Int(1))])))
  {
    InOneText(x);
    OneBlankPlain(x, "IN(1)");
    assert x + " IN(1)" == x + " " + "IN(1)";
  }

  /** So is its negation. */
  lemma NotInOnePlain(x: string)
    requires NoBlank(x)
    ensures Render(Not(In(x, Elements([ValueElement(Int(1))])))) == "NOT(" + x + " IN(1))"
    ensures Plain(Not(In(x, Elements([ValueElement(Int(1))]))))
  {
    var r := In(x, Elements([ValueElement(Int(1))]));
    InOneText(x);
    NotText(r);
    assert "NOT(" + (x + " IN(1)") + ")" == "NOT(" + x + " IN(1))";
    assert NoBlank("NOT(");
    NoBlankJoined("NOT(", x);
    OneBlankPlain("NOT(" + x, "IN(1))");
    assert "NOT(" + x + " IN(1))" == ("NOT(" + x) + " " + "IN(1))";
  }

  /** An Orx of two plain conditions renders flat, with " OR " between them. */
  lemma OrTwoText(e1: Expr, e2: Expr)
    requires Plain(e1) && Plain(e2)
    ensures Render(Composite(Or, [e1, e2])) == Render(e1) + " OR " + Render(e2)
  {
    FlatComposite(Or, [e1, e2]);
    assert Renders([e1, e2]) == [Render(e1), Render(e2)];
    assert Join([Render(e1), Render(e2)], " OR ") == Render(e1) + " OR " + Render(e2) by {
      assert [Render(e1), Render(e2)] == [Render(e1)] + [Render(e2)];
      JoinSnoc([Render(e1)], Render(e2), " OR ");
    }
  }

  /** orX() grown by add(eq(x, p)) and add(second): both are kept, in order. */
  method OrOfTwo(x: string, p: string, second: Expr) returns (w: Expr)
    requires second.Func?
    ensures w == Composite(Or, [Compare(Raw(x), Eq, Raw(p)), second])
  {
    var orExpr := new CompositeObject(Or);
    var e1 := Compare(Raw(x), Eq, Raw(p));
    var err1 := orExpr.Add(e1);
    KeptNone([e1]);
    var err2 := orExpr.Add(second);
    KeptNone([second]);
    w := orExpr.Snapshot();
  }

  /** select(u)->from(E, u)->where(w) for a composite w. */
  method WhereComposite(entity: string, alias: string, w: Expr) returns (dql: string)
    requires Truthy(alias) && w.Composite?
    ensures dql == "SELECT " + alias + " FROM " + entity + " " + alias + " WHERE " + Render(w)
  {
    var qb := NewSelectFrom(entity, alias);
    assert Predicates([w]) == Ok(w);
    var err := qb.Where([w]);
    dql := qb.GetDQL();
    SelectFromWhereText(entity, alias, [alias], w);
    assert Join([alias], ", ") == alias;
  }

  /** The Orx of eq(x, p) and in(x, [1]) renders as "x = p OR x IN(1)". */
  lemma ComplexWhereText(x: string, p: string)
    requires NoBlank(x) && NoBlank(p)
    ensures Render(Composite(Or, [Compare(Raw(x), Eq, Raw(p)), In(x, Elements([ValueElement(Int(1))]))]))
         == x + " = " + p + " OR " + x + " IN(1)"
  {
    ComparisonPlain(x, Eq, p);
    InOnePlain(x);
    InOneText(x);
    OrTwoText(Compare(Raw(x), Eq, Raw(p)), In(x, Elements([ValueElement(Int(1))])));
    assert Render(Compare(Raw(x), Eq, Raw(p))) == x + " = " + p;
  }

  /** The Orx of eq(x, p) and not(in(x, [1])) renders as "x = p OR NOT(x IN(1))". */
  lemma NegationText(x: string, p: string)
    requires NoBlank(x) && NoBlank(p)
    ensures Render(Composite(Or, [Compare(Raw(x), Eq, Raw(p)), Not(In(x, Elements([ValueElement(Int(1))])))]))
         == x + " = " + p + " OR " + ("NOT(" + x + " IN(1))")
  {
    ComparisonPlain(x, Eq, p);
    NotInOnePlain(x);
    OrTwoText(Compare(Raw(x), Eq, Raw(p)), Not(In(x, Elements([ValueElement(Int(1))]))));
    assert Render(Compare(Raw(x), Eq, Raw(p))) == x + " = " + p;
  }

  /** where(orX()->add(eq(x, p))->add(in(x, [1]))) gives "... WHERE x = p OR x IN(1)". */
  method ComplexWhereSequence(entity: string, alias: string, x: string, p: string) returns (dql: string)
    requires Truthy(alias) && NoBlank(x) && NoBlank(p)
    ensures dql == "SELECT " + alias + " FROM " + entity + " " + alias + " WHERE " + (x + " = " + p + " OR " + x + " IN(1)")
  {
    var w := OrOfTwo(x, p, In(x, Elements([ValueElement(Int(1))])));
    dql := WhereComposite(entity, alias, w);
    ComplexWhereText(x, p);
  }

  /** The same with not(in(x, [1])): "... WHERE x = p OR NOT(x IN(1))". */
  method NegationSequence(entity: string, alias: string, x: string, p: string) returns (dql: string)
    requires Truthy(alias) && NoBlank(x) && NoBlank(p)
    ensures dql == "SELECT " + alias + " FROM " + entity + " " + alias + " WHERE " + (x + " = " + p + " OR " + ("NOT(" + x + " IN(1))"))
  {
    var w := OrOfTwo(x, p, Not(In(x, Elements([ValueElement(Int(1))]))));
    dql := WhereComposite(entity, alias, w);
    NegationText(x, p);
  }

  // ---------------------------------------------------------------------
  // IN lists of literal objects, functions and ALL()

  /** Children with the same texts render the same, whatever their kind. */
  lemma {:induction false} RenderAllSameTexts(e1: Expr, ps1: seq<Expr>, e2: Expr, ps2: seq<Expr>)
    requires forall p :: p in ps1 ==> p < e1
    requires forall p :: p in ps2 ==> p < e2
    requires |ps1| == |ps2| && forall i :: 0 <= i < |ps1| ==> Render(ps1[i]) == Render(ps2[i])
    ensures RenderAll(e1, ps1) == RenderAll(e2, ps2)
    decreases |ps1|
  {
    if |ps1| > 0 {
      assert forall p :: p in ps1[1..] ==> p in ps1;
      assert forall p :: p in ps2[1..] ==> p in ps2;
      RenderAllSameTexts(e1, ps1[1..], e2, ps2[1..]);
    }
  }

  /**
   * in(x, [literal(v1), ...]) renders exactly as in(x, [v1, ...]): an
   * Expr\Literal element is its quoted text, the quoting in() applies itself.
   */
  lemma LiteralObjectsRenderAsValues(x: string, vs: seq<Value>)
    ensures Render(In(x, Elements(seq(|vs|, i requires 0 <= i < |vs| => LiteralElement(QuoteLiteral(vs[i]))))))
         == Render(In(x, Elements(seq(|vs|, i requires 0 <= i < |vs| => ValueElement(vs[i])))))
  {
    var ls := seq(|vs|, i requires 0 <= i < |vs| => LiteralElement(QuoteLiteral(vs[i])));
    var es := seq(|vs|, i requires 0 <= i < |vs| => ValueElement(vs[i]));
    var e1 := In(x, Elements(ls));
    var e2 := In(x, Elements(es));
    var a1 := InArguments(Elements(ls));
    var a2 := InArguments(Elements(es));
    forall i | 0 <= i < |vs|
      ensures Render(a1[i]) == Render(a2[i])
    {
      assert ls[i] == LiteralElement(QuoteLiteral(vs[i]));
      assert es[i] == ValueElement(vs[i]);
      assert a1[i] == Literal(QuoteLiteral(vs[i]));
      assert a2[i] == Raw(QuoteLiteral(vs[i]));
    }
    RenderAllSameTexts(e1, a1, e2, a2);
  }

  /** count(x) renders as "COUNT(x)", and select() accepts it. */
  lemma CountText(x: string)
    ensures Render(CountOf(Raw(x))) == "COUNT(" + x + ")"
    ensures Allowed(SelectBox, CountOf(Raw(x))) && !Ignored(CountOf(Raw(x)))
  {
    assert RenderAll(CountOf(Raw(x)), [Raw(x)]) == [x];
  }

  /** gt(x, all(subquery)) renders as "x > ALL(subquery)", the subquery text as given. */
  lemma AllText(x: string, subquery: string)
    ensures Render(Compare(Raw(x), Gt, All(subquery))) == x + " > " + ("ALL(" + subquery + ")")
  {
    assert RenderAll(All(subquery), [Raw(subquery)]) == [subquery];
  }

  /** The parts select(count(x)) leaves on a new builder render as "SELECT COUNT(x)". */
  lemma CountSelectText(x: string)
    ensures SelectDql(EmptyParts().(select := [QueryExpr.Select([CountOf(Raw(x))])])) == "SELECT " + ("COUNT(" + x + ")")
  {
    var item := CountOf(Raw(x));
    var sel := QueryExpr.Select([item]);
    var p := EmptyParts().(select := [sel]);
    CountText(x);
    assert RenderAll(sel, [item]) == ["COUNT(" + x + ")"];
    assert Renders([sel]) == ["COUNT(" + x + ")"];
    assert ListPart(p.select, " ", ", ") == " " + ("COUNT(" + x + ")");
    SelectShape(p, "", " " + ("COUNT(" + x + ")"), "", "", "", "", "");
  }

  /** select(count(x)) on a new builder gives "SELECT COUNT(x)". */
  method FuncSelectSequence(x: string) returns (dql: string)
    ensures dql == "SELECT " + ("COUNT(" + x + ")")
  {
    var qb := new QueryBuilder();
    var item := CountOf(Raw(x));
    CountText(x);
    KeptNone([item]);
    assert [] + Kept([item]) == [item];
    assert forall i :: 0 <= i < |[item]| ==> [item][i] == item;
    var err := qb.Select([item]);
    assert qb.parts == EmptyParts().(select := [QueryExpr.Select([item])]);
    dql := qb.GetDQL();
    CountSelectText(x);
  }
}
