/** The condition texts the criteria tests expect, joined from their comparisons. */
module CriteriaTexts {
  /** The operands the tests use have no blank in them. */
  lemma Unblanked()
    ensures ' ' !in "alias1.field" && ' ' !in "alias1.field1" && ' ' !in "alias1.field2" && ' ' !in "alias2.field" && ' ' !in "u.field"
    ensures ' ' !in ":field" && ' ' !in ":field_1" && ' ' !in ":field1" && ' ' !in ":field2" && ' ' !in ":field1_1"
    ensures ' ' !in ":alias1_field" && ' ' !in ":alias2_field" && ' ' !in ":alias2_field_2"
  {
  }

  lemma SameFieldAndXText()
    ensures "alias1.field = :field" + " AND " + "alias1.field = :field_1" == "alias1.field = :field AND alias1.field = :field_1"
  {
  }

  lemma SameFieldAndWhereText()
    ensures "alias1.field = :field" + " AND " + "alias1.field > :field_1" == "alias1.field = :field AND alias1.field > :field_1"
  {
  }

  lemma DifferentFieldsText()
    ensures "alias1.field1 = :field1" + " AND " + "alias1.field2 > :field2" == "alias1.field1 = :field1 AND alias1.field2 > :field2"
  {
  }

  lemma SubFieldText()
    ensures "alias1.field1 = :field1" + " AND " + "alias1.field1 > :field1_1" == "alias1.field1 = :field1 AND alias1.field1 > :field1_1"
  {
  }

  lemma JoinAliasText()
    ensures "alias1.field = :field" + " AND " + "alias2.field > :alias2_field" == "alias1.field = :field AND alias2.field > :alias2_field"
  {
  }

  lemma DefaultAndJoinAliasText()
    ensures "alias1.field = :alias1_field" + " AND " + "alias2.field > :alias2_field"
         == "alias1.field = :alias1_field AND alias2.field > :alias2_field"
  {
  }
}

/**
 * addCriteria on the criteria its tests use: the parameter names the
 * visitor hands out, the predicate text each walk produces, and the
 * orderings and pagination values the builder receives.
 */
module CriteriaScenarios {
  import opened Wrappers
  import opened Strings
  import opened QueryExpr
  import opened QueryParts
  import opened QueryBuilding
  import opened BuilderScenarios
  import opened BuilderSequences
  import C = Criteria
  import V = CriteriaVisitor
  import Texts = CriteriaTexts

  /** The Expr operator a criteria comparison of one of these kinds becomes. */
  function OperatorOf(op: C.CriteriaOperator): Operator
    requires op == C.Equal || op == C.Less || op == C.Greater
  {
    match op
    case Equal => Eq
    case Less => Lt
    case Greater => Gt
  }

  /** A criteria comparison of one of the kinds the tests use, with a non-null value. */
  predicate Binding(op: C.CriteriaOperator, v: Value)
  {
    (op == C.Equal || op == C.Less || op == C.Greater) && !v.Null?
  }

  /** A comparison with a non-null value binds one parameter under the chosen name and compares the qualified field with its placeholder. */
  lemma WalkOne(field: string, op: C.CriteriaOperator, v: Value, aliases: seq<string>, bound: seq<Parameter>, scheme: V.NamingScheme, qualified: string, name: string)
    requires Binding(op, v) && |aliases| > 0
    requires V.QualifyField(field, aliases) == qualified
    requires V.ChooseName(scheme, Names(bound), V.ParameterName(field)) == name
    ensures V.Dispatch(C.Comparison(field, op, v), aliases, bound, scheme)
         == V.Walked(Comparison(Raw(qualified), OperatorOf(op), Raw(":" + name)), bound + [Parameter(name, v, None)])
  {
  }

  /** A composite of two criteria walks the first, then the second from the parameters the first left. */
  lemma WalkTwo(j: Junction, c1: C.CriteriaExpr, c2: C.CriteriaExpr, aliases: seq<string>, bound: seq<Parameter>, scheme: V.NamingScheme)
    requires |aliases| > 0
    ensures var w1 := V.Dispatch(c1, aliases, bound, scheme);
      var w2 := V.Dispatch(c2, aliases, w1.bound, scheme);
      V.Dispatch(C.CompositeExpression(j, [c1, c2]), aliases, bound, scheme) == V.Walked(Composite(j, Kept([w1.expr, w2.expr])), w2.bound)
  {
    var e := C.CompositeExpression(j, [c1, c2]);
    var w1 := V.Dispatch(c1, aliases, bound, scheme);
    var w2 := V.Dispatch(c2, aliases, w1.bound, scheme);
    var tail := [c2];
    assert [c1, c2][0] == c1 && [c1, c2][1..] == tail;
    assert tail[0] == c2 && tail[1..] == [];
    assert V.DispatchAll(e, tail, aliases, w1.bound, scheme) == ([w2.expr] + [], w2.bound);
    assert V.DispatchAll(e, [c1, c2], aliases, bound, scheme) == ([w1.expr] + ([w2.expr] + []), w2.bound);
    assert [w1.expr] + ([w2.expr] + []) == [w1.expr, w2.expr];
  }

  /** Two comparisons under one junction: the first binds its name, the second is named against it. */
  lemma TwoWalked(j: Junction, f1: string, o1: C.CriteriaOperator, v1: Value, f2: string, o2: C.CriteriaOperator, v2: Value,
                  aliases: seq<string>, scheme: V.NamingScheme, q1: string, n1: string, q2: string, n2: string)
    requires Binding(o1, v1) && Binding(o2, v2) && |aliases| > 0
    requires V.QualifyField(f1, aliases) == q1 && V.ChooseName(scheme, [], V.ParameterName(f1)) == n1
    requires V.QualifyField(f2, aliases) == q2 && V.ChooseName(scheme, [n1], V.ParameterName(f2)) == n2
    ensures V.Dispatch(C.CompositeExpression(j, [C.Comparison(f1, o1, v1), C.Comparison(f2, o2, v2)]), aliases, [], scheme)
         == V.Walked(Composite(j, [Comparison(Raw(q1), OperatorOf(o1), Raw(":" + n1)), Comparison(Raw(q2), OperatorOf(o2), Raw(":" + n2))]),
                     [Parameter(n1, v1, None), Parameter(n2, v2, None)])
  {
    assert Names([]) == [];
    WalkOne(f1, o1, v1, aliases, [], scheme, q1, n1);
    var p1 := [Parameter(n1, v1, None)];
    assert [] + p1 == p1;
    assert Names(p1) == [n1];
    WalkOne(f2, o2, v2, aliases, p1, scheme, q2, n2);
    WalkTwo(j, C.Comparison(f1, o1, v1), C.Comparison(f2, o2, v2), aliases, [], scheme);
    KeptNone([Comparison(Raw(q1), OperatorOf(o1), Raw(":" + n1)), Comparison(Raw(q2), OperatorOf(o2), Raw(":" + n2))]);
  }

  /** An AND of an already walked condition and one more comparison, which is named against the names bound so far. */
  lemma WalkThen(first: C.CriteriaExpr, x: Expr, b: seq<Parameter>, f: string, o: C.CriteriaOperator, v: Value,
                 aliases: seq<string>, scheme: V.NamingScheme, q: string, n: string)
    requires Binding(o, v) && |aliases| > 0 && x.Composite? && |x.parts| == 2
    requires V.Dispatch(first, aliases, [], scheme) == V.Walked(x, b)
    requires V.QualifyField(f, aliases) == q && V.ChooseName(scheme, Names(b), V.ParameterName(f)) == n
    ensures V.Dispatch(C.CompositeExpression(And, [first, C.Comparison(f, o, v)]), aliases, [], scheme)
         == V.Walked(Composite(And, [x, Comparison(Raw(q), OperatorOf(o), Raw(":" + n))]), b + [Parameter(n, v, None)])
  {
    WalkOne(f, o, v, aliases, b, scheme, q, n);
    WalkTwo(And, first, C.Comparison(f, o, v), aliases, [], scheme);
    KeptNone([x, Comparison(Raw(q), OperatorOf(o), Raw(":" + n))]);
  }

  /** A composite of a two-comparison composite and a third comparison: the third is named against both earlier names. */
  lemma ThreeWalked(f1: string, o1: C.CriteriaOperator, v1: Value, f2: string, o2: C.CriteriaOperator, v2: Value, f3: string, o3: C.CriteriaOperator, v3: Value,
                    aliases: seq<string>, scheme: V.NamingScheme, q1: string, n1: string, q2: string, n2: string, q3: string, n3: string)
    requires Binding(o1, v1) && Binding(o2, v2) && Binding(o3, v3) && |aliases| > 0
    requires V.QualifyField(f1, aliases) == q1 && V.ChooseName(scheme, [], V.ParameterName(f1)) == n1
    requires V.QualifyField(f2, aliases) == q2 && V.ChooseName(scheme, [n1], V.ParameterName(f2)) == n2
    requires V.QualifyField(f3, aliases) == q3 && V.ChooseName(scheme, [n1, n2], V.ParameterName(f3)) == n3
    ensures V.Dispatch(C.CompositeExpression(And, [C.CompositeExpression(And, [C.Comparison(f1, o1, v1), C.Comparison(f2, o2, v2)]), C.Comparison(f3, o3, v3)]), aliases, [], scheme)
         == V.Walked(Composite(And, [Composite(And, [Comparison(Raw(q1), OperatorOf(o1), Raw(":" + n1)), Comparison(Raw(q2), OperatorOf(o2), Raw(":" + n2))]),
                                     Comparison(Raw(q3), OperatorOf(o3), Raw(":" + n3))]),
                     [Parameter(n1, v1, None), Parameter(n2, v2, None), Parameter(n3, v3, None)])
  {
    var inner := C.CompositeExpression(And, [C.Comparison(f1, o1, v1), C.Comparison(f2, o2, v2)]);
    TwoWalked(And, f1, o1, v1, f2, o2, v2, aliases, scheme, q1, n1, q2, n2);
    var x := Composite(And, [Comparison(Raw(q1), OperatorOf(o1), Raw(":" + n1)), Comparison(Raw(q2), OperatorOf(o2), Raw(":" + n2))]);
    var b := [Parameter(n1, v1, None), Parameter(n2, v2, None)];
    assert Names(b) == [n1, n2];
    WalkThen(inner, x, b, f3, o3, v3, aliases, scheme, q3, n3);
    assert b + [Parameter(n3, v3, None)] == [Parameter(n1, v1, None), Parameter(n2, v2, None), Parameter(n3, v3, None)];
  }

  // ---------------------------------------------------------------------
  // The names the tests expect, under either naming rule

  /** The placeholders of the names below. */
  lemma Placeholders()
    ensures ":" + "field" == ":field" && ":" + "field_1" == ":field_1"
    ensures ":" + "field1" == ":field1" && ":" + "field2" == ":field2" && ":" + "field1_1" == ":field1_1"
    ensures ":" + "alias1_field" == ":alias1_field" && ":" + "alias2_field" == ":alias2_field" && ":" + "alias2_field_2" == ":alias2_field_2"
  {
  }

  lemma FieldOnU(scheme: V.NamingScheme)
    ensures V.QualifyField("field", ["u"]) == "u.field"
    ensures V.ChooseName(scheme, [], V.ParameterName("field")) == "field"
  {
    assert ("field" + ".")[0] == 'f';
    assert !V.HasAlias("field", "u");
    assert V.ParameterName("field") == "field";
  }

  /** eq(field, v) on root u: "u.field = :field", with v bound under "field". */
  lemma SingleFieldNamed(v: Value, scheme: V.NamingScheme)
    requires !v.Null?
    ensures V.Dispatch(C.Comparison("field", C.Equal, v), ["u"], [], scheme)
         == V.Walked(Comparison(Raw("u.field"), Eq, Raw(":field")), [Parameter("field", v, None)])
  {
    FieldOnU(scheme);
    Placeholders();
    assert Names([]) == [];
    WalkOne("field", C.Equal, v, ["u"], [], scheme, "u.field", "field");
  }

  lemma FieldOnAlias1(scheme: V.NamingScheme)
    ensures V.QualifyField("field", ["alias1"]) == "alias1.field"
    ensures V.ChooseName(scheme, [], V.ParameterName("field")) == "field"
    ensures V.ChooseName(scheme, ["field"], V.ParameterName("field")) == "field_1"
  {
    assert !V.HasAlias("field", "alias1");
    assert V.ParameterName("field") == "field";
    assert NatToString(1) == "1";
    assert V.CountSuffixName(["field"], "field") == "field_1";
  }

  /** eq(field, a) AND eq/gt(field, b) on alias1: ":field" and ":field_1", each with its own value. */
  lemma SameFieldTwice(a: Value, op: C.CriteriaOperator, b: Value, scheme: V.NamingScheme)
    requires !a.Null? && Binding(op, b)
    ensures V.Dispatch(C.CompositeExpression(And, [C.Comparison("field", C.Equal, a), C.Comparison("field", op, b)]), ["alias1"], [], scheme)
         == V.Walked(Composite(And, [Comparison(Raw("alias1.field"), Eq, Raw(":field")), Comparison(Raw("alias1.field"), OperatorOf(op), Raw(":field_1"))]),
                     [Parameter("field", a, None), Parameter("field_1", b, None)])
  {
    FieldOnAlias1(scheme);
    Placeholders();
    TwoWalked(And, "field", C.Equal, a, "field", op, b, ["alias1"], scheme, "alias1.field", "field", "alias1.field", "field_1");
  }

  lemma Field1Field2OnAlias1(scheme: V.NamingScheme)
    ensures V.QualifyField("field1", ["alias1"]) == "alias1.field1"
    ensures V.QualifyField("field2", ["alias1"]) == "alias1.field2"
    ensures V.ChooseName(scheme, [], V.ParameterName("field1")) == "field1"
    ensures V.ChooseName(scheme, ["field1"], V.ParameterName("field2")) == "field2"
    ensures V.ChooseName(scheme, ["field1"], V.ParameterName("field1")) == "field1_1"
  {
    assert ("field1" + ".")[0] == 'f' && ("field2" + ".")[0] == 'f';
    assert !V.HasAlias("field1", "alias1") && !V.HasAlias("field2", "alias1");
    assert V.ParameterName("field1") == "field1" && V.ParameterName("field2") == "field2";
    assert NatToString(1) == "1";
    assert V.CountSuffixName(["field1"], "field1") == "field1_1";
  }

  /**
   * On root alias1: eq(field1, a) AND gt(field2, b) keeps one name per field,
   * and eq(field1, a) AND gt(field1, b) names the second use ":field1_1".
   */
  lemma FieldNamesOnAlias1(a: Value, b: Value, scheme: V.NamingScheme)
    requires !a.Null? && !b.Null?
    ensures V.Dispatch(C.CompositeExpression(And, [C.Comparison("field1", C.Equal, a), C.Comparison("field2", C.Greater, b)]), ["alias1"], [], scheme)
         == V.Walked(Composite(And, [Comparison(Raw("alias1.field1"), Eq, Raw(":field1")), Comparison(Raw("alias1.field2"), Gt, Raw(":field2"))]),
                     [Parameter("field1", a, None), Parameter("field2", b, None)])
    ensures V.Dispatch(C.CompositeExpression(And, [C.Comparison("field1", C.Equal, a), C.Comparison("field1", C.Greater, b)]), ["alias1"], [], scheme)
         == V.Walked(Composite(And, [Comparison(Raw("alias1.field1"), Eq, Raw(":field1")), Comparison(Raw("alias1.field1"), Gt, Raw(":field1_1"))]),
                     [Parameter("field1", a, None), Parameter("field1_1", b, None)])
  {
    Field1Field2OnAlias1(scheme);
    Placeholders();
    TwoWalked(And, "field1", C.Equal, a, "field2", C.Greater, b, ["alias1"], scheme, "alias1.field1", "field1", "alias1.field2", "field2");
    TwoWalked(And, "field1", C.Equal, a, "field1", C.Greater, b, ["alias1"], scheme, "alias1.field1", "field1", "alias1.field1", "field1_1");
  }


  lemma JoinAliasNames(scheme: V.NamingScheme)
    ensures V.QualifyField("field", ["alias1", "alias2"]) == "alias1.field"
    ensures V.QualifyField("alias1.field", ["alias1", "alias2"]) == "alias1.field"
    ensures V.QualifyField("alias2.field", ["alias1", "alias2"]) == "alias2.field"
    ensures V.ChooseName(scheme, [], V.ParameterName("field")) == "field"
    ensures V.ChooseName(scheme, [], V.ParameterName("alias1.field")) == "alias1_field"
    ensures V.ChooseName(scheme, ["field"], V.ParameterName("alias2.field")) == "alias2_field"
    ensures V.ChooseName(scheme, ["alias1_field"], V.ParameterName("alias2.field")) == "alias2_field"
    ensures V.ChooseName(scheme, ["alias1_field", "alias2_field"], V.ParameterName("alias2.field")) == "alias2_field_2"
  {
    assert !V.HasAlias("field", "alias1") && !V.HasAlias("field", "alias2");
    assert V.HasAlias("alias1.field", "alias1") && V.HasAlias("alias2.field", "alias2");
    assert V.ParameterName("field") == "field";
    assert V.ParameterName("alias1.field") == "alias1_field";
    assert V.ParameterName("alias2.field") == "alias2_field";
    assert NatToString(2) == "2";
    assert V.CountSuffixName(["alias1_field", "alias2_field"], "alias2_field") == "alias2_field_2";
  }

  /**
   * With join alias alias2: in eq(field, a) AND gt(alias2.field, b) the bare
   * field takes the root alias and the other keeps its own, named
   * "alias2_field"; in eq(alias1.field, a) AND gt(alias2.field, b) both keep
   * their alias and are named after it.
   */
  lemma FieldNamesWithJoinAlias(a: Value, b: Value, scheme: V.NamingScheme)
    requires !a.Null? && !b.Null?
    ensures V.Dispatch(C.CompositeExpression(And, [C.Comparison("field", C.Equal, a), C.Comparison("alias2.field", C.Greater, b)]), ["alias1", "alias2"], [], scheme)
         == V.Walked(Composite(And, [Comparison(Raw("alias1.field"), Eq, Raw(":field")), Comparison(Raw("alias2.field"), Gt, Raw(":alias2_field"))]),
                     [Parameter("field", a, None), Parameter("alias2_field", b, None)])
    ensures V.Dispatch(C.CompositeExpression(And, [C.Comparison("alias1.field", C.Equal, a), C.Comparison("alias2.field", C.Greater, b)]), ["alias1", "alias2"], [], scheme)
         == V.Walked(Composite(And, [Comparison(Raw("alias1.field"), Eq, Raw(":alias1_field")), Comparison(Raw("alias2.field"), Gt, Raw(":alias2_field"))]),
                     [Parameter("alias1_field", a, None), Parameter("alias2_field", b, None)])
  {
    JoinAliasNames(scheme);
    Placeholders();
    TwoWalked(And, "field", C.Equal, a, "alias2.field", C.Greater, b, ["alias1", "alias2"], scheme, "alias1.field", "field", "alias2.field", "alias2_field");
    TwoWalked(And, "alias1.field", C.Equal, a, "alias2.field", C.Greater, b, ["alias1", "alias2"], scheme, "alias1.field", "alias1_field", "alias2.field", "alias2_field");
  }


  /**
   * eq(alias1.field, a), then gt(alias2.field, b), then lt(alias2.field, c):
   * the third parameter clashes with the second and, two parameters being
   * bound, becomes "alias2_field_2"; the first two stay bracketed together.
   */
  lemma DuplicateJoinField(a: Value, b: Value, c: Value, scheme: V.NamingScheme)
    requires !a.Null? && !b.Null? && !c.Null?
    ensures V.Dispatch(C.CompositeExpression(And, [C.CompositeExpression(And, [C.Comparison("alias1.field", C.Equal, a), C.Comparison("alias2.field", C.Greater, b)]),
                                                   C.Comparison("alias2.field", C.Less, c)]), ["alias1", "alias2"], [], scheme)
         == V.Walked(Composite(And, [Composite(And, [Comparison(Raw("alias1.field"), Eq, Raw(":alias1_field")), Comparison(Raw("alias2.field"), Gt, Raw(":alias2_field"))]),
                                     Comparison(Raw("alias2.field"), Lt, Raw(":alias2_field_2"))]),
                     [Parameter("alias1_field", a, None), Parameter("alias2_field", b, None), Parameter("alias2_field_2", c, None)])
  {
    JoinAliasNames(scheme);
    Placeholders();
    ThreeWalked("alias1.field", C.Equal, a, "alias2.field", C.Greater, b, "alias2.field", C.Less, c, ["alias1", "alias2"], scheme,
                "alias1.field", "alias1_field", "alias2.field", "alias2_field", "alias2.field", "alias2_field_2");
  }

  // ---------------------------------------------------------------------
  // The text of the walked predicates

  /** A comparison's text: the operands around the operator. */
  function ComparisonText(q: string, op: Operator, p: string): string
  {
    q + " " + OperatorText(op) + " " + p
  }

  /** Two comparisons of blank-free operands are joined flat. */
  lemma TwoText(j: Junction, q1: string, o1: Operator, p1: string, q2: string, o2: Operator, p2: string)
    requires NoBlank(q1) && NoBlank(p1) && NoBlank(q2) && NoBlank(p2)
    ensures Render(Composite(j, [Comparison(Raw(q1), o1, Raw(p1)), Comparison(Raw(q2), o2, Raw(p2))]))
         == ComparisonText(q1, o1, p1) + Separator(j) + ComparisonText(q2, o2, p2)
  {
    var x1 := Comparison(Raw(q1), o1, Raw(p1));
    var x2 := Comparison(Raw(q2), o2, Raw(p2));
    assert Render(x1) == ComparisonText(q1, o1, p1);
    assert Render(x2) == ComparisonText(q2, o2, p2);
    var ps := [x1, x2];
    ComparisonPlain(q1, o1, p1);
    ComparisonPlain(q2, o2, p2);
    FlatComposite(j, ps);
    assert Renders(ps) == [ComparisonText(q1, o1, p1), ComparisonText(q2, o2, p2)];
    assert Renders(ps)[1..] == [ComparisonText(q2, o2, p2)];
  }

  /** A two-part composite followed by a third comparison: the composite is bracketed. */
  lemma ThreeText(q1: string, o1: Operator, p1: string, q2: string, o2: Operator, p2: string, q3: string, o3: Operator, p3: string)
    requires NoBlank(q1) && NoBlank(p1) && NoBlank(q2) && NoBlank(p2) && NoBlank(q3) && NoBlank(p3)
    ensures Render(Composite(And, [Composite(And, [Comparison(Raw(q1), o1, Raw(p1)), Comparison(Raw(q2), o2, Raw(p2))]), Comparison(Raw(q3), o3, Raw(p3))]))
         == "(" + (ComparisonText(q1, o1, p1) + " AND " + ComparisonText(q2, o2, p2)) + ") AND " + ComparisonText(q3, o3, p3)
  {
    var inner := Composite(And, [Comparison(Raw(q1), o1, Raw(p1)), Comparison(Raw(q2), o2, Raw(p2))]);
    var x3 := Comparison(Raw(q3), o3, Raw(p3));
    TwoText(And, q1, o1, p1, q2, o2, p2);
    ComparisonPlain(q3, o3, p3);
    NestedCompositeBracketed(And, inner, [x3]);
    assert [inner] + [x3] == [inner, x3];
    assert Render(x3) == ComparisonText(q3, o3, p3);
    assert Renders([x3]) == [ComparisonText(q3, o3, p3)];
  }

  // ---------------------------------------------------------------------
  // addCriteria on a builder

  /** A criteria holding only a filter, on a builder without condition: the walked filter becomes the condition and its parameters follow the builder's. */
  lemma FilterOnly(v: BuilderView, c: C.Criteria)
    requires |AllAliasesOf(v)| > 0 && v.parts.where.None?
    requires c.whereExpression.Some? && c.orderings == [] && c.firstResult.None? && c.maxResults.None?
    ensures var w := V.Dispatch(c.whereExpression.value, AllAliasesOf(v), [], V.FirstFreeSuffix);
      ApplyCriteria(v, c) == Ok(v.(parts := v.parts.(where := Some(Composite(And, Kept([w.expr])))), parameters := v.parameters + w.bound, state := Dirty))
  {
    var w := V.Dispatch(c.whereExpression.value, AllAliasesOf(v), [], V.FirstFreeSuffix);
    assert [] + [w.expr] == [w.expr];
  }

  /** addCriteria of a filter-only criteria on a builder without condition. */
  method AddFilter(qb: QueryBuilder, c: C.Criteria)
    requires |qb.AllAliases()| > 0 && qb.parts.where.None?
    requires c.whereExpression.Some? && c.orderings == [] && c.firstResult.None? && c.maxResults.None?
    modifies qb
    ensures var w := V.Dispatch(c.whereExpression.value, old(qb.AllAliases()), [], V.FirstFreeSuffix);
      qb.parts.where == Some(Composite(And, Kept([w.expr]))) && qb.parameters == old(qb.parameters) + w.bound
  {
    FilterOnly(qb.View(), c);
    var err := qb.AddCriteria(c);
  }

  /** select(root)->from(E, root)->join('root.field', joinAlias): the aliases are the root, then the join alias. */
  method NewSelectJoin(entity: string, root: string, field: string, joinAlias: string) returns (qb: QueryBuilder)
    requires Truthy(root) && '.' !in root
    ensures fresh(qb)
    ensures qb.AllAliases() == [root, joinAlias] && qb.parts.where.None? && qb.parameters == []
    ensures qb.parts.orderBy == []
  {
    qb := NewSelectFrom(entity, root);
    ParentOfPath(root, field);
    assert RootAliasesOf(qb.parts.from) == [root];
    var err := qb.Join(Inner, root + "." + field, joinAlias, None, None, None);
    AssocPutKeys([], joinAlias, root);
  }

  /** The texts the tests expect. */
  lemma ExpectedTexts()
    ensures ComparisonText("u.field", Eq, ":field") == "u.field = :field"
  {
  }

  /** select(u)->from(E, u)->addCriteria(where(eq(field, v))): the condition is "u.field = :field" and "field" holds v. */
  method CriteriaWhereSequence(entity: string, v: Value) returns (whereText: string, param: Option<Parameter>)
    requires !v.Null?
    ensures whereText == "u.field = :field"
    ensures param == Some(Parameter("field", v, None))
  {
    var qb := NewSelectFrom(entity, "u");
    assert qb.AllAliases() == ["u"];
    var c := C.Where(C.Empty(), C.Comparison("field", C.Equal, v));
    AddFilter(qb, c);
    SingleFieldNamed(v, V.FirstFreeSuffix);
    var x := Comparison(Raw("u.field"), Eq, Raw(":field"));
    KeptNone([x]);
    var part := qb.GetDQLPart(WherePart);
    assert part == WhereValue(Some(Composite(And, [x])));
    whereText := Render(part.where.value);
    assert whereText == Render(x);
    ExpectedTexts();
    assert qb.parameters == [Parameter("field", v, None)];
    param := qb.GetParameter("field");
  }

  /** The comparisons of the tests, rendered. */
  lemma ComparisonTexts()
    ensures ComparisonText("alias1.field", Eq, ":field") == "alias1.field = :field"
    ensures ComparisonText("alias1.field", Eq, ":field_1") == "alias1.field = :field_1"
    ensures ComparisonText("alias1.field", Gt, ":field_1") == "alias1.field > :field_1"
  {
  }

  lemma MoreComparisonTexts()
    ensures ComparisonText("alias1.field1", Eq, ":field1") == "alias1.field1 = :field1"
    ensures ComparisonText("alias1.field2", Gt, ":field2") == "alias1.field2 > :field2"
    ensures ComparisonText("alias1.field1", Gt, ":field1_1") == "alias1.field1 > :field1_1"
  {
  }

  lemma JoinAliasComparisonTexts()
    ensures ComparisonText("alias1.field", Eq, ":field") == "alias1.field = :field"
    ensures ComparisonText("alias2.field", Gt, ":alias2_field") == "alias2.field > :alias2_field"
  {
  }

  lemma JoinComparisonTexts()
    ensures ComparisonText("alias2.field", Gt, ":alias2_field") == "alias2.field > :alias2_field"
    ensures ComparisonText("alias1.field", Eq, ":alias1_field") == "alias1.field = :alias1_field"
  {
  }

  lemma ThirdComparisonText()
    ensures ComparisonText("alias2.field", Lt, ":alias2_field_2") == "alias2.field < :alias2_field_2"
  {
  }

  /** select(root)->from(E, root)->addCriteria(where(e)) for a condition the visitor turns into expected and bound. */
  method FilterSequence(entity: string, root: string, c: C.Criteria, expected: Expr, bound: seq<Parameter>) returns (qb: QueryBuilder)
    requires Truthy(root)
    requires c.whereExpression.Some? && c.orderings == [] && c.firstResult.None? && c.maxResults.None?
    requires V.Dispatch(c.whereExpression.value, [root], [], V.FirstFreeSuffix) == V.Walked(expected, bound)
    requires !Ignored(expected)
    ensures fresh(qb)
    ensures qb.parts.where == Some(Composite(And, [expected])) && qb.parameters == bound
  {
    qb := NewSelectFrom(entity, root);
    assert qb.AllAliases() == [root];
    AddFilter(qb, c);
    assert Kept([expected]) == [expected];
  }

  /** The same after ->join('root.field', joinAlias). */
  method FilterJoinSequence(entity: string, root: string, field: string, joinAlias: string, c: C.Criteria, expected: Expr, bound: seq<Parameter>)
    returns (qb: QueryBuilder)
    requires Truthy(root) && '.' !in root
    requires c.whereExpression.Some? && c.orderings == [] && c.firstResult.None? && c.maxResults.None?
    requires V.Dispatch(c.whereExpression.value, [root, joinAlias], [], V.FirstFreeSuffix) == V.Walked(expected, bound)
    requires !Ignored(expected)
    ensures fresh(qb)
    ensures qb.parts.where == Some(Composite(And, [expected])) && qb.parameters == bound
  {
    qb := NewSelectJoin(entity, root, field, joinAlias);
    AddFilter(qb, c);
    assert Kept([expected]) == [expected];
  }

  /** A one-part composite renders as its part. */
  lemma SingleRender(j: Junction, x: Expr)
    ensures Render(Composite(j, [x])) == Render(x)
  {
  }

  /** getParameter on two differently named parameters finds each. */
  lemma TwoParameters(p: Parameter, q: Parameter)
    requires p.name != q.name
    ensures GetParameterOf([p, q], p.name) == Some(p) && GetParameterOf([p, q], q.name) == Some(q)
  {
    assert [p, q][1..] == [q];
  }

  /** getParameter on three differently named parameters finds each. */
  lemma ThreeParameters(p: Parameter, q: Parameter, r: Parameter)
    requires p.name != q.name && p.name != r.name && q.name != r.name
    ensures GetParameterOf([p, q, r], p.name) == Some(p)
    ensures GetParameterOf([p, q, r], q.name) == Some(q)
    ensures GetParameterOf([p, q, r], r.name) == Some(r)
  {
    assert [p, q, r][1..] == [q, r];
    TwoParameters(q, r);
  }

  /** getDQLPart('where') and getParameter() of a builder holding the AND of two comparisons and their two parameters. */
  method ReadTwo(qb: QueryBuilder, q1: string, o1: Operator, p1: string, q2: string, o2: Operator, p2: string, pa: Parameter, pb: Parameter)
    returns (whereText: string, first: Option<Parameter>, second: Option<Parameter>)
    requires qb.parts.where == Some(Composite(And, [Composite(And, [Comparison(Raw(q1), o1, Raw(p1)), Comparison(Raw(q2), o2, Raw(p2))])]))
    requires qb.parameters == [pa, pb] && pa.name != pb.name
    requires NoBlank(q1) && NoBlank(p1) && NoBlank(q2) && NoBlank(p2)
    ensures whereText == ComparisonText(q1, o1, p1) + " AND " + ComparisonText(q2, o2, p2)
    ensures first == Some(pa) && second == Some(pb)
  {
    var x := Composite(And, [Comparison(Raw(q1), o1, Raw(p1)), Comparison(Raw(q2), o2, Raw(p2))]);
    whereText := Render(qb.GetDQLPart(WherePart).where.value);
    SingleRender(And, x);
    TwoText(And, q1, o1, p1, q2, o2, p2);
    TwoParameters(pa, pb);
    first := qb.GetParameter(pa.name);
    second := qb.GetParameter(pb.name);
  }

  /** The andX(eq(field, a), eq(field, b)) condition on alias1: the second placeholder is suffixed. */
  method SameFieldAndX(entity: string, a: Value, b: Value) returns (whereText: string, first: Option<Parameter>, second: Option<Parameter>)
    requires !a.Null? && !b.Null?
    ensures whereText == "alias1.field = :field AND alias1.field = :field_1"
    ensures first == Some(Parameter("field", a, None)) && second == Some(Parameter("field_1", b, None))
  {
    var x := Composite(And, [Comparison(Raw("alias1.field"), Eq, Raw(":field")), Comparison(Raw("alias1.field"), Eq, Raw(":field_1"))]);
    var p, q := Parameter("field", a, None), Parameter("field_1", b, None);
    SameFieldTwice(a, C.Equal, b, V.FirstFreeSuffix);
    var c := C.Where(C.Empty(), C.CompositeExpression(And, [C.Comparison("field", C.Equal, a), C.Comparison("field", C.Equal, b)]));
    var qb := FilterSequence(entity, "alias1", c, x, [p, q]);
    Texts.Unblanked();
    whereText, first, second := ReadTwo(qb, "alias1.field", Eq, ":field", "alias1.field", Eq, ":field_1", p, q);
    ComparisonTexts();
    Texts.SameFieldAndXText();
  }

  /** where(eq(field, a))->andWhere(gt(field, b)) on alias1 (DDC-2844): the second placeholder is suffixed. */
  method SameFieldAndWhere(entity: string, a: Value, b: Value) returns (whereText: string, first: Option<Parameter>, second: Option<Parameter>)
    requires !a.Null? && !b.Null?
    ensures whereText == "alias1.field = :field AND alias1.field > :field_1"
    ensures first == Some(Parameter("field", a, None)) && second == Some(Parameter("field_1", b, None))
  {
    var x := Composite(And, [Comparison(Raw("alias1.field"), Eq, Raw(":field")), Comparison(Raw("alias1.field"), Gt, Raw(":field_1"))]);
    var p, q := Parameter("field", a, None), Parameter("field_1", b, None);
    SameFieldTwice(a, C.Greater, b, V.FirstFreeSuffix);
    var c := C.AndWhere(C.Where(C.Empty(), C.Comparison("field", C.Equal, a)), C.Comparison("field", C.Greater, b));
    var qb := FilterSequence(entity, "alias1", c, x, [p, q]);
    Texts.Unblanked();
    whereText, first, second := ReadTwo(qb, "alias1.field", Eq, ":field", "alias1.field", Gt, ":field_1", p, q);
    ComparisonTexts();
    Texts.SameFieldAndWhereText();
  }

  /** where(eq(field1, a))->andWhere(gt(field2, b)) on alias1: each field names its own placeholder. */
  method DifferentFieldsSequence(entity: string, a: Value, b: Value) returns (whereText: string, first: Option<Parameter>, second: Option<Parameter>)
    requires !a.Null? && !b.Null?
    ensures whereText == "alias1.field1 = :field1 AND alias1.field2 > :field2"
    ensures first == Some(Parameter("field1", a, None)) && second == Some(Parameter("field2", b, None))
  {
    var x := Composite(And, [Comparison(Raw("alias1.field1"), Eq, Raw(":field1")), Comparison(Raw("alias1.field2"), Gt, Raw(":field2"))]);
    var p, q := Parameter("field1", a, None), Parameter("field2", b, None);
    FieldNamesOnAlias1(a, b, V.FirstFreeSuffix);
    var c := C.AndWhere(C.Where(C.Empty(), C.Comparison("field1", C.Equal, a)), C.Comparison("field2", C.Greater, b));
    var qb := FilterSequence(entity, "alias1", c, x, [p, q]);
    Texts.Unblanked();
    whereText, first, second := ReadTwo(qb, "alias1.field1", Eq, ":field1", "alias1.field2", Gt, ":field2", p, q);
    MoreComparisonTexts();
    Texts.DifferentFieldsText();
  }

  /** where(eq(field1, a))->andWhere(gt(field1, b)) on alias1: the repeated field is suffixed. */
  method SubFieldSequence(entity: string, a: Value, b: Value) returns (whereText: string, first: Option<Parameter>, second: Option<Parameter>)
    requires !a.Null? && !b.Null?
    ensures whereText == "alias1.field1 = :field1 AND alias1.field1 > :field1_1"
    ensures first == Some(Parameter("field1", a, None)) && second == Some(Parameter("field1_1", b, None))
  {
    var x := Composite(And, [Comparison(Raw("alias1.field1"), Eq, Raw(":field1")), Comparison(Raw("alias1.field1"), Gt, Raw(":field1_1"))]);
    var p, q := Parameter("field1", a, None), Parameter("field1_1", b, None);
    FieldNamesOnAlias1(a, b, V.FirstFreeSuffix);
    var c := C.AndWhere(C.Where(C.Empty(), C.Comparison("field1", C.Equal, a)), C.Comparison("field1", C.Greater, b));
    var qb := FilterSequence(entity, "alias1", c, x, [p, q]);
    Texts.Unblanked();
    whereText, first, second := ReadTwo(qb, "alias1.field1", Eq, ":field1", "alias1.field1", Gt, ":field1_1", p, q);
    MoreComparisonTexts();
    Texts.SubFieldText();
  }

  /** After join('alias1.articles', 'alias2'): an unqualified field goes to alias1, "alias2.field" stays on alias2 (DDC-3108). */
  method JoinAliasSequence(entity: string, a: Value, b: Value) returns (whereText: string, first: Option<Parameter>, second: Option<Parameter>)
    requires !a.Null? && !b.Null?
    ensures whereText == "alias1.field = :field AND alias2.field > :alias2_field"
    ensures first == Some(Parameter("field", a, None)) && second == Some(Parameter("alias2_field", b, None))
  {
    var x := Composite(And, [Comparison(Raw("alias1.field"), Eq, Raw(":field")), Comparison(Raw("alias2.field"), Gt, Raw(":alias2_field"))]);
    var p, q := Parameter("field", a, None), Parameter("alias2_field", b, None);
    FieldNamesWithJoinAlias(a, b, V.FirstFreeSuffix);
    var c := C.AndWhere(C.Where(C.Empty(), C.Comparison("field", C.Equal, a)), C.Comparison("alias2.field", C.Greater, b));
    var qb := FilterJoinSequence(entity, "alias1", "articles", "alias2", c, x, [p, q]);
    Texts.Unblanked();
    whereText, first, second := ReadTwo(qb, "alias1.field", Eq, ":field", "alias2.field", Gt, ":alias2_field", p, q);
    JoinAliasComparisonTexts();
    Texts.JoinAliasText();
  }

  /** Both fields qualified: each placeholder is named after its alias and field. */
  method DefaultAndJoinAliasSequence(entity: string, a: Value, b: Value) returns (whereText: string, first: Option<Parameter>, second: Option<Parameter>)
    requires !a.Null? && !b.Null?
    ensures whereText == "alias1.field = :alias1_field AND alias2.field > :alias2_field"
    ensures first == Some(Parameter("alias1_field", a, None)) && second == Some(Parameter("alias2_field", b, None))
  {
    var x := Composite(And, [Comparison(Raw("alias1.field"), Eq, Raw(":alias1_field")), Comparison(Raw("alias2.field"), Gt, Raw(":alias2_field"))]);
    var p, q := Parameter("alias1_field", a, None), Parameter("alias2_field", b, None);
    FieldNamesWithJoinAlias(a, b, V.FirstFreeSuffix);
    var c := C.AndWhere(C.Where(C.Empty(), C.Comparison("alias1.field", C.Equal, a)), C.Comparison("alias2.field", C.Greater, b));
    var qb := FilterJoinSequence(entity, "alias1", "articles", "alias2", c, x, [p, q]);
    Texts.Unblanked();
    whereText, first, second := ReadTwo(qb, "alias1.field", Eq, ":alias1_field", "alias2.field", Gt, ":alias2_field", p, q);
    JoinComparisonTexts();
    Texts.DefaultAndJoinAliasText();
  }

  /** A third andWhere on alias2.field: the first condition pair is bracketed and the new placeholder is ":alias2_field_2". */
  method DuplicateFieldsSequence(entity: string, a: Value, b: Value, d: Value)
    returns (whereText: string, first: Option<Parameter>, second: Option<Parameter>, third: Option<Parameter>)
    requires !a.Null? && !b.Null? && !d.Null?
    ensures whereText == "(" + "alias1.field = :alias1_field AND alias2.field > :alias2_field" + ") AND " + "alias2.field < :alias2_field_2"
    ensures first == Some(Parameter("alias1_field", a, None)) && second == Some(Parameter("alias2_field", b, None))
    ensures third == Some(Parameter("alias2_field_2", d, None))
  {
    var x := Composite(And, [Composite(And, [Comparison(Raw("alias1.field"), Eq, Raw(":alias1_field")), Comparison(Raw("alias2.field"), Gt, Raw(":alias2_field"))]),
                             Comparison(Raw("alias2.field"), Lt, Raw(":alias2_field_2"))]);
    var p, q, r := Parameter("alias1_field", a, None), Parameter("alias2_field", b, None), Parameter("alias2_field_2", d, None);
    DuplicateJoinField(a, b, d, V.FirstFreeSuffix);
    var c := C.AndWhere(C.AndWhere(C.Where(C.Empty(), C.Comparison("alias1.field", C.Equal, a)), C.Comparison("alias2.field", C.Greater, b)),
                        C.Comparison("alias2.field", C.Less, d));
    var qb := FilterJoinSequence(entity, "alias1", "articles", "alias2", c, x, [p, q, r]);
    whereText := Render(qb.GetDQLPart(WherePart).where.value);
    SingleRender(And, x);
    Texts.Unblanked();
    ThreeText("alias1.field", Eq, ":alias1_field", "alias2.field", Gt, ":alias2_field", "alias2.field", Lt, ":alias2_field_2");
    JoinComparisonTexts();
    ThirdComparisonText();
    Texts.DefaultAndJoinAliasText();
    ThreeParameters(p, q, r);
    first := qb.GetParameter("alias1_field");
    second := qb.GetParameter("alias2_field");
    third := qb.GetParameter("alias2_field_2");
  }

  // ---------------------------------------------------------------------
  // addCriteria: orderings and pagination

  lemma Descending()
    ensures C.DirectionOf("DESC") == C.Descending
  {
    var d := Upper("DESC");
    assert d[0] == 'D';
  }

  /** A single ordering renders as its entry. */
  lemma SingleOrderRender(entry: string)
    ensures Render(OrderBy([entry])) == entry
  {
  }

  /** The criteria's orderings of the two tests, qualified and written out. */
  lemma OrderFacts()
    ensures C.OrderBy(C.Empty(), [("field", "DESC")]).orderings == [("field", C.Descending)]
    ensures C.OrderBy(C.Empty(), [("a.field", "DESC")]).orderings == [("a.field", C.Descending)]
    ensures CriteriaOrderings([("field", C.Descending)], ["u"]) == [OrderBy(["u.field DESC"])]
    ensures CriteriaOrderings([("a.field", C.Descending)], ["u", "a"]) == [OrderBy(["a.field DESC"])]
  {
    Descending();
    FieldOnU(V.FirstFreeSuffix);
    assert V.HasAlias("a.field", "a");
    assert OrderEntry("u.field", Some("DESC")) == "u.field DESC";
    assert OrderEntry("a.field", Some("DESC")) == "a.field DESC";
  }

  /** orderBy([field => DESC]) on select(u)->from(E, u): one ordering, "u.field DESC". */
  method CriteriaOrderSequence(entity: string) returns (count: nat, text: string)
    ensures count == 1 && text == "u.field DESC"
  {
    var qb := NewSelectFrom(entity, "u");
    assert qb.AllAliases() == ["u"];
    var c := C.OrderBy(C.Empty(), [("field", "DESC")]);
    CriteriaNeedsAlias(qb.View(), c);
    CriteriaEffect(qb.View(), c);
    OrderFacts();
    var err := qb.AddCriteria(c);
    var orders := qb.GetDQLPart(OrderByPart).orders;
    count := |orders|;
    text := Render(orders[0]);
    SingleOrderRender("u.field DESC");
  }

  /** The same after join('u.article', 'a') with orderBy([a.field => DESC]): the join alias is kept (DDC-3108). */
  method OrderOnJoinAliasSequence(entity: string) returns (count: nat, text: string)
    ensures count == 1 && text == "a.field DESC"
  {
    var qb := NewSelectJoin(entity, "u", "article", "a");
    var c := C.OrderBy(C.Empty(), [("a.field", "DESC")]);
    CriteriaNeedsAlias(qb.View(), c);
    CriteriaEffect(qb.View(), c);
    OrderFacts();
    var err := qb.AddCriteria(c);
    var orders := qb.GetDQLPart(OrderByPart).orders;
    count := |orders|;
    text := Render(orders[0]);
    SingleOrderRender("a.field DESC");
  }

  /** setFirstResult(2)->setMaxResults(10) on the criteria: the builder takes both. */
  method CriteriaLimitSequence(entity: string) returns (first: Option<int>, max: Option<int>)
    ensures first == Some(2) && max == Some(10)
  {
    var qb := NewSelectFrom(entity, "u");
    assert qb.AllAliases() == ["u"];
    var c := C.SetMaxResults(C.SetFirstResult(C.Empty(), Some(2)), Some(10));
    CriteriaNeedsAlias(qb.View(), c);
    CriteriaEffect(qb.View(), c);
    var err := qb.AddCriteria(c);
    first := qb.firstResult;
    max := qb.maxResults;
  }

  /** A criteria without pagination leaves the builder's setFirstResult(2)->setMaxResults(10) in place. */
  method UndefinedLimitSequence(entity: string) returns (first: Option<int>, max: Option<int>)
    ensures first == Some(2) && max == Some(10)
  {
    var qb := NewSelectFrom(entity, "u");
    qb.SetFirstResult(Some(2));
    qb.SetMaxResults(Some(10));
    assert qb.AllAliases() == ["u"];
    var v := qb.View();
    EmptyCriteriaKeepsBuilder(v);
    var err := qb.AddCriteria(C.Empty());
    first := qb.firstResult;
    max := qb.maxResults;
  }
}
