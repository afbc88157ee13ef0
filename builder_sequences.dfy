/**
 * Client code that drives a new QueryBuilder through the call chains of
 * the builder's tests, with the type, the parts or the DQL each chain must
 * produce.  Entity names, aliases and conditions are parameters, so each
 * sequence holds for every text of the shape it requires.
 */
module BuilderSequences {
  import opened Wrappers
  import opened Strings
  import opened QueryExpr
  import opened QueryParts
  import opened QueryBuilding
  import opened BuilderScenarios

  /** The type follows the last of select/delete/update; select() without arguments still makes a SELECT. */
  method QueryTypeSequence(entity: string, alias: string, field: string)
    returns (afterSelect: QueryType, afterEmptySelect: QueryType, afterDelete: QueryType, afterUpdate: QueryType)
    ensures afterSelect == SelectQuery && afterEmptySelect == SelectQuery
    ensures afterDelete == DeleteQuery && afterUpdate == UpdateQuery
  {
    var qb := new QueryBuilder();
    qb.Delete(entity, alias);
    var err := qb.Select([Raw(field)]);
    afterSelect := qb.queryType;
    qb := new QueryBuilder();
    qb.Delete(entity, alias);
    err := qb.Select([]);
    afterEmptySelect := qb.queryType;
    qb := new QueryBuilder();
    qb.From(entity, alias, None);
    qb.Delete("", "");
    afterDelete := qb.queryType;
    qb := new QueryBuilder();
    qb.From(entity, alias, None);
    qb.Update("", "");
    afterUpdate := qb.queryType;
  }

  /** The text of a single root without INDEX BY or joins. */
  lemma OneRootText(entity: string, alias: string)
    ensures FromSection([QueryParts.From(entity, alias, None)], map[]) == " FROM " + (entity + " " + alias)
    ensures FromList([QueryParts.From(entity, alias, None)]) == " " + (entity + " " + alias)
  {
    var froms := [QueryParts.From(entity, alias, None)];
    assert FromText(froms[0]) == entity + " " + alias;
    assert RootText(froms[0], map[]) == entity + " " + alias;
    assert RootTexts(froms, map[]) == [entity + " " + alias];
    assert seq(|froms|, i requires 0 <= i < |froms| => FromText(froms[i])) == [entity + " " + alias];
  }

  /** The SELECT text from the text of each of its parts. */
  lemma SelectShape(p: DqlParts, d: string, sel: string, from: string, w: string, g: string, h: string, o: string)
    requires (if p.distinct then " DISTINCT" else "") == d && ListPart(p.select, " ", ", ") == sel
    requires FromSection(p.from, p.join) == from && SinglePart(p.where, " WHERE ") == w
    requires ListPart(p.groupBy, " GROUP BY ", ", ") == g && SinglePart(p.having, " HAVING ") == h
    requires ListPart(p.orderBy, " ORDER BY ", ", ") == o
    ensures SelectDql(p) == "SELECT" + d + sel + from + w + g + h + o
  {
  }

  /** The parts of select(items)->from(E, u). */
  function SelectFrom(entity: string, alias: string, items: seq<string>): DqlParts
  {
    EmptyParts().(from := [QueryParts.From(entity, alias, None)], select := [QueryExpr.Select(Raws(items))])
  }

  /** Parts with one plain root, no joins and one select list of strings: the heading, then the text of the remaining parts. */
  lemma SingleRootShape(entity: string, alias: string, items: seq<string>, p: DqlParts)
    requires !p.distinct && p.select == [QueryExpr.Select(Raws(items))]
    requires p.from == [QueryParts.From(entity, alias, None)] && p.join == map[]
    ensures SelectDql(p) == "SELECT " + Join(items, ", ") + " FROM " + entity + " " + alias
      + (SinglePart(p.where, " WHERE ") + ListPart(p.groupBy, " GROUP BY ", ", ") + SinglePart(p.having, " HAVING ") + ListPart(p.orderBy, " ORDER BY ", ", "))
  {
    var j := Join(items, ", ");
    SelectOfRaws(items);
    assert ListPart(p.select, " ", ", ") == " " + j;
    OneRootText(entity, alias);
    var w, g, h, o := SinglePart(p.where, " WHERE "), ListPart(p.groupBy, " GROUP BY ", ", "), SinglePart(p.having, " HAVING "), ListPart(p.orderBy, " ORDER BY ", ", ");
    SelectShape(p, "", " " + j, " FROM " + (entity + " " + alias), w, g, h, o);
    ShapeAlgebra(j, entity, alias, w, g, h, o);
  }

  lemma ShapeAlgebra(j: string, entity: string, alias: string, w: string, g: string, h: string, o: string)
    ensures "SELECT" + "" + (" " + j) + (" FROM " + (entity + " " + alias)) + w + g + h + o
         == "SELECT " + j + " FROM " + entity + " " + alias + (w + g + h + o)
  {
  }

  /** The parts of select(items)->from(E, u) render as "SELECT items FROM E u". */
  lemma SelectFromText(entity: string, alias: string, items: seq<string>)
    ensures SelectDql(SelectFrom(entity, alias, items)) == "SELECT " + Join(items, ", ") + " FROM " + entity + " " + alias
  {
    var p := SelectFrom(entity, alias, items);
    SingleRootShape(entity, alias, items, p);
    var head := "SELECT " + Join(items, ", ") + " FROM " + entity + " " + alias;
    assert SinglePart(p.where, " WHERE ") + ListPart(p.groupBy, " GROUP BY ", ", ") + SinglePart(p.having, " HAVING ") + ListPart(p.orderBy, " ORDER BY ", ", ") == "";
    assert head + "" == head;
  }

  /** With a condition, " WHERE " and the condition's text follow. */
  lemma SelectFromWhereText(entity: string, alias: string, items: seq<string>, w: Expr)
    requires Given(Some(w))
    ensures SelectDql(SelectFrom(entity, alias, items).(where := Some(w)))
         == "SELECT " + Join(items, ", ") + " FROM " + entity + " " + alias + " WHERE " + Render(w)
  {
    var p := SelectFrom(entity, alias, items).(where := Some(w));
    SingleRootShape(entity, alias, items, p);
    var head := "SELECT " + Join(items, ", ") + " FROM " + entity + " " + alias;
    var t := " WHERE " + Render(w);
    assert SinglePart(p.where, " WHERE ") == t;
    assert ListPart(p.groupBy, " GROUP BY ", ", ") == "" && SinglePart(p.having, " HAVING ") == "" && ListPart(p.orderBy, " ORDER BY ", ", ") == "";
    WhereTail(head, Render(w));
  }

  /** With groupings and a having condition, " GROUP BY ", the groupings, " HAVING " and the condition follow. */
  lemma SelectFromHavingText(entity: string, alias: string, items: seq<string>, g: string, h: Expr)
    requires Given(Some(h))
    ensures SelectDql(SelectFrom(entity, alias, items).(groupBy := [QueryExpr.GroupBy([Raw(g)])], having := Some(h)))
         == "SELECT " + Join(items, ", ") + " FROM " + entity + " " + alias + " GROUP BY " + g + " HAVING " + Render(h)
  {
    var p := SelectFrom(entity, alias, items).(groupBy := [QueryExpr.GroupBy([Raw(g)])], having := Some(h));
    SingleRootShape(entity, alias, items, p);
    var head := "SELECT " + Join(items, ", ") + " FROM " + entity + " " + alias;
    SingleGrouping(g);
    assert ListPart(p.groupBy, " GROUP BY ", ", ") == " GROUP BY " + g;
    assert SinglePart(p.having, " HAVING ") == " HAVING " + Render(h);
    assert SinglePart(p.where, " WHERE ") == "" && ListPart(p.orderBy, " ORDER BY ", ", ") == "";
    HavingTail(head, g, Render(h));
  }

  lemma WhereTail(head: string, w: string)
    ensures head + (" WHERE " + w + "" + "" + "") == head + " WHERE " + w
  {
  }

  lemma HavingTail(head: string, g: string, h: string)
    ensures head + ("" + (" GROUP BY " + g) + (" HAVING " + h) + "") == head + " GROUP BY " + g + " HAVING " + h
  {
  }

  /** One grouping of one string renders as that string. */
  lemma SingleGrouping(g: string)
    ensures Renders([QueryExpr.GroupBy([Raw(g)])]) == [g]
  {
    var grouping := QueryExpr.GroupBy([Raw(g)]);
    assert RenderAll(grouping, [Raw(g)]) == [g];
    assert Render(grouping) == Join([g], ", ") == g;
  }

  /** from(E, u)->select(f1, f2) gives "SELECT f1, f2 FROM E u". */
  method SimpleSelectSequence(entity: string, alias: string, f1: string, f2: string) returns (dql: string)
    requires Truthy(f1)
    ensures dql == "SELECT " + (f1 + ", " + f2) + " FROM " + entity + " " + alias
  {
    var qb := new QueryBuilder();
    qb.From(entity, alias, None);
    RawsAccepted(SelectBox, [f1, f2]);
    var err := qb.Select(Raws([f1, f2]));
    assert qb.parts == EmptyParts().(from := [QueryParts.From(entity, alias, None)], select := [QueryExpr.Select(Raws([f1, f2]))]);
    dql := qb.GetDQL();
    SelectFromText(entity, alias, [f1, f2]);
    assert Join([f1, f2], ", ") == f1 + ", " + f2 by {
      assert [f1, f2][1..] == [f2];
    }
  }

  /** delete(E, u) gives "DELETE E u". */
  method SimpleDeleteSequence(entity: string, alias: string) returns (dql: string)
    requires Truthy(entity)
    ensures dql == "DELETE " + entity + " " + alias
  {
    var qb := new QueryBuilder();
    qb.Delete(entity, alias);
    dql := qb.GetDQL();
    OneRootText(entity, alias);
  }

  /** update(E, u)->set(k, v) gives "UPDATE E u SET k = v". */
  method SimpleUpdateSequence(entity: string, alias: string, key: string, value: string) returns (dql: string)
    requires Truthy(entity)
    ensures dql == "UPDATE " + entity + " " + alias + " SET " + key + " = " + value
  {
    var qb := new QueryBuilder();
    qb.Update(entity, alias);
    qb.Set(key, value);
    assert qb.parts == EmptyParts().(from := [QueryParts.From(entity, alias, None)], sets := [Comparison(Raw(key), Eq, Raw(value))]);
    dql := qb.GetDQL();
    UpdateText(entity, alias, key, value);
  }

  lemma UpdateText(entity: string, alias: string, key: string, value: string)
    ensures UpdateDql(EmptyParts().(from := [QueryParts.From(entity, alias, None)], sets := [Comparison(Raw(key), Eq, Raw(value))]))
         == "UPDATE " + entity + " " + alias + " SET " + key + " = " + value
  {
    var p := EmptyParts().(from := [QueryParts.From(entity, alias, None)], sets := [Comparison(Raw(key), Eq, Raw(value))]);
    OneRootText(entity, alias);
    var assignment := key + " = " + value;
    assert Render(p.sets[0]) == key + " " + "=" + " " + value;
    assert key + " " + "=" + " " + value == assignment;
    assert Renders(p.sets) == [assignment];
    assert ListPart(p.sets, " SET ", ", ") == " SET " + assignment;
    assert UpdateDql(p) == "UPDATE" + (" " + (entity + " " + alias)) + (" SET " + assignment) + "" + "";
    UpdateAlgebra(entity, alias, key, value);
  }

  lemma UpdateAlgebra(entity: string, alias: string, key: string, value: string)
    ensures "UPDATE" + (" " + (entity + " " + alias)) + (" SET " + (key + " = " + value)) + "" + ""
         == "UPDATE " + entity + " " + alias + " SET " + key + " = " + value
  {
  }

  /** select(u)->from(E, u) on a new builder. */
  method NewSelectFrom(entity: string, alias: string) returns (qb: QueryBuilder)
    requires Truthy(alias)
    ensures fresh(qb) && qb.queryType == SelectQuery && qb.state == Dirty
    ensures qb.parts == SelectFrom(entity, alias, [alias])
    ensures qb.parameters == [] && qb.joinRootAliases == [] && qb.firstResult.None? && qb.maxResults.None?
  {
    qb := new QueryBuilder();
    RawsAccepted(SelectBox, [alias]);
    var err := qb.Select(Raws([alias]));
    qb.From(entity, alias, None);
  }

  /** A condition set by where()/having() and its and/or variants leaves the type and the other parts alone. */
  method Condition(qb: QueryBuilder, having: bool, call: Junction, first: bool, arg: Expr, expected: Expr)
    requires first ==> Predicates([arg]) == Ok(expected)
    requires !first ==> Extend(call, if having then qb.parts.having else qb.parts.where, [arg]) == Ok(expected)
    modifies qb
    ensures qb.queryType == old(qb.queryType) && qb.state == Dirty
    ensures qb.parts == if having then old(qb.parts).(having := Some(expected)) else old(qb.parts).(where := Some(expected))
  {
    var err;
    if first && having {
      err := qb.Having([arg]);
    } else if first {
      err := qb.Where([arg]);
    } else if having && call == And {
      err := qb.AndHaving([arg]);
    } else if having {
      err := qb.OrHaving([arg]);
    } else if call == And {
      err := qb.AndWhere([arg]);
    } else {
      err := qb.OrWhere([arg]);
    }
  }

  /** select(u)->from(E, u)->where(c) gives "SELECT u FROM E u WHERE c". */
  method WhereSequence(entity: string, alias: string, c: string) returns (dql: string)
    requires Truthy(alias)
    ensures dql == "SELECT " + alias + " FROM " + entity + " " + alias + " WHERE " + c
  {
    var qb := NewSelectFrom(entity, alias);
    SingleCondition(c);
    Condition(qb, false, And, true, Raw(c), Composite(And, [Raw(c)]));
    dql := qb.GetDQL();
    SelectFromWhereText(entity, alias, [alias], Composite(And, [Raw(c)]));
  }

  /** where(a)->andWhere(b) gives "... WHERE a AND b". */
  method AndWhereSequence(entity: string, alias: string, a: string, b: string) returns (dql: string)
    requires Truthy(alias) && Atom(a) && Atom(b)
    ensures dql == "SELECT " + alias + " FROM " + entity + " " + alias + " WHERE " + (a + " AND " + b)
  {
    var qb := NewSelectFrom(entity, alias);
    SingleCondition(a);
    Condition(qb, false, And, true, Raw(a), Composite(And, [Raw(a)]));
    WhereAnd(a, b);
    var w := Composite(And, [Raw(a), Raw(b)]);
    Condition(qb, false, And, false, Raw(b), w);
    dql := qb.GetDQL();
    SelectFromWhereText(entity, alias, [alias], w);
  }

  /** where(a)->orWhere(b) gives "... WHERE a OR b". */
  method OrWhereSequence(entity: string, alias: string, a: string, b: string) returns (dql: string)
    requires Truthy(alias) && Atom(a) && Atom(b)
    ensures dql == "SELECT " + alias + " FROM " + entity + " " + alias + " WHERE " + (a + " OR " + b)
  {
    var qb := NewSelectFrom(entity, alias);
    SingleCondition(a);
    Condition(qb, false, And, true, Raw(a), Composite(And, [Raw(a)]));
    WhereOr(a, b);
    var w := Composite(Or, [Composite(And, [Raw(a)]), Raw(b)]);
    Condition(qb, false, Or, false, Raw(b), w);
    dql := qb.GetDQL();
    SelectFromWhereText(entity, alias, [alias], w);
  }

  /** where(a)->orWhere(b)->andWhere(c) gives "... WHERE (a OR b) AND c". */
  method WhereOrAndSequence(entity: string, alias: string, a: string, b: string, c: string) returns (dql: string)
    requires Truthy(alias) && Atom(a) && Atom(b) && Atom(c)
    ensures dql == "SELECT " + alias + " FROM " + entity + " " + alias + " WHERE " + ("(" + (a + " OR " + b) + ")" + " AND " + c)
  {
    var qb := NewSelectFrom(entity, alias);
    SingleCondition(a);
    Condition(qb, false, And, true, Raw(a), Composite(And, [Raw(a)]));
    WhereOr(a, b);
    var inner := Composite(Or, [Composite(And, [Raw(a)]), Raw(b)]);
    Condition(qb, false, Or, false, Raw(b), inner);
    ExtendBracketsOther(And, inner, c);
    WhereOrAnd(a, b, c);
    var w := Composite(And, [inner, Raw(c)]);
    Condition(qb, false, And, false, Raw(c), w);
    dql := qb.GetDQL();
    SelectFromWhereText(entity, alias, [alias], w);
  }

  /**
   * where(a)->andWhere(b, literal(x)): the literal is refused, but the
   * stored Andx has already taken b, and the builder, DIRTY since where(),
   * renders "... WHERE a AND b".
   */
  method RejectedAndWhereSequence(entity: string, alias: string, a: string, b: string, x: Value)
    returns (err: Option<BuilderError>, dql: string)
    requires Truthy(alias) && Atom(a) && Atom(b)
    ensures err == Some(ExpressionRejected(NotAllowedInContext(LiteralKind)))
    ensures dql == "SELECT " + alias + " FROM " + entity + " " + alias + " WHERE " + (a + " AND " + b)
  {
    var qb := NewSelectFrom(entity, alias);
    SingleCondition(a);
    Condition(qb, false, And, true, Raw(a), Composite(And, [Raw(a)]));
    var args := [Raw(b), LiteralOf(x)];
    assert FirstRejected(AndxBox, args) == Some(1) by {
      assert !Ignored(args[1]) && !Allowed(AndxBox, args[1]);
      assert Allowed(AndxBox, args[0]);
    }
    AddMultipleFailsAtFirstRejected(AndxBox, [Raw(a)], args);
    assert args[..1] == [Raw(b)];
    KeptNone([Raw(b)]);
    err := qb.AndWhere(args);
    WhereAnd(a, b);
    var w := Composite(And, [Raw(a), Raw(b)]);
    assert qb.parts == SelectFrom(entity, alias, [alias]).(where := Some(w));
    dql := qb.GetDQL();
    SelectFromWhereText(entity, alias, [alias], w);
  }

  /** groupBy(g)->having(a)->andHaving(b)->orHaving(c) gives "... GROUP BY g HAVING (a AND b) OR c". */
  method HavingSequence(entity: string, alias: string, g: string, a: string, b: string, c: string) returns (dql: string)
    requires Truthy(alias) && Atom(a) && Atom(b) && Atom(c)
    ensures dql == "SELECT " + alias + " FROM " + entity + " " + alias + " GROUP BY " + g + " HAVING " + ("(" + (a + " AND " + b) + ")" + " OR " + c)
  {
    var qb := NewSelectFrom(entity, alias);
    RawsAccepted(GroupByBox, [g]);
    var err := qb.GroupBy(Raws([g]), false);
    assert Raws([g]) == [Raw(g)];
    SingleCondition(a);
    Condition(qb, true, And, true, Raw(a), Composite(And, [Raw(a)]));
    WhereAnd(a, b);
    var ab := Composite(And, [Raw(a), Raw(b)]);
    Condition(qb, true, And, false, Raw(b), ab);
    HavingAndOr(a, b, c);
    var h := Composite(Or, [ab, Raw(c)]);
    Condition(qb, true, Or, false, Raw(c), h);
    assert qb.parts == SelectFrom(entity, alias, [alias]).(groupBy := [QueryExpr.GroupBy([Raw(g)])], having := Some(h));
    dql := qb.GetDQL();
    SelectFromHavingText(entity, alias, [alias], g, h);
  }

  // ---------------------------------------------------------------------
  // Joins placed after their own root

  /** The parent of "r.field" is r when r holds no dot. */
  lemma ParentOfPath(r: string, field: string)
    requires '.' !in r
    ensures ParentAlias(r + "." + field) == r
  {
    var path := r + "." + field;
    assert path[|r|] == '.';
    assert path[..|r|] == r;
    assert r == path[..|r|];
  }

  /** A join without condition or index renders as its type, the path and the alias. */
  lemma PlainJoinText(t: JoinType, path: string, alias: string)
    requires Truthy(alias)
    ensures JoinText(JoinOn(t, path, alias, None, None, None)) == JoinTypeText(t) + " JOIN " + path + " " + alias
  {
    var s := JoinTypeText(t) + " JOIN " + path + " " + alias;
    assert JoinText(JoinOn(t, path, alias, None, None, None)) == s + "" + "";
    assert s + "" == s;
  }

  /** Two joins of one root, each after a blank. */
  lemma TwoJoinsText(j1: JoinClause, j2: JoinClause)
    ensures JoinsText([j1, j2]) == " " + JoinText(j1) + " " + JoinText(j2)
  {
    assert [j1, j2][..1] == [j1];
    assert [j1][..0] == [];
    assert JoinsText([j1]) == "" + " " + JoinText(j1);
    assert "" + " " + JoinText(j1) == " " + JoinText(j1);
  }

  /** One join of a root, after a blank. */
  lemma OneJoinText(j: JoinClause)
    ensures JoinsText([j]) == " " + JoinText(j)
  {
    assert [j][..0] == [];
    assert JoinsText([j]) == "" + " " + JoinText(j);
  }

  /** Two roots are separated by a comma, each followed by its own joins. */
  lemma TwoRootsText(f1: FromClause, f2: FromClause, joins: map<string, seq<JoinClause>>)
    ensures FromSection([f1, f2], joins) == " FROM " + RootText(f1, joins) + ", " + RootText(f2, joins)
  {
    assert RootTexts([f1], joins) == [RootText(f1, joins)];
    assert FromSection([f1], joins) == " FROM " + RootText(f1, joins);
    assert [f1] + [f2] == [f1, f2];
    FromSectionSnoc([f1], f2, joins);
  }

  /** A select list of strings followed by any FROM section. */
  lemma SelectListText(items: seq<string>, froms: seq<FromClause>, joins: map<string, seq<JoinClause>>)
    ensures SelectDql(EmptyParts().(select := [QueryExpr.Select(Raws(items))], from := froms, join := joins))
         == "SELECT " + Join(items, ", ") + FromSection(froms, joins)
  {
    var p := EmptyParts().(select := [QueryExpr.Select(Raws(items))], from := froms, join := joins);
    var j := Join(items, ", ");
    SelectOfRaws(items);
    assert ListPart(p.select, " ", ", ") == " " + j;
    SelectShape(p, "", " " + j, FromSection(froms, joins), "", "", "", "");
    ListAlgebra(j, FromSection(froms, joins));
  }

  lemma ListAlgebra(j: string, from: string)
    ensures "SELECT" + "" + (" " + j) + from + "" + "" + "" + "" == "SELECT " + j + from
  {
  }

  /**
   * select(u, g)->from(E1, u)->from(E2, a)->innerJoin('u.fg', g)
   * ->leftJoin('u.fad', ad)->innerJoin('a.fc', c): each join follows its
   * own root, u's two joins before the comma and a's join after E2 a.
   */
  method MultipleFromJoinSequence(e1: string, u: string, e2: string, a: string,
                                  fg: string, g: string, fad: string, ad: string, fc: string, c: string)
    returns (dql: string)
    requires Truthy(u) && u != a && '.' !in u && '.' !in a
    requires Truthy(g) && Truthy(ad) && Truthy(c)
    ensures dql == "SELECT " + u + ", " + g
                 + " FROM " + (e1 + " " + u + " INNER JOIN " + (u + "." + fg) + " " + g + " LEFT JOIN " + (u + "." + fad) + " " + ad)
                 + ", " + (e2 + " " + a + " INNER JOIN " + (a + "." + fc) + " " + c)
  {
    var qb := new QueryBuilder();
    RawsAccepted(SelectBox, [u, g]);
    var err := qb.Select(Raws([u, g]));
    qb.From(e1, u, None);
    qb.From(e2, a, None);
    var f1, f2 := QueryParts.From(e1, u, None), QueryParts.From(e2, a, None);
    assert qb.parts == EmptyParts().(select := [QueryExpr.Select(Raws([u, g]))], from := [f1, f2]);
    JoinUnderTwoRoots(qb, u, a, fg, g, fad, ad, fc, c);
    dql := qb.GetDQL();
    MultipleFromJoinText(e1, u, e2, a, fg, g, fad, ad, fc, c, qb.parts.join);
  }

  /** innerJoin('u.fg', g)->leftJoin('u.fad', ad)->innerJoin('a.fc', c) on a builder whose roots are u and a. */
  method JoinUnderTwoRoots(qb: QueryBuilder, u: string, a: string, fg: string, g: string, fad: string, ad: string, fc: string, c: string)
    requires RootAliasesOf(qb.parts.from) == [u, a] && qb.parts.join == map[]
    requires u != a && '.' !in u && '.' !in a
    modifies qb
    ensures qb.queryType == old(qb.queryType) && qb.parts == old(qb.parts).(join := qb.parts.join) && qb.state == Dirty
    ensures u in qb.parts.join && qb.parts.join[u] == [JoinOn(Inner, u + "." + fg, g, None, None, None), JoinOn(Left, u + "." + fad, ad, None, None, None)]
    ensures a in qb.parts.join && qb.parts.join[a] == [JoinOn(Inner, a + "." + fc, c, None, None, None)]
  {
    var j3 := JoinOn(Inner, a + "." + fc, c, None, None, None);
    JoinTwiceUnderRoot(qb, u, fg, g, fad, ad);
    ParentOfPath(a, fc);
    assert a in RootAliasesOf(qb.parts.from);
    var err := qb.Join(Inner, a + "." + fc, c, None, None, None);
    assert qb.parts.join[a] == [j3] by {
      assert [] + [j3] == [j3];
    }
  }

  /** innerJoin('u.fg', g)->leftJoin('u.fad', ad) on a builder without joins: both go under root u, in order. */
  method JoinTwiceUnderRoot(qb: QueryBuilder, u: string, fg: string, g: string, fad: string, ad: string)
    requires u in RootAliasesOf(qb.parts.from) && qb.parts.join == map[] && '.' !in u
    modifies qb
    ensures qb.queryType == old(qb.queryType) && qb.parts == old(qb.parts).(join := qb.parts.join)
    ensures qb.parts.join.Keys == {u}
    ensures qb.parts.join[u] == [JoinOn(Inner, u + "." + fg, g, None, None, None), JoinOn(Left, u + "." + fad, ad, None, None, None)]
  {
    var j1 := JoinOn(Inner, u + "." + fg, g, None, None, None);
    var j2 := JoinOn(Left, u + "." + fad, ad, None, None, None);
    ParentOfPath(u, fg);
    ParentOfPath(u, fad);
    var err := qb.Join(Inner, u + "." + fg, g, None, None, None);
    assert qb.parts.join[u] == [j1] by {
      assert [] + [j1] == [j1];
    }
    err := qb.Join(Left, u + "." + fad, ad, None, None, None);
    assert qb.parts.join[u] == [j1, j2] by {
      assert [j1] + [j2] == [j1, j2];
    }
  }

  /** The DQL of the parts MultipleFromJoinSequence builds. */
  lemma MultipleFromJoinText(e1: string, u: string, e2: string, a: string,
                             fg: string, g: string, fad: string, ad: string, fc: string, c: string,
                             joins: map<string, seq<JoinClause>>)
    requires Truthy(g) && Truthy(ad) && Truthy(c)
    requires u in joins && joins[u] == [JoinOn(Inner, u + "." + fg, g, None, None, None), JoinOn(Left, u + "." + fad, ad, None, None, None)]
    requires a in joins && joins[a] == [JoinOn(Inner, a + "." + fc, c, None, None, None)]
    ensures SelectDql(EmptyParts().(select := [QueryExpr.Select(Raws([u, g]))],
                              from := [QueryParts.From(e1, u, None), QueryParts.From(e2, a, None)],
                              join := joins))
      == "SELECT " + u + ", " + g
       + " FROM " + (e1 + " " + u + " INNER JOIN " + (u + "." + fg) + " " + g + " LEFT JOIN " + (u + "." + fad) + " " + ad)
       + ", " + (e2 + " " + a + " INNER JOIN " + (a + "." + fc) + " " + c)
  {
    var f1, f2 := QueryParts.From(e1, u, None), QueryParts.From(e2, a, None);
    SelectListText([u, g], [f1, f2], joins);
    assert Join([u, g], ", ") == u + ", " + g by {
      assert [u, g][1..] == [g];
    }
    TwoRootsText(f1, f2, joins);
    TwoJoinRootText(e1, u, u + "." + fg, g, u + "." + fad, ad, joins);
    OneJoinRootText(e2, a, a + "." + fc, c, joins);
    DqlAlgebra(u, g, RootText(f1, joins), RootText(f2, joins));
  }

  /** A root with an inner and then a left join. */
  lemma TwoJoinRootText(e: string, u: string, p1: string, g: string, p2: string, ad: string, joins: map<string, seq<JoinClause>>)
    requires Truthy(g) && Truthy(ad)
    requires u in joins && joins[u] == [JoinOn(Inner, p1, g, None, None, None), JoinOn(Left, p2, ad, None, None, None)]
    ensures RootText(QueryParts.From(e, u, None), joins) == e + " " + u + " INNER JOIN " + p1 + " " + g + " LEFT JOIN " + p2 + " " + ad
  {
    var f := QueryParts.From(e, u, None);
    var j1, j2 := JoinOn(Inner, p1, g, None, None, None), JoinOn(Left, p2, ad, None, None, None);
    PlainJoinText(Inner, p1, g);
    PlainJoinText(Left, p2, ad);
    TwoJoinsText(j1, j2);
    assert FromText(f) == e + " " + u;
    assert JoinTypeText(Inner) + " JOIN " == "INNER JOIN " && JoinTypeText(Left) + " JOIN " == "LEFT JOIN ";
    assert RootText(f, joins) == (e + " " + u) + (" " + JoinText(j1) + " " + JoinText(j2));
    RootAlgebra(e, u, p1, g, p2, ad);
  }

  /** A root with one inner join. */
  lemma OneJoinRootText(e: string, a: string, p: string, c: string, joins: map<string, seq<JoinClause>>)
    requires Truthy(c)
    requires a in joins && joins[a] == [JoinOn(Inner, p, c, None, None, None)]
    ensures RootText(QueryParts.From(e, a, None), joins) == e + " " + a + " INNER JOIN " + p + " " + c
  {
    var f := QueryParts.From(e, a, None);
    var j := JoinOn(Inner, p, c, None, None, None);
    PlainJoinText(Inner, p, c);
    OneJoinText(j);
    assert FromText(f) == e + " " + a;
    assert JoinTypeText(Inner) + " JOIN " == "INNER JOIN ";
    assert RootText(f, joins) == (e + " " + a) + (" " + JoinText(j));
  }

  lemma RootAlgebra(e: string, u: string, p1: string, g: string, p2: string, ad: string)
    ensures (e + " " + u) + (" " + ("INNER JOIN " + p1 + " " + g) + " " + ("LEFT JOIN " + p2 + " " + ad))
         == e + " " + u + " INNER JOIN " + p1 + " " + g + " LEFT JOIN " + p2 + " " + ad
  {
  }

  lemma DqlAlgebra(u: string, g: string, r1: string, r2: string)
    ensures "SELECT " + (u + ", " + g) + (" FROM " + r1 + ", " + r2) == "SELECT " + u + ", " + g + " FROM " + r1 + ", " + r2
  {
  }
}

