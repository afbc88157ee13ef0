/**
 * Client code for the builder's life cycle in its tests: the CLEAN/DIRTY
 * state, resetting parts, cloning, aliases, parameters, add() with its
 * refusal to append to where, literals and DISTINCT.
 */
module BuilderLifecycle {
  import opened Wrappers
  import opened Strings
  import opened QueryExpr
  import opened QueryParts
  import opened QueryBuilding
  import opened BuilderScenarios
  import opened BuilderSequences

  /** A new builder is CLEAN; select()->from() makes it DIRTY; getDQL() makes it CLEAN again. */
  method StateSequence(entity: string, alias: string) returns (initial: BuilderState, altered: BuilderState, rendered: BuilderState)
    ensures initial == Clean && altered == Dirty && rendered == Clean
  {
    var qb := new QueryBuilder();
    initial := qb.state;
    var err := qb.Select([Raw(alias)]);
    qb.From(entity, alias, None);
    altered := qb.state;
    var dql := qb.GetDQL();
    rendered := qb.state;
  }

  /**
   * distinct() and a select() without arguments do not go through add(),
   * so after getDQL() the next getDQL() still returns the cached string;
   * resetDQLPart() makes the builder DIRTY, and the DISTINCT shows.
   */
  method CachedAfterDirectWrites(entity: string, alias: string)
    returns (first: string, afterDirect: string, afterReset: string)
    requires Truthy(alias)
    ensures first == "SELECT " + alias + " FROM " + entity + " " + alias
    ensures afterDirect == first
    ensures afterReset == "SELECT DISTINCT " + alias + " FROM " + entity + " " + alias
  {
    var qb := NewSelectFrom(entity, alias);
    first := qb.GetDQL();
    SelectFromText(entity, alias, [alias]);
    qb.Distinct(true);
    var err := qb.Select([]);
    afterDirect := qb.GetDQL();
    qb.ResetDQLPart(OrderByPart);
    assert qb.parts == SelectFrom(entity, alias, [alias]).(distinct := true);
    afterReset := qb.GetDQL();
    DistinctText(entity, alias);
  }

  /** select(u)->from(E, u)->where(c)->orderBy(s), the builder the reset tests start from. */
  method UserQuery(entity: string, alias: string, c: string, sort: string) returns (qb: QueryBuilder)
    requires Truthy(alias) && Truthy(sort)
    ensures fresh(qb)
    ensures qb.parts == SelectFrom(entity, alias, [alias]).(where := Some(Composite(And, [Raw(c)])),
                                                         orderBy := [OrderBy([OrderEntry(sort, None)])])
  {
    qb := new QueryBuilder();
    RawsAccepted(SelectBox, [alias]);
    var err := qb.Select(Raws([alias]));
    qb.From(entity, alias, None);
    SingleCondition(c);
    err := qb.Where([Raw(c)]);
    qb.OrderBy(Raw(sort), None, false);
  }

  /**
   * resetDQLPart('where')->resetDQLPart('orderBy') leaves no condition and
   * no ordering; resetDQLParts(['where', 'orderBy']) keeps the selection;
   * resetDQLParts() without names drops it too.
   */
  method ResetSequence(entity: string, alias: string, c: string, sort: string)
    returns (whereText: string, ordersBefore: nat, whereAfter: PartValue, ordersAfter: nat,
             selectsKept: nat, whereKept: PartValue, selectsAfterAll: nat, whereAfterAll: PartValue)
    requires Truthy(alias) && Truthy(sort)
    ensures whereText == c && ordersBefore == 1
    ensures whereAfter == WhereValue(None) && ordersAfter == 0
    ensures selectsKept == 1 && whereKept == WhereValue(None)
    ensures selectsAfterAll == 0 && whereAfterAll == WhereValue(None)
  {
    var qb := UserQuery(entity, alias, c, sort);
    SingleCondition(c);
    whereText := Render(qb.GetDQLPart(WherePart).where.value);
    ordersBefore := |qb.GetDQLPart(OrderByPart).orders|;
    qb.ResetDQLPart(WherePart);
    qb.ResetDQLPart(OrderByPart);
    whereAfter := qb.GetDQLPart(WherePart);
    ordersAfter := |qb.GetDQLPart(OrderByPart).orders|;

    qb := UserQuery(entity, alias, c, sort);
    qb.ResetDQLParts([WherePart, OrderByPart]);
    ResetPartsEffect(SelectFrom(entity, alias, [alias]).(where := Some(Composite(And, [Raw(c)])),
                                                          orderBy := [OrderBy([OrderEntry(sort, None)])]),
                     [WherePart, OrderByPart], SelectPart);
    ResetPartsEffect(SelectFrom(entity, alias, [alias]).(where := Some(Composite(And, [Raw(c)])),
                                                          orderBy := [OrderBy([OrderEntry(sort, None)])]),
                     [WherePart, OrderByPart], WherePart);
    selectsKept := |qb.GetDQLPart(SelectPart).selects|;
    whereKept := qb.GetDQLPart(WherePart);

    qb := UserQuery(entity, alias, c, sort);
    qb.ResetAllDQLParts();
    selectsAfterAll := |qb.GetDQLPart(SelectPart).selects|;
    whereAfterAll := qb.GetDQLPart(WherePart);
  }

  /** andWhere(a) on a builder without condition starts an Andx holding a. */
  lemma FirstAndWhere(a: string)
    ensures Extend(And, None, [Raw(a)]) == Ok(Composite(And, [Raw(a)]))
  {
    var args := [Raw(a)];
    assert [] + args == args;
    KeptNone(args);
  }

  /** andWhere(c) on an Andx grows it by c. */
  lemma AndWhereGrows(ps: seq<Expr>, c: string)
    ensures Extend(And, Some(Composite(And, ps)), [Raw(c)]) == Ok(Composite(And, ps + [Raw(c)]))
  {
    KeptNone([Raw(c)]);
  }

  /**
   * Deep clone: after andWhere(a)->andWhere(b) the condition has two parts;
   * andWhere(c) on a clone gives the clone three and leaves the original
   * with two.
   */
  method DeepCloneSequence(entity: string, alias: string, a: string, b: string, c: string)
    returns (before: nat, after: nat, copyCount: nat)
    requires Atom(a) && Atom(b)
    ensures before == 2 && after == 2 && copyCount == 3
  {
    var qb := new QueryBuilder();
    var err := qb.Select([Raw(alias)]);
    qb.From(entity, alias, None);
    FirstAndWhere(a);
    err := qb.AndWhere([Raw(a)]);
    WhereAnd(a, b);
    err := qb.AndWhere([Raw(b)]);
    before := |qb.parts.where.value.parts|;
    var qb2 := qb.Clone();
    AndWhereGrows([Raw(a), Raw(b)], c);
    err := qb2.AndWhere([Raw(c)]);
    after := |qb.parts.where.value.parts|;
    copyCount := |qb2.parts.where.value.parts|;
  }

  /** Parameters are copied with the builder: a parameter set on the copy does not reach the original. */
  method ParametersClonedSequence(k1: string, v1: Value, k2: string, v2: Value)
    returns (originalCount: nat, got1: Option<Parameter>, got2: Option<Parameter>)
    requires Trim(k1, ':') == k1 && Trim(k2, ':') == k2 && k1 != k2
    ensures originalCount == 1
    ensures got1 == Some(Parameter(k1, v1, None)) && got2 == Some(Parameter(k2, v2, None))
  {
    var original := new QueryBuilder();
    original.SetParameter(k1, v1, None);
    var copy := original.Clone();
    copy.SetParameter(k2, v2, None);
    originalCount := |original.parameters|;
    assert copy.parameters == [Parameter(k1, v1, None), Parameter(k2, v2, None)] by {
      assert Names([Parameter(k1, v1, None)]) == [k1];
    }
    SetThenGet([Parameter(k1, v1, None)], k2, v2, None);
    got2 := copy.GetParameter(k2);
    got1 := copy.GetParameter(k1);
    assert Names(copy.parameters)[0] == k1;
  }

  /** from(E, u)->from(E, u2): the root aliases in order, the first as the root alias, one entity per root. */
  method RootAliasSequence(entity: string, u: string, u2: string)
    returns (aliases: seq<string>, first: Result<string, BuilderError>, entities: seq<string>)
    ensures aliases == [u, u2] && first == Ok(u) && entities == [entity, entity]
  {
    var qb := new QueryBuilder();
    var err := qb.Select([Raw(u)]);
    qb.From(entity, u, None);
    qb.From(entity, u2, None);
    assert qb.parts.from == [QueryParts.From(entity, u, None), QueryParts.From(entity, u2, None)];
    aliases := qb.RootAliases();
    first := qb.RootAlias();
    entities := qb.RootEntities();
  }

  /** getAllAliases: the root alias alone, then with join('u.f', g) the root and the join alias. */
  method AllAliasesSequence(entity: string, u: string, field: string, g: string)
    returns (withoutJoins: seq<string>, withJoin: seq<string>)
    requires '.' !in u
    ensures withoutJoins == [u] && withJoin == [u, g]
  {
    var qb := new QueryBuilder();
    var err := qb.Select([Raw(u)]);
    qb.From(entity, u, None);
    withoutJoins := qb.AllAliases();
    ParentOfPath(u, field);
    assert RootAliasesOf(qb.parts.from) == [u];
    err := qb.Join(Inner, u + "." + field, g, None, None, None);
    withJoin := qb.AllAliases();
  }

  /** add('where', c) then add('where', d, true): the second call is refused and the condition stays c. */
  method WhereAppendSequence(c: Expr, d: Expr) returns (first: Option<BuilderError>, second: Option<BuilderError>, kept: Option<Expr>)
    ensures first.None? && second == Some(AppendToWhereOrHaving) && kept == Some(c)
  {
    var qb := new QueryBuilder();
    first := qb.Add(WhereValue(Some(c)), false);
    second := qb.Add(WhereValue(Some(d)), true);
    kept := qb.parts.where;
  }

  /** add('join', ['INNER JOIN u.f g'], true) without root alias: the join follows the first root. */
  method UnkeyedJoinSequence(entity: string, alias: string, join: string) returns (dql: string)
    requires Truthy(alias)
    ensures dql == "SELECT " + alias + " FROM " + entity + " " + alias + " " + join
  {
    var qb := new QueryBuilder();
    RawsAccepted(SelectBox, [alias]);
    var err := qb.Select(Raws([alias]));
    qb.From(entity, alias, None);
    var f := QueryParts.From(entity, alias, None);
    err := qb.Add(UnkeyedJoins([RawJoin(join)]), true);
    assert qb.parts.join[alias] == [RawJoin(join)] by {
      assert [] + [RawJoin(join)] == [RawJoin(join)];
    }
    dql := qb.GetDQL();
    UnkeyedJoinText(entity, alias, join, qb.parts.join);
  }

  lemma UnkeyedJoinText(entity: string, alias: string, join: string, joins: map<string, seq<JoinClause>>)
    requires alias in joins && joins[alias] == [RawJoin(join)]
    ensures SelectDql(EmptyParts().(select := [QueryExpr.Select(Raws([alias]))], from := [QueryParts.From(entity, alias, None)], join := joins))
         == "SELECT " + alias + " FROM " + entity + " " + alias + " " + join
  {
    var f := QueryParts.From(entity, alias, None);
    SelectListText([alias], [f], joins);
    assert Join([alias], ", ") == alias;
    RawJoinRootText(entity, alias, join, joins);
    JoinedAlgebra("SELECT " + alias, entity, alias, join);
  }

  lemma RawJoinRootText(entity: string, alias: string, join: string, joins: map<string, seq<JoinClause>>)
    requires alias in joins && joins[alias] == [RawJoin(join)]
    ensures FromSection([QueryParts.From(entity, alias, None)], joins) == " FROM " + entity + " " + alias + " " + join
  {
    var f := QueryParts.From(entity, alias, None);
    var head := entity + " " + alias;
    assert FromText(f) == head + "";
    assert head + "" == head;
    OneJoinText(RawJoin(join));
    assert JoinText(RawJoin(join)) == join;
    var rt := RootText(f, joins);
    assert rt == head + (" " + join);
    assert RootTexts([f], joins) == [rt];
    assert Join([rt], ", ") == rt;
    JoinedAlgebra("", entity, alias, join);
  }

  lemma JoinedAlgebra(pre: string, entity: string, alias: string, join: string)
    ensures pre + (" FROM " + entity + " " + alias + " " + join) == pre + " FROM " + entity + " " + alias + " " + join
    ensures " FROM " + (entity + " " + alias + (" " + join)) == " FROM " + entity + " " + alias + " " + join
  {
  }

  /** select(u)->distinct()->from(E, u) gives "SELECT DISTINCT u FROM E u". */
  method DistinctSequence(entity: string, alias: string) returns (dql: string)
    requires Truthy(alias)
    ensures dql == "SELECT DISTINCT " + alias + " FROM " + entity + " " + alias
  {
    var qb := new QueryBuilder();
    RawsAccepted(SelectBox, [alias]);
    var err := qb.Select(Raws([alias]));
    qb.Distinct(true);
    qb.From(entity, alias, None);
    assert qb.parts == SelectFrom(entity, alias, [alias]).(distinct := true);
    dql := qb.GetDQL();
    DistinctText(entity, alias);
  }

  lemma DistinctText(entity: string, alias: string)
    ensures SelectDql(SelectFrom(entity, alias, [alias]).(distinct := true)) == "SELECT DISTINCT " + alias + " FROM " + entity + " " + alias
  {
    var p := SelectFrom(entity, alias, [alias]).(distinct := true);
    SelectOfRaws([alias]);
    assert Join([alias], ", ") == alias;
    assert ListPart(p.select, " ", ", ") == " " + alias;
    OneRootText(entity, alias);
    var head := "SELECT" + " DISTINCT" + (" " + alias) + (" FROM " + (entity + " " + alias));
    assert SelectDql(p) == head + "" + "" + "" + "";
    assert head + "" == head;
  }

  /** where(eq(f, literal(v))): a condition comparing a field with a literal, which renders as "f = " and the quoted value. */
  lemma LiteralCondition(f: string, v: Value)
    ensures Predicates([Compare(Raw(f), Eq, LiteralOf(v))]) == Ok(Composite(And, [Comparison(Raw(f), Eq, Literal(QuoteLiteral(v)))]))
    ensures Render(Composite(And, [Comparison(Raw(f), Eq, Literal(QuoteLiteral(v)))])) == f + " = " + QuoteLiteral(v)
  {
    var args := [Compare(Raw(f), Eq, LiteralOf(v))];
    assert !Ignored(args[0]) && Allowed(AndxBox, args[0]);
    KeptNone(args);
    assert [] + args == args;
    var q := QuoteLiteral(v);
    assert Render(Comparison(Raw(f), Eq, Literal(q))) == f + " " + "=" + " " + q;
    assert f + " " + "=" + " " + q == f + " = " + q;
  }

  /** The literals of the empty string and of 0: "''" and "0". */
  lemma EmptyLiterals()
    ensures QuoteLiteral(Str("")) == "''" && QuoteLiteral(Int(0)) == "0"
  {
    assert EscapeQuotes("") == "";
    assert "'" + "" + "'" == "''";
    assert DigitChar(0) == '0';
    assert IntToString(0) == NatToString(0) == ['0'];
  }

  /** where(eq(f, literal(''))) and where(eq(f, literal(0))) render as "f = ''" and "f = 0". */
  method EmptyLiteralSequence(entity: string, alias: string, f: string) returns (stringDql: string, numericDql: string)
    requires Truthy(alias)
    ensures stringDql == "SELECT " + alias + " FROM " + entity + " " + alias + " WHERE " + (f + " = " + "''")
    ensures numericDql == "SELECT " + alias + " FROM " + entity + " " + alias + " WHERE " + (f + " = " + "0")
  {
    EmptyLiterals();
    stringDql := LiteralSequence(entity, alias, f, Str(""));
    numericDql := LiteralSequence(entity, alias, f, Int(0));
  }

  /** select(u)->from(E, u)->where(eq(f, literal(v))). */
  method LiteralSequence(entity: string, alias: string, f: string, v: Value) returns (dql: string)
    requires Truthy(alias)
    ensures dql == "SELECT " + alias + " FROM " + entity + " " + alias + " WHERE " + (f + " = " + QuoteLiteral(v))
  {
    var qb := new QueryBuilder();
    RawsAccepted(SelectBox, [alias]);
    var err := qb.Select(Raws([alias]));
    qb.From(entity, alias, None);
    LiteralCondition(f, v);
    err := qb.Where([Compare(Raw(f), Eq, LiteralOf(v))]);
    var w := Composite(And, [Comparison(Raw(f), Eq, Literal(QuoteLiteral(v)))]);
    assert qb.parts == SelectFrom(entity, alias, [alias]).(where := Some(w));
    dql := qb.GetDQL();
    SelectFromWhereText(entity, alias, [alias], w);
  }
}
