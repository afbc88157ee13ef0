/**
 * Doctrine\ORM\QueryBuilder: a mutable object holding the DQL parts, the
 * bound parameters, pagination values, second-level cache options, the
 * query type and a CLEAN/DIRTY state that guards the cached DQL string.
 * Every method changes the fields step by step as the builder's fluent
 * calls do; the parts themselves and their rendering live in QueryParts.
 */
module QueryBuilding {
  import opened Wrappers
  import opened Strings
  import opened QueryExpr
  import opened QueryParts
  import C = Criteria
  import V = CriteriaVisitor

  datatype BuilderState = Clean | Dirty

  // ---------------------------------------------------------------------
  // Parameters (an ordered ArrayCollection of Query\Parameter)

  /** getParameter: the first parameter whose name equals the key. */
  function GetParameterOf(ps: seq<Parameter>, key: string): (r: Option<Parameter>)
    ensures r.Some? ==> exists i :: 0 <= i < |ps| && ps[i] == r.value && r.value.name == key && key !in Names(ps[..i])
    ensures r.None? <==> key !in Names(ps)
  {
    if |ps| == 0 then None
    else if ps[0].name == key then
      assert Names(ps[..0]) == [];
      assert Names(ps)[0] == key;
      Some(ps[0])
    else
      var r := GetParameterOf(ps[1..], key);
      assert Names(ps) == [ps[0].name] + Names(ps[1..]);
      if r.Some? then
        var i :| 0 <= i < |ps[1..]| && ps[1..][i] == r.value && r.value.name == key && key !in Names(ps[1..][..i]);
        assert Names(ps[..i + 1]) == [ps[0].name] + Names(ps[1..][..i]);
        r
      else r
  }

  /**
   * setParameter: the first parameter with that name takes the new value
   * and type; without one, a parameter is appended under the key with
   * its leading and trailing ':' removed.
   */
  function SetParameterIn(ps: seq<Parameter>, key: string, v: Value, t: Option<string>): (r: seq<Parameter>)
    ensures key in Names(ps) ==> |r| == |ps|
    ensures key !in Names(ps) ==> r == ps + [Parameter(Trim(key, ':'), v, t)]
  {
    if |ps| == 0 then [Parameter(Trim(key, ':'), v, t)]
    else
      assert Names(ps) == [ps[0].name] + Names(ps[1..]);
      if ps[0].name == key then [ps[0].(value := v, typeName := t)] + ps[1..]
      else [ps[0]] + SetParameterIn(ps[1..], key, v, t)
  }

  /** After setParameter(key, v, t) a key without surrounding ':' reads back the value and type just set. */
  lemma {:induction false} SetThenGet(ps: seq<Parameter>, key: string, v: Value, t: Option<string>)
    requires Trim(key, ':') == key
    ensures GetParameterOf(SetParameterIn(ps, key, v, t), key) == Some(Parameter(key, v, t))
  {
    if |ps| > 0 && ps[0].name != key {
      SetThenGet(ps[1..], key, v, t);
    }
  }

  /** setParameter leaves the lookup of every other name alone. */
  lemma {:induction false} SetLeavesOthers(ps: seq<Parameter>, key: string, v: Value, t: Option<string>, other: string)
    requires other != key && other != Trim(key, ':')
    ensures GetParameterOf(SetParameterIn(ps, key, v, t), other) == GetParameterOf(ps, other)
  {
    if |ps| > 0 && ps[0].name != key {
      SetLeavesOthers(ps[1..], key, v, t, other);
    }
  }

  /** Setting a bound name again rebinds it and adds no parameter: exactly one new entry per new name. */
  lemma SetParameterCount(ps: seq<Parameter>, key: string, v: Value, t: Option<string>)
    ensures |SetParameterIn(ps, key, v, t)| == |ps| + (if key in Names(ps) then 0 else 1)
  {
  }

  // ---------------------------------------------------------------------
  // Join aliases (the joinRootAliases array: join alias => root alias, in insertion order)

  function Keys(xs: seq<(string, string)>): (r: seq<string>)
    ensures |r| == |xs| && forall i :: 0 <= i < |xs| ==> r[i] == xs[i].0
  {
    seq(|xs|, i requires 0 <= i < |xs| => xs[i].0)
  }

  function AssocGet(xs: seq<(string, string)>, k: string): (r: Option<string>)
    ensures r.None? <==> k !in Keys(xs)
    ensures r.Some? ==> (k, r.value) in xs
  {
    if |xs| == 0 then None
    else if xs[0].0 == k then Some(xs[0].1)
    else
      assert Keys(xs) == [xs[0].0] + Keys(xs[1..]);
      AssocGet(xs[1..], k)
  }

  lemma KeysCons(x: (string, string), rest: seq<(string, string)>)
    ensures Keys([x] + rest) == [x.0] + Keys(rest)
  {
  }

  lemma AssocGetCons(x: (string, string), rest: seq<(string, string)>)
    ensures forall j :: AssocGet([x] + rest, j) == if x.0 == j then Some(x.1) else AssocGet(rest, j)
  {
    assert ([x] + rest)[1..] == rest;
  }

  /** $array[k] = v on the join-alias array. */
  function AssocPut(xs: seq<(string, string)>, k: string, v: string): seq<(string, string)>
  {
    if |xs| == 0 then [(k, v)]
    else if xs[0].0 == k then [(k, v)] + xs[1..]
    else [xs[0]] + AssocPut(xs[1..], k, v)
  }

  /** An existing key keeps its place; a new key goes last. */
  lemma {:induction false} AssocPutKeys(xs: seq<(string, string)>, k: string, v: string)
    ensures Keys(AssocPut(xs, k, v)) == if k in Keys(xs) then Keys(xs) else Keys(xs) + [k]
  {
    if |xs| > 0 {
      var x, tail := xs[0], xs[1..];
      assert xs == [x] + tail;
      KeysCons(x, tail);
      if x.0 == k {
        KeysCons((k, v), tail);
      } else {
        AssocPutKeys(tail, k, v);
        KeysCons(x, AssocPut(tail, k, v));
      }
    }
  }

  /** The key reads back the new value; every other key reads back what it did before. */
  lemma {:induction false} AssocPutGet(xs: seq<(string, string)>, k: string, v: string, j: string)
    ensures AssocGet(AssocPut(xs, k, v), j) == if j == k then Some(v) else AssocGet(xs, j)
  {
    if |xs| > 0 {
      var x, tail := xs[0], xs[1..];
      assert xs == [x] + tail;
      AssocGetCons(x, tail);
      if x.0 == k {
        AssocGetCons((k, v), tail);
      } else {
        AssocPutGet(tail, k, v, j);
        AssocGetCons(x, AssocPut(tail, k, v));
      }
    } else {
      AssocGetCons((k, v), []);
    }
  }

  /** The alias before the first '.' of a join path, or "" for a path without one. */
  function ParentAlias(path: string): (r: string)
    ensures '.' !in path ==> r == ""
    ensures '.' in path ==> r + "." <= path && '.' !in r
  {
    match IndexOf(path, '.')
    case Some(i) => path[..i]
    case None => ""
  }

  /**
   * findRootAlias: a parent that is a root is its own root; a parent that
   * is a join alias has the root recorded for it; anything else falls back
   * to the first root, which must exist.
   */
  function FindRootAlias(parent: string, roots: seq<string>, joinRoots: seq<(string, string)>): (r: Result<string, BuilderError>)
    ensures r.Err? <==> parent !in roots && parent !in Keys(joinRoots) && |roots| == 0
    ensures r.Err? ==> r.error == NoRootAlias
    ensures parent in roots ==> r == Ok(parent)
    ensures parent !in roots && parent in Keys(joinRoots) ==> r == Ok(AssocGet(joinRoots, parent).value)
    ensures parent !in roots && parent !in Keys(joinRoots) && |roots| > 0 ==> r == Ok(roots[0])
  {
    if parent in roots then Ok(parent)
    else match AssocGet(joinRoots, parent)
      case Some(root) => Ok(root)
      case None => if |roots| > 0 then Ok(roots[0]) else Err(NoRootAlias)
  }

  function RootEntitiesOf(froms: seq<FromClause>): (r: seq<string>)
    ensures |r| == |froms| && forall i :: 0 <= i < |froms| ==> r[i] == froms[i].entity
  {
    seq(|froms|, i requires 0 <= i < |froms| => froms[i].entity)
  }

  /** indexBy on the parts: every root with that alias takes the new INDEX BY. */
  function Reindexed(froms: seq<FromClause>, alias: string, indexBy: string): (r: seq<FromClause>)
    ensures |r| == |froms|
    ensures forall i :: 0 <= i < |froms| ==> r[i] == if froms[i].alias == alias then froms[i].(indexBy := Some(indexBy)) else froms[i]
  {
    seq(|froms|, i requires 0 <= i < |froms| => if froms[i].alias == alias then froms[i].(indexBy := Some(indexBy)) else froms[i])
  }

  // ---------------------------------------------------------------------
  // addCriteria as a function of the builder's values

  /** Second-level cache options: they travel with the builder and never reach the DQL. */
  datatype CacheOptions = CacheOptions(cacheable: bool, lifetime: int, region: Option<string>, mode: Option<int>)

  /** Every field of a builder, as one value. */
  datatype BuilderView = BuilderView(
    parts: DqlParts,
    queryType: QueryType,
    state: BuilderState,
    dql: Option<string>,
    parameters: seq<Parameter>,
    firstResult: Option<int>,
    maxResults: Option<int>,
    joinRootAliases: seq<(string, string)>,
    cache: CacheOptions)

  /** What getDQL returns: the cached string of a CLEAN builder that has one, the rendered parts otherwise. */
  function CachedOrRendered(v: BuilderView): string
  {
    if v.state == Clean && v.dql.Some? then v.dql.value else RenderDql(v.queryType, v.parts)
  }

  function AllAliasesOf(v: BuilderView): seq<string>
  {
    RootAliasesOf(v.parts.from) + Keys(v.joinRootAliases)
  }

  /**
   * The orderings of a criteria, each qualified with an alias and added as
   * an ordering with its direction: one "field DIR" entry each, or none for
   * a qualified field that is falsy.
   */
  function CriteriaOrderings(os: seq<(string, C.Direction)>, aliases: seq<string>): (r: seq<Expr>)
    requires |aliases| > 0
    ensures |r| == |os|
    ensures forall i :: 0 <= i < |os| ==>
      (var q := V.QualifyField(os[i].0, aliases);
       r[i].OrderBy? && r[i].entries == if Truthy(q) then [q + " " + C.DirectionText(os[i].1)] else [])
  {
    seq(|os|, i requires 0 <= i < |os| => OrderByItem(Raw(V.QualifyField(os[i].0, aliases)), Some(C.DirectionText(os[i].1))))
  }

  /**
   * addCriteria: with no alias at all it fails; otherwise the criteria's
   * filter, walked with the corrected naming rule, is andWhere()d and its
   * parameters appended, its orderings are addOrderBy()ed, and its
   * pagination values, where given, replace the builder's.
   */
  function ApplyCriteria(v: BuilderView, c: C.Criteria): Result<BuilderView, BuilderError>
  {
    var aliases := AllAliasesOf(v);
    if |aliases| == 0 then Err(NoAliasesForCriteria)
    else
      var filtered: Result<BuilderView, BuilderError> :=
        match c.whereExpression
        case None => Ok(v)
        case Some(e) =>
          var w := V.Dispatch(e, aliases, [], V.FirstFreeSuffix);
          match Extend(And, v.parts.where, [w.expr])
          case Err(err) => Err(err)
          case Ok(where) => Ok(v.(parts := v.parts.(where := Some(where)), parameters := v.parameters + w.bound, state := Dirty));
      match filtered
      case Err(err) => Err(err)
      case Ok(f) =>
        var ordered := if |c.orderings| == 0 then f
          else f.(parts := f.parts.(orderBy := f.parts.orderBy + CriteriaOrderings(c.orderings, aliases)), state := Dirty);
        Ok(ordered.(firstResult := if c.firstResult.Some? then c.firstResult else ordered.firstResult,
                    maxResults := if c.maxResults.Some? then c.maxResults else ordered.maxResults))
  }

  /** A builder without any alias refuses every criteria and stays as it was. */
  lemma CriteriaNeedsAlias(v: BuilderView, c: C.Criteria)
    ensures ApplyCriteria(v, c).Err? && AllAliasesOf(v) == [] ==> ApplyCriteria(v, c).error == NoAliasesForCriteria
    ensures |AllAliasesOf(v)| == 0 <==> ApplyCriteria(v, c) == Err(NoAliasesForCriteria)
  {
    var aliases := AllAliasesOf(v);
    if |aliases| > 0 && c.whereExpression.Some? {
      var w := V.Dispatch(c.whereExpression.value, aliases, [], V.FirstFreeSuffix);
      ExtendOneAllowed(And, v.parts.where, w.expr);
    }
  }

  /** andWhere of one predicate fails only on a current where an Andx refuses. */
  lemma ExtendOneAllowed(j: Junction, current: Option<Expr>, e: Expr)
    requires Allowed(BoxOf(j), e)
    ensures Extend(j, current, [e]).Err? ==>
      (current.Some? && !Ignored(current.value) && !Allowed(BoxOf(j), current.value) && !(current.value.Composite? && current.value.junction == j))
  {
    if current.Some? && current.value.Composite? && current.value.junction == j {
    } else {
      var args := (if current.Some? then [current.value] else []) + [e];
      if current.None? {
        assert args == [e];
      } else {
        assert args == [current.value, e];
      }
    }
  }

  /**
   * What addCriteria gives: the pagination values are the criteria's where
   * set and the builder's otherwise; its orderings follow the builder's,
   * qualified; the parameters it binds follow the builder's, with the
   * values the criteria compares, left to right, under distinct names.
   */
  lemma CriteriaEffect(v: BuilderView, c: C.Criteria)
    requires ApplyCriteria(v, c).Ok?
    ensures var r := ApplyCriteria(v, c).value;
      && r.firstResult == (if c.firstResult.Some? then c.firstResult else v.firstResult)
      && r.maxResults == (if c.maxResults.Some? then c.maxResults else v.maxResults)
      && r.parts.orderBy == v.parts.orderBy + CriteriaOrderings(c.orderings, AllAliasesOf(v))
      && |v.parameters| <= |r.parameters| && r.parameters[..|v.parameters|] == v.parameters
      && Values(r.parameters[|v.parameters|..]) == (if c.whereExpression.Some? then V.BoundValues(c.whereExpression.value) else [])
      && Distinct(Names(r.parameters[|v.parameters|..]))
      && r.parts.from == v.parts.from && r.parts.join == v.parts.join && r.parts.select == v.parts.select
      && r.joinRootAliases == v.joinRootAliases && r.queryType == v.queryType
  {
    var aliases := AllAliasesOf(v);
    var r := ApplyCriteria(v, c).value;
    if c.whereExpression.Some? {
      var w := V.Dispatch(c.whereExpression.value, aliases, [], V.FirstFreeSuffix);
      assert Distinct(Names([]));
      assert r.parameters == v.parameters + w.bound;
      assert r.parameters[|v.parameters|..] == w.bound;
      assert w.bound[0..] == w.bound;
    } else {
      assert r.parameters[|v.parameters|..] == [];
    }
  }

  /** A criteria with nothing in it changes nothing, not even the state. */
  lemma EmptyCriteriaKeepsBuilder(v: BuilderView)
    requires |AllAliasesOf(v)| > 0
    ensures ApplyCriteria(v, C.Empty()) == Ok(v)
  {
  }

  // ---------------------------------------------------------------------
  // The builder object

  class QueryBuilder {
    var parts: DqlParts
    var queryType: QueryType
    var state: BuilderState
    var dql: Option<string>
    var parameters: seq<Parameter>
    var firstResult: Option<int>
    var maxResults: Option<int>
    var joinRootAliases: seq<(string, string)>
    var cache: CacheOptions

    function View(): BuilderView
      reads this
    {
      BuilderView(parts, queryType, state, dql, parameters, firstResult, maxResults, joinRootAliases, cache)
    }

    /** A new builder: empty parts, SELECT, CLEAN, no parameters, no pagination, default cache options. */
    constructor ()
      ensures View() == BuilderView(EmptyParts(), SelectQuery, Clean, None, [], None, None, [], CacheOptions(false, 0, None, None))
    {
      parts := EmptyParts();
      queryType := SelectQuery;
      state := Clean;
      dql := None;
      parameters := [];
      firstResult := None;
      maxResults := None;
      joinRootAliases := [];
      cache := CacheOptions(false, 0, None, None);
    }

    /**
     * getDQL: a CLEAN builder with a cached string returns it, even when a
     * call that does not go through add() (distinct, indexBy, an empty
     * select) changed the parts since; otherwise the DQL is rendered,
     * cached and the state becomes CLEAN.
     */
    method GetDQL() returns (s: string)
      modifies this
      ensures s == CachedOrRendered(old(View()))
      ensures old(state) == Dirty || old(dql).None? ==> s == RenderDql(queryType, parts)
      ensures View() == old(View()).(state := Clean, dql := Some(s))
    {
      if dql.Some? && state == Clean {
        return dql.value;
      }
      s := RenderDql(queryType, parts);
      state := Clean;
      dql := Some(s);
    }

    /** add(name, value, append): stores one part as AddPart says; where/having refuse append. */
    method Add(v: PartValue, append: bool) returns (err: Option<BuilderError>)
      modifies this
      ensures err.None? <==> AddPart(old(parts), v, append).Ok?
      ensures err.None? ==> View() == old(View()).(parts := AddPart(old(parts), v, append).value, state := Dirty)
      ensures err.Some? ==> View() == old(View()) && err.value == AddPart(old(parts), v, append).error
    {
      match AddPart(parts, v, append)
      case Ok(p) =>
        parts := p;
        state := Dirty;
        err := None;
      case Err(e) =>
        err := Some(e);
    }

    /**
     * select()/addSelect(): the type becomes SELECT in any case; an empty
     * first argument adds nothing; otherwise one Expr\Select of the
     * arguments replaces the selections or is appended to them.  Only that
     * last step goes through add(), so only it makes the builder DIRTY.
     */
    method SelectItems(args: seq<Expr>, append: bool) returns (err: Option<BuilderError>)
      modifies this
      ensures queryType == SelectQuery
      ensures EmptyArgument(args) ==> err.None? && View() == old(View()).(queryType := SelectQuery)
      ensures !EmptyArgument(args) ==> match AddMultiple(SelectBox, [], args)
        case Ok(items) => err.None? && View() == old(View()).(queryType := SelectQuery, state := Dirty,
                            parts := old(parts).(select := (if append then old(parts).select else []) + [QueryExpr.Select(items)]))
        case Err(e) => err == Some(ExpressionRejected(e)) && View() == old(View()).(queryType := SelectQuery)
    {
      queryType := SelectQuery;
      if EmptyArgument(args) {
        return None;
      }
      var added := AddMultiple(SelectBox, [], args);
      if added.Err? {
        return Some(ExpressionRejected(added.error));
      }
      var item := [QueryExpr.Select(added.value)];
      assert item[..1] == item;
      var selects := Store(parts.select, item, append);
      assert selects == (if append then parts.select else []) + item;
      parts := parts.(select := selects);
      state := Dirty;
      err := None;
    }

    method Select(args: seq<Expr>) returns (err: Option<BuilderError>)
      modifies this
      ensures queryType == SelectQuery
      ensures EmptyArgument(args) ==> err.None? && View() == old(View()).(queryType := SelectQuery)
      ensures !EmptyArgument(args) ==> match AddMultiple(SelectBox, [], args)
        case Ok(items) => err.None? && View() == old(View()).(queryType := SelectQuery, state := Dirty,
                            parts := old(parts).(select := [QueryExpr.Select(items)]))
        case Err(e) => err == Some(ExpressionRejected(e)) && View() == old(View()).(queryType := SelectQuery)
    {
      err := SelectItems(args, false);
    }

    method AddSelect(args: seq<Expr>) returns (err: Option<BuilderError>)
      modifies this
      ensures queryType == SelectQuery
      ensures EmptyArgument(args) ==> err.None? && View() == old(View()).(queryType := SelectQuery)
      ensures !EmptyArgument(args) ==> match AddMultiple(SelectBox, [], args)
        case Ok(items) => err.None? && View() == old(View()).(queryType := SelectQuery, state := Dirty,
                            parts := old(parts).(select := old(parts).select + [QueryExpr.Select(items)]))
        case Err(e) => err == Some(ExpressionRejected(e)) && View() == old(View()).(queryType := SelectQuery)
    {
      err := SelectItems(args, true);
    }

    /** distinct(flag): the flag is written directly, not through add(), so the state is kept. */
    method Distinct(flag: bool)
      modifies this
      ensures View() == old(View()).(parts := old(parts).(distinct := flag))
    {
      parts := parts.(distinct := flag);
    }

    /** delete()/update(): the type changes; a given entity becomes the only root, through add(). */
    method Retarget(t: QueryType, entity: string, alias: string)
      modifies this
      ensures queryType == t
      ensures View() == old(View()).(queryType := t,
                parts := if Truthy(entity) then old(parts).(from := [QueryParts.From(entity, alias, None)]) else old(parts),
                state := if Truthy(entity) then Dirty else old(state))
    {
      queryType := t;
      if Truthy(entity) {
        parts := parts.(from := [QueryParts.From(entity, alias, None)]);
        state := Dirty;
      }
    }

    method Delete(entity: string, alias: string)
      modifies this
      ensures queryType == DeleteQuery
      ensures View() == old(View()).(queryType := DeleteQuery,
                parts := if Truthy(entity) then old(parts).(from := [QueryParts.From(entity, alias, None)]) else old(parts),
                state := if Truthy(entity) then Dirty else old(state))
    {
      Retarget(DeleteQuery, entity, alias);
    }

    method Update(entity: string, alias: string)
      modifies this
      ensures queryType == UpdateQuery
      ensures View() == old(View()).(queryType := UpdateQuery,
                parts := if Truthy(entity) then old(parts).(from := [QueryParts.From(entity, alias, None)]) else old(parts),
                state := if Truthy(entity) then Dirty else old(state))
    {
      Retarget(UpdateQuery, entity, alias);
    }

    /** set(key, value): one more "key = value" assignment. */
    method Set(key: string, value: string)
      modifies this
      ensures View() == old(View()).(parts := old(parts).(sets := old(parts).sets + [Comparison(Raw(key), Eq, Raw(value))]), state := Dirty)
    {
      parts := parts.(sets := parts.sets + [Comparison(Raw(key), Eq, Raw(value))]);
      state := Dirty;
    }

    /** from(entity, alias, indexBy): one more root. */
    method From(entity: string, alias: string, indexBy: Option<string>)
      modifies this
      ensures View() == old(View()).(parts := old(parts).(from := old(parts).from + [QueryParts.From(entity, alias, indexBy)]), state := Dirty)
    {
      parts := parts.(from := parts.from + [QueryParts.From(entity, alias, indexBy)]);
      state := Dirty;
    }

    /**
     * indexBy(alias, indexBy): the alias must be a root; its FROM clause
     * takes the INDEX BY.  The FROM part is written directly, not through
     * add(), so the state is kept.
     */
    method IndexBy(alias: string, indexBy: string) returns (err: Option<BuilderError>)
      modifies this
      ensures err.Some? <==> alias !in RootAliasesOf(old(parts).from)
      ensures err.Some? ==> err.value == RootAliasNotSet(alias) && View() == old(View())
      ensures err.None? ==> View() == old(View()).(parts := old(parts).(from := Reindexed(old(parts).from, alias, indexBy)))
    {
      if alias !in RootAliasesOf(parts.from) {
        return Some(RootAliasNotSet(alias));
      }
      parts := parts.(from := Reindexed(parts.from, alias, indexBy));
      err := None;
    }

    /**
     * join()/innerJoin()/leftJoin(): the join is attached to the root its
     * path's parent alias leads to, and that root is recorded for the new
     * alias.
     */
    method Join(t: JoinType, path: string, alias: string, conditionType: Option<ConditionType>, condition: Option<Expr>, indexBy: Option<string>)
      returns (err: Option<BuilderError>)
      modifies this
      ensures var root := FindRootAlias(ParentAlias(path), RootAliasesOf(old(parts).from), old(joinRootAliases));
        && (err.Some? <==> root.Err?)
        && (root.Err? ==> err == Some(NoRootAlias) && View() == old(View()))
        && (root.Ok? ==> View() == old(View()).(
              parts := old(parts).(join := AttachJoin(old(parts).join, root.value, JoinOn(t, path, alias, conditionType, condition, indexBy))),
              joinRootAliases := AssocPut(old(joinRootAliases), alias, root.value),
              state := Dirty))
    {
      match FindRootAlias(ParentAlias(path), RootAliasesOf(parts.from), joinRootAliases)
      case Err(e) =>
        err := Some(e);
      case Ok(root) =>
        joinRootAliases := AssocPut(joinRootAliases, alias, root);
        parts := parts.(join := AttachJoin(parts.join, root, JoinOn(t, path, alias, conditionType, condition, indexBy)));
        state := Dirty;
        err := None;
    }

    /** where()/having(): the condition is replaced. */
    method SetCondition(having: bool, preds: seq<Expr>) returns (err: Option<BuilderError>)
      modifies this
      ensures err.Some? <==> Predicates(preds).Err?
      ensures err.Some? ==> err.value == Predicates(preds).error && View() == old(View())
      ensures err.None? ==> View() == old(View()).(state := Dirty,
                parts := if having then old(parts).(having := Some(Predicates(preds).value)) else old(parts).(where := Some(Predicates(preds).value)))
    {
      match Predicates(preds)
      case Err(e) =>
        err := Some(e);
      case Ok(e) =>
        if having {
          parts := parts.(having := Some(e));
        } else {
          parts := parts.(where := Some(e));
        }
        state := Dirty;
        err := None;
    }

    /**
     * andWhere()/orWhere()/andHaving()/orHaving(): the condition is extended
     * under junction j.  When an argument is rejected, a stored composite of
     * junction j keeps what addMultiple appended before the rejection, and
     * add() is never reached, so the state is kept.
     */
    method ExtendCondition(having: bool, j: Junction, preds: seq<Expr>) returns (err: Option<BuilderError>)
      modifies this
      ensures var current := if having then old(parts).having else old(parts).where;
        var r := Extend(j, current, preds);
        var left := LeftOnRejection(j, current, preds);
        && (err.Some? <==> r.Err?)
        && (r.Err? ==> err == Some(r.error) && View() == old(View()).(
              parts := if having then old(parts).(having := left) else old(parts).(where := left)))
        && (r.Ok? ==> View() == old(View()).(state := Dirty,
              parts := if having then old(parts).(having := Some(r.value)) else old(parts).(where := Some(r.value))))
    {
      var current := if having then parts.having else parts.where;
      match Extend(j, current, preds)
      case Err(e) =>
        var left := LeftOnRejection(j, current, preds);
        if having {
          parts := parts.(having := left);
        } else {
          parts := parts.(where := left);
        }
        err := Some(e);
      case Ok(e) =>
        if having {
          parts := parts.(having := Some(e));
        } else {
          parts := parts.(where := Some(e));
        }
        state := Dirty;
        err := None;
    }

    method Where(preds: seq<Expr>) returns (err: Option<BuilderError>)
      modifies this
      ensures err.Some? <==> Predicates(preds).Err?
      ensures err.Some? ==> err.value == Predicates(preds).error && View() == old(View())
      ensures err.None? ==> View() == old(View()).(state := Dirty, parts := old(parts).(where := Some(Predicates(preds).value)))
    {
      err := SetCondition(false, preds);
    }

    method AndWhere(preds: seq<Expr>) returns (err: Option<BuilderError>)
      modifies this
      ensures err.Some? <==> Extend(And, old(parts).where, preds).Err?
      ensures err.Some? ==> (err.value == Extend(And, old(parts).where, preds).error
        && View() == old(View()).(parts := old(parts).(where := LeftOnRejection(And, old(parts).where, preds))))
      ensures err.None? ==> View() == old(View()).(state := Dirty, parts := old(parts).(where := Some(Extend(And, old(parts).where, preds).value)))
    {
      err := ExtendCondition(false, And, preds);
    }

    method OrWhere(preds: seq<Expr>) returns (err: Option<BuilderError>)
      modifies this
      ensures err.Some? <==> Extend(Or, old(parts).where, preds).Err?
      ensures err.Some? ==> (err.value == Extend(Or, old(parts).where, preds).error
        && View() == old(View()).(parts := old(parts).(where := LeftOnRejection(Or, old(parts).where, preds))))
      ensures err.None? ==> View() == old(View()).(state := Dirty, parts := old(parts).(where := Some(Extend(Or, old(parts).where, preds).value)))
    {
      err := ExtendCondition(false, Or, preds);
    }

    method Having(preds: seq<Expr>) returns (err: Option<BuilderError>)
      modifies this
      ensures err.Some? <==> Predicates(preds).Err?
      ensures err.Some? ==> err.value == Predicates(preds).error && View() == old(View())
      ensures err.None? ==> View() == old(View()).(state := Dirty, parts := old(parts).(having := Some(Predicates(preds).value)))
    {
      err := SetCondition(true, preds);
    }

    method AndHaving(preds: seq<Expr>) returns (err: Option<BuilderError>)
      modifies this
      ensures err.Some? <==> Extend(And, old(parts).having, preds).Err?
      ensures err.Some? ==> (err.value == Extend(And, old(parts).having, preds).error
        && View() == old(View()).(parts := old(parts).(having := LeftOnRejection(And, old(parts).having, preds))))
      ensures err.None? ==> View() == old(View()).(state := Dirty, parts := old(parts).(having := Some(Extend(And, old(parts).having, preds).value)))
    {
      err := ExtendCondition(true, And, preds);
    }

    method OrHaving(preds: seq<Expr>) returns (err: Option<BuilderError>)
      modifies this
      ensures err.Some? <==> Extend(Or, old(parts).having, preds).Err?
      ensures err.Some? ==> (err.value == Extend(Or, old(parts).having, preds).error
        && View() == old(View()).(parts := old(parts).(having := LeftOnRejection(Or, old(parts).having, preds))))
      ensures err.None? ==> View() == old(View()).(state := Dirty, parts := old(parts).(having := Some(Extend(Or, old(parts).having, preds).value)))
    {
      err := ExtendCondition(true, Or, preds);
    }

    /** groupBy()/addGroupBy(): one Expr\GroupBy of the arguments replaces the groupings or is appended. */
    method GroupBy(items: seq<Expr>, append: bool) returns (err: Option<BuilderError>)
      modifies this
      ensures err.Some? <==> AddMultiple(GroupByBox, [], items).Err?
      ensures err.Some? ==> err == Some(ExpressionRejected(AddMultiple(GroupByBox, [], items).error)) && View() == old(View())
      ensures err.None? ==> View() == old(View()).(state := Dirty,
                parts := old(parts).(groupBy := (if append then old(parts).groupBy else []) + [QueryExpr.GroupBy(AddMultiple(GroupByBox, [], items).value)]))
    {
      match AddMultiple(GroupByBox, [], items)
      case Err(e) =>
        err := Some(ExpressionRejected(e));
      case Ok(ps) =>
        parts := parts.(groupBy := Store(parts.groupBy, [QueryExpr.GroupBy(ps)], append));
        state := Dirty;
        err := None;
    }

    /** orderBy()/addOrderBy(): one ordering replaces the orderings or is appended. */
    method OrderBy(sort: Expr, order: Option<string>, append: bool)
      modifies this
      ensures View() == old(View()).(state := Dirty,
                parts := old(parts).(orderBy := (if append then old(parts).orderBy else []) + [OrderByItem(sort, order)]))
    {
      parts := parts.(orderBy := Store(parts.orderBy, [OrderByItem(sort, order)], append));
      state := Dirty;
    }

    /** setParameter(key, value, type) */
    method SetParameter(key: string, value: Value, typeName: Option<string>)
      modifies this
      ensures View() == old(View()).(parameters := SetParameterIn(old(parameters), key, value, typeName))
    {
      parameters := SetParameterIn(parameters, key, value, typeName);
    }

    /** setParameters(collection): the collection replaces the parameters. */
    method SetParameters(ps: seq<Parameter>)
      modifies this
      ensures View() == old(View()).(parameters := ps)
    {
      parameters := ps;
    }

    /** setParameters(array): each key => value pair becomes a parameter without type, in order. */
    method SetParameterArray(pairs: seq<(string, Value)>)
      modifies this
      ensures |parameters| == |pairs|
      ensures forall i :: 0 <= i < |pairs| ==> parameters[i] == Parameter(Trim(pairs[i].0, ':'), pairs[i].1, None)
      ensures View() == old(View()).(parameters := parameters)
    {
      var collected: seq<Parameter> := [];
      for i := 0 to |pairs|
        invariant |collected| == i
        invariant forall k :: 0 <= k < i ==> collected[k] == Parameter(Trim(pairs[k].0, ':'), pairs[k].1, None)
      {
        collected := collected + [Parameter(Trim(pairs[i].0, ':'), pairs[i].1, None)];
      }
      parameters := collected;
    }

    /** getParameter(key) */
    function GetParameter(key: string): (r: Option<Parameter>)
      reads this
      ensures r.Some? ==> r.value.name == key && r.value in parameters
      ensures r.None? <==> key !in Names(parameters)
    {
      GetParameterOf(parameters, key)
    }

    method SetFirstResult(n: Option<int>)
      modifies this
      ensures View() == old(View()).(firstResult := n)
    {
      firstResult := n;
    }

    method SetMaxResults(n: Option<int>)
      modifies this
      ensures View() == old(View()).(maxResults := n)
    {
      maxResults := n;
    }

    /** setCacheable, setLifetime, setCacheRegion and setCacheMode together: they only record the options. */
    method SetCacheOptions(options: CacheOptions)
      modifies this
      ensures View() == old(View()).(cache := options)
    {
      cache := options;
    }

    /** resetDQLPart(name) */
    method ResetDQLPart(name: PartName)
      modifies this
      ensures View() == old(View()).(parts := ResetPart(old(parts), name), state := Dirty)
    {
      parts := ResetPart(parts, name);
      state := Dirty;
    }

    /** resetDQLParts(names): the named parts, one after the other. */
    method ResetDQLParts(ns: seq<PartName>)
      modifies this
      ensures View() == old(View()).(parts := ResetParts(old(parts), ns), state := if |ns| == 0 then old(state) else Dirty)
    {
      ghost var start := parts;
      var i := 0;
      while i < |ns|
        invariant 0 <= i <= |ns|
        invariant ResetParts(start, ns) == ResetParts(parts, ns[i..])
        invariant i == 0 ==> parts == start && state == old(state)
        invariant i > 0 ==> state == Dirty
        invariant unchanged(`queryType, `dql, `parameters, `firstResult, `maxResults, `joinRootAliases, `cache)
      {
        assert ns[i..][1..] == ns[i + 1..];
        parts := ResetPart(parts, ns[i]);
        state := Dirty;
        i := i + 1;
      }
      assert ns[|ns|..] == [];
    }

    /** resetDQLParts() without names: every part, which leaves the parts of a new builder. */
    method ResetAllDQLParts()
      modifies this
      ensures View() == old(View()).(parts := EmptyParts(), state := Dirty)
    {
      ResetAllIsEmpty(parts);
      ResetDQLParts(AllParts);
    }

    /** getDQLPart(name) */
    function GetDQLPart(name: PartName): (r: PartValue)
      reads this
      ensures PartOf(r) == name
      ensures r.JoinValue? ==> r.byAlias == parts.join
    {
      GetPart(parts, name)
    }

    /** getRootAliases */
    function RootAliases(): seq<string>
      reads this
    {
      RootAliasesOf(parts.from)
    }

    /** getRootEntities */
    function RootEntities(): (r: seq<string>)
      reads this
      ensures |r| == |RootAliases()|
    {
      RootEntitiesOf(parts.from)
    }

    /** getRootAlias: the first root alias, an error without any root. */
    function RootAlias(): (r: Result<string, BuilderError>)
      reads this
      ensures r.Err? <==> |parts.from| == 0
      ensures r.Err? ==> r.error == NoRootAlias
      ensures r.Ok? ==> r.value == parts.from[0].alias && r.value == RootAliases()[0]
    {
      if |parts.from| == 0 then Err(NoRootAlias) else Ok(parts.from[0].alias)
    }

    /** getAllAliases: the root aliases, then the join aliases, each in the order they were added. */
    function AllAliases(): (r: seq<string>)
      reads this
      ensures r == RootAliases() + Keys(joinRootAliases)
      ensures r == AllAliasesOf(View())
    {
      RootAliasesOf(parts.from) + Keys(joinRootAliases)
    }

    /** The filter half of addCriteria: andWhere() the walked predicate, then append the parameters it bound, one by one. */
    method AndWhereWalked(w: V.Walked) returns (err: Option<BuilderError>)
      modifies this
      ensures var r := Extend(And, old(parts).where, [w.expr]);
        && (err.Some? <==> r.Err?)
        && (r.Err? ==> err == Some(r.error) && View() == old(View()).(
              parts := old(parts).(where := LeftOnRejection(And, old(parts).where, [w.expr]))))
        && (r.Ok? ==> View() == old(View()).(parts := old(parts).(where := Some(r.value)), parameters := old(parameters) + w.bound, state := Dirty))
    {
      err := AndWhere([w.expr]);
      if err.Some? {
        return;
      }
      ghost var v1 := View();
      var i := 0;
      while i < |w.bound|
        invariant 0 <= i <= |w.bound|
        invariant View() == v1.(parameters := v1.parameters + w.bound[..i])
      {
        assert w.bound[..i + 1] == w.bound[..i] + [w.bound[i]];
        parameters := parameters + [w.bound[i]];
        i := i + 1;
      }
      assert w.bound[..|w.bound|] == w.bound;
    }

    /** The ordering half of addCriteria: each ordering, qualified, goes through addOrderBy(). */
    method AddCriteriaOrderings(os: seq<(string, C.Direction)>, aliases: seq<string>)
      requires |aliases| > 0
      modifies this
      ensures View() == if |os| == 0 then old(View()) else old(View()).(parts := old(parts).(orderBy := old(parts).orderBy + CriteriaOrderings(os, aliases)), state := Dirty)
    {
      ghost var v1 := View();
      var i := 0;
      while i < |os|
        invariant 0 <= i <= |os|
        invariant View() == if i == 0 then v1 else v1.(parts := v1.parts.(orderBy := v1.parts.orderBy + CriteriaOrderings(os[..i], aliases)), state := Dirty)
      {
        var sort := V.QualifyField(os[i].0, aliases);
        assert CriteriaOrderings(os[..i + 1], aliases) == CriteriaOrderings(os[..i], aliases) + [OrderByItem(Raw(sort), Some(C.DirectionText(os[i].1)))];
        OrderBy(Raw(sort), Some(C.DirectionText(os[i].1)), true);
        i := i + 1;
      }
      assert os[..|os|] == os;
    }

    /** addCriteria(criteria), with the visitor's walk as a function and the builder updated step by step. */
    method AddCriteria(c: C.Criteria) returns (err: Option<BuilderError>)
      modifies this
      ensures var r := ApplyCriteria(old(View()), c);
        && (err.Some? <==> r.Err?)
        && (r.Err? ==> err == Some(r.error) && View() == old(View()))
        && (r.Ok? ==> View() == r.value)
    {
      var aliases := AllAliases();
      if |aliases| == 0 {
        return Some(NoAliasesForCriteria);
      }
      if c.whereExpression.Some? {
        var w := V.Dispatch(c.whereExpression.value, aliases, [], V.FirstFreeSuffix);
        err := AndWhereWalked(w);
        if err.Some? {
          return;
        }
      }
      AddCriteriaOrderings(c.orderings, aliases);
      if c.firstResult.Some? {
        SetFirstResult(c.firstResult);
      }
      if c.maxResults.Some? {
        SetMaxResults(c.maxResults);
      }
      err := None;
    }

    /** clone: a new builder with the same values; nothing is shared, so later calls on either leave the other alone. */
    method Clone() returns (copy: QueryBuilder)
      ensures fresh(copy)
      ensures copy.View() == View()
    {
      copy := new QueryBuilder();
      copy.parts := parts;
      copy.queryType := queryType;
      copy.state := state;
      copy.dql := dql;
      copy.parameters := parameters;
      copy.firstResult := firstResult;
      copy.maxResults := maxResults;
      copy.joinRootAliases := joinRootAliases;
      copy.cache := cache;
    }
  }
}
