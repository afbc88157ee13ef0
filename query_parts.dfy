/**
 * The DQL parts a query builder holds (Doctrine\ORM\QueryBuilder::$_dqlParts),
 * their rendering into a DQL string (getDQL), the generic add() that stores
 * a part, and the where/having combinators.  Everything here is a function
 * of values; the builder object in module QueryBuilding stores these values
 * and updates them call by call.
 */
module QueryParts {
  import opened Wrappers
  import opened Strings
  import opened QueryExpr

  datatype QueryType = SelectQuery | DeleteQuery | UpdateQuery

  predicate SomeTruthy(o: Option<string>)
  {
    o.Some? && Truthy(o.value)
  }

  // ---------------------------------------------------------------------
  // FROM and JOIN clauses (Expr\From, Expr\Join)

  datatype FromClause = From(entity: string, alias: string, indexBy: Option<string>)

  function FromText(f: FromClause): string
  {
    f.entity + " " + f.alias + (if SomeTruthy(f.indexBy) then " INDEX BY " + f.indexBy.value else "")
  }

  /** A FROM clause given as text is split at its last blank into entity and alias, as getRootAliases does. */
  function FromOfText(text: string): FromClause
  {
    match LastIndexOf(text, ' ')
    case Some(i) => From(text[..i], text[i + 1..], None)
    case None => From("", if |text| > 0 then text[1..] else "", None)
  }

  /** Splitting "entity alias" gives back entity and alias when the alias has no blank. */
  lemma FromOfTextSplits(entity: string, alias: string)
    requires NoBlank(alias)
    ensures FromOfText(entity + " " + alias) == From(entity, alias, None)
    ensures FromText(FromOfText(entity + " " + alias)) == entity + " " + alias
  {
    var t := entity + " " + alias;
    var i := |entity|;
    assert t[i] == ' ';
    assert t[i + 1..] == alias;
    assert ' ' !in t[i + 1..];
    assert t[..i] == entity;
  }

  datatype JoinType = Inner | Left

  datatype ConditionType = On | With

  /** A join built by join()/innerJoin()/leftJoin(), or a join given as DQL text through add(). */
  datatype JoinClause =
    | JoinOn(joinType: JoinType, path: string, alias: string, conditionType: Option<ConditionType>, condition: Option<Expr>, indexBy: Option<string>)
    | RawJoin(text: string)

  function JoinTypeText(t: JoinType): string
  {
    match t
    case Inner => "INNER"
    case Left => "LEFT"
  }

  function ConditionTypeText(c: Option<ConditionType>): string
  {
    match c
    case None => ""
    case Some(On) => "ON"
    case Some(With) => "WITH"
  }

  /** An expression counts as given unless it is missing or one of the falsy strings "" and "0". */
  predicate Given(e: Option<Expr>)
  {
    e.Some? && !(e.value.Raw? && !Truthy(e.value.text))
  }

  /** Expr\Join::__toString: the alias, then INDEX BY, then the condition. */
  function JoinText(j: JoinClause): string
  {
    match j
    case RawJoin(t) => t
    case JoinOn(t, path, alias, ct, cond, idx) =>
      JoinTypeText(t) + " JOIN " + path
      + (if Truthy(alias) then " " + alias else "")
      + (if SomeTruthy(idx) then " INDEX BY " + idx.value else "")
      + (if Given(cond) then " " + ConditionTypeText(ct) + " " + Render(cond.value) else "")
  }

  /** The joins of one root, each preceded by a blank. */
  function JoinsText(js: seq<JoinClause>): string
  {
    if |js| == 0 then "" else JoinsText(js[..|js| - 1]) + " " + JoinText(js[|js| - 1])
  }

  // ---------------------------------------------------------------------
  // The parts

  datatype DqlParts = DqlParts(
    distinct: bool,
    select: seq<Expr>,
    from: seq<FromClause>,
    join: map<string, seq<JoinClause>>,
    sets: seq<Expr>,
    where: Option<Expr>,
    groupBy: seq<Expr>,
    having: Option<Expr>,
    orderBy: seq<Expr>)

  function EmptyParts(): DqlParts
  {
    DqlParts(false, [], [], map[], [], None, [], None, [])
  }

  datatype PartName = DistinctPart | SelectPart | FromPart | JoinPart | SetPart | WherePart | GroupByPart | HavingPart | OrderByPart

  /** The parts in the order the builder declares them. */
  const AllParts: seq<PartName> := [DistinctPart, SelectPart, FromPart, JoinPart, SetPart, WherePart, GroupByPart, HavingPart, OrderByPart]

  /** All parts equal except possibly the named one. */
  predicate SameExcept(p: DqlParts, q: DqlParts, name: PartName)
  {
    && (name != DistinctPart ==> p.distinct == q.distinct)
    && (name != SelectPart ==> p.select == q.select)
    && (name != FromPart ==> p.from == q.from)
    && (name != JoinPart ==> p.join == q.join)
    && (name != SetPart ==> p.sets == q.sets)
    && (name != WherePart ==> p.where == q.where)
    && (name != GroupByPart ==> p.groupBy == q.groupBy)
    && (name != HavingPart ==> p.having == q.having)
    && (name != OrderByPart ==> p.orderBy == q.orderBy)
  }

  function RootAliasesOf(froms: seq<FromClause>): (r: seq<string>)
    ensures |r| == |froms| && forall i :: 0 <= i < |froms| ==> r[i] == froms[i].alias
  {
    seq(|froms|, i requires 0 <= i < |froms| => froms[i].alias)
  }

  // ---------------------------------------------------------------------
  // Rendering (getDQL and its helpers)

  /** _getReducedDQLQueryPart for a list part: nothing when empty, else the prefix and the joined items. */
  function ListPart(items: seq<Expr>, pre: string, sep: string): string
  {
    if |items| == 0 then "" else pre + Join(Renders(items), sep)
  }

  /** _getReducedDQLQueryPart for a single part: nothing when missing or falsy. */
  function SinglePart(e: Option<Expr>, pre: string): string
  {
    if Given(e) then pre + Render(e.value) else ""
  }

  /** A root with the joins attached to its alias. */
  function RootText(f: FromClause, joins: map<string, seq<JoinClause>>): string
  {
    FromText(f) + (if f.alias in joins then JoinsText(joins[f.alias]) else "")
  }

  function RootTexts(froms: seq<FromClause>, joins: map<string, seq<JoinClause>>): seq<string>
  {
    seq(|froms|, i requires 0 <= i < |froms| => RootText(froms[i], joins))
  }

  function FromSection(froms: seq<FromClause>, joins: map<string, seq<JoinClause>>): string
  {
    if |froms| == 0 then "" else " FROM " + Join(RootTexts(froms, joins), ", ")
  }

  function FromList(froms: seq<FromClause>): string
  {
    if |froms| == 0 then "" else " " + Join(seq(|froms|, i requires 0 <= i < |froms| => FromText(froms[i])), ", ")
  }

  function SelectDql(p: DqlParts): string
  {
    "SELECT" + (if p.distinct then " DISTINCT" else "")
    + ListPart(p.select, " ", ", ")
    + FromSection(p.from, p.join)
    + SinglePart(p.where, " WHERE ")
    + ListPart(p.groupBy, " GROUP BY ", ", ")
    + SinglePart(p.having, " HAVING ")
    + ListPart(p.orderBy, " ORDER BY ", ", ")
  }

  function UpdateDql(p: DqlParts): string
  {
    "UPDATE" + FromList(p.from) + ListPart(p.sets, " SET ", ", ") + SinglePart(p.where, " WHERE ") + ListPart(p.orderBy, " ORDER BY ", ", ")
  }

  function DeleteDql(p: DqlParts): string
  {
    "DELETE" + FromList(p.from) + SinglePart(p.where, " WHERE ") + ListPart(p.orderBy, " ORDER BY ", ", ")
  }

  function RenderDql(t: QueryType, p: DqlParts): string
  {
    match t
    case SelectQuery => SelectDql(p)
    case UpdateQuery => UpdateDql(p)
    case DeleteQuery => DeleteDql(p)
  }

  /** The joins of one root after one more join: the earlier joins' text, a blank and the new join. */
  lemma JoinsTextSnoc(js: seq<JoinClause>, j: JoinClause)
    ensures JoinsText(js + [j]) == JoinsText(js) + " " + JoinText(j)
  {
    assert (js + [j])[..|js|] == js;
  }

  /** The joins map after one more join on root: the join goes to the end of that root's list. */
  function AttachJoin(joins: map<string, seq<JoinClause>>, root: string, j: JoinClause): (r: map<string, seq<JoinClause>>)
    ensures r.Keys == joins.Keys + {root}
  {
    joins[root := (if root in joins then joins[root] else []) + [j]]
  }

  /**
   * Join placement: a join attached to root r extends the text of r's own
   * FROM clause, right after r's earlier joins, and leaves every other root's
   * text as it was.
   */
  lemma AttachJoinRendersAfterItsRoot(f: FromClause, joins: map<string, seq<JoinClause>>, root: string, j: JoinClause)
    ensures RootText(f, AttachJoin(joins, root, j))
         == if f.alias == root then RootText(f, joins) + " " + JoinText(j) else RootText(f, joins)
  {
    var r := AttachJoin(joins, root, j);
    if f.alias == root {
      var earlier := if root in joins then joins[root] else [];
      assert root in r && r[root] == earlier + [j];
      JoinsTextSnoc(earlier, j);
      var head := FromText(f);
      if root !in joins {
        assert JoinsText(earlier) == "";
        assert head + "" == head;
      }
      assert RootText(f, joins) == head + JoinsText(earlier);
      assert RootText(f, r) == head + (JoinsText(earlier) + " " + JoinText(j));
      SnocAlgebra(head, JoinsText(earlier), JoinText(j));
    } else {
      assert (f.alias in r) == (f.alias in joins);
      assert f.alias in r ==> r[f.alias] == joins[f.alias];
    }
  }

  lemma SnocAlgebra(head: string, earlier: string, last: string)
    ensures head + (earlier + " " + last) == head + earlier + " " + last
  {
  }

  /** With several roots, each is followed by its own joins before the comma and the next root. */
  lemma {:induction false} FromSectionSnoc(froms: seq<FromClause>, g: FromClause, joins: map<string, seq<JoinClause>>)
    requires |froms| > 0
    ensures FromSection(froms + [g], joins) == FromSection(froms, joins) + ", " + RootText(g, joins)
  {
    assert RootTexts(froms + [g], joins) == RootTexts(froms, joins) + [RootText(g, joins)];
    JoinSnoc(RootTexts(froms, joins), RootText(g, joins), ", ");
  }

  // ---------------------------------------------------------------------
  // Errors

  datatype BuilderError =
    | ExpressionRejected(cause: ExprError)   // InvalidArgumentException from Expr\Base::add
    | AppendToWhereOrHaving                  // InvalidArgumentException from add()
    | NoRootAlias                            // RuntimeException from getRootAlias()
    | RootAliasNotSet(alias: string)         // QueryException from indexBy()
    | NoAliasesForCriteria                   // QueryException from addCriteria()

  function Message(e: BuilderError): string
  {
    match e
    case ExpressionRejected(_) => "Expression not allowed in this context."
    case AppendToWhereOrHaving => "Using $append = true does not have an effect with 'where' or 'having' parts. See QueryBuilder#andWhere() for an example for correct usage."
    case NoRootAlias => "No alias was set before invoking getRootAlias()."
    case RootAliasNotSet(a) => "Specified root alias " + a + " must be set before invoking indexBy()."
    case NoAliasesForCriteria => "No aliases are set before invoking addCriteria()."
  }

  // ---------------------------------------------------------------------
  // add()

  /** A value handed to add(): one per part, with the list parts given as the array add() receives. */
  datatype PartValue =
    | DistinctValue(flag: bool)
    | SelectValue(selects: seq<Expr>)
    | FromValue(froms: seq<FromClause>)
    | RawFrom(text: string)                              // a FROM clause given as DQL text, "Entity alias"
    | JoinValue(byAlias: map<string, seq<JoinClause>>)   // keyed by root alias, as getDQLPart('join') returns it
    | UnkeyedJoins(joins: seq<JoinClause>)               // a list of joins without root alias (numeric keys)
    | SetValue(sets: seq<Expr>)
    | WhereValue(where: Option<Expr>)
    | GroupByValue(groups: seq<Expr>)
    | HavingValue(having: Option<Expr>)
    | OrderByValue(orders: seq<Expr>)

  function PartOf(v: PartValue): PartName
  {
    match v
    case DistinctValue(_) => DistinctPart
    case SelectValue(_) => SelectPart
    case FromValue(_) => FromPart
    case RawFrom(_) => FromPart
    case JoinValue(_) => JoinPart
    case UnkeyedJoins(_) => JoinPart
    case SetValue(_) => SetPart
    case WhereValue(_) => WherePart
    case GroupByValue(_) => GroupByPart
    case HavingValue(_) => HavingPart
    case OrderByValue(_) => OrderByPart
  }

  /** For a list part add() keeps the first element of the array it is given: appended, or as the whole list. */
  function Store<T>(current: seq<T>, given: seq<T>, append: bool): (r: seq<T>)
    ensures append ==> r == current + given[..if |given| == 0 then 0 else 1]
    ensures !append ==> r == given[..if |given| == 0 then 0 else 1]
  {
    if |given| == 0 then (if append then current else [])
    else if append then current + [given[0]]
    else [given[0]]
  }

  /** Appending join lists key by key. */
  function MergeJoins(joins: map<string, seq<JoinClause>>, extra: map<string, seq<JoinClause>>): (r: map<string, seq<JoinClause>>)
    ensures r.Keys == joins.Keys + extra.Keys
    ensures forall k :: k in r ==> r[k] == (if k in joins then joins[k] else []) + (if k in extra then extra[k] else [])
  {
    map k | k in joins.Keys + extra.Keys :: (if k in joins then joins[k] else []) + (if k in extra then extra[k] else [])
  }

  /**
   * add(name, value, append).  Appending to where or having is refused.
   * A join without root alias goes to the first root, which must exist.
   * Only the named part changes.
   */
  function AddPart(p: DqlParts, v: PartValue, append: bool): (r: Result<DqlParts, BuilderError>)
    ensures r.Err? <==> (append && (v.WhereValue? || v.HavingValue?)) || (v.UnkeyedJoins? && |v.joins| > 0 && |p.from| == 0)
    ensures r.Err? && append && (v.WhereValue? || v.HavingValue?) ==> r.error == AppendToWhereOrHaving
    ensures r.Ok? ==> SameExcept(p, r.value, PartOf(v))
  {
    match v
    case DistinctValue(b) => Ok(p.(distinct := b))
    case SelectValue(xs) => Ok(p.(select := Store(p.select, xs, append)))
    case FromValue(fs) => Ok(p.(from := Store(p.from, fs, append)))
    case RawFrom(t) => Ok(p.(from := Store(p.from, [FromOfText(t)], append)))
    case SetValue(xs) => Ok(p.(sets := Store(p.sets, xs, append)))
    case GroupByValue(xs) => Ok(p.(groupBy := Store(p.groupBy, xs, append)))
    case OrderByValue(xs) => Ok(p.(orderBy := Store(p.orderBy, xs, append)))
    case WhereValue(w) => if append then Err(AppendToWhereOrHaving) else Ok(p.(where := w))
    case HavingValue(h) => if append then Err(AppendToWhereOrHaving) else Ok(p.(having := h))
    case JoinValue(m) => Ok(p.(join := if append then MergeJoins(p.join, m) else m))
    case UnkeyedJoins(js) =>
      if |js| == 0 then Ok(if append then p else p.(join := map[]))
      else if |p.from| == 0 then Err(NoRootAlias)
      else
        var root := p.from[0].alias;
        var last := js[|js| - 1];
        Ok(p.(join := if append then AttachJoin(p.join, root, last) else map[root := [last]]))
  }

  /** getDQLPart */
  function GetPart(p: DqlParts, name: PartName): PartValue
  {
    match name
    case DistinctPart => DistinctValue(p.distinct)
    case SelectPart => SelectValue(p.select)
    case FromPart => FromValue(p.from)
    case JoinPart => JoinValue(p.join)
    case SetPart => SetValue(p.sets)
    case WherePart => WhereValue(p.where)
    case GroupByPart => GroupByValue(p.groupBy)
    case HavingPart => HavingValue(p.having)
    case OrderByPart => OrderByValue(p.orderBy)
  }

  /** array_filter keeps the parts that are not empty in PHP's sense. */
  predicate NonEmptyPart(v: PartValue)
  {
    match v
    case DistinctValue(b) => b
    case SelectValue(xs) => |xs| > 0
    case FromValue(xs) => |xs| > 0
    case RawFrom(t) => Truthy(t)
    case JoinValue(m) => |m| > 0
    case UnkeyedJoins(js) => |js| > 0
    case SetValue(xs) => |xs| > 0
    case WhereValue(w) => Given(w)
    case GroupByValue(xs) => |xs| > 0
    case HavingValue(h) => Given(h)
    case OrderByValue(xs) => |xs| > 0
  }

  /** One step of the rebuild loop: a part that array_filter drops is skipped, any other is add()ed without append. */
  function Readd(q: DqlParts, v: PartValue): (r: Result<DqlParts, BuilderError>)
    ensures !NonEmptyPart(v) ==> r == Ok(q)
  {
    if NonEmptyPart(v) then AddPart(q, v, false) else Ok(q)
  }

  /** The rebuild loop: add() every non-empty part of p, in declaration order, without append. */
  function Rebuild(q: DqlParts, p: DqlParts, names: seq<PartName>): Result<DqlParts, BuilderError>
    decreases |names|
  {
    if |names| == 0 then Ok(q)
    else match Readd(q, GetPart(p, names[0]))
      case Ok(q2) => Rebuild(q2, p, names[1..])
      case Err(e) => Err(e)
  }

  /** The parts as a rebuild sees them: falsy where/having texts read as missing. */
  function WithoutFalsy(p: DqlParts): DqlParts
  {
    p.(where := if Given(p.where) then p.where else None, having := if Given(p.having) then p.having else None)
  }

  /** Every list part holds at most one entry: the shape of parts built with single-argument calls. */
  predicate SingleEntryLists(p: DqlParts)
  {
    |p.select| <= 1 && |p.from| <= 1 && |p.sets| <= 1 && |p.groupBy| <= 1 && |p.orderBy| <= 1
  }

  /**
   * Re-adding the non-empty parts of single-entry parts to a fresh builder
   * restores them, up to falsy where/having texts, which render nothing.
   */
  lemma RebuildRestoresParts(p: DqlParts)
    requires SingleEntryLists(p)
    ensures Rebuild(EmptyParts(), p, AllParts) == Ok(WithoutFalsy(p))
  {
    var q0 := EmptyParts();
    var q1 := q0.(distinct := p.distinct);
    var q2 := q1.(select := p.select);
    var q3 := q2.(from := p.from);
    assert AllParts[1..] == [SelectPart, FromPart, JoinPart, SetPart, WherePart, GroupByPart, HavingPart, OrderByPart];
    assert AllParts[2..] == AllParts[1..][1..];
    assert AllParts[3..] == AllParts[2..][1..];
    ReaddDistinct(q0, p);
    RebuildStep(q0, p, AllParts, q1);
    ReaddSelect(q1, p);
    RebuildStep(q1, p, AllParts[1..], q2);
    ReaddFrom(q2, p);
    RebuildStep(q2, p, AllParts[2..], q3);
    RebuildMiddle(p, q3);
  }

  lemma RebuildMiddle(p: DqlParts, q3: DqlParts)
    requires SingleEntryLists(p)
    requires q3 == EmptyParts().(distinct := p.distinct, select := p.select, from := p.from)
    ensures Rebuild(q3, p, AllParts[3..]) == Ok(WithoutFalsy(p))
  {
    var q4 := q3.(join := p.join);
    var q5 := q4.(sets := p.sets);
    var q6 := q5.(where := WithoutFalsy(p).where);
    assert AllParts[3..] == [JoinPart, SetPart, WherePart, GroupByPart, HavingPart, OrderByPart];
    assert AllParts[4..] == AllParts[3..][1..];
    assert AllParts[5..] == AllParts[4..][1..];
    assert AllParts[6..] == AllParts[5..][1..];
    ReaddJoin(q3, p);
    RebuildStep(q3, p, AllParts[3..], q4);
    ReaddSets(q4, p);
    RebuildStep(q4, p, AllParts[4..], q5);
    ReaddWhere(q5, p);
    RebuildStep(q5, p, AllParts[5..], q6);
    assert q6 == WithoutFalsy(p).(groupBy := [], having := None, orderBy := []);
    RebuildLast(p, q6);
  }

  lemma RebuildLast(p: DqlParts, q6: DqlParts)
    requires SingleEntryLists(p)
    requires q6 == WithoutFalsy(p).(groupBy := [], having := None, orderBy := [])
    ensures Rebuild(q6, p, AllParts[6..]) == Ok(WithoutFalsy(p))
  {
    var q7 := q6.(groupBy := p.groupBy);
    var q8 := q7.(having := WithoutFalsy(p).having);
    var q9 := q8.(orderBy := p.orderBy);
    assert AllParts[6..] == [GroupByPart, HavingPart, OrderByPart];
    assert AllParts[7..] == AllParts[6..][1..];
    assert AllParts[8..] == AllParts[7..][1..];
    ReaddGroupBy(q6, p);
    RebuildStep(q6, p, AllParts[6..], q7);
    ReaddHaving(q7, p);
    RebuildStep(q7, p, AllParts[7..], q8);
    ReaddOrderBy(q8, p);
    RebuildStep(q8, p, AllParts[8..], q9);
    assert AllParts[8..][1..] == [];
    assert q9 == WithoutFalsy(p);
  }

  // One lemma per part: re-adding it to parts where it is still empty sets it to its value in p.

  lemma ReaddDistinct(q: DqlParts, p: DqlParts)
    requires !q.distinct
    ensures Readd(q, GetPart(p, DistinctPart)) == Ok(q.(distinct := p.distinct))
  {
    if !p.distinct {
      assert q.(distinct := p.distinct) == q;
    }
  }

  lemma ReaddSelect(q: DqlParts, p: DqlParts)
    requires q.select == [] && |p.select| <= 1
    ensures Readd(q, GetPart(p, SelectPart)) == Ok(q.(select := p.select))
  {
    if |p.select| == 0 {
      assert q.(select := p.select) == q;
    } else {
      assert Store(q.select, p.select, false) == p.select;
    }
  }

  lemma ReaddFrom(q: DqlParts, p: DqlParts)
    requires q.from == [] && |p.from| <= 1
    ensures Readd(q, GetPart(p, FromPart)) == Ok(q.(from := p.from))
  {
    if |p.from| == 0 {
      assert q.(from := p.from) == q;
    } else {
      assert Store(q.from, p.from, false) == p.from;
    }
  }

  lemma ReaddJoin(q: DqlParts, p: DqlParts)
    requires q.join == map[]
    ensures Readd(q, GetPart(p, JoinPart)) == Ok(q.(join := p.join))
  {
    if |p.join| == 0 {
      assert p.join == map[];
      assert q.(join := p.join) == q;
    }
  }

  lemma ReaddSets(q: DqlParts, p: DqlParts)
    requires q.sets == [] && |p.sets| <= 1
    ensures Readd(q, GetPart(p, SetPart)) == Ok(q.(sets := p.sets))
  {
    if |p.sets| == 0 {
      assert q.(sets := p.sets) == q;
    } else {
      assert Store(q.sets, p.sets, false) == p.sets;
    }
  }

  lemma ReaddWhere(q: DqlParts, p: DqlParts)
    requires q.where == None
    ensures Readd(q, GetPart(p, WherePart)) == Ok(q.(where := WithoutFalsy(p).where))
  {
    if !Given(p.where) {
      assert q.(where := WithoutFalsy(p).where) == q;
    }
  }

  lemma ReaddGroupBy(q: DqlParts, p: DqlParts)
    requires q.groupBy == [] && |p.groupBy| <= 1
    ensures Readd(q, GetPart(p, GroupByPart)) == Ok(q.(groupBy := p.groupBy))
  {
    if |p.groupBy| == 0 {
      assert q.(groupBy := p.groupBy) == q;
    } else {
      assert Store(q.groupBy, p.groupBy, false) == p.groupBy;
    }
  }

  lemma ReaddHaving(q: DqlParts, p: DqlParts)
    requires q.having == None
    ensures Readd(q, GetPart(p, HavingPart)) == Ok(q.(having := WithoutFalsy(p).having))
  {
    if !Given(p.having) {
      assert q.(having := WithoutFalsy(p).having) == q;
    }
  }

  lemma ReaddOrderBy(q: DqlParts, p: DqlParts)
    requires q.orderBy == [] && |p.orderBy| <= 1
    ensures Readd(q, GetPart(p, OrderByPart)) == Ok(q.(orderBy := p.orderBy))
  {
    if |p.orderBy| == 0 {
      assert q.(orderBy := p.orderBy) == q;
    } else {
      assert Store(q.orderBy, p.orderBy, false) == p.orderBy;
    }
  }

  lemma RebuildStep(q: DqlParts, p: DqlParts, names: seq<PartName>, q2: DqlParts)
    requires |names| > 0
    requires Readd(q, GetPart(p, names[0])) == Ok(q2)
    ensures Rebuild(q, p, names) == Rebuild(q2, p, names[1..])
  {
  }

  /** A falsy where or having renders nothing, so dropping it changes no DQL. */
  lemma WithoutFalsyRendersSame(t: QueryType, p: DqlParts)
    ensures RenderDql(t, WithoutFalsy(p)) == RenderDql(t, p)
  {
  }

  /** Hence the rebuilt parts give the same DQL as the original, for every query type. */
  lemma RebuildRendersSame(t: QueryType, p: DqlParts)
    requires SingleEntryLists(p)
    ensures Rebuild(EmptyParts(), p, AllParts).Ok?
    ensures RenderDql(t, Rebuild(EmptyParts(), p, AllParts).value) == RenderDql(t, p)
  {
    RebuildRestoresParts(p);
    WithoutFalsyRendersSame(t, p);
  }

  /** The rebuild only reproduces single-entry lists: of two FROM roots the second is lost. */
  lemma RebuildKeepsFirstRootOnly(p: DqlParts)
    requires |p.from| == 2
    ensures Rebuild(EmptyParts(), p, AllParts).Ok?
    ensures Rebuild(EmptyParts(), p, AllParts).value.from == [p.from[0]]
  {
    var n := AllParts;
    var q0 := EmptyParts();
    var q1 := q0.(distinct := p.distinct);
    var q2 := q1.(select := Store([], p.select, false));
    var q3 := q2.(from := [p.from[0]]);
    assert n[1..] == [SelectPart, FromPart, JoinPart, SetPart, WherePart, GroupByPart, HavingPart, OrderByPart];
    assert n[2..] == n[1..][1..];
    assert n[3..] == n[2..][1..];
    ReaddDistinct(q0, p);
    RebuildStep(q0, p, n, q1);
    assert Readd(q1, GetPart(p, SelectPart)) == Ok(q2);
    RebuildStep(q1, p, n[1..], q2);
    assert Readd(q2, GetPart(p, FromPart)) == Ok(q3);
    RebuildStep(q2, p, n[2..], q3);
    RebuildOthersSucceed(q3, p, n[3..]);
  }

  /** Re-adding parts other than from succeeds and leaves the from part alone. */
  lemma {:induction false} RebuildOthersSucceed(q: DqlParts, p: DqlParts, names: seq<PartName>)
    requires |q.from| > 0
    requires FromPart !in names
    ensures Rebuild(q, p, names).Ok?
    ensures Rebuild(q, p, names).value.from == q.from
    decreases |names|
  {
    if |names| > 0 {
      assert names[0] != FromPart;
      assert FromPart !in names[1..] by {
        assert forall k :: 0 <= k < |names| - 1 ==> names[1..][k] == names[k + 1];
      }
      var r := Readd(q, GetPart(p, names[0]));
      assert r.Ok? && r.value.from == q.from;
      RebuildOthersSucceed(r.value, p, names[1..]);
    }
  }

  // ---------------------------------------------------------------------
  // where()/having() and their and/or variants

  function Lift(r: Result<Expr, ExprError>): Result<Expr, BuilderError>
  {
    match r
    case Ok(e) => Ok(e)
    case Err(e) => Err(ExpressionRejected(e))
  }

  function BoxOf(j: Junction): Container
  {
    if j == And then AndxBox else OrxBox
  }

  /** where()/having(): a single Andx/Orx argument is taken as it is; any other arguments are wrapped in an Andx. */
  function Predicates(preds: seq<Expr>): Result<Expr, BuilderError>
  {
    if |preds| == 1 && preds[0].Composite? then Ok(preds[0]) else Lift(AndX(preds))
  }

  /**
   * andWhere()/orWhere() (and the having variants) for junction j: a
   * current condition of the same junction grows by the arguments; any other
   * current condition becomes the first part of a new composite.
   */
  function Extend(j: Junction, current: Option<Expr>, args: seq<Expr>): (r: Result<Expr, BuilderError>)
    ensures r.Ok? ==> r.value.Composite? && r.value.junction == j
    ensures r.Ok? && current.Some? && current.value.Composite? && current.value.junction == j
        ==> r.value.parts == current.value.parts + Kept(args)
    ensures r.Ok? && !(current.Some? && current.value.Composite? && current.value.junction == j)
        ==> r.value.parts == Kept((if current.Some? then [current.value] else []) + args)
  {
    if current.Some? && current.value.Composite? && current.value.junction == j then
      match AddMultiple(BoxOf(j), current.value.parts, args)
      case Ok(ps) => Ok(Composite(j, ps))
      case Err(e) => Err(ExpressionRejected(e))
    else
      match AddMultiple(BoxOf(j), [], (if current.Some? then [current.value] else []) + args)
      case Ok(ps) => Ok(Composite(j, ps))
      case Err(e) => Err(ExpressionRejected(e))
  }

  /** andWhere()/orWhere() (and the having variants) grow a stored composite of their own junction in place. */
  predicate GrowsInPlace(j: Junction, current: Option<Expr>)
  {
    current.Some? && current.value.Composite? && current.value.junction == j
  }

  /**
   * The condition left behind when Extend raises: addMultiple on a stored
   * composite of the same junction has already appended the arguments it
   * kept before the rejected one; a new composite is never stored, so any
   * other condition stays as it was.
   */
  function LeftOnRejection(j: Junction, current: Option<Expr>, args: seq<Expr>): (r: Option<Expr>)
    ensures !GrowsInPlace(j, current) ==> r == current
    ensures GrowsInPlace(j, current) ==>
      GrowsInPlace(j, r) && current.value.parts <= r.value.parts <= current.value.parts + Kept(args)
    ensures GrowsInPlace(j, current) && FirstRejected(BoxOf(j), args).Some? ==>
      r.value.parts == current.value.parts + Kept(args[..FirstRejected(BoxOf(j), args).value])
  {
    if GrowsInPlace(j, current) then
      match FirstRejected(BoxOf(j), args)
      case None => current
      case Some(i) =>
        KeptAppend(args[..i], args[i..]);
        assert args[..i] + args[i..] == args;
        Some(Composite(j, current.value.parts + Kept(args[..i])))
    else current
  }

  // ---------------------------------------------------------------------
  // resetDQLPart / resetDQLParts

  /** A list part becomes empty, where and having become missing, distinct becomes false. */
  function ResetPart(p: DqlParts, name: PartName): (r: DqlParts)
    ensures SameExcept(p, r, name)
    ensures GetPart(r, name) == GetPart(EmptyParts(), name)
  {
    match name
    case DistinctPart => p.(distinct := false)
    case SelectPart => p.(select := [])
    case FromPart => p.(from := [])
    case JoinPart => p.(join := map[])
    case SetPart => p.(sets := [])
    case WherePart => p.(where := None)
    case GroupByPart => p.(groupBy := [])
    case HavingPart => p.(having := None)
    case OrderByPart => p.(orderBy := [])
  }

  /** The parts after resetting the named ones, first to last. */
  function ResetParts(p: DqlParts, names: seq<PartName>): DqlParts
    decreases |names|
  {
    if |names| == 0 then p else ResetParts(ResetPart(p, names[0]), names[1..])
  }

  /** Resetting some parts empties exactly those parts and leaves every other part as it was. */
  lemma {:induction false} ResetPartsEffect(p: DqlParts, names: seq<PartName>, n: PartName)
    ensures GetPart(ResetParts(p, names), n) == if n in names then GetPart(EmptyParts(), n) else GetPart(p, n)
    decreases |names|
  {
    if |names| > 0 {
      var q := ResetPart(p, names[0]);
      ResetPartsEffect(q, names[1..], n);
      assert n in names <==> n == names[0] || n in names[1..];
      if n != names[0] {
        assert GetPart(q, n) == GetPart(p, n);
      }
    }
  }

  /** The parts are determined by what getDQLPart returns for each name. */
  lemma PartsDeterminedByGetPart(p: DqlParts, q: DqlParts)
    requires forall n :: GetPart(p, n) == GetPart(q, n)
    ensures p == q
  {
    assert GetPart(p, DistinctPart) == GetPart(q, DistinctPart);
    assert GetPart(p, SelectPart) == GetPart(q, SelectPart);
    assert GetPart(p, FromPart) == GetPart(q, FromPart);
    assert GetPart(p, JoinPart) == GetPart(q, JoinPart);
    assert GetPart(p, SetPart) == GetPart(q, SetPart);
    assert GetPart(p, WherePart) == GetPart(q, WherePart);
    assert GetPart(p, GroupByPart) == GetPart(q, GroupByPart);
    assert GetPart(p, HavingPart) == GetPart(q, HavingPart);
    assert GetPart(p, OrderByPart) == GetPart(q, OrderByPart);
  }

  /** resetDQLParts() without names resets every part, which gives the parts of a new builder. */
  lemma ResetAllIsEmpty(p: DqlParts)
    ensures ResetParts(p, AllParts) == EmptyParts()
  {
    forall n: PartName
      ensures n in AllParts
    {
      assert n == AllParts[0] || n == AllParts[1] || n == AllParts[2] || n == AllParts[3] || n == AllParts[4]
          || n == AllParts[5] || n == AllParts[6] || n == AllParts[7] || n == AllParts[8];
    }
    ResetCovering(p, AllParts);
  }

  /** Resetting a list of names that covers every part empties everything. */
  lemma ResetCovering(p: DqlParts, names: seq<PartName>)
    requires forall n: PartName :: n in names
    ensures ResetParts(p, names) == EmptyParts()
  {
    var r := ResetParts(p, names);
    forall n: PartName
      ensures GetPart(r, n) == GetPart(EmptyParts(), n)
    {
      ResetPartsEffect(p, names, n);
    }
    PartsDeterminedByGetPart(r, EmptyParts());
  }

  // ---------------------------------------------------------------------
  // orderBy() and select() arguments

  /** orderBy()/addOrderBy(): an Expr\OrderBy is used as it is; anything else becomes one ordering, unless it is falsy. */
  function OrderByItem(sort: Expr, order: Option<string>): (r: Expr)
    ensures r.OrderBy?
    ensures !sort.OrderBy? && !(sort.Raw? && !Truthy(sort.text)) ==> r.entries == [OrderEntry(Render(sort), order)]
    ensures sort.OrderBy? ==> r == sort
  {
    if sort.OrderBy? then sort
    else if sort.Raw? && !Truthy(sort.text) then OrderBy([])
    else OrderBy([OrderEntry(Render(sort), order)])
  }

  /** orderBy(expr()->asc(s)) stores what orderBy(s, 'ASC') stores, and likewise for desc and 'DESC'. */
  lemma OrderByExpressionSame(sort: string)
    ensures OrderByItem(Raw(sort), None) == OrderByItem(Asc(sort), None) == Asc(sort)
    ensures OrderByItem(Raw(sort), Some("ASC")) == Asc(sort)
    ensures OrderByItem(Raw(sort), Some("DESC")) == Desc(sort)
  {
  }

  /** PHP's empty() on the first argument of select()/addSelect(). */
  predicate EmptyArgument(args: seq<Expr>)
  {
    |args| == 0 || (args[0].Raw? && !Truthy(args[0].text))
  }
}
