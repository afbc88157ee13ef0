/**
 * Doctrine\Common\Collections\Criteria as addCriteria receives it: an
 * alias-free filter expression, orderings by field, and optional
 * pagination.  The criteria object is input to the builder, so it is
 * modelled as a value built by the same chain of calls.
 */
module Criteria {
  import opened Wrappers
  import opened Strings
  import QueryExpr

  /** The comparison operators of Collections\Expr\Comparison (IS has the same code as EQ). */
  datatype CriteriaOperator = Equal | NotEqual | Less | LessOrEqual | Greater | GreaterOrEqual | InSet | NotInSet | Contains

  datatype CriteriaExpr =
    | Comparison(field: string, op: CriteriaOperator, value: QueryExpr.Value)
    | CompositeExpression(junction: QueryExpr.Junction, children: seq<CriteriaExpr>)

  datatype Direction = Ascending | Descending

  datatype Criteria = Criteria(
    whereExpression: Option<CriteriaExpr>,
    orderings: seq<(string, Direction)>,
    firstResult: Option<int>,
    maxResults: Option<int>)

  /** new Criteria() */
  function Empty(): Criteria
  {
    Criteria(None, [], None, None)
  }

  function Where(c: Criteria, e: CriteriaExpr): Criteria
  {
    c.(whereExpression := Some(e))
  }

  /** andWhere: the first condition becomes the expression; later ones are combined with the old one under AND. */
  function AndWhere(c: Criteria, e: CriteriaExpr): (r: Criteria)
    ensures r.whereExpression.Some?
  {
    match c.whereExpression
    case None => Where(c, e)
    case Some(prev) => c.(whereExpression := Some(CompositeExpression(QueryExpr.And, [prev, e])))
  }

  function OrWhere(c: Criteria, e: CriteriaExpr): (r: Criteria)
    ensures r.whereExpression.Some?
  {
    match c.whereExpression
    case None => Where(c, e)
    case Some(prev) => c.(whereExpression := Some(CompositeExpression(QueryExpr.Or, [prev, e])))
  }

  /** Criteria::orderBy takes the directions as given strings: anything other than "asc" in some case is DESC. */
  function DirectionOf(order: string): Direction
  {
    if Upper(order) == "ASC" then Ascending else Descending
  }

  function DirectionText(d: Direction): string
  {
    match d
    case Ascending => "ASC"
    case Descending => "DESC"
  }

  /** orderBy replaces the orderings, field by field, each direction normalised; the rest of the criteria is kept. */
  function OrderBy(c: Criteria, orderings: seq<(string, string)>): (r: Criteria)
    ensures |r.orderings| == |orderings|
    ensures forall i :: 0 <= i < |orderings| ==> r.orderings[i].0 == orderings[i].0
    ensures forall i :: 0 <= i < |orderings| ==> (r.orderings[i].1 == Ascending <==> Upper(orderings[i].1) == "ASC")
    ensures r.whereExpression == c.whereExpression && r.firstResult == c.firstResult && r.maxResults == c.maxResults
  {
    c.(orderings := seq(|orderings|, i requires 0 <= i < |orderings| => (orderings[i].0, DirectionOf(orderings[i].1))))
  }

  function SetFirstResult(c: Criteria, n: Option<int>): Criteria
  {
    c.(firstResult := n)
  }

  function SetMaxResults(c: Criteria, n: Option<int>): Criteria
  {
    c.(maxResults := n)
  }

  /** The text orderBy() of the builder receives reads back as the same direction. */
  lemma DirectionTextInverse(d: Direction)
    ensures DirectionOf(DirectionText(d)) == d
  {
  }

  /** "asc" in any case is ascending; "desc", the empty string or any other text is descending. */
  lemma DirectionSpellings()
    ensures DirectionOf("asc") == Ascending && DirectionOf("Asc") == Ascending && DirectionOf("ASC") == Ascending
    ensures DirectionOf("desc") == Descending && DirectionOf("") == Descending && DirectionOf("ascending") == Descending
  {
  }
}
