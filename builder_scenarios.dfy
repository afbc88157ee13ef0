/**
 * Client code that drives a QueryBuilder through the call chains the
 * builder's tests use, with the DQL each chain must produce.  Conditions
 * are abstract atoms: any text without " OR "/" AND " and not falsy.
 */
module BuilderScenarios {
  import opened Wrappers
  import opened Strings
  import opened QueryExpr
  import opened QueryParts
  import opened QueryBuilding
  import C = Criteria
  import V = CriteriaVisitor

  /** A condition text that is neither falsy nor holds a connective. */
  predicate Atom(s: string)
  {
    Truthy(s) && !MentionsConnective(s)
  }

  // ---------------------------------------------------------------------
  // Plain DQL strings as arguments

  /** The arguments of a call such as select('u.id', 'u.name'): each string as it is given. */
  function Raws(texts: seq<string>): (r: seq<Expr>)
    ensures |r| == |texts| && forall i :: 0 <= i < |texts| ==> r[i] == Raw(texts[i])
  {
    seq(|texts|, i requires 0 <= i < |texts| => Raw(texts[i]))
  }

  /** Strings are accepted by every container, and none is ignored. */
  lemma RawsAccepted(c: Container, texts: seq<string>)
    ensures AddMultiple(c, [], Raws(texts)) == Ok(Raws(texts))
  {
    var args := Raws(texts);
    assert forall i :: 0 <= i < |args| ==> !Ignored(args[i]) && Allowed(c, args[i]);
    KeptNone(args);
    assert [] + args == args;
  }

  /** Strings render as themselves. */
  lemma RendersRaws(texts: seq<string>)
    ensures Renders(Raws(texts)) == texts
  {
  }

  /** A select list of strings renders as the strings joined by commas. */
  lemma SelectOfRaws(texts: seq<string>)
    ensures Render(QueryExpr.Select(Raws(texts))) == Join(texts, ", ")
  {
    var e := QueryExpr.Select(Raws(texts));
    RenderAllRaws(e, texts);
  }

  lemma {:induction false} RenderAllRaws(e: Expr, texts: seq<string>)
    requires forall p :: p in Raws(texts) ==> p < e
    ensures RenderAll(e, Raws(texts)) == texts
    decreases |texts|
  {
    if |texts| > 0 {
      assert Raws(texts)[1..] == Raws(texts[1..]);
      assert forall p :: p in Raws(texts[1..]) ==> p in Raws(texts);
      RenderAllRaws(e, texts[1..]);
      assert texts == [texts[0]] + texts[1..];
    }
  }

  // ---------------------------------------------------------------------
  // Bracketing of where/having chains, on the values

  /** where(a): a single condition is held in an Andx of one part and renders as itself. */
  lemma SingleCondition(a: string)
    ensures Predicates([Raw(a)]) == Ok(Composite(And, [Raw(a)]))
    ensures Render(Composite(And, [Raw(a)])) == a
  {
    var args := [Raw(a)];
    assert !Ignored(args[0]) && Allowed(AndxBox, args[0]);
    KeptNone(args);
    assert [] + args == args;
  }

  /** where(a)->orWhere(b): the Andx of one part becomes the first part of an Orx. */
  lemma WhereOr(a: string, b: string)
    requires Atom(a) && Atom(b)
    ensures Extend(Or, Some(Composite(And, [Raw(a)])), [Raw(b)]) == Ok(Composite(Or, [Composite(And, [Raw(a)]), Raw(b)]))
    ensures Render(Composite(Or, [Composite(And, [Raw(a)]), Raw(b)])) == a + " OR " + b
  {
    var args := [Composite(And, [Raw(a)]), Raw(b)];
    assert ([Composite(And, [Raw(a)])] + [Raw(b)]) == args;
    KeptNone(args);
    assert Render(args[0]) == a;
    assert Plain(args[0]) && Plain(args[1]);
    FlatComposite(Or, args);
    assert Renders(args) == [a, b];
    assert Join([a, b], " OR ") == a + " OR " + b by {
      assert [a, b][1..] == [b];
    }
  }

  /** A composite of several parts followed by an atom under the other junction: the composite is bracketed. */
  lemma ExtendBracketsOther(j: Junction, inner: Expr, c: string)
    requires inner.Composite? && inner.junction != j && |inner.parts| > 1
    requires Atom(c)
    ensures Extend(j, Some(inner), [Raw(c)]) == Ok(Composite(j, [inner, Raw(c)]))
    ensures Render(Composite(j, [inner, Raw(c)])) == "(" + Render(inner) + ")" + Separator(j) + c
  {
    var args := [inner, Raw(c)];
    assert ([inner] + [Raw(c)]) == args;
    assert !Ignored(inner);
    KeptNone(args);
    assert Plain(Raw(c));
    NestedCompositeBracketed(j, inner, [Raw(c)]);
    assert [inner] + [Raw(c)] == args;
    assert Renders([Raw(c)]) == [c];
  }

  /** The case the ORM's tests name: where(a)->orWhere(b)->andWhere(c) is (a OR b) AND c. */
  lemma WhereOrAnd(a: string, b: string, c: string)
    requires Atom(a) && Atom(b) && Atom(c)
    ensures Render(Composite(And, [Composite(Or, [Composite(And, [Raw(a)]), Raw(b)]), Raw(c)])) == "(" + (a + " OR " + b) + ")" + " AND " + c
  {
    var inner := Composite(Or, [Composite(And, [Raw(a)]), Raw(b)]);
    WhereOr(a, b);
    var t := Render(inner);
    assert t == a + " OR " + b;
    ExtendBracketsOther(And, inner, c);
  }

  /** where(a)->andWhere(b): the second condition joins the Andx of the first, flat. */
  lemma WhereAnd(a: string, b: string)
    requires Atom(a) && Atom(b)
    ensures Extend(And, Some(Composite(And, [Raw(a)])), [Raw(b)]) == Ok(Composite(And, [Raw(a), Raw(b)]))
    ensures Render(Composite(And, [Raw(a), Raw(b)])) == a + " AND " + b
  {
    var args := [Raw(a), Raw(b)];
    assert [Raw(a)] + [Raw(b)] == args;
    KeptNone([Raw(b)]);
    assert Plain(args[0]) && Plain(args[1]);
    FlatComposite(And, args);
    assert Renders(args) == [a, b];
    assert Join([a, b], " AND ") == a + " AND " + b by {
      assert [a, b][1..] == [b];
    }
  }

  /** having(a)->andHaving(b)->orHaving(c) is (a AND b) OR c. */
  lemma HavingAndOr(a: string, b: string, c: string)
    requires Atom(a) && Atom(b) && Atom(c)
    ensures Extend(Or, Some(Composite(And, [Raw(a), Raw(b)])), [Raw(c)]) == Ok(Composite(Or, [Composite(And, [Raw(a), Raw(b)]), Raw(c)]))
    ensures Render(Composite(Or, [Composite(And, [Raw(a), Raw(b)]), Raw(c)])) == "(" + (a + " AND " + b) + ")" + " OR " + c
  {
    var inner := Composite(And, [Raw(a), Raw(b)]);
    WhereAnd(a, b);
    var t := Render(inner);
    assert t == a + " AND " + b;
    ExtendBracketsOther(Or, inner, c);
  }

  /** orWhere(d, e) on a composite of several parts of the other junction: it becomes the bracketed first of three parts. */
  lemma ExtendBracketsOtherTwo(j: Junction, inner: Expr, d: string, e: string)
    requires inner.Composite? && inner.junction != j && |inner.parts| > 1
    requires Atom(d) && Atom(e)
    ensures Extend(j, Some(inner), [Raw(d), Raw(e)]) == Ok(Composite(j, [inner, Raw(d), Raw(e)]))
    ensures Render(Composite(j, [inner, Raw(d), Raw(e)])) == "(" + Render(inner) + ")" + Separator(j) + (d + Separator(j) + e)
  {
    var args := [inner, Raw(d), Raw(e)];
    assert [inner] + [Raw(d), Raw(e)] == args;
    assert !Ignored(inner);
    KeptNone(args);
    assert Plain(Raw(d)) && Plain(Raw(e));
    NestedCompositeBracketed(j, inner, [Raw(d), Raw(e)]);
    assert Renders([Raw(d), Raw(e)]) == [d, e];
    assert Join([d, e], Separator(j)) == d + Separator(j) + e by {
      assert [d, e] == [d] + [e];
      JoinSnoc([d], e, Separator(j));
    }
  }

  /**
   * where(a)->orWhere(b)->andWhere(c)->orWhere(d, e)->andWhere(f): each switch
   * of junction brackets what came before, so the text is
   * (((a OR b) AND c) OR d OR e) AND f.
   */
  lemma NestingChain(a: string, b: string, c: string, d: string, e: string, f: string)
    requires Atom(a) && Atom(b) && Atom(c) && Atom(d) && Atom(e) && Atom(f)
    ensures var x := Composite(And, [Composite(Or, [Composite(And, [Raw(a)]), Raw(b)]), Raw(c)]);
      && Extend(Or, Some(x), [Raw(d), Raw(e)]) == Ok(Composite(Or, [x, Raw(d), Raw(e)]))
      && Extend(And, Some(Composite(Or, [x, Raw(d), Raw(e)])), [Raw(f)]) == Ok(Composite(And, [Composite(Or, [x, Raw(d), Raw(e)]), Raw(f)]))
      && Render(Composite(And, [Composite(Or, [x, Raw(d), Raw(e)]), Raw(f)]))
         == "(" + ("(" + ("(" + (a + " OR " + b) + ")" + " AND " + c) + ")" + " OR " + (d + " OR " + e)) + ")" + " AND " + f
  {
    var x := Composite(And, [Composite(Or, [Composite(And, [Raw(a)]), Raw(b)]), Raw(c)]);
    WhereOrAnd(a, b, c);
    ExtendBracketsOtherTwo(Or, x, d, e);
    var y := Composite(Or, [x, Raw(d), Raw(e)]);
    ExtendBracketsOther(And, y, f);
  }

  /** where(s)->andWhere(d) for a string s that itself holds OR or AND: s is bracketed, d is not. */
  lemma ConnectiveStringAndWhere(s: string, d: string)
    requires MentionsConnective(s) && Atom(d)
    ensures Extend(And, Some(Composite(And, [Raw(s)])), [Raw(d)]) == Ok(Composite(And, [Raw(s), Raw(d)]))
    ensures Render(Composite(And, [Raw(s), Raw(d)])) == "(" + s + ")" + " AND " + d
  {
    assert [Raw(s)] + [Raw(d)] == [Raw(s), Raw(d)];
    KeptNone([Raw(d)]);
    assert Plain(Raw(d));
    StringPartBracketing(And, s, [Raw(d)]);
    assert Renders([Raw(d)]) == [d];
  }
}

