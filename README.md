# Doctrine ORM query builder and configuration, modelled in Dafny

This project models two parts of the Doctrine ORM as its unit tests fix them.

1. **The DQL `QueryBuilder` and the `Expr` objects.**
   - `QueryBuilding.QueryBuilder` is a class whose fields the builder's fluent calls change step by step. The fields are:
     - the DQL parts;
     - the ordered parameters;
     - first/max results;
     - the second-level cache options;
     - the query type;
     - the CLEAN/DIRTY state with its cached DQL string;
     - the join-alias-to-root record.
   - The parts themselves, `getDQL()`'s rendering, `add()`, resetting and rebuilding are pure functions in `QueryParts`.
   - The expression objects (`Andx`, `Orx`, `Comparison`, `Func`, `Literal`, `Select`, `GroupBy`, `OrderBy`) are values in `QueryExpr`, with their string conversion.
     - `Base::add` on an `Orx`/`Andx` that grows in place is the class `QueryExpr.CompositeObject`.
   - `addCriteria` is in the builder:
     - the criteria (`Criteria`) are values;
     - the visitor that turns them into qualified predicates with fresh parameter names (`CriteriaVisitor`) is a function;
     - the builder applies the walk step by step.
2. **The ORM `Configuration`.**
   - `OrmConfiguration.Configuration` is a class with one field per setting.
   - Maps hold the entity namespaces, named queries, custom functions, hydration modes and filters.
   - Caches, drivers and strategies are opaque tokens.
   - `ensureProductionSettings` is a function over the settings, with the order of its checks and its error messages.

The client modules (`BuilderScenarios`, `BuilderSequences`, `BuilderLifecycle`, `CriteriaScenarios`, `ExprScenarios`, `ConfigScenarios`) drive the classes through the call chains of the tests. They prove the DQL text or the values each chain must give. Conditions are abstract strings wherever the tests' exact strings add nothing.

Modelling choices:

- Only the calls that store a part through `add()` set the state to DIRTY, and so do the resets. These are `from`, the joins, `set`, a successful `where`/`having` and their and/or variants, `groupBy`, `orderBy`, `select` with arguments, and `delete`/`update` with an entity.
- `distinct()`, `indexBy()`, `select()` without arguments, the parameter setters and the pagination setters keep the state. After one of them a CLEAN builder's `getDQL()` returns the cached text, even if the parts have changed since (`BuilderLifecycle.CachedAfterDirectWrites`).
- `getDQL()` returns the cached text of a CLEAN builder. Otherwise it renders the type and parts, caches the text and sets CLEAN.
- A rejected argument to `andWhere()` and the other three extensions stops the call before `add()`. A stored `Andx`/`Orx` of the same junction has already taken the arguments before the rejected one, because `addMultiple` appends them in place (`QueryParts.LeftOnRejection`).
- A FROM root given as one string `'Entity alias'` to `add('from', …)` is split into entity and alias when it is stored (`QueryBuilderTest.php:1059-1066`).
- `add()` of an array on a list part keeps only its first element, which is what the rebuild test relies on. A join given without its root alias goes to the first root (`QueryBuilderTest.php:1018-1026`).
- `set*Functions` on the configuration discards the functions registered before, as the setters' documentation says, and then adds the entries in order, stopping at the first built-in name. The tests (`ConfigurationTest.php:255-286`) call it after `addCustom*Function('FunctionName', …)`, but they never look that name up again, so they do not decide the discard.
- When a criteria sets a first result or a maximum, it replaces the builder's value. A criteria without them leaves the builder's values as they were (`QueryBuilderTest.php:575-605`). A description where the builder's own values always win does not match these tests, so the model follows the tests.
- Parameter names from `addCriteria` are chosen by the corrected rule `CriteriaVisitor.FreshName` (see Findings). On every test input it gives the same names as the rule as written.

## Model

| member | source | states |
|---|---|---|
| Strings.FindCI | tests/Doctrine/Tests/ORM/QueryBuilderTest.php:252-261 | the first position at or after the start where the needle matches case-insensitively; nothing exactly when no such position matches |
| Strings.NatToStringParses | tests/Doctrine/Tests/ORM/QueryBuilderTest.php:1045-1054 | a numeral is a non-empty digit string without a leading zero that reads back as the number |
| Strings.NatToStringInjective | tests/Doctrine/Tests/ORM/QueryBuilderTest.php:432-539 | different numbers get different numerals, so suffixed parameter names differ |
| Strings.UnescapeEscape | tests/Doctrine/Tests/ORM/QueryBuilderTest.php:721-733 | doubling the quotes of a string literal loses nothing: undoing it gives the original text |
| Strings.EscapeQuotesPaired | tests/Doctrine/Tests/ORM/QueryBuilderTest.php:721-733 | inside an escaped literal every quote is one of a pair |
| QueryExpr.KeptMembers | tests/Doctrine/Tests/ORM/QueryBuilderTest.php:707-719 | `Base::add` keeps exactly the arguments that are not empty expression lists |
| QueryExpr.KeptAppend | tests/Doctrine/Tests/ORM/QueryBuilderTest.php:707-719 | adding two argument lists one after the other keeps what adding each keeps, in order |
| QueryExpr.AddMultiple | tests/Doctrine/Tests/ORM/QueryBuilderTest.php:707-719 | `addMultiple` succeeds exactly when every argument is ignored or of an allowed class, and then appends the kept arguments to the parts |
| QueryExpr.AddMultipleRejectsFirst | tests/Doctrine/Tests/ORM/QueryBuilderTest.php:707-719 | a refused `addMultiple` names the class of the first argument that is neither ignored nor allowed |
| QueryExpr.FirstRejected | tests/Doctrine/Tests/ORM/QueryBuilderTest.php:707-719 | the position of the first argument that is neither ignored nor allowed, with every earlier one ignored or allowed; nothing exactly when every argument is |
| QueryExpr.AddMultipleFailsAtFirstRejected | tests/Doctrine/Tests/ORM/QueryBuilderTest.php:707-719 | `addMultiple` raises exactly when some argument is rejected, naming the class of the first |
| QueryExpr.CompositeObject.Add | tests/Doctrine/Tests/ORM/QueryBuilderTest.php:750-763 | `$orExpr->add(e)` on the object: accepted exactly when e is ignored or allowed, then the kept argument is appended; otherwise the parts are unchanged and the error names e's class |
| QueryExpr.StringLiteralReadsBack | tests/Doctrine/Tests/ORM/QueryBuilderTest.php:721-733 | a string literal is quoted, pairs every inner quote, and unescapes to the string |
| QueryExpr.IntegerLiteralIsNumeral | tests/Doctrine/Tests/ORM/QueryBuilderTest.php:1045-1054 | an integer literal is its decimal numeral: a `-` exactly when it is negative, then digits that read back as its magnitude |
| QueryExpr.InListRendering | tests/Doctrine/Tests/ORM/QueryBuilderTest.php:299-319 | `in(x, [v1, …])` renders as `x IN(` and the quoted values joined by `, `, then `)` |
| QueryExpr.NotInListRendering | tests/Doctrine/Tests/ORM/QueryBuilderTest.php:321-341 | `notIn(x, [v1, …])` renders the same way, with `NOT IN(` |
| QueryExpr.FlatComposite | tests/Doctrine/Tests/ORM/QueryBuilderTest.php:263-283 | a composite of plain conditions renders as their texts joined by its separator, without brackets |
| QueryExpr.NestedCompositeBracketed | tests/Doctrine/Tests/ORM/QueryBuilderTest.php:285-297 | a nested composite of several parts is bracketed, whatever its text |
| QueryExpr.StringPartBracketing | tests/Doctrine/Tests/ORM/QueryBuilderTest.php:252-261 | a string part holding ` OR ` or ` AND `, in any case, is bracketed; any other string part is not |
| QueryExpr.ComparisonTextPlain | tests/Doctrine/Tests/ORM/QueryBuilderTest.php:432-539 | a comparison between operands without blanks never mentions a connective, so it is never bracketed for its text |
| QueryExpr.ComparisonPlain | tests/Doctrine/Tests/ORM/QueryBuilderTest.php:432-539 | such a comparison is a plain part of any composite |
| QueryExpr.OneBlankPlain | tests/Doctrine/Tests/ORM/QueryBuilderTest.php:750-763 | two blank-free words joined by one blank never mention a connective |
| QueryParts.FromOfTextSplits | tests/Doctrine/Tests/ORM/QueryBuilderTest.php:1059-1066 | splitting `'entity alias'` gives back the entity and the alias when the alias has no blank |
| QueryParts.JoinsTextSnoc | tests/Doctrine/Tests/ORM/QueryBuilderTest.php:141-195 | one more join of a root appends a blank and the join's text to that root's joins |
| QueryParts.AttachJoin | tests/Doctrine/Tests/ORM/QueryBuilderTest.php:218-240 | the roots that have joins are the old ones and the join's root |
| QueryParts.AttachJoinRendersAfterItsRoot | tests/Doctrine/Tests/ORM/QueryBuilderTest.php:229-240 | a join attached to root r extends r's own FROM text right after r's earlier joins and leaves every other root's text alone |
| QueryParts.FromSectionSnoc | tests/Doctrine/Tests/ORM/QueryBuilderTest.php:197-240 | with several roots, each is followed by its own joins before the comma and the next root |
| QueryParts.Store | tests/Doctrine/Tests/ORM/QueryBuilderTest.php:1137-1154 | `add()` of an array on a list part keeps its first element, appended or as the whole list |
| QueryParts.MergeJoins | tests/Doctrine/Tests/ORM/QueryBuilderTest.php:1018-1026 | join lists are appended root by root; the roots are the old ones and the new ones |
| QueryParts.AddPart | tests/Doctrine/Tests/ORM/QueryBuilderTest.php:1084-1093 | `add()` fails exactly on an append to where or having, or a join without root alias when there is no root; only the named part changes |
| QueryParts.Readd | tests/Doctrine/Tests/ORM/QueryBuilderTest.php:1137-1154 | a part that `array_filter` drops is skipped and leaves the builder as it was |
| QueryParts.RebuildRestoresParts | tests/Doctrine/Tests/ORM/QueryBuilderTest.php:1137-1154 | re-adding the non-empty parts to a fresh builder restores them, apart from falsy where/having texts |
| QueryParts.WithoutFalsyRendersSame | tests/Doctrine/Tests/ORM/QueryBuilderTest.php:1137-1154 | a falsy where or having renders nothing, so dropping it changes no DQL |
| QueryParts.RebuildRendersSame | tests/Doctrine/Tests/ORM/QueryBuilderTest.php:1137-1154 | the rebuilt builder gives the same DQL as the original, for every query type |
| QueryParts.RebuildKeepsFirstRootOnly | tests/Doctrine/Tests/ORM/QueryBuilderTest.php:1137-1154 | the rebuild reproduces single-entry lists only: of two FROM roots the second is lost |
| QueryParts.RebuildOthersSucceed | tests/Doctrine/Tests/ORM/QueryBuilderTest.php:1137-1154 | re-adding the parts other than from always succeeds and leaves from alone |
| QueryParts.Extend | tests/Doctrine/Tests/ORM/QueryBuilderTest.php:252-297 | andWhere/orWhere: a current condition of the same junction grows by the kept arguments; any other becomes the first part of a new composite |
| QueryParts.LeftOnRejection | tests/Doctrine/Tests/ORM/QueryBuilderTest.php:252-297 | after a rejected extension a stored composite of the same junction has grown by a prefix of the kept arguments, exactly those before the rejected one; any other condition is unchanged |
| QueryParts.ResetPart | tests/Doctrine/Tests/ORM/QueryBuilderTest.php:836-850 | `resetDQLPart(name)` gives that part its initial value and leaves every other part alone |
| QueryParts.ResetPartsEffect | tests/Doctrine/Tests/ORM/QueryBuilderTest.php:852-864 | resetting some parts empties exactly those and leaves the others as they were |
| QueryParts.PartsDeterminedByGetPart | tests/Doctrine/Tests/ORM/QueryBuilderTest.php:852-878 | two sets of parts that agree on every `getDQLPart` are equal |
| QueryParts.ResetAllIsEmpty | tests/Doctrine/Tests/ORM/QueryBuilderTest.php:866-878 | `resetDQLParts()` without names gives the parts of a new builder |
| QueryParts.ResetCovering | tests/Doctrine/Tests/ORM/QueryBuilderTest.php:866-878 | resetting a list of names that covers every part empties everything |
| QueryParts.OrderByItem | tests/Doctrine/Tests/ORM/QueryBuilderTest.php:390-430 | an `Expr\OrderBy` is used as given; any other sort becomes one entry with its direction, ASC by default |
| QueryExpr.AscDescEntries | tests/Doctrine/Tests/ORM/QueryBuilderTest.php:400-430 | `asc(s)` and `desc(s)` are each an `Expr\OrderBy` holding `s ASC` or `s DESC` when s is truthy, and no entry when it is falsy |
| QueryParts.OrderByExpressionSame | tests/Doctrine/Tests/ORM/QueryBuilderTest.php:390-430 | `orderBy(expr()->asc(s))` stores the same ordering as `orderBy(s)` and `orderBy(s, 'ASC')`, and `desc(s)` the same as `orderBy(s, 'DESC')`, for every s |
| Criteria.OrderBy | tests/Doctrine/Tests/ORM/QueryBuilderTest.php:541-573 | `orderBy` replaces the orderings with one per given pair, in order, keeping each field; a direction is ascending exactly when it is `ASC` in some letter case; the filter and the pagination are kept |
| Criteria.DirectionTextInverse | tests/Doctrine/Tests/ORM/QueryBuilderTest.php:541-573 | the direction text handed on to `addOrderBy` reads back as the same direction |
| Criteria.DirectionSpellings | tests/Doctrine/Tests/ORM/QueryBuilderTest.php:541-573 | `asc` in any case is ascending; `desc`, the empty string and any other text are descending |
| CriteriaVisitor.QualifyField | tests/Doctrine/Tests/ORM/QueryBuilderTest.php:903-938 | a field that starts with a known alias is kept; any other is prefixed with the first alias |
| CriteriaVisitor.FreeSuffixName | tests/Doctrine/Tests/ORM/QueryBuilderTest.php:943-960 | the first suffix from k on that gives an unbound name |
| CriteriaVisitor.FreshName | tests/Doctrine/Tests/ORM/QueryBuilderTest.php:943-960 | never returns a bound name; a free name is kept; it agrees with the rule as written whenever that rule's answer is free |
| CriteriaVisitor.CountSuffixCollides | tests/Doctrine/Tests/ORM/QueryBuilderTest.php:943-960 | the rule as written names the third parameter of fields `x_2`, `x`, `x` as `x_2`, which is taken |
| CriteriaVisitor.Dispatch | tests/Doctrine/Tests/ORM/QueryBuilderTest.php:432-539 | the walk keeps the parameters bound before it, appends exactly the values of the criteria's leaves in order, yields an expression any Andx/Orx accepts, and under the corrected rule keeps the names distinct |
| CriteriaVisitor.DispatchAll | tests/Doctrine/Tests/ORM/QueryBuilderTest.php:432-539 | the walk of a list gives one expression per element and the values of all its leaves, in order |
| CriteriaVisitor.WalkComparisonBinds | tests/Doctrine/Tests/ORM/QueryBuilderTest.php:432-446 | one comparison binds at most one parameter, with its value, named by the scheme |
| CriteriaVisitor.AppendFreshName | tests/Doctrine/Tests/ORM/QueryBuilderTest.php:943-960 | appending a parameter with an unbound name keeps the names distinct |
| QueryBuilding.GetParameterOf | tests/Doctrine/Tests/ORM/QueryBuilderTest.php:662-675 | `getParameter(key)` is the first parameter with that name, and nothing exactly when no parameter has it |
| QueryBuilding.SetParameterIn | tests/Doctrine/Tests/ORM/QueryBuilderTest.php:617-628 | a bound name is rebound in place; a new key is appended with its surrounding `:` removed |
| QueryBuilding.SetThenGet | tests/Doctrine/Tests/ORM/QueryBuilderTest.php:617-628 | after `setParameter(key, v, t)` the key reads back v and t |
| QueryBuilding.SetLeavesOthers | tests/Doctrine/Tests/ORM/QueryBuilderTest.php:630-660 | `setParameter` leaves every other name's lookup alone |
| QueryBuilding.SetParameterCount | tests/Doctrine/Tests/ORM/QueryBuilderTest.php:966-978 | setting a bound name adds no parameter; a new name adds exactly one |
| QueryBuilding.AssocPutKeys | tests/Doctrine/Tests/ORM/QueryBuilderTest.php:1166-1176 | recording a join alias keeps an existing alias in place and puts a new one last |
| QueryBuilding.AssocPutGet | tests/Doctrine/Tests/ORM/QueryBuilderTest.php:1166-1176 | the alias reads back its new root; every other alias reads back what it did |
| QueryBuilding.ParentAlias | tests/Doctrine/Tests/ORM/QueryBuilderTest.php:218-240 | the parent alias of a join path is the text before its first `.`, or empty for a path without one |
| QueryBuilding.FindRootAlias | tests/Doctrine/Tests/ORM/QueryBuilderTest.php:218-240 | a root parent is its own root; a join alias leads to its recorded root; anything else falls back to the first root, an error without any root |
| QueryBuilding.Reindexed | tests/Doctrine/Tests/ORM/QueryBuilderTest.php:113-130 | `indexBy(alias, i)` gives every root with that alias the INDEX BY and leaves the others alone |
| QueryBuilding.CriteriaOrderings | tests/Doctrine/Tests/ORM/QueryBuilderTest.php:541-573 | each ordering of the criteria becomes one builder ordering, in order, holding the qualified field and the direction text (none for a falsy field) |
| QueryBuilding.CriteriaNeedsAlias | tests/Doctrine/Tests/ORM/QueryBuilderTest.php:432-446 | `addCriteria` fails, with the no-alias error, exactly when the builder has no alias |
| QueryBuilding.ExtendOneAllowed | tests/Doctrine/Tests/ORM/QueryBuilderTest.php:468-482 | andWhere of one allowed predicate fails only on a current condition an Andx refuses |
| QueryBuilding.CriteriaEffect | tests/Doctrine/Tests/ORM/QueryBuilderTest.php:575-605 | the criteria's first/max results replace the builder's when set; its orderings follow the builder's, qualified; its parameters follow the builder's, with the criteria's values in order and distinct names; from, joins, selections and type stay |
| QueryBuilding.EmptyCriteriaKeepsBuilder | tests/Doctrine/Tests/ORM/QueryBuilderTest.php:591-605 | a criteria with nothing in it changes nothing |
| QueryBuilding.QueryBuilder.constructor | tests/Doctrine/Tests/ORM/QueryBuilderTest.php:812-816 | a new builder: empty parts, SELECT, CLEAN, no parameters or pagination |
| QueryBuilding.QueryBuilder.GetDQL | tests/Doctrine/Tests/ORM/QueryBuilderTest.php:818-825 | returns the cached text of a CLEAN builder, otherwise the DQL of the type and parts; caches it and makes the builder CLEAN, changing nothing else |
| QueryBuilding.QueryBuilder.Add | tests/Doctrine/Tests/ORM/QueryBuilderTest.php:1084-1093 | `add(name, value, append)` stores the part as `AddPart` gives it, or refuses and changes nothing |
| QueryBuilding.QueryBuilder.SelectItems | tests/Doctrine/Tests/ORM/QueryBuilderTest.php:60-76 | select/addSelect set SELECT in any case; no arguments or a rejected one add nothing and keep the state; otherwise one select list replaces or is appended and the builder is DIRTY |
| QueryBuilding.QueryBuilder.Select | tests/Doctrine/Tests/ORM/QueryBuilderTest.php:96-103 | `select(...)` replaces the selections with one list of the arguments |
| QueryBuilding.QueryBuilder.AddSelect | tests/Doctrine/Tests/ORM/QueryBuilderTest.php:1137-1154 | `addSelect(...)` appends one list of the arguments |
| QueryBuilding.QueryBuilder.Distinct | tests/Doctrine/Tests/ORM/QueryBuilderTest.php:1071-1079 | `distinct(flag)` sets the flag and nothing else, the state included |
| QueryBuilding.QueryBuilder.Retarget | tests/Doctrine/Tests/ORM/QueryBuilderTest.php:78-94 | delete/update change the type; a given entity becomes the only root and makes the builder DIRTY; without one the state is kept |
| QueryBuilding.QueryBuilder.Delete | tests/Doctrine/Tests/ORM/QueryBuilderTest.php:105-111 | `delete(E, a)` makes a DELETE on root E a |
| QueryBuilding.QueryBuilder.Update | tests/Doctrine/Tests/ORM/QueryBuilderTest.php:132-139 | `update(E, a)` makes an UPDATE on root E a |
| QueryBuilding.QueryBuilder.Set | tests/Doctrine/Tests/ORM/QueryBuilderTest.php:132-139 | `set(k, v)` appends the assignment `k = v` |
| QueryBuilding.QueryBuilder.From | tests/Doctrine/Tests/ORM/QueryBuilderTest.php:197-216 | `from(E, a, i)` appends one root |
| QueryBuilding.QueryBuilder.IndexBy | tests/Doctrine/Tests/ORM/QueryBuilderTest.php:122-130 | `indexBy(alias, i)` fails, changing nothing, exactly when alias is not a root; otherwise that root takes the INDEX BY and the state is kept |
| QueryBuilding.QueryBuilder.Join | tests/Doctrine/Tests/ORM/QueryBuilderTest.php:141-240 | the join goes to the root its path's parent leads to, and that root is recorded for the new alias; without a root nothing changes |
| QueryBuilding.QueryBuilder.SetCondition | tests/Doctrine/Tests/ORM/QueryBuilderTest.php:242-250 | where/having replace the condition with the predicates' composite |
| QueryBuilding.QueryBuilder.ExtendCondition | tests/Doctrine/Tests/ORM/QueryBuilderTest.php:252-297 | andWhere/orWhere/andHaving/orHaving extend the condition as `Extend` gives it and make the builder DIRTY; on a rejected argument they leave the condition `LeftOnRejection` gives and keep the state |
| QueryBuilding.QueryBuilder.Where | tests/Doctrine/Tests/ORM/QueryBuilderTest.php:242-250 | `where(...)` replaces the where condition |
| QueryBuilding.QueryBuilder.AndWhere | tests/Doctrine/Tests/ORM/QueryBuilderTest.php:263-272 | `andWhere(...)` extends the where condition under AND; a rejection leaves `LeftOnRejection` and keeps the state |
| QueryBuilding.QueryBuilder.OrWhere | tests/Doctrine/Tests/ORM/QueryBuilderTest.php:274-283 | `orWhere(...)` extends the where condition under OR; a rejection leaves `LeftOnRejection` and keeps the state |
| QueryBuilding.QueryBuilder.Having | tests/Doctrine/Tests/ORM/QueryBuilderTest.php:354-363 | `having(...)` replaces the having condition |
| QueryBuilding.QueryBuilder.AndHaving | tests/Doctrine/Tests/ORM/QueryBuilderTest.php:365-375 | `andHaving(...)` extends the having condition under AND; a rejection leaves `LeftOnRejection` and keeps the state |
| QueryBuilding.QueryBuilder.OrHaving | tests/Doctrine/Tests/ORM/QueryBuilderTest.php:377-388 | `orHaving(...)` extends the having condition under OR; a rejection leaves `LeftOnRejection` and keeps the state |
| QueryBuilding.QueryBuilder.GroupBy | tests/Doctrine/Tests/ORM/QueryBuilderTest.php:343-352 | groupBy/addGroupBy: one grouping list replaces or is appended; a refused argument changes nothing |
| QueryBuilding.QueryBuilder.OrderBy | tests/Doctrine/Tests/ORM/QueryBuilderTest.php:390-430 | orderBy/addOrderBy: one ordering replaces the orderings or is appended |
| QueryBuilding.QueryBuilder.SetParameter | tests/Doctrine/Tests/ORM/QueryBuilderTest.php:617-628 | `setParameter` changes the parameters as `SetParameterIn` gives them |
| QueryBuilding.QueryBuilder.SetParameters | tests/Doctrine/Tests/ORM/QueryBuilderTest.php:630-644 | a collection given to `setParameters` replaces the parameters |
| QueryBuilding.QueryBuilder.SetParameterArray | tests/Doctrine/Tests/ORM/QueryBuilderTest.php:647-660 | an array given to `setParameters` becomes one untyped parameter per key, in order |
| QueryBuilding.QueryBuilder.GetParameter | tests/Doctrine/Tests/ORM/QueryBuilderTest.php:662-675 | the parameter found has the key as name and is one of the builder's; nothing exactly when no parameter has the name |
| QueryBuilding.QueryBuilder.SetFirstResult | tests/Doctrine/Tests/ORM/QueryBuilderTest.php:575-589 | sets the first result and nothing else |
| QueryBuilding.QueryBuilder.SetMaxResults | tests/Doctrine/Tests/ORM/QueryBuilderTest.php:575-589 | sets the maximum and nothing else |
| QueryBuilding.QueryBuilder.SetCacheOptions | tests/Doctrine/Tests/ORM/QueryBuilderTest.php:1095-1132 | the cache options are recorded and nothing else changes |
| QueryBuilding.QueryBuilder.ResetDQLPart | tests/Doctrine/Tests/ORM/QueryBuilderTest.php:836-850 | `resetDQLPart(name)` resets that part only |
| QueryBuilding.QueryBuilder.ResetDQLParts | tests/Doctrine/Tests/ORM/QueryBuilderTest.php:852-864 | `resetDQLParts(names)` resets the named parts, one after the other |
| QueryBuilding.QueryBuilder.ResetAllDQLParts | tests/Doctrine/Tests/ORM/QueryBuilderTest.php:866-878 | `resetDQLParts()` leaves the parts of a new builder |
| QueryBuilding.QueryBuilder.GetDQLPart | tests/Doctrine/Tests/ORM/QueryBuilderTest.php:836-878 | `getDQLPart(name)` returns the part of that name; for join it is the map of joins by root |
| QueryBuilding.QueryBuilder.RootEntities | tests/Doctrine/Tests/ORM/QueryBuilderTest.php:998-1005 | one entity per root alias |
| QueryBuilding.QueryBuilder.RootAlias | tests/Doctrine/Tests/ORM/QueryBuilderTest.php:980-987 | the first root alias, an error exactly when there is no root |
| QueryBuilding.QueryBuilder.AllAliases | tests/Doctrine/Tests/ORM/QueryBuilderTest.php:1156-1176 | the root aliases, then the join aliases, each in the order they were added |
| QueryBuilding.QueryBuilder.AndWhereWalked | tests/Doctrine/Tests/ORM/QueryBuilderTest.php:432-539 | the filter half of addCriteria: andWhere of the walked predicate, then its parameters appended |
| QueryBuilding.QueryBuilder.AddCriteriaOrderings | tests/Doctrine/Tests/ORM/QueryBuilderTest.php:541-573 | each ordering of the criteria, qualified, goes through addOrderBy |
| QueryBuilding.QueryBuilder.AddCriteria | tests/Doctrine/Tests/ORM/QueryBuilderTest.php:432-605 | the builder ends in the state `ApplyCriteria` gives, or is unchanged with its error |
| QueryBuilding.QueryBuilder.Clone | tests/Doctrine/Tests/ORM/QueryBuilderTest.php:883-898 | the clone is a fresh builder equal in every field, so later calls on either leave the other alone |
| BuilderScenarios.RawsAccepted | tests/Doctrine/Tests/ORM/QueryBuilderTest.php:96-103 | string arguments are accepted by every container and none is ignored |
| BuilderScenarios.SelectOfRaws | tests/Doctrine/Tests/ORM/QueryBuilderTest.php:96-103 | a select list of strings renders as the strings joined by commas |
| BuilderScenarios.SingleCondition | tests/Doctrine/Tests/ORM/QueryBuilderTest.php:242-250 | `where(a)` holds an Andx of one part, which renders as a |
| BuilderScenarios.WhereOr | tests/Doctrine/Tests/ORM/QueryBuilderTest.php:274-283 | `where(a)->orWhere(b)` is an Orx of the Andx and b, rendered `a OR b` |
| BuilderScenarios.WhereAnd | tests/Doctrine/Tests/ORM/QueryBuilderTest.php:263-272 | `where(a)->andWhere(b)` grows the Andx flat, rendered `a AND b` |
| BuilderScenarios.ExtendBracketsOther | tests/Doctrine/Tests/ORM/QueryBuilderTest.php:285-297 | one more condition under the other junction brackets the composite before it |
| BuilderScenarios.ExtendBracketsOtherTwo | tests/Doctrine/Tests/ORM/QueryBuilderTest.php:285-297 | two more conditions under the other junction: the composite before them is bracketed, they are not |
| BuilderScenarios.WhereOrAnd | tests/Doctrine/Tests/ORM/QueryBuilderTest.php:285-297 | `where(a)->orWhere(b)->andWhere(c)` renders `(a OR b) AND c` |
| BuilderScenarios.NestingChain | tests/Doctrine/Tests/ORM/QueryBuilderTest.php:285-297 | the five-call chain of the nesting test renders `(((a OR b) AND c) OR d OR e) AND f` |
| BuilderScenarios.ConnectiveStringAndWhere | tests/Doctrine/Tests/ORM/QueryBuilderTest.php:252-261 | `where('… OR …')->andWhere(d)` brackets the string and not d |
| BuilderScenarios.HavingAndOr | tests/Doctrine/Tests/ORM/QueryBuilderTest.php:377-388 | `having(a)->andHaving(b)->orHaving(c)` renders `(a AND b) OR c` |
| BuilderSequences.QueryTypeSequence | tests/Doctrine/Tests/ORM/QueryBuilderTest.php:60-94 | the type follows the last of select, delete and update; `select()` without arguments still makes a SELECT |
| BuilderSequences.SelectFromText | tests/Doctrine/Tests/ORM/QueryBuilderTest.php:96-103 | the parts of `select(items)->from(E, u)` render as `SELECT items FROM E u` |
| BuilderSequences.SelectFromWhereText | tests/Doctrine/Tests/ORM/QueryBuilderTest.php:242-250 | with a condition, ` WHERE ` and its text follow |
| BuilderSequences.SelectFromHavingText | tests/Doctrine/Tests/ORM/QueryBuilderTest.php:354-363 | with groupings and a having condition, ` GROUP BY `, the groupings, ` HAVING ` and the condition follow |
| BuilderSequences.SimpleSelectSequence | tests/Doctrine/Tests/ORM/QueryBuilderTest.php:96-103 | `from(E, u)->select(f1, f2)` gives `SELECT f1, f2 FROM E u` |
| BuilderSequences.SimpleDeleteSequence | tests/Doctrine/Tests/ORM/QueryBuilderTest.php:105-111 | `delete(E, u)` gives `DELETE E u` |
| BuilderSequences.SimpleUpdateSequence | tests/Doctrine/Tests/ORM/QueryBuilderTest.php:132-139 | `update(E, u)->set(k, v)` gives `UPDATE E u SET k = v` |
| BuilderSequences.NewSelectFrom | tests/Doctrine/Tests/ORM/QueryBuilderTest.php:242-250 | `select(u)->from(E, u)` on a new builder: SELECT with one root, no condition, parameters, joins or pagination |
| BuilderSequences.Condition | tests/Doctrine/Tests/ORM/QueryBuilderTest.php:242-388 | a where/having call leaves the type and the other parts alone |
| BuilderSequences.WhereSequence | tests/Doctrine/Tests/ORM/QueryBuilderTest.php:242-250 | `where(c)` gives `SELECT u FROM E u WHERE c` |
| BuilderSequences.AndWhereSequence | tests/Doctrine/Tests/ORM/QueryBuilderTest.php:263-272 | `where(a)->andWhere(b)` gives `… WHERE a AND b` |
| BuilderSequences.OrWhereSequence | tests/Doctrine/Tests/ORM/QueryBuilderTest.php:274-283 | `where(a)->orWhere(b)` gives `… WHERE a OR b` |
| BuilderSequences.RejectedAndWhereSequence | tests/Doctrine/Tests/ORM/QueryBuilderTest.php:263-272 | `where(a)->andWhere(b, literal(x))` is refused naming the Literal class, and the DQL is then `… WHERE a AND b` |
| BuilderSequences.WhereOrAndSequence | tests/Doctrine/Tests/ORM/QueryBuilderTest.php:285-297 | `where(a)->orWhere(b)->andWhere(c)` gives `… WHERE (a OR b) AND c` |
| BuilderSequences.HavingSequence | tests/Doctrine/Tests/ORM/QueryBuilderTest.php:377-388 | `groupBy(g)->having(a)->andHaving(b)->orHaving(c)` gives `… GROUP BY g HAVING (a AND b) OR c` |
| BuilderSequences.TwoRootsText | tests/Doctrine/Tests/ORM/QueryBuilderTest.php:197-216 | two roots are separated by a comma, each followed by its own joins |
| BuilderSequences.MultipleFromJoinSequence | tests/Doctrine/Tests/ORM/QueryBuilderTest.php:229-240 | with roots u and a, u's two joins come before the comma and a's join after `E2 a` |
| BuilderSequences.JoinUnderTwoRoots | tests/Doctrine/Tests/ORM/QueryBuilderTest.php:229-240 | the three joins go under the roots their paths name, in order, and no other part changes |
| BuilderSequences.JoinTwiceUnderRoot | tests/Doctrine/Tests/ORM/QueryBuilderTest.php:218-227 | two joins on `u.…` both go under root u, in order |
| BuilderSequences.MultipleFromJoinText | tests/Doctrine/Tests/ORM/QueryBuilderTest.php:229-240 | the DQL text of those parts, join by join |
| BuilderLifecycle.StateSequence | tests/Doctrine/Tests/ORM/QueryBuilderTest.php:812-825 | a new builder is CLEAN, a change makes it DIRTY, `getDQL()` makes it CLEAN again |
| BuilderLifecycle.CachedAfterDirectWrites | tests/Doctrine/Tests/ORM/QueryBuilderTest.php:812-825 | after `getDQL()`, `distinct()` and an empty `select()` leave the cached text in place; a reset makes the next `getDQL()` show the DISTINCT |
| BuilderLifecycle.UserQuery | tests/Doctrine/Tests/ORM/QueryBuilderTest.php:836-850 | `select(u)->from(E, u)->where(c)->orderBy(s)` holds one selection, the condition and one ordering |
| BuilderLifecycle.ResetSequence | tests/Doctrine/Tests/ORM/QueryBuilderTest.php:836-878 | resetting where and orderBy removes the condition and the ordering but keeps the selection; resetting everything leaves no selection |
| BuilderLifecycle.FirstAndWhere | tests/Doctrine/Tests/ORM/QueryBuilderTest.php:883-898 | andWhere on a builder without condition starts an Andx of one part |
| BuilderLifecycle.AndWhereGrows | tests/Doctrine/Tests/ORM/QueryBuilderTest.php:883-898 | andWhere on an Andx grows it by one part |
| BuilderLifecycle.DeepCloneSequence | tests/Doctrine/Tests/ORM/QueryBuilderTest.php:883-898 | after two andWheres and a clone, an andWhere on the clone gives it three parts and leaves the original with two |
| BuilderLifecycle.ParametersClonedSequence | tests/Doctrine/Tests/ORM/QueryBuilderTest.php:966-978 | a parameter set on the copy does not reach the original, which keeps one parameter |
| BuilderLifecycle.RootAliasSequence | tests/Doctrine/Tests/ORM/QueryBuilderTest.php:980-1016 | two roots: the aliases in order, the first as the root alias, one entity per root |
| BuilderLifecycle.AllAliasesSequence | tests/Doctrine/Tests/ORM/QueryBuilderTest.php:1156-1176 | the aliases are the root alone, then the root and the join alias |
| BuilderLifecycle.WhereAppendSequence | tests/Doctrine/Tests/ORM/QueryBuilderTest.php:1084-1093 | `add('where', d, true)` after `add('where', c)` is refused and the condition stays c |
| BuilderLifecycle.UnkeyedJoinSequence | tests/Doctrine/Tests/ORM/QueryBuilderTest.php:1018-1026 | a join added without root alias follows the first root in the DQL |
| BuilderLifecycle.DistinctSequence | tests/Doctrine/Tests/ORM/QueryBuilderTest.php:1071-1079 | `select(u)->distinct()->from(E, u)` gives `SELECT DISTINCT u FROM E u` |
| BuilderLifecycle.LiteralCondition | tests/Doctrine/Tests/ORM/QueryBuilderTest.php:1031-1054 | `where(eq(f, literal(v)))` holds that comparison and renders it as `f = ` and the quoted value |
| BuilderLifecycle.EmptyLiterals | tests/Doctrine/Tests/ORM/QueryBuilderTest.php:1031-1054 | the literal of the empty string is `''` and that of 0 is `0` |
| BuilderLifecycle.EmptyLiteralSequence | tests/Doctrine/Tests/ORM/QueryBuilderTest.php:1031-1054 | the two conditions render as `f = ''` and `f = 0` |
| BuilderLifecycle.LiteralSequence | tests/Doctrine/Tests/ORM/QueryBuilderTest.php:1031-1054 | `select(u)->from(E, u)->where(eq(f, literal(v)))` gives `… WHERE f = ` and the quoted value |
| CriteriaScenarios.WalkOne | tests/Doctrine/Tests/ORM/QueryBuilderTest.php:432-446 | one comparison compares the qualified field with a placeholder and binds the value under the chosen name |
| CriteriaScenarios.WalkTwo | tests/Doctrine/Tests/ORM/QueryBuilderTest.php:447-467 | a composite of two criteria walks the second from the parameters the first left |
| CriteriaScenarios.TwoWalked | tests/Doctrine/Tests/ORM/QueryBuilderTest.php:447-539 | two comparisons: the second's name is chosen against the first's |
| CriteriaScenarios.WalkThen | tests/Doctrine/Tests/ORM/QueryBuilderTest.php:943-960 | a further comparison is named against every name bound so far |
| CriteriaScenarios.ThreeWalked | tests/Doctrine/Tests/ORM/QueryBuilderTest.php:943-960 | three comparisons in two ANDs bind three parameters, in order |
| CriteriaScenarios.SingleFieldNamed | tests/Doctrine/Tests/ORM/QueryBuilderTest.php:432-446 | `eq(field, v)` on root u is `u.field = :field` with v under `field` |
| CriteriaScenarios.SameFieldTwice | tests/Doctrine/Tests/ORM/QueryBuilderTest.php:447-486 | two tests of one field are named `field` and `field_1`, each with its own value |
| CriteriaScenarios.FieldNamesOnAlias1 | tests/Doctrine/Tests/ORM/QueryBuilderTest.php:487-539 | on one root alias, different fields keep their own names, and the second use of `field1` is named `field1_1` |
| CriteriaScenarios.FieldNamesWithJoinAlias | tests/Doctrine/Tests/ORM/QueryBuilderTest.php:903-938 | with join alias alias2, a bare field takes alias1 and `alias2.field` keeps its alias, named `alias2_field`; two qualified fields both keep their aliases and are named after them |
| CriteriaScenarios.DuplicateJoinField | tests/Doctrine/Tests/ORM/QueryBuilderTest.php:943-960 | the third test, of `alias2.field` again, is named `alias2_field_2` |
| CriteriaScenarios.TwoText | tests/Doctrine/Tests/ORM/QueryBuilderTest.php:447-539 | two comparisons of blank-free operands are joined flat |
| CriteriaScenarios.ThreeText | tests/Doctrine/Tests/ORM/QueryBuilderTest.php:943-960 | a two-part composite followed by a third comparison is bracketed |
| CriteriaScenarios.FilterOnly | tests/Doctrine/Tests/ORM/QueryBuilderTest.php:432-446 | a filter-only criteria on a builder without condition makes the walked filter the condition, its parameters after the builder's |
| CriteriaScenarios.AddFilter | tests/Doctrine/Tests/ORM/QueryBuilderTest.php:432-446 | `addCriteria` of such a criteria ends in exactly that state |
| CriteriaScenarios.NewSelectJoin | tests/Doctrine/Tests/ORM/QueryBuilderTest.php:903-918 | `select(r)->from(E, r)->join('r.f', j)`: the aliases are r, then j; no condition, parameters or orderings |
| CriteriaScenarios.CriteriaWhereSequence | tests/Doctrine/Tests/ORM/QueryBuilderTest.php:432-446 | the condition is `u.field = :field` and `field` holds the value |
| CriteriaScenarios.FilterSequence | tests/Doctrine/Tests/ORM/QueryBuilderTest.php:447-539 | `addCriteria` on `select(r)->from(E, r)` holds the walked condition in an Andx and exactly the parameters bound |
| CriteriaScenarios.FilterJoinSequence | tests/Doctrine/Tests/ORM/QueryBuilderTest.php:903-960 | the same after one join |
| CriteriaScenarios.SameFieldAndX | tests/Doctrine/Tests/ORM/QueryBuilderTest.php:447-467 | `andX(eq(field, a), eq(field, b))` gives `alias1.field = :field AND alias1.field = :field_1` with a and b |
| CriteriaScenarios.SameFieldAndWhere | tests/Doctrine/Tests/ORM/QueryBuilderTest.php:468-486 | `where(eq(field, a))->andWhere(gt(field, b))` gives `… AND alias1.field > :field_1` with a and b |
| CriteriaScenarios.DifferentFieldsSequence | tests/Doctrine/Tests/ORM/QueryBuilderTest.php:487-505 | `field1` and `field2` are named `:field1` and `:field2` |
| CriteriaScenarios.SubFieldSequence | tests/Doctrine/Tests/ORM/QueryBuilderTest.php:525-539 | `field1` twice is named `:field1` and `:field1_1` |
| CriteriaScenarios.JoinAliasSequence | tests/Doctrine/Tests/ORM/QueryBuilderTest.php:903-918 | `alias1.field = :field AND alias2.field > :alias2_field`, with a and b |
| CriteriaScenarios.DefaultAndJoinAliasSequence | tests/Doctrine/Tests/ORM/QueryBuilderTest.php:923-938 | `alias1.field = :alias1_field AND alias2.field > :alias2_field`, with a and b |
| CriteriaScenarios.DuplicateFieldsSequence | tests/Doctrine/Tests/ORM/QueryBuilderTest.php:943-960 | `(alias1.field = :alias1_field AND alias2.field > :alias2_field) AND alias2.field < :alias2_field_2`, with the three values |
| CriteriaScenarios.CriteriaOrderSequence | tests/Doctrine/Tests/ORM/QueryBuilderTest.php:541-557 | `orderBy([field => DESC])` gives one ordering, `u.field DESC` |
| CriteriaScenarios.OrderOnJoinAliasSequence | tests/Doctrine/Tests/ORM/QueryBuilderTest.php:559-573 | `orderBy([a.field => DESC])` after a join keeps the join alias: `a.field DESC` |
| CriteriaScenarios.CriteriaLimitSequence | tests/Doctrine/Tests/ORM/QueryBuilderTest.php:575-589 | the criteria's first result 2 and maximum 10 reach the builder |
| CriteriaScenarios.UndefinedLimitSequence | tests/Doctrine/Tests/ORM/QueryBuilderTest.php:591-605 | a criteria without pagination leaves the builder's 2 and 10 |
| ExprScenarios.InOneText | tests/Doctrine/Tests/ORM/QueryBuilderTest.php:707-719 | `in(x, [1])` renders as `x IN(1)` |
| ExprScenarios.NotText | tests/Doctrine/Tests/ORM/QueryBuilderTest.php:750-763 | `not(e)` renders as `NOT(` and the text of e, closed |
| ExprScenarios.OrOfTwo | tests/Doctrine/Tests/ORM/QueryBuilderTest.php:750-763 | `orX()` grown in place by two `add()` calls holds both conditions, in order |
| ExprScenarios.OrTwoText | tests/Doctrine/Tests/ORM/QueryBuilderTest.php:707-719 | an Orx of two plain conditions renders with ` OR ` between them |
| ExprScenarios.WhereComposite | tests/Doctrine/Tests/ORM/QueryBuilderTest.php:707-719 | `where(w)` for a composite w gives `SELECT u FROM E u WHERE ` and w's text |
| ExprScenarios.ComplexWhereText | tests/Doctrine/Tests/ORM/QueryBuilderTest.php:707-719 | the Orx of `eq(x, p)` and `in(x, [1])` renders as `x = p OR x IN(1)` |
| ExprScenarios.NegationText | tests/Doctrine/Tests/ORM/QueryBuilderTest.php:750-763 | the Orx of `eq(x, p)` and `not(in(x, [1]))` renders as `x = p OR NOT(x IN(1))` |
| ExprScenarios.ComplexWhereSequence | tests/Doctrine/Tests/ORM/QueryBuilderTest.php:707-719 | the builder's DQL is `… WHERE x = p OR x IN(1)` |
| ExprScenarios.NegationSequence | tests/Doctrine/Tests/ORM/QueryBuilderTest.php:750-763 | the builder's DQL is `… WHERE x = p OR NOT(x IN(1))` |
| ExprScenarios.RenderAllSameTexts | tests/Doctrine/Tests/ORM/QueryBuilderTest.php:735-748 | argument lists whose elements render alike render alike |
| ExprScenarios.LiteralObjectsRenderAsValues | tests/Doctrine/Tests/ORM/QueryBuilderTest.php:735-748 | `in(x, [literal(v1), …])` renders exactly as `in(x, [v1, …])` |
| ExprScenarios.CountText | tests/Doctrine/Tests/ORM/QueryBuilderTest.php:827-834 | `count(x)` renders as `COUNT(x)` and a select list accepts it |
| ExprScenarios.AllText | tests/Doctrine/Tests/ORM/QueryBuilderTest.php:765-778 | `gt(x, all(q))` renders as `x > ALL(q)`, with the subquery text as given |
| ExprScenarios.CountSelectText | tests/Doctrine/Tests/ORM/QueryBuilderTest.php:827-834 | the parts of `select(count(x))` render as `SELECT COUNT(x)` |
| ExprScenarios.FuncSelectSequence | tests/Doctrine/Tests/ORM/QueryBuilderTest.php:827-834 | `select(count(x))` on a new builder gives `SELECT COUNT(x)` |
| OrmConfiguration.AutoGenerateMode | tests/Doctrine/Tests/ORM/ConfigurationTest.php:45-57 | the integer cast: false is NEVER, true is ALWAYS, an integer is kept |
| OrmConfiguration.NotInternalByInitial | tests/Doctrine/Tests/ORM/ConfigurationTest.php:255-286 | a name whose first letter no built-in function has is not built in |
| OrmConfiguration.ProductionMessage | tests/Doctrine/Tests/ORM/ConfigurationTest.php:174-253 | exactly the five production errors have a message |
| OrmConfiguration.AssignedLookup | tests/Doctrine/Tests/ORM/ConfigurationTest.php:295-308 | assigning entries: the keys are the old ones and the entries'; each key takes its last entry's value; other keys keep theirs |
| OrmConfiguration.LowerKeys | tests/Doctrine/Tests/ORM/ConfigurationTest.php:255-286 | custom function names are stored lower-cased, one entry per given entry |
| OrmConfiguration.RegisterAllOutcome | tests/Doctrine/Tests/ORM/ConfigurationTest.php:255-286 | registering fails exactly when some name is built in, naming the first; success is assigning the lower-cased entries |
| OrmConfiguration.RegisterAllFree | tests/Doctrine/Tests/ORM/ConfigurationTest.php:255-286 | without built-in names, registration assigns the lower-cased entries and raises nothing |
| OrmConfiguration.RegisteredNames | tests/Doctrine/Tests/ORM/ConfigurationTest.php:255-286 | after `set*Functions` of built-in-free entries, exactly their lower-cased names are registered |
| OrmConfiguration.RegisteredLookup | tests/Doctrine/Tests/ORM/ConfigurationTest.php:255-286 | a name reads back the class of its last entry, whatever the case of the later entries |
| OrmConfiguration.RegisterAllCanonical | tests/Doctrine/Tests/ORM/ConfigurationTest.php:255-286 | registration keeps the function map lower-cased and free of built-in names, even when it stops early |
| OrmConfiguration.WithFunctions | tests/Doctrine/Tests/ORM/ConfigurationTest.php:255-286 | replacing one kind's functions leaves the other kinds and every other setting alone |
| OrmConfiguration.AutoGenerateOf | tests/Doctrine/Tests/ORM/ConfigurationTest.php:45-57 | the mode set last, ALWAYS when none was set |
| OrmConfiguration.ProductionCheck | tests/Doctrine/Tests/ORM/ConfigurationTest.php:159-253 | no error exactly when the settings are production-ready; each error exactly when the checks before it pass and its own fails, in the order query cache, its persistence, metadata cache, its persistence, proxy mode |
| OrmConfiguration.Configuration.constructor | tests/Doctrine/Tests/ORM/ConfigurationTest.php:37-74 | nothing set, proxies always generated, the default factory, repository and strategies |
| OrmConfiguration.Configuration.SetProxyDir | tests/Doctrine/Tests/ORM/ConfigurationTest.php:37-43 | sets the proxy directory and nothing else |
| OrmConfiguration.Configuration.SetProxyNamespace | tests/Doctrine/Tests/ORM/ConfigurationTest.php:59-65 | sets the proxy namespace and nothing else |
| OrmConfiguration.Configuration.SetAutoGenerateProxyClasses | tests/Doctrine/Tests/ORM/ConfigurationTest.php:45-57 | stores the argument cast to a mode and nothing else |
| OrmConfiguration.Configuration.AutoGenerateProxyClasses | tests/Doctrine/Tests/ORM/ConfigurationTest.php:45-57 | the mode set last, ALWAYS when none was set |
| OrmConfiguration.Configuration.SetMetadataDriverImpl | tests/Doctrine/Tests/ORM/ConfigurationTest.php:67-74 | sets the metadata driver and nothing else |
| OrmConfiguration.Configuration.SetQueryCacheImpl | tests/Doctrine/Tests/ORM/ConfigurationTest.php:109-115 | sets the query cache and nothing else |
| OrmConfiguration.Configuration.SetHydrationCacheImpl | tests/Doctrine/Tests/ORM/ConfigurationTest.php:117-123 | sets the hydration cache and nothing else |
| OrmConfiguration.Configuration.SetMetadataCacheImpl | tests/Doctrine/Tests/ORM/ConfigurationTest.php:125-131 | sets the metadata cache and nothing else |
| OrmConfiguration.Configuration.SetSecondLevelCacheConfiguration | tests/Doctrine/Tests/ORM/ConfigurationTest.php:365-372 | sets the second-level cache configuration and nothing else |
| OrmConfiguration.Configuration.SetClassMetadataFactoryName | tests/Doctrine/Tests/ORM/ConfigurationTest.php:310-315 | sets the factory class name and nothing else |
| OrmConfiguration.Configuration.SetDefaultRepositoryClassName | tests/Doctrine/Tests/ORM/ConfigurationTest.php:324-332 | a class that is not an object repository is refused with an error naming it and nothing changes; otherwise it becomes the repository class name and nothing else changes |
| ConfigScenarios.RepositoryClassSequence | tests/Doctrine/Tests/ORM/ConfigurationTest.php:324-332 | the default is EntityRepository, a custom repository class is taken, and a class that is not a repository is refused, leaving the custom one |
| OrmConfiguration.Configuration.SetNamingStrategy | tests/Doctrine/Tests/ORM/ConfigurationTest.php:334-340 | sets the naming strategy and nothing else |
| OrmConfiguration.Configuration.SetQuoteStrategy | tests/Doctrine/Tests/ORM/ConfigurationTest.php:342-348 | sets the quote strategy and nothing else |
| OrmConfiguration.Configuration.SetEntityListenerResolver | tests/Doctrine/Tests/ORM/ConfigurationTest.php:353-360 | sets the entity listener resolver and nothing else |
| OrmConfiguration.Configuration.AddEntityNamespace | tests/Doctrine/Tests/ORM/ConfigurationTest.php:98-107 | registers the namespace under the alias and changes nothing else |
| OrmConfiguration.Configuration.SetEntityNamespaces | tests/Doctrine/Tests/ORM/ConfigurationTest.php:98-107 | the given map replaces every alias registered before |
| OrmConfiguration.Configuration.GetEntityNamespace | tests/Doctrine/Tests/ORM/ConfigurationTest.php:98-107 | the namespace of a known alias with its leading and trailing backslashes cut off, which is the slice of the stored text between those runs; an unknown alias is an error naming it |
| Strings.TrimIsSlice | tests/Doctrine/Tests/ORM/ConfigurationTest.php:98-107 | `trim(s, c)` is the slice of s after its leading run of c, and only copies of c follow that slice |
| OrmConfiguration.Configuration.AddNamedQuery | tests/Doctrine/Tests/ORM/ConfigurationTest.php:133-140 | stores the DQL under the name and changes nothing else |
| OrmConfiguration.Configuration.GetNamedQuery | tests/Doctrine/Tests/ORM/ConfigurationTest.php:133-140 | the stored DQL of a known name; an unknown name is an error naming it |
| OrmConfiguration.Configuration.AddNamedNativeQuery | tests/Doctrine/Tests/ORM/ConfigurationTest.php:142-157 | stores the pair of SQL and mapping under the name and changes nothing else |
| OrmConfiguration.Configuration.GetNamedNativeQuery | tests/Doctrine/Tests/ORM/ConfigurationTest.php:142-157 | the stored pair of a known name; an unknown name is an error naming it |
| OrmConfiguration.Configuration.AddCustomFunction | tests/Doctrine/Tests/ORM/ConfigurationTest.php:255-286 | a built-in name is refused and nothing changes; otherwise the class is registered under the lower-cased name of that kind only |
| OrmConfiguration.Configuration.GetCustomFunction | tests/Doctrine/Tests/ORM/ConfigurationTest.php:255-286 | the class registered under the name in any case, or nothing exactly when there is none |
| OrmConfiguration.Configuration.SetCustomFunctions | tests/Doctrine/Tests/ORM/ConfigurationTest.php:255-286 | the functions of that kind become what registering the entries on an empty map gives; nothing else changes |
| OrmConfiguration.Configuration.AddCustomHydrationMode | tests/Doctrine/Tests/ORM/ConfigurationTest.php:288-293 | stores the hydrator under the mode name and changes nothing else |
| OrmConfiguration.Configuration.GetCustomHydrationMode | tests/Doctrine/Tests/ORM/ConfigurationTest.php:288-293 | the hydrator under the exact name, or nothing exactly when there is none |
| OrmConfiguration.Configuration.SetCustomHydrationModes | tests/Doctrine/Tests/ORM/ConfigurationTest.php:295-308 | the modes added before are discarded and the entries are assigned in order |
| OrmConfiguration.Configuration.AddFilter | tests/Doctrine/Tests/ORM/ConfigurationTest.php:317-322 | stores the filter class under the name and changes nothing else |
| OrmConfiguration.Configuration.GetFilterClassName | tests/Doctrine/Tests/ORM/ConfigurationTest.php:317-322 | the class of the named filter, or nothing exactly when there is none |
| OrmConfiguration.Configuration.EnsureProductionSettings | tests/Doctrine/Tests/ORM/ConfigurationTest.php:174-253 | raises what `ProductionCheck` gives for the current settings and changes nothing |
| ConfigScenarios.AutoGenerateSequence | tests/Doctrine/Tests/ORM/ConfigurationTest.php:45-57 | ALWAYS by default, NEVER after false, ALWAYS after true, FILE_NOT_EXISTS as given |
| ConfigScenarios.EntityNamespaceSequence | tests/Doctrine/Tests/ORM/ConfigurationTest.php:98-107 | an added namespace reads back; `setEntityNamespaces` replaces the map, so the first alias is then unknown, as is any other |
| ConfigScenarios.NamedQuerySequence | tests/Doctrine/Tests/ORM/ConfigurationTest.php:133-157 | a named query reads back, a native one as its pair, and unknown names are errors |
| ConfigScenarios.ProductionSequence | tests/Doctrine/Tests/ORM/ConfigurationTest.php:159-253 | the production set-up passes; skipping a cache, an ArrayCache or a proxy mode other than NEVER each raise their own error |
| ConfigScenarios.BuiltInOf | tests/Doctrine/Tests/ORM/ConfigurationTest.php:255-286 | `concat`, `abs` and `date_add` are built in |
| ConfigScenarios.CustomFunctionSequence | tests/Doctrine/Tests/ORM/ConfigurationTest.php:255-286 | an added function reads back, an unknown one gives nothing, the new name reads back after `set*Functions`, and a built-in name is refused; `documentedDiscard`, which the test does not assert, gives nothing for the earlier name under the documented discard |
| ConfigScenarios.AddThenLookUp | tests/Doctrine/Tests/ORM/ConfigurationTest.php:255-286 | adding one function and looking up it and an unknown name |
| ConfigScenarios.HydrationModeSequence | tests/Doctrine/Tests/ORM/ConfigurationTest.php:288-308 | an unknown mode gives nothing; `setCustomHydrationModes` discards the mode added before |
| ConfigScenarios.DefaultsSequence | tests/Doctrine/Tests/ORM/ConfigurationTest.php:310-348 | the default factory class, no filter of an unknown name, the default strategies, each replaced by its setter |

## Definitions

The functions below compute what the builder and the configuration compute, and carry no contract of their own. Each is pinned by the members in its last column, which have rows in the table above.

| definition | source | what it computes | stated by |
|---|---|---|---|
| QueryExpr.Render | tests/Doctrine/Tests/ORM/QueryBuilderTest.php:242-388 | an expression's text, the objects' `__toString`: a composite joins its parts with its separator, a function writes its name and bracketed arguments | QueryExpr.FlatComposite, QueryExpr.NestedCompositeBracketed, QueryExpr.InListRendering, BuilderScenarios.WhereOrAnd, BuilderScenarios.NestingChain |
| QueryExpr.PartText | tests/Doctrine/Tests/ORM/QueryBuilderTest.php:285-297 | Composite::processQueryPart: a nested composite with more than one part, or a string naming a connective, is bracketed | QueryExpr.NestedCompositeBracketed, QueryExpr.StringPartBracketing, QueryExpr.ComparisonPlain, BuilderScenarios.ConnectiveStringAndWhere |
| QueryExpr.QuoteLiteral | tests/Doctrine/Tests/ORM/QueryBuilderTest.php:721-748 | Expr::_quoteLiteral: a number as its numeral, a string quoted with its quotes doubled | QueryExpr.StringLiteralReadsBack, QueryExpr.IntegerLiteralIsNumeral, BuilderLifecycle.EmptyLiterals |
| QueryExpr.LiteralOf | tests/Doctrine/Tests/ORM/QueryBuilderTest.php:1031-1057 | Expr::literal: a Literal object of the quoted value | BuilderLifecycle.EmptyLiterals, BuilderLifecycle.LiteralCondition, ExprScenarios.LiteralObjectsRenderAsValues |
| QueryExpr.Compare | tests/Doctrine/Tests/ORM/QueryBuilderTest.php:707-719 | Expr::eq and the other comparisons: left operand, operator, right operand | QueryExpr.ComparisonTextPlain, QueryExpr.ComparisonPlain, ExprScenarios.ComplexWhereText |
| QueryExpr.AndX | tests/Doctrine/Tests/ORM/QueryBuilderTest.php:707-719 | Expr::andX: a new Andx filled through addMultiple | QueryExpr.AddMultiple, QueryExpr.AddMultipleFailsAtFirstRejected |
| QueryExpr.OrX | tests/Doctrine/Tests/ORM/QueryBuilderTest.php:707-719 | Expr::orX: a new Orx filled through addMultiple | QueryExpr.AddMultiple, ExprScenarios.OrOfTwo |
| QueryExpr.Kept | tests/Doctrine/Tests/ORM/QueryBuilderTest.php:707-719 | the arguments Base::add keeps: neither null nor an empty Base | QueryExpr.KeptMembers, QueryExpr.KeptAppend |
| QueryExpr.Allowed | tests/Doctrine/Tests/ORM/QueryBuilderTest.php:827-834 | whether a container accepts an argument: always for a string, by class for an object | QueryExpr.AddMultiple, BuilderScenarios.RawsAccepted, ExprScenarios.CountText |
| QueryExpr.In | tests/Doctrine/Tests/ORM/QueryBuilderTest.php:299-319 | Expr::in: the field, ` IN(`, the quoted values joined by `, `, then `)` | QueryExpr.InListRendering, ExprScenarios.InOneText |
| QueryExpr.NotIn | tests/Doctrine/Tests/ORM/QueryBuilderTest.php:321-341 | Expr::notIn: the same with ` NOT IN(` | QueryExpr.NotInListRendering |
| QueryExpr.Not | tests/Doctrine/Tests/ORM/QueryBuilderTest.php:750-763 | Expr::not: `NOT(` restriction `)` | ExprScenarios.NotText, ExprScenarios.NegationSequence |
| QueryExpr.CountOf | tests/Doctrine/Tests/ORM/QueryBuilderTest.php:827-834 | Expr::count: `COUNT(` x `)` | ExprScenarios.CountText, ExprScenarios.FuncSelectSequence |
| QueryExpr.All | tests/Doctrine/Tests/ORM/QueryBuilderTest.php:765-778 | Expr::all: `ALL(` subquery `)`, with the subquery passed through | ExprScenarios.AllText |
| QueryExpr.Asc | tests/Doctrine/Tests/ORM/QueryBuilderTest.php:400-408 | Expr::asc: a new Expr\OrderBy of the sort with ASC | QueryExpr.AscDescEntries, QueryParts.OrderByExpressionSame |
| QueryExpr.Desc | tests/Doctrine/Tests/ORM/QueryBuilderTest.php:421-430 | Expr::desc: a new Expr\OrderBy of the sort with DESC | QueryExpr.AscDescEntries, QueryParts.OrderByExpressionSame |
| QueryExpr.NewOrderBy | tests/Doctrine/Tests/ORM/QueryBuilderTest.php:390-430 | the Expr\OrderBy constructor: one entry of the sort and direction, ASC when none is given, and no entry for a falsy sort | QueryExpr.AscDescEntries, QueryParts.OrderByExpressionSame |
| QueryParts.RenderDql | tests/Doctrine/Tests/ORM/QueryBuilderTest.php:96-139 | getDQL's choice of the SELECT, UPDATE or DELETE text by query type | BuilderSequences.SimpleSelectSequence, BuilderSequences.SimpleDeleteSequence, BuilderSequences.SimpleUpdateSequence, QueryParts.RebuildRendersSame, QueryBuilding.QueryBuilder.GetDQL |
| QueryParts.SelectDql | tests/Doctrine/Tests/ORM/QueryBuilderTest.php:96-104 | `SELECT`, DISTINCT, the selections, FROM with joins, WHERE, GROUP BY, HAVING and ORDER BY, each only when set | BuilderSequences.SelectFromText, BuilderSequences.SelectFromWhereText, BuilderSequences.SelectFromHavingText, BuilderLifecycle.DistinctSequence |
| QueryParts.UpdateDql | tests/Doctrine/Tests/ORM/QueryBuilderTest.php:132-139 | `UPDATE`, the roots, SET, WHERE and ORDER BY | BuilderSequences.SimpleUpdateSequence |
| QueryParts.DeleteDql | tests/Doctrine/Tests/ORM/QueryBuilderTest.php:105-111 | `DELETE`, the roots, WHERE and ORDER BY | BuilderSequences.SimpleDeleteSequence |
| QueryParts.FromSection | tests/Doctrine/Tests/ORM/QueryBuilderTest.php:141-240 | ` FROM ` and the roots, comma-separated, each followed by the joins attached to its alias | QueryParts.FromSectionSnoc, QueryParts.AttachJoinRendersAfterItsRoot, BuilderSequences.TwoRootsText, BuilderSequences.MultipleFromJoinText |
| QueryParts.FromText | tests/Doctrine/Tests/ORM/QueryBuilderTest.php:113-130 | Expr\From::__toString: entity, alias, then INDEX BY when set | BuilderSequences.SimpleSelectSequence, QueryBuilding.Reindexed |
| QueryParts.FromOfText | tests/Doctrine/Tests/ORM/QueryBuilderTest.php:1059-1069 | the split of a FROM string at its last blank into entity and alias | QueryParts.FromOfTextSplits |
| QueryParts.JoinText | tests/Doctrine/Tests/ORM/QueryBuilderTest.php:141-195 | Expr\Join::__toString: join type, JOIN and the path, then the alias, INDEX BY and the condition with its type, each when given; a join given as a string is its text | QueryParts.JoinsTextSnoc, BuilderSequences.MultipleFromJoinSequence |
| QueryParts.Predicates | tests/Doctrine/Tests/ORM/QueryBuilderTest.php:242-251 | the argument of where/having: a single Andx or Orx as it is, anything else wrapped in a new Andx | QueryBuilding.QueryBuilder.SetCondition, BuilderScenarios.SingleCondition |
| QueryParts.Lift | tests/Doctrine/Tests/ORM/QueryBuilderTest.php:252-297 | the expression error of addMultiple turned into the builder's error | QueryBuilding.QueryBuilder.ExtendCondition, BuilderSequences.RejectedAndWhereSequence |
| QueryParts.GetPart | tests/Doctrine/Tests/ORM/QueryBuilderTest.php:836-880 | getDQLPart: the named part, with the joins as the map by root | QueryParts.PartsDeterminedByGetPart, QueryBuilding.QueryBuilder.GetDQLPart |
| QueryParts.ResetParts | tests/Doctrine/Tests/ORM/QueryBuilderTest.php:852-880 | resetDQLParts: the named parts reset one after the other | QueryParts.ResetPartsEffect, QueryParts.ResetAllIsEmpty, QueryParts.ResetCovering |
| QueryParts.Rebuild | tests/Doctrine/Tests/ORM/QueryBuilderTest.php:1137-1154 | the rebuild loop: every non-empty part re-added to a new builder | QueryParts.RebuildRestoresParts, QueryParts.RebuildRendersSame |
| QueryParts.EmptyParts | tests/Doctrine/Tests/ORM/QueryBuilderTest.php:812-816 | the parts of a new builder | QueryParts.ResetAllIsEmpty, QueryBuilding.QueryBuilder.constructor |
| CriteriaVisitor.WalkComparison | tests/Doctrine/Tests/ORM/QueryBuilderTest.php:432-539 | walkComparison: the qualified field compared with a named placeholder, and the parameter bound to the value | CriteriaVisitor.WalkComparisonBinds, CriteriaScenarios.WalkOne |
| CriteriaVisitor.ChooseName | tests/Doctrine/Tests/ORM/QueryBuilderTest.php:447-539 | the parameter name: the desired name when it is free, otherwise a numbered one by the chosen rule | CriteriaVisitor.FreeSuffixName, CriteriaVisitor.FreshName, CriteriaScenarios.SameFieldTwice |
| CriteriaVisitor.CountSuffixName | tests/Doctrine/Tests/ORM/QueryBuilderTest.php:943-964 | the rule as written: the desired name with the count of bound parameters as suffix, not checked again | CriteriaVisitor.CountSuffixCollides, CriteriaVisitor.FreshName, CriteriaScenarios.DuplicateJoinField |
| CriteriaVisitor.ParameterName | tests/Doctrine/Tests/ORM/QueryBuilderTest.php:903-938 | the desired name of a field's parameter: its path with `.` replaced by `_` | CriteriaScenarios.FieldNamesWithJoinAlias |
| Criteria.Where | tests/Doctrine/Tests/ORM/QueryBuilderTest.php:432-445 | Criteria::where: the condition replaced | CriteriaScenarios.CriteriaWhereSequence |
| Criteria.AndWhere | tests/Doctrine/Tests/ORM/QueryBuilderTest.php:447-539 | Criteria::andWhere: the condition combined with the old one under AND | CriteriaScenarios.SameFieldAndX, CriteriaScenarios.SameFieldAndWhere |
| Criteria.DirectionOf | tests/Doctrine/Tests/ORM/QueryBuilderTest.php:541-573 | the direction of a Criteria ordering: ascending for `asc` in any case | Criteria.DirectionSpellings, Criteria.DirectionTextInverse, Criteria.OrderBy |
| QueryBuilding.ApplyCriteria | tests/Doctrine/Tests/ORM/QueryBuilderTest.php:432-605 | addCriteria on the builder's state: where filter, orderings and pagination | QueryBuilding.CriteriaEffect, QueryBuilding.CriteriaNeedsAlias, QueryBuilding.EmptyCriteriaKeepsBuilder, QueryBuilding.QueryBuilder.AddCriteria |
| QueryBuilding.CachedOrRendered | tests/Doctrine/Tests/ORM/QueryBuilderTest.php:812-825 | what getDQL returns: the cache of a CLEAN builder, the rendered parts otherwise | QueryBuilding.QueryBuilder.GetDQL, BuilderLifecycle.CachedAfterDirectWrites |
| QueryBuilding.AssocPut | tests/Doctrine/Tests/ORM/QueryBuilderTest.php:1166-1176 | `$array[k] = v` on the join-alias array | QueryBuilding.AssocPutKeys, QueryBuilding.AssocPutGet |
| QueryParts.RootAliasesOf | tests/Doctrine/Tests/ORM/QueryBuilderTest.php:980-1016 | getRootAliases: one alias per root, in order | QueryBuilding.QueryBuilder.RootAlias, BuilderLifecycle.RootAliasSequence |
| QueryBuilding.RootEntitiesOf | tests/Doctrine/Tests/ORM/QueryBuilderTest.php:998-1005 | getRootEntities: one entity per root, in order | QueryBuilding.QueryBuilder.RootEntities |
| QueryBuilding.AllAliasesOf | tests/Doctrine/Tests/ORM/QueryBuilderTest.php:1156-1176 | getAllAliases: the root aliases, then the join aliases | QueryBuilding.QueryBuilder.AllAliases, BuilderLifecycle.AllAliasesSequence |
| OrmConfiguration.RegisterAll | tests/Doctrine/Tests/ORM/ConfigurationTest.php:255-286 | the setter loop of set*Functions: each name lower-cased and stored, until a built-in name raises | OrmConfiguration.RegisterAllOutcome, OrmConfiguration.RegisterAllFree, OrmConfiguration.RegisteredNames, OrmConfiguration.RegisteredLookup, OrmConfiguration.RegisterAllCanonical |
| OrmConfiguration.IsInternalFunction | tests/Doctrine/Tests/ORM/ConfigurationTest.php:255-286 | whether a name, in any case, is a built-in string, numeric or datetime function | OrmConfiguration.NotInternalByInitial, ConfigScenarios.BuiltInOf, OrmConfiguration.Configuration.AddCustomFunction |
| OrmConfiguration.Assigned | tests/Doctrine/Tests/ORM/ConfigurationTest.php:295-308 | a map after assigning an ordered array of entries, later entries overwriting earlier ones | OrmConfiguration.AssignedLookup, OrmConfiguration.Configuration.SetCustomHydrationModes |
| OrmConfiguration.ProductionReady | tests/Doctrine/Tests/ORM/ConfigurationTest.php:159-253 | the conditions ensureProductionSettings checks | OrmConfiguration.ProductionCheck, OrmConfiguration.Configuration.EnsureProductionSettings |
| OrmConfiguration.DefaultView | tests/Doctrine/Tests/ORM/ConfigurationTest.php:37-372 | the settings of a new Configuration | OrmConfiguration.Configuration.constructor, ConfigScenarios.DefaultsSequence |
| Strings.Trim | tests/Doctrine/Tests/ORM/ConfigurationTest.php:98-107 | PHP trim with one character: every leading and trailing copy stripped | Strings.TrimIsSlice, OrmConfiguration.Configuration.GetEntityNamespace |
| Strings.Lower | tests/Doctrine/Tests/ORM/ConfigurationTest.php:255-286 | strtolower on ASCII letters | OrmConfiguration.RegisteredLookup, OrmConfiguration.Configuration.GetCustomFunction |
| Strings.Join | tests/Doctrine/Tests/ORM/QueryBuilderTest.php:96-104 | implode | QueryExpr.FlatComposite, BuilderScenarios.SelectOfRaws |
| Strings.EscapeQuotes | tests/Doctrine/Tests/ORM/QueryBuilderTest.php:1031-1043 | str_replace of `'` by `''` | Strings.UnescapeEscape, Strings.EscapeQuotesPaired |
| Strings.NatToString | tests/Doctrine/Tests/ORM/QueryBuilderTest.php:1045-1057 | the decimal numeral of a natural number | Strings.NatToStringParses, Strings.NatToStringInjective |
| Strings.LastIndexOf | tests/Doctrine/Tests/ORM/QueryBuilderTest.php:1059-1069 | strrpos for one character | QueryParts.FromOfTextSplits |
| Strings.IndexOf | tests/Doctrine/Tests/ORM/QueryBuilderTest.php:218-240 | strpos for one character | QueryBuilding.ParentAlias |

## Left out

- `getQuery()`, `Query` objects, `getEntityManager()` and the isolated-construction test are not modelled (`QueryBuilderTest.php:607-615`, `780-810`): they need the Query class and the EntityManager, which are not part of this model.
- `QueryBuilding.QueryBuilder.SetCacheOptions`: the second-level cache hints are only recorded (`QueryBuilderTest.php:1095-1132`). Passing them to a Query is not modelled.
- Parameter type inference (`ParameterTypeInferer`) is not modelled. A parameter's type is an opaque optional name (`QueryBuilderTest.php:617-628`).
- The test helper `assertValidQueryBuilder` also parses the DQL. Only the DQL string is modelled, not the parse.
- Values are null, strings, integers, booleans and lists. Floats and objects are left out.
- The expression objects inside a builder are values. A composite shared between a builder and client code and changed after `where()` is not modelled; only in-place growth before it is (`QueryExpr.CompositeObject`).
- The subquery text inside `ALL()` is passed through unparsed (`QueryBuilderTest.php:765-778`).
- `BuilderSequences` and the other scenario modules state the DQL for abstract conditions without blanks or connectives, which covers every test string. The complete DQL of the IN/NOT IN tests is not stated as one string (`QueryBuilderTest.php:299-341`), and neither is that of the two string-literal tests (`QueryBuilderTest.php:721-748`). The IN lists' text, the where chains and the quoting are proved separately (`QueryExpr.InListRendering`, `QueryExpr.NotInListRendering`, `QueryExpr.StringLiteralReadsBack`, `ExprScenarios.LiteralObjectsRenderAsValues`).
- The annotation driver and the reflection it uses are left out (`ConfigurationTest.php:76-96`). Metadata drivers, caches, strategies and resolvers are opaque tokens; only the ArrayCache class is singled out, because `ensureProductionSettings` names it.
- The three functional tests (`EntityRepositoryTest.php`, `OneToManyCompositeIdForeignKeyTest.php`, `CompositePrimaryKeyTest.php`) are not modelled: everything they check goes through a database.
- `QueryParts.Store`: `add()` of an empty array on a list part stores PHP's `reset([])`, which is `false`, as the part or appended to it. The model adds nothing in that case, because a part's list holds only expressions.
- `QueryParts.MergeJoins`: `add('join', [root => join], true)` appends only the value under the array's first key, as one element. The model appends the join list of every key, because a Dafny map has no first key; `join()` itself always passes one key and one join, where the two agree.
- `QueryParts.AddPart` inherits the two differences above for the select/groupBy/orderBy lists and for appended joins. Its contract states the error cases and that only the named part changes; the new value of that part is not stated beyond what `Store`, `MergeJoins` and `AttachJoin` give. Two untested paths also render differently from the builder:
  - `add('join', [join])` without append stores the join itself under the first root, not a list. The builder's FROM rendering then iterates over a single object and writes no join, while the model stores a list of one join and renders it after the root.
  - `add('from', 'Entity alias')` keeps the string until `getRootAliases()` converts it. Until then the builder renders the string as given, and joins keyed by an alias do not render after it, because it is not an `Expr\From`. The model converts the text when it is stored, so a text without a blank such as `X` renders as a root with an empty entity and alias, ` `, where the builder writes `X`.
- `QueryParts.ResetPart`: resetting `distinct` gives `false`, where the builder stores `null`. The part is a boolean in the model; both values render no DISTINCT.
- `QueryBuilding.GetParameterOf` and `QueryBuilding.SetParameterIn` compare names exactly. The builder compares with PHP's loose `==`, under which for instance `"1"` and `"01"` are the same name; that loose comparison is not modelled.
- `OrmConfiguration.Configuration.SetCustomFunctions`: the discard of earlier functions of the kind follows the setters' documentation only. `Configuration.php` is not part of this model. The tests (`ConfigurationTest.php:257-260`, `268-271`, `279-282`) register `FunctionName` before the call but never look it up afterwards. A setter that adds the entries to the existing map would differ from the model only in that look-up, which `ConfigScenarios.CustomFunctionSequence` reports as `documentedDiscard`.
- `OrmConfiguration.Configuration.SetDefaultRepositoryClassName`: whether a class implements `ObjectRepository` is decided by PHP's class loading, so the set of such classes is a parameter. The test method at `ConfigurationTest.php:324` has no `test` prefix, so PHPUnit does not run it; the model follows what its body expects.
- The expression objects are values, so the in-place growth of a stored `Andx`/`Orx` by a rejected `andWhere()` is visible only through the builder's parts; a reference to that object held elsewhere is not modelled.

## Findings

| source | as written | input that shows it | evidently intended | confidence | as-written member | corrected member |
|---|---|---|---|---|---|---|
| tests/Doctrine/Tests/ORM/QueryBuilderTest.php:943-960 | a clashing parameter name gets `_` and the number of parameters already bound, and the result is not checked again (the test's `alias2_field_2` pins this rule) | criteria tests of the fields `x_2`, `x` and `x`: the names are `x_2`, `x`, then `x_2` again, so the first value is overwritten | a clashing name gets the first suffix, from that number on, that no bound parameter has | not executed | CriteriaVisitor.CountSuffixCollides | CriteriaVisitor.FreshName |
