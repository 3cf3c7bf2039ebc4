/**
 * Properties of single visit rules: what a table factor, an identifier and each
 * statement kind do to the context, which parts of a node the visitor ignores, and how
 * the single-slot scope registers behave around a nested SELECT.
 */
module StatementProperties {
  import opened Common
  import opened SqlAst
  import opened Lineage
  import opened Visit
  import TableLineage

  /** A plain table adds exactly its name to the inputs; nothing else changes. */
  lemma PlainTableIsInput(name: ObjectName, alias: Option<TableAlias>, c: State)
    ensures VisitTableFactor(Table(name, alias), c) == Done(c.(inputs := c.inputs + {name}))
  {
  }

  /**
   * A derived table visits its subquery and then, on success, records its alias; a
   * table function or a nested join fails the walk without touching the context.
   */
  lemma OtherTableFactors(t: TableFactor, c: State)
    ensures t.Derived? ==>
      var o1 := VisitQuery(t.subquery, c);
      VisitTableFactor(t, c) ==
        if o1.result.Err? then o1
        else Done(o1.after.(aliases := o1.after.aliases + (if t.alias.Some? then {t.alias.value.name} else {})))
    ensures t.TableFunction? || t.NestedJoin? ==> VisitTableFactor(t, c) == Outcome(c, Err)
  {
  }

  /**
   * With a descendant column set, an identifier (or the last part of a compound one)
   * becomes exactly one more ancestor of it, owned by the current table; without one,
   * the context is unchanged.
   */
  lemma IdentifierRecordsOneAncestor(e: Expr, c: State)
    requires e.Identifier? || e.CompoundIdentifier?
    ensures var column := if e.Identifier? then e.ident else Last(e.idents);
      VisitExpr(e, c) == Done(
        if c.columnContext.Some? then
          c.(columnLineage := c.columnLineage[c.columnContext.value.name :=
               c.AncestorsOf(c.columnContext.value.name) + [ColumnMeta(column, c.tableContext)]])
        else c)
  {
  }

  /** The target of MERGE, UPDATE or DELETE. */
  function TargetOf(s: Statement): TableFactor
    requires s.Merge? || s.Update? || s.Delete?
  {
    if s.Merge? then s.table else if s.Update? then s.target.relation else s.deleteTable
  }

  /**
   * MERGE, UPDATE and DELETE fail, before any change to the context, when their target
   * is not a plain table; when they succeed, the target is among the outputs.
   */
  lemma TargetMustBePlainTable(s: Statement, c: State)
    requires s.Merge? || s.Update? || s.Delete?
    ensures !TargetOf(s).Table? ==> VisitStatement(s, c) == Outcome(c, Err)
    ensures VisitStatement(s, c).result.Ok? ==> TargetOf(s).Table? && TargetOf(s).name in VisitStatement(s, c).after.outputs
  {
  }

  /** INSERT: the source first; the target becomes an output only if the source succeeded. */
  lemma InsertAfterSource(tableName: ObjectName, columns: seq<Ident>, source: Query, c: State)
    ensures var o1 := VisitQuery(source, c);
      && (o1.result.Err? ==> VisitStatement(Insert(tableName, columns, source), c) == o1)
      && (o1.result.Ok? ==> VisitStatement(Insert(tableName, columns, source), c) == Done(o1.after.(outputs := o1.after.outputs + {tableName})))
  {
  }

  /**
   * CREATE TABLE without AS: never fails, adds LIKE and CLONE sources to the inputs and
   * the new table to the outputs, and records no column lineage.
   */
  lemma CreateTableWithoutQuery(name: ObjectName, like: Option<ObjectName>, clone: Option<ObjectName>, c: State)
    ensures VisitCreateTable(name, None, like, clone, c) == Done(c.(
      inputs := c.inputs + TableLineage.OptionalInput(like) + TableLineage.OptionalInput(clone),
      outputs := c.outputs + {name}))
  {
    var c2 := if like.Some? then c.AddInput(like.value) else c;
    var c3 := if clone.Some? then c2.AddInput(clone.value) else c2;
    assert c2.inputs == c.inputs + TableLineage.OptionalInput(like);
    assert c3.inputs == c2.inputs + TableLineage.OptionalInput(clone);
  }

  /** CREATE TABLE ... AS: on success, the name is an output and LIKE/CLONE sources are inputs. */
  lemma CreateTableOutputs(s: Statement, c: State)
    requires s.CreateTable?
    ensures VisitStatement(s, c).result.Ok? ==>
      && s.name in VisitStatement(s, c).after.outputs
      && (s.like.Some? ==> s.like.value in VisitStatement(s, c).after.inputs)
      && (s.clone.Some? ==> s.clone.value in VisitStatement(s, c).after.inputs)
  {
  }

  /** A VALUES body and any statement kind outside the supported set are silent no-ops. */
  lemma NoOps(rows: seq<seq<Expr>>, kind: string, c: State)
    ensures VisitSetExpr(Values(rows), c) == Done(c)
    ensures VisitStatement(OtherStatement(kind), c) == Done(c)
  {
  }

  /** Of a CASE, only the conditions are visited: the operand, results and ELSE make no difference. */
  lemma CaseVisitsOnlyConditions(conditions: seq<Expr>, oe1: Option<Expr>, oe2: Option<Expr>,
                                 es1: seq<Expr>, es2: seq<Expr>, e1: Option<Expr>, e2: Option<Expr>, c: State)
    ensures VisitExpr(Case(oe1, conditions, es1, e1), c) == VisitExpr(Case(oe2, conditions, es2, e2), c)
  {
  }

  /** Of `x IN (subquery)`, only the subquery is visited. */
  lemma InSubqueryIgnoresLeft(e1: Expr, e2: Expr, q: Query, n1: bool, n2: bool, c: State)
    ensures VisitExpr(InSubquery(e1, q, n1), c) == VisitExpr(InSubquery(e2, q, n2), c)
  {
  }

  /** LATERAL makes no difference to a derived table. */
  lemma LateralIgnored(l1: bool, l2: bool, q: Query, alias: Option<TableAlias>, c: State)
    ensures VisitTableFactor(Derived(l1, q, alias), c) == VisitTableFactor(Derived(l2, q, alias), c)
  {
  }

  /** UPDATE's assignments are never visited. */
  lemma UpdateAssignmentsIgnored(target: TableWithJoins, as1: seq<Assignment>, as2: seq<Assignment>,
                                 from: Option<TableWithJoins>, selection: Option<Expr>, c: State)
    ensures VisitStatement(Update(target, as1, from, selection), c) == VisitStatement(Update(target, as2, from, selection), c)
  {
  }

  /** Wildcard projection items are skipped. */
  lemma WildcardItemsIgnored(prefix: ObjectName, c: State)
    ensures VisitSelectItem(Wildcard, c) == Done(c)
    ensures VisitSelectItem(QualifiedWildcard(prefix), c) == Done(c)
  {
  }

  /** Wildcard function arguments are skipped. */
  lemma WildcardArgumentsIgnored(prefix: ObjectName, c: State)
    ensures VisitFunctionArgExpr(ArgWildcard, c) == Done(c)
    ensures VisitFunctionArgExpr(ArgQualifiedWildcard(prefix), c) == Done(c)
  {
  }

  /** A SELECT's WHERE, GROUP BY, HAVING and DISTINCT are never visited. */
  lemma SelectIgnoresFilters(s: Select, selection: Option<Expr>, groupBy: seq<Expr>, having: Option<Expr>, distinct: bool, c: State)
    ensures VisitSelect(s, c) == VisitSelect(s.(selection := selection, groupBy := groupBy, having := having, distinct := distinct), c)
  {
    var s' := s.(selection := selection, groupBy := groupBy, having := having, distinct := distinct);
    assert SeedTableContext(s, c) == SeedTableContext(s', c);
  }

  /** Only a join's relation is visited, never its constraint. */
  lemma JoinConstraintIgnored(t: TableFactor, on1: Option<Expr>, on2: Option<Expr>, c: State)
    ensures VisitJoin(Join(t, on1), c) == VisitJoin(Join(t, on2), c)
  {
  }

  /**
   * The scope registers are single slots: a successful scalar subquery that is a SELECT
   * leaves both registers empty, whatever the enclosing projection had set, so the rest
   * of the enclosing expression is recorded under no descendant.
   */
  lemma NestedSelectClearsScopes(q: Query, c: State)
    requires q.body.SelectBody?
    ensures VisitExpr(Subquery(q), c).result.Ok? ==> ScopesClear(VisitExpr(Subquery(q), c).after)
  {
    var o1 := if q.with.Some? then VisitWith(q.with.value, c) else Done(c);
    if o1.result.Ok? {
      assert VisitSetExpr(q.body, o1.after) == VisitSelect(q.body.select, o1.after);
    }
  }
}
