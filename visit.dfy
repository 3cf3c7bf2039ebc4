/**
 * The meaning of each `Visit` impl of the lineage visitor, as a function from the node
 * and the context before the visit to the context after it and whether the visit
 * failed. A failed sub-visit (`?`) stops the walk at once and keeps whatever the
 * context already holds. The loops of the source become the `Visit...s` folds, which
 * handle the first element and then the rest.
 *
 * Every visit is monotone (`Grows`), and a successful one never leaves a scope register
 * set that was empty before (`KeepsScopes`); `VisitSelect` clears both registers.
 */
module Visit {
  import opened Common
  import opened SqlAst
  import opened Lineage

  /** `get_table_name_from_table_factor`: only a plain table has a name. */
  function GetTableNameFromTableFactor(t: TableFactor): (r: Result<ObjectName>)
    ensures r.Ok? <==> t.Table?
    ensures r.Ok? ==> r.value == t.name
  {
    if t.Table? then Ok(t.name) else Err
  }

  // ---------------------------------------------------------------- With

  function VisitWith(w: With, c: State): (o: Outcome)
    ensures Grows(c, o.after) && KeepsScopes(c, o)
  {
    VisitCtes(w.cteTables, c)
  }

  /** Each CTE: record its name as an alias, then visit its query. */
  function VisitCtes(ctes: seq<Cte>, c: State): (o: Outcome)
    ensures Grows(c, o.after) && KeepsScopes(c, o)
  {
    if ctes == [] then Done(c)
    else
      var o1 := VisitCte(ctes[0], c);
      if o1.result.Err? then o1 else VisitCtes(ctes[1..], o1.after)
  }

  function VisitCte(cte: Cte, c: State): (o: Outcome)
    ensures Grows(c, o.after) && KeepsScopes(c, o)
  {
    VisitQuery(cte.query, c.AddAlias(cte.alias.name))
  }

  // ---------------------------------------------------------------- TableFactor

  function VisitTableFactor(t: TableFactor, c: State): (o: Outcome)
    ensures Grows(c, o.after) && KeepsScopes(c, o)
  {
    match t
    case Table(name, _) => Done(c.AddInput(name))
    case Derived(_, subquery, alias) =>
      var o1 := VisitQuery(subquery, c);
      if o1.result.Err? then o1
      else Done(if alias.Some? then o1.after.AddAlias(alias.value.name) else o1.after)
    case _ => Outcome(c, Err)
  }

  // ---------------------------------------------------------------- Expr

  /** Records `column` as one ancestor of the current descendant, if there is one. */
  function RecordAncestor(c: State, column: Ident): State {
    if c.columnContext.Some? then
      c.AddColumnAncestors(c.columnContext.value.name, [ColumnMeta(column, c.tableContext)])
    else c
  }

  function VisitExpr(e: Expr, c: State): (o: Outcome)
    ensures Grows(c, o.after) && KeepsScopes(c, o)
  {
    match e
    case Subquery(q) => VisitQuery(q, c)
    case InSubquery(_, subquery, _) => VisitQuery(subquery, c)
    case BinaryOp(left, _, right) =>
      var o1 := VisitExpr(left, c);
      if o1.result.Err? then o1 else VisitExpr(right, o1.after)
    case UnaryOp(_, operand) => VisitExpr(operand, c)
    case Case(_, conditions, _, _) => VisitExprs(conditions, c)
    case Identifier(id) => Done(RecordAncestor(c, id))
    case CompoundIdentifier(ids) => Done(RecordAncestor(c, Last(ids)))
    case FunctionCall(f) => VisitFunction(f, c)
    case _ => Done(c)
  }

  function VisitExprs(es: seq<Expr>, c: State): (o: Outcome)
    ensures Grows(c, o.after) && KeepsScopes(c, o)
  {
    if es == [] then Done(c)
    else
      var o1 := VisitExpr(es[0], c);
      if o1.result.Err? then o1 else VisitExprs(es[1..], o1.after)
  }

  // ---------------------------------------------------------------- Function

  function VisitFunction(f: Function, c: State): (o: Outcome)
    ensures Grows(c, o.after) && KeepsScopes(c, o)
  {
    var o1 := VisitFunctionArgs(f.args, c);
    if o1.result.Err? || f.over.None? then o1
    else VisitWindowSpec(f.over.value, o1.after)
  }

  function VisitFunctionArgs(args: seq<FunctionArg>, c: State): (o: Outcome)
    ensures Grows(c, o.after) && KeepsScopes(c, o)
  {
    if args == [] then Done(c)
    else
      var o1 := VisitFunctionArg(args[0], c);
      if o1.result.Err? then o1 else VisitFunctionArgs(args[1..], o1.after)
  }

  function VisitFunctionArg(a: FunctionArg, c: State): (o: Outcome)
    ensures Grows(c, o.after) && KeepsScopes(c, o)
  {
    match a
    case Named(_, arg) => VisitFunctionArgExpr(arg, c)
    case Unnamed(arg) => VisitFunctionArgExpr(arg, c)
  }

  function VisitFunctionArgExpr(a: FunctionArgExpr, c: State): (o: Outcome)
    ensures Grows(c, o.after) && KeepsScopes(c, o)
  {
    match a
    case ArgExpr(e) => VisitExpr(e, c)
    case _ => Done(c)
  }

  function VisitWindowSpec(w: WindowSpec, c: State): (o: Outcome)
    ensures Grows(c, o.after) && KeepsScopes(c, o)
  {
    var o1 := VisitExprs(w.partitionBy, c);
    if o1.result.Err? then o1 else VisitOrderBy(w.orderBy, o1.after)
  }

  function VisitOrderBy(obs: seq<OrderByExpr>, c: State): (o: Outcome)
    ensures Grows(c, o.after) && KeepsScopes(c, o)
  {
    if obs == [] then Done(c)
    else
      var o1 := VisitOrderByExpr(obs[0], c);
      if o1.result.Err? then o1 else VisitOrderBy(obs[1..], o1.after)
  }

  function VisitOrderByExpr(ob: OrderByExpr, c: State): (o: Outcome)
    ensures Grows(c, o.after) && KeepsScopes(c, o)
  {
    VisitExpr(ob.expr, c)
  }

  // ---------------------------------------------------------------- Select

  /** The table a SELECT's expressions are read against: the first FROM item, if it is a plain table. */
  function SeedTableContext(s: Select, c: State): State {
    if |s.from| > 0 && s.from[0].relation.Table? then
      c.SetTableContext(Some(NewDbTableMeta(s.from[0].relation.name, c.dialect, c.defaultSchema)))
    else c
  }

  /** The descendant column an unaliased projection establishes. */
  function ProjectionColumn(e: Expr): ColumnMeta {
    match e
    case Identifier(id) => ColumnMeta(id, None)
    case CompoundIdentifier(ids) => ColumnMeta(Last(ids), None)
    case _ => ColumnMeta(UnnamedColumn, None)
  }

  function VisitSelectItem(item: SelectItem, c: State): (o: Outcome)
    ensures Grows(c, o.after)
  {
    match item
    case UnnamedExpr(e) => VisitExpr(e, c.SetColumnContext(Some(ProjectionColumn(e))))
    case ExprWithAlias(e, alias) =>
      var o1 := VisitExpr(e, c.SetColumnContext(Some(ColumnMeta(alias, None))));
      if o1.result.Err? then o1 else Done(o1.after.AddAlias(alias))
    case _ => Done(c)
  }

  function VisitProjection(items: seq<SelectItem>, c: State): (o: Outcome)
    ensures Grows(c, o.after)
  {
    if items == [] then Done(c)
    else
      var o1 := VisitSelectItem(items[0], c);
      if o1.result.Err? then o1 else VisitProjection(items[1..], o1.after)
  }

  /** A FROM item or the UPDATE source: its relation, then every join's relation. */
  function VisitTableWithJoins(t: TableWithJoins, c: State): (o: Outcome)
    ensures Grows(c, o.after) && KeepsScopes(c, o)
  {
    var o1 := VisitTableFactor(t.relation, c);
    if o1.result.Err? then o1 else VisitJoins(t.joins, o1.after)
  }

  function VisitJoins(joins: seq<Join>, c: State): (o: Outcome)
    ensures Grows(c, o.after) && KeepsScopes(c, o)
  {
    if joins == [] then Done(c)
    else
      var o1 := VisitJoin(joins[0], c);
      if o1.result.Err? then o1 else VisitJoins(joins[1..], o1.after)
  }

  function VisitJoin(j: Join, c: State): (o: Outcome)
    ensures Grows(c, o.after) && KeepsScopes(c, o)
  {
    VisitTableFactor(j.relation, c)
  }

  function VisitFrom(from: seq<TableWithJoins>, c: State): (o: Outcome)
    ensures Grows(c, o.after) && KeepsScopes(c, o)
  {
    if from == [] then Done(c)
    else
      var o1 := VisitTableWithJoins(from[0], c);
      if o1.result.Err? then o1 else VisitFrom(from[1..], o1.after)
  }

  function VisitSelect(s: Select, c: State): (o: Outcome)
    ensures Grows(c, o.after)
    ensures o.result.Ok? ==> ScopesClear(o.after)
  {
    var o1 := VisitProjection(s.projection, SeedTableContext(s, c));
    if o1.result.Err? then o1
    else
      var c2 := o1.after.SetColumnContext(None);
      var c3 := if s.into.Some? then c2.AddOutput(s.into.value) else c2;
      var o2 := VisitFrom(s.from, c3);
      if o2.result.Err? then o2 else Done(o2.after.SetTableContext(None))
  }

  // ---------------------------------------------------------------- SetExpr, Query

  function VisitSetExpr(s: SetExpr, c: State): (o: Outcome)
    ensures Grows(c, o.after) && KeepsScopes(c, o)
  {
    match s
    case SelectBody(select) => VisitSelect(select, c)
    case Values(_) => Done(c)
    case InsertBody(stmt) => VisitStatement(stmt, c)
    case QueryBody(q) => VisitQuery(q, c)
    case SetOperation(_, _, left, right) =>
      var o1 := VisitSetExpr(left, c);
      if o1.result.Err? then o1 else VisitSetExpr(right, o1.after)
  }

  function VisitQuery(q: Query, c: State): (o: Outcome)
    ensures Grows(c, o.after) && KeepsScopes(c, o)
  {
    var o1 := if q.with.Some? then VisitWith(q.with.value, c) else Done(c);
    if o1.result.Err? then o1 else VisitSetExpr(q.body, o1.after)
  }

  // ---------------------------------------------------------------- Statement

  /** CREATE TABLE: the AS query if any, then LIKE and CLONE as inputs, then the name as output. */
  function VisitCreateTable(name: ObjectName, query: Option<Query>, like: Option<ObjectName>, clone: Option<ObjectName>, c: State): (o: Outcome)
    ensures Grows(c, o.after) && KeepsScopes(c, o)
    decreases query
  {
    var o1 := if query.Some? then VisitQuery(query.value, c) else Done(c);
    if o1.result.Err? then o1
    else
      var c2 := if like.Some? then o1.after.AddInput(like.value) else o1.after;
      var c3 := if clone.Some? then c2.AddInput(clone.value) else c2;
      Done(c3.AddOutput(name))
  }

  function VisitStatement(s: Statement, c: State): (o: Outcome)
    ensures Grows(c, o.after) && KeepsScopes(c, o)
  {
    match s
    case QueryStatement(q) => VisitQuery(q, c)
    case Insert(tableName, _, source) =>
      var o1 := VisitQuery(source, c);
      if o1.result.Err? then o1 else Done(o1.after.AddOutput(tableName))
    case Merge(_, table, source, _) =>
      var name := GetTableNameFromTableFactor(table);
      if name.Err? then Outcome(c, Err)
      else VisitTableFactor(source, c.AddOutput(name.value))
    case CreateTable(name, query, like, clone) => VisitCreateTable(name, query, like, clone, c)
    case Update(target, _, from, selection) =>
      var name := GetTableNameFromTableFactor(target.relation);
      if name.Err? then Outcome(c, Err)
      else
        var c1 := c.AddOutput(name.value);
        var o1 := if from.Some? then VisitTableWithJoins(from.value, c1) else Done(c1);
        if o1.result.Err? || selection.None? then o1
        else VisitExpr(selection.value, o1.after)
    case Delete(table, using, selection) =>
      var name := GetTableNameFromTableFactor(table);
      if name.Err? then Outcome(c, Err)
      else
        var c1 := c.AddOutput(name.value);
        var o1 := if using.Some? then VisitTableFactor(using.value, c1) else Done(c1);
        if o1.result.Err? || selection.None? then o1
        else VisitExpr(selection.value, o1.after)
    case OtherStatement(_) => Done(c)
  }
}
