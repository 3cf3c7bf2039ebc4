/**
 * The visitor as the source runs it: one mutable `Context` threaded through recursive
 * visit methods, whose loops walk the node lists in order and stop at the first failed
 * sub-visit. Each method is proved to leave the context, and to return the result,
 * exactly as the corresponding function of `Visit` describes.
 */
module Engine {
  import opened Common
  import opened SqlAst
  import opened Lineage
  import Visit

  /** The traversal context: accumulated lineage, the two scope registers, and the configuration. */
  class Context {
    var inputs: set<string>
    var outputs: set<string>
    var aliases: set<string>
    var columnLineage: map<string, seq<ColumnMeta>>
    var tableContext: Option<DbTableMeta>
    var columnContext: Option<ColumnMeta>
    const dialect: Dialect
    const defaultSchema: Option<string>

    /** The value of the context, as the functions of `Visit` see it. */
    function Snapshot(): State
      reads this
    {
      State(inputs, outputs, aliases, columnLineage, tableContext, columnContext, dialect, defaultSchema)
    }

    constructor (dialect: Dialect, defaultSchema: Option<string>)
      ensures Snapshot() == Empty(dialect, defaultSchema)
    {
      this.dialect := dialect;
      this.defaultSchema := defaultSchema;
      inputs, outputs, aliases := {}, {}, {};
      columnLineage := map[];
      tableContext, columnContext := None, None;
    }

    method AddInput(name: string)
      modifies this
      ensures Snapshot() == old(Snapshot()).AddInput(name)
    {
      inputs := inputs + {name};
    }

    method AddOutput(name: string)
      modifies this
      ensures Snapshot() == old(Snapshot()).AddOutput(name)
    {
      outputs := outputs + {name};
    }

    method AddAlias(name: string)
      modifies this
      ensures Snapshot() == old(Snapshot()).AddAlias(name)
    {
      aliases := aliases + {name};
    }

    method AddColumnAncestors(descendant: string, ancestors: seq<ColumnMeta>)
      modifies this
      ensures Snapshot() == old(Snapshot()).AddColumnAncestors(descendant, ancestors)
      ensures columnLineage[descendant] == old(Snapshot()).AncestorsOf(descendant) + ancestors
    {
      var known := if descendant in columnLineage then columnLineage[descendant] else [];
      columnLineage := columnLineage[descendant := known + ancestors];
    }

    method SetTableContext(t: Option<DbTableMeta>)
      modifies this
      ensures Snapshot() == old(Snapshot()).SetTableContext(t)
    {
      tableContext := t;
    }

    method SetColumnContext(col: Option<ColumnMeta>)
      modifies this
      ensures Snapshot() == old(Snapshot()).SetColumnContext(col)
    {
      columnContext := col;
    }

    method SetUnnamedColumnContext()
      modifies this
      ensures Snapshot() == old(Snapshot()).SetUnnamedColumnContext()
    {
      columnContext := Some(ColumnMeta(UnnamedColumn, None));
    }
  }

  method VisitWith(w: With, ctx: Context) returns (r: Result<()>)
    modifies ctx
    decreases w
    ensures Visit.VisitWith(w, old(ctx.Snapshot())) == Outcome(ctx.Snapshot(), r)
  {
    ghost var c0 := ctx.Snapshot();
    for i := 0 to |w.cteTables|
      invariant Visit.VisitCtes(w.cteTables[i..], ctx.Snapshot()) == Visit.VisitCtes(w.cteTables, c0)
    {
      var cte := w.cteTables[i];
      ctx.AddAlias(cte.alias.name);
      r := VisitQuery(cte.query, ctx);
      if r.Err? {
        return;
      }
      assert w.cteTables[i..][1..] == w.cteTables[i + 1..];
    }
    r := Ok(());
  }

  method VisitTableFactor(t: TableFactor, ctx: Context) returns (r: Result<()>)
    modifies ctx
    decreases t
    ensures Visit.VisitTableFactor(t, old(ctx.Snapshot())) == Outcome(ctx.Snapshot(), r)
  {
    match t
    case Table(name, _) =>
      ctx.AddInput(name);
      r := Ok(());
    case Derived(_, subquery, alias) =>
      r := VisitQuery(subquery, ctx);
      if r.Err? {
        return;
      }
      if alias.Some? {
        ctx.AddAlias(alias.value.name);
      }
      r := Ok(());
    case _ =>
      r := Err;
  }

  method VisitExpr(e: Expr, ctx: Context) returns (r: Result<()>)
    modifies ctx
    decreases e
    ensures Visit.VisitExpr(e, old(ctx.Snapshot())) == Outcome(ctx.Snapshot(), r)
  {
    match e
    case Subquery(q) =>
      r := VisitQuery(q, ctx);
    case InSubquery(_, subquery, _) =>
      r := VisitQuery(subquery, ctx);
    case BinaryOp(left, _, right) =>
      r := VisitExpr(left, ctx);
      if r.Err? {
        return;
      }
      r := VisitExpr(right, ctx);
    case UnaryOp(_, operand) =>
      r := VisitExpr(operand, ctx);
    case Case(_, conditions, _, _) =>
      ghost var c0 := ctx.Snapshot();
      for i := 0 to |conditions|
        invariant Visit.VisitExprs(conditions[i..], ctx.Snapshot()) == Visit.VisitExprs(conditions, c0)
      {
        r := VisitExpr(conditions[i], ctx);
        if r.Err? {
          return;
        }
        assert conditions[i..][1..] == conditions[i + 1..];
      }
      r := Ok(());
    case Identifier(id) =>
      if ctx.columnContext.Some? {
        var descendant := ctx.columnContext.value.name;
        ctx.AddColumnAncestors(descendant, [ColumnMeta(id, ctx.tableContext)]);
      }
      r := Ok(());
    case CompoundIdentifier(ids) =>
      if ctx.columnContext.Some? {
        var descendant := ctx.columnContext.value.name;
        var ancestor := ids[|ids| - 1];
        ctx.AddColumnAncestors(descendant, [ColumnMeta(ancestor, ctx.tableContext)]);
      }
      r := Ok(());
    case FunctionCall(f) =>
      r := VisitFunction(f, ctx);
    case _ =>
      r := Ok(());
  }

  method VisitFunction(f: Function, ctx: Context) returns (r: Result<()>)
    modifies ctx
    decreases f
    ensures Visit.VisitFunction(f, old(ctx.Snapshot())) == Outcome(ctx.Snapshot(), r)
  {
    ghost var c0 := ctx.Snapshot();
    for i := 0 to |f.args|
      invariant Visit.VisitFunctionArgs(f.args[i..], ctx.Snapshot()) == Visit.VisitFunctionArgs(f.args, c0)
    {
      r := VisitFunctionArg(f.args[i], ctx);
      if r.Err? {
        return;
      }
      assert f.args[i..][1..] == f.args[i + 1..];
    }
    r := Ok(());
    if f.over.Some? {
      r := VisitWindowSpec(f.over.value, ctx);
    }
  }

  method VisitFunctionArg(a: FunctionArg, ctx: Context) returns (r: Result<()>)
    modifies ctx
    decreases a
    ensures Visit.VisitFunctionArg(a, old(ctx.Snapshot())) == Outcome(ctx.Snapshot(), r)
  {
    match a
    case Named(_, arg) =>
      r := VisitFunctionArgExpr(arg, ctx);
    case Unnamed(arg) =>
      r := VisitFunctionArgExpr(arg, ctx);
  }

  method VisitFunctionArgExpr(a: FunctionArgExpr, ctx: Context) returns (r: Result<()>)
    modifies ctx
    decreases a
    ensures Visit.VisitFunctionArgExpr(a, old(ctx.Snapshot())) == Outcome(ctx.Snapshot(), r)
  {
    match a
    case ArgExpr(e) =>
      r := VisitExpr(e, ctx);
    case _ =>
      r := Ok(());
  }

  method VisitWindowSpec(w: WindowSpec, ctx: Context) returns (r: Result<()>)
    modifies ctx
    decreases w
    ensures Visit.VisitWindowSpec(w, old(ctx.Snapshot())) == Outcome(ctx.Snapshot(), r)
  {
    ghost var c0 := ctx.Snapshot();
    for i := 0 to |w.partitionBy|
      invariant Visit.VisitExprs(w.partitionBy[i..], ctx.Snapshot()) == Visit.VisitExprs(w.partitionBy, c0)
    {
      r := VisitExpr(w.partitionBy[i], ctx);
      if r.Err? {
        return;
      }
      assert w.partitionBy[i..][1..] == w.partitionBy[i + 1..];
    }
    ghost var c1 := ctx.Snapshot();
    for i := 0 to |w.orderBy|
      invariant Visit.VisitOrderBy(w.orderBy[i..], ctx.Snapshot()) == Visit.VisitOrderBy(w.orderBy, c1)
    {
      r := VisitExpr(w.orderBy[i].expr, ctx);
      if r.Err? {
        return;
      }
      assert w.orderBy[i..][1..] == w.orderBy[i + 1..];
    }
    r := Ok(());
  }

  method VisitSelect(s: Select, ctx: Context) returns (r: Result<()>)
    modifies ctx
    decreases s, 1
    ensures Visit.VisitSelect(s, old(ctx.Snapshot())) == Outcome(ctx.Snapshot(), r)
  {
    if |s.from| > 0 && s.from[0].relation.Table? {
      ctx.SetTableContext(Some(NewDbTableMeta(s.from[0].relation.name, ctx.dialect, ctx.defaultSchema)));
    }
    r := VisitProjection(s, ctx);
    if r.Err? {
      return;
    }
    ctx.SetColumnContext(None);
    if s.into.Some? {
      ctx.AddOutput(s.into.value);
    }
    r := VisitFrom(s, ctx);
    if r.Err? {
      return;
    }
    ctx.SetTableContext(None);
    r := Ok(());
  }

  /** The projection loop of a SELECT, item by item. */
  method VisitProjection(s: Select, ctx: Context) returns (r: Result<()>)
    modifies ctx
    decreases s, 0
    ensures Visit.VisitProjection(s.projection, old(ctx.Snapshot())) == Outcome(ctx.Snapshot(), r)
  {
    ghost var c0 := ctx.Snapshot();
    for i := 0 to |s.projection|
      invariant Visit.VisitProjection(s.projection[i..], ctx.Snapshot()) == Visit.VisitProjection(s.projection, c0)
    {
      r := VisitSelectItem(s.projection[i], ctx);
      if r.Err? {
        return;
      }
      assert s.projection[i..][1..] == s.projection[i + 1..];
    }
    r := Ok(());
  }

  /** One projection item: name the descendant column, then visit the expression. */
  method VisitSelectItem(item: SelectItem, ctx: Context) returns (r: Result<()>)
    modifies ctx
    decreases item
    ensures Visit.VisitSelectItem(item, old(ctx.Snapshot())) == Outcome(ctx.Snapshot(), r)
  {
    match item
    case UnnamedExpr(e) =>
      match e {
        case Identifier(id) => ctx.SetColumnContext(Some(ColumnMeta(id, None)));
        case CompoundIdentifier(ids) => ctx.SetColumnContext(Some(ColumnMeta(ids[|ids| - 1], None)));
        case _ => ctx.SetUnnamedColumnContext();
      }
      r := VisitExpr(e, ctx);
    case ExprWithAlias(e, alias) =>
      ctx.SetColumnContext(Some(ColumnMeta(alias, None)));
      r := VisitExpr(e, ctx);
      if r.Err? {
        return;
      }
      ctx.AddAlias(alias);
      r := Ok(());
    case _ =>
      r := Ok(());
  }

  /** The FROM loop of a SELECT: every table and join target, in order. */
  method VisitFrom(s: Select, ctx: Context) returns (r: Result<()>)
    modifies ctx
    decreases s, 0
    ensures Visit.VisitFrom(s.from, old(ctx.Snapshot())) == Outcome(ctx.Snapshot(), r)
  {
    ghost var c0 := ctx.Snapshot();
    for t := 0 to |s.from|
      invariant Visit.VisitFrom(s.from[t..], ctx.Snapshot()) == Visit.VisitFrom(s.from, c0)
    {
      r := VisitTableWithJoins(s.from[t], ctx);
      if r.Err? {
        return;
      }
      assert s.from[t..][1..] == s.from[t + 1..];
    }
    r := Ok(());
  }

  /** A relation and its joins, as the FROM loop and UPDATE's FROM clause visit them. */
  method VisitTableWithJoins(t: TableWithJoins, ctx: Context) returns (r: Result<()>)
    modifies ctx
    decreases t
    ensures Visit.VisitTableWithJoins(t, old(ctx.Snapshot())) == Outcome(ctx.Snapshot(), r)
  {
    r := VisitTableFactor(t.relation, ctx);
    if r.Err? {
      return;
    }
    ghost var c1 := ctx.Snapshot();
    for j := 0 to |t.joins|
      invariant Visit.VisitJoins(t.joins[j..], ctx.Snapshot()) == Visit.VisitJoins(t.joins, c1)
    {
      r := VisitTableFactor(t.joins[j].relation, ctx);
      if r.Err? {
        return;
      }
      assert t.joins[j..][1..] == t.joins[j + 1..];
    }
    r := Ok(());
  }

  method VisitSetExpr(s: SetExpr, ctx: Context) returns (r: Result<()>)
    modifies ctx
    decreases s
    ensures Visit.VisitSetExpr(s, old(ctx.Snapshot())) == Outcome(ctx.Snapshot(), r)
  {
    match s
    case SelectBody(select) =>
      r := VisitSelect(select, ctx);
    case Values(_) =>
      r := Ok(());
    case InsertBody(stmt) =>
      r := VisitStatement(stmt, ctx);
    case QueryBody(q) =>
      r := VisitQuery(q, ctx);
    case SetOperation(_, _, left, right) =>
      r := VisitSetExpr(left, ctx);
      if r.Err? {
        return;
      }
      r := VisitSetExpr(right, ctx);
  }

  method VisitQuery(q: Query, ctx: Context) returns (r: Result<()>)
    modifies ctx
    decreases q
    ensures Visit.VisitQuery(q, old(ctx.Snapshot())) == Outcome(ctx.Snapshot(), r)
  {
    if q.with.Some? {
      r := VisitWith(q.with.value, ctx);
      if r.Err? {
        return;
      }
    }
    r := VisitSetExpr(q.body, ctx);
  }

  method VisitStatement(s: Statement, ctx: Context) returns (r: Result<()>)
    modifies ctx
    decreases s
    ensures Visit.VisitStatement(s, old(ctx.Snapshot())) == Outcome(ctx.Snapshot(), r)
  {
    match s
    case QueryStatement(q) =>
      r := VisitQuery(q, ctx);
    case Insert(tableName, _, source) =>
      r := VisitQuery(source, ctx);
      if r.Err? {
        return;
      }
      ctx.AddOutput(tableName);
      r := Ok(());
    case Merge(_, table, source, _) =>
      var name := Visit.GetTableNameFromTableFactor(table);
      if name.Err? {
        return Err;
      }
      ctx.AddOutput(name.value);
      r := VisitTableFactor(source, ctx);
    case CreateTable(name, query, like, clone) =>
      if query.Some? {
        r := VisitQuery(query.value, ctx);
        if r.Err? {
          return;
        }
      }
      if like.Some? {
        ctx.AddInput(like.value);
      }
      if clone.Some? {
        ctx.AddInput(clone.value);
      }
      ctx.AddOutput(name);
      r := Ok(());
    case Update(target, _, from, selection) =>
      var name := Visit.GetTableNameFromTableFactor(target.relation);
      if name.Err? {
        return Err;
      }
      ctx.AddOutput(name.value);
      r := Ok(());
      if from.Some? {
        r := VisitTableWithJoins(from.value, ctx);
        if r.Err? {
          return;
        }
      }
      if selection.Some? {
        r := VisitExpr(selection.value, ctx);
      }
    case Delete(table, using, selection) =>
      var name := Visit.GetTableNameFromTableFactor(table);
      if name.Err? {
        return Err;
      }
      ctx.AddOutput(name.value);
      r := Ok(());
      if using.Some? {
        r := VisitTableFactor(using.value, ctx);
        if r.Err? {
          return;
        }
      }
      if selection.Some? {
        r := VisitExpr(selection.value, ctx);
      }
    case OtherStatement(_) =>
      r := Ok(());
  }
}
