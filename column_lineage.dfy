/**
 * Column-level lineage. For an expression that reaches no subquery in the positions the
 * visitor descends into, `ExprColumns` lists the column names the visit records, in the
 * order it meets them; the lemmas below prove that visiting such an expression appends
 * exactly those names, paired with the current table, to the current descendant column,
 * and changes nothing else. `SelectFlat` then describes a whole simple SELECT.
 */
module ColumnLineage {
  import opened Common
  import opened SqlAst
  import opened Lineage
  import opened Visit

  // ---------------------------------------------------------------- reference definitions

  function Cat(a: Option<seq<Ident>>, b: Option<seq<Ident>>): Option<seq<Ident>> {
    if a.Some? && b.Some? then Some(a.value + b.value) else None
  }

  /**
   * The columns an expression contributes, left to right, or `None` when the visit would
   * descend into a subquery. Only CASE conditions, function arguments and the window's
   * PARTITION BY / ORDER BY are looked at; every other operand is ignored, as the visitor
   * ignores it.
   */
  function ExprColumns(e: Expr): Option<seq<Ident>> {
    match e
    case Subquery(_) => None
    case InSubquery(_, _, _) => None
    case BinaryOp(left, _, right) => Cat(ExprColumns(left), ExprColumns(right))
    case UnaryOp(_, operand) => ExprColumns(operand)
    case Case(_, conditions, _, _) => ExprsColumns(conditions)
    case Identifier(id) => Some([id])
    case CompoundIdentifier(ids) => Some([Last(ids)])
    case FunctionCall(f) => FunctionColumns(f)
    case _ => Some([])
  }

  function ExprsColumns(es: seq<Expr>): Option<seq<Ident>> {
    if es == [] then Some([]) else Cat(ExprColumns(es[0]), ExprsColumns(es[1..]))
  }

  function FunctionColumns(f: Function): Option<seq<Ident>> {
    Cat(ArgsColumns(f.args), if f.over.Some? then WindowColumns(f.over.value) else Some([]))
  }

  function ArgsColumns(args: seq<FunctionArg>): Option<seq<Ident>> {
    if args == [] then Some([]) else Cat(ArgColumns(args[0]), ArgsColumns(args[1..]))
  }

  function ArgColumns(a: FunctionArg): Option<seq<Ident>> {
    match a.arg
    case ArgExpr(e) => ExprColumns(e)
    case _ => Some([])
  }

  function WindowColumns(w: WindowSpec): Option<seq<Ident>> {
    Cat(ExprsColumns(w.partitionBy), OrderByColumns(w.orderBy))
  }

  function OrderByColumns(obs: seq<OrderByExpr>): Option<seq<Ident>> {
    if obs == [] then Some([]) else Cat(OrderByExprColumns(obs[0]), OrderByColumns(obs[1..]))
  }

  function OrderByExprColumns(ob: OrderByExpr): Option<seq<Ident>> {
    ExprColumns(ob.expr)
  }

  /** Each name as an ancestor column of table `origin`. */
  function Ancestors(names: seq<Ident>, origin: Option<DbTableMeta>): seq<ColumnMeta> {
    if names == [] then [] else [ColumnMeta(names[0], origin)] + Ancestors(names[1..], origin)
  }

  /** `m` with `ancestors` appended under `descendant`; a key is only created for a non-empty list. */
  function AppendAncestors(m: map<string, seq<ColumnMeta>>, descendant: string, ancestors: seq<ColumnMeta>): map<string, seq<ColumnMeta>> {
    if ancestors == [] then m
    else m[descendant := (if descendant in m then m[descendant] else []) + ancestors]
  }

  /** The context after the columns `names` are met while the registers of `c` are in force. */
  function Record(c: State, names: seq<Ident>): State {
    if c.columnContext.Some? then
      c.(columnLineage := AppendAncestors(c.columnLineage, c.columnContext.value.name, Ancestors(names, c.tableContext)))
    else c
  }

  // ---------------------------------------------------------------- appending in two steps

  lemma {:induction false} AncestorsAppend(a: seq<Ident>, b: seq<Ident>, origin: Option<DbTableMeta>)
    ensures Ancestors(a + b, origin) == Ancestors(a, origin) + Ancestors(b, origin)
  {
    if a != [] {
      assert (a + b)[1..] == a[1..] + b;
      AncestorsAppend(a[1..], b, origin);
    } else {
      assert a + b == b;
    }
  }

  lemma AppendAncestorsTwice(m: map<string, seq<ColumnMeta>>, d: string, x: seq<ColumnMeta>, y: seq<ColumnMeta>)
    ensures AppendAncestors(AppendAncestors(m, d, x), d, y) == AppendAncestors(m, d, x + y)
  {
    if x == [] {
      assert x + y == y;
    } else if y == [] {
      assert x + y == x;
    } else {
      var known := if d in m then m[d] else [];
      assert (known + x) + y == known + (x + y);
    }
  }

  /** Meeting `a` and then `b` records the same as meeting `a + b` at once. */
  lemma RecordAppend(c: State, a: seq<Ident>, b: seq<Ident>)
    ensures Record(Record(c, a), b) == Record(c, a + b)
  {
    if c.columnContext.Some? {
      AncestorsAppend(a, b, c.tableContext);
      AppendAncestorsTwice(c.columnLineage, c.columnContext.value.name, Ancestors(a, c.tableContext), Ancestors(b, c.tableContext));
    }
  }

  // ---------------------------------------------------------------- expressions

  /**
   * A subquery-free expression adds exactly its columns, in order, as ancestors of the
   * current descendant, each paired with the current table context; with no descendant
   * set, the context is unchanged. The visit never fails.
   */
  lemma {:induction false} ExprLineage(e: Expr, c: State)
    requires ExprColumns(e).Some?
    ensures VisitExpr(e, c) == Done(Record(c, ExprColumns(e).value))
  {
    match e
    case BinaryOp(left, _, right) =>
      ExprLineage(left, c);
      ExprLineage(right, Record(c, ExprColumns(left).value));
      RecordAppend(c, ExprColumns(left).value, ExprColumns(right).value);
    case UnaryOp(_, operand) =>
      ExprLineage(operand, c);
    case Case(_, conditions, _, _) =>
      ExprsLineage(conditions, c);
    case FunctionCall(f) =>
      FunctionLineage(f, c);
    case Identifier(id) =>
      assert Ancestors([id], c.tableContext) == [ColumnMeta(id, c.tableContext)];
    case CompoundIdentifier(ids) =>
      assert Ancestors([Last(ids)], c.tableContext) == [ColumnMeta(Last(ids), c.tableContext)];
    case Nested(_) =>
    case IsNull(_) =>
    case Between(_, _, _, _) =>
    case InList(_, _, _) =>
    case Cast(_, _) =>
    case Value(_) =>
  }

  lemma {:induction false} ExprsLineage(es: seq<Expr>, c: State)
    requires ExprsColumns(es).Some?
    ensures VisitExprs(es, c) == Done(Record(c, ExprsColumns(es).value))
  {
    if es == [] {
      assert Record(c, []) == c;
    } else {
      ExprLineage(es[0], c);
      ExprsLineage(es[1..], Record(c, ExprColumns(es[0]).value));
      RecordAppend(c, ExprColumns(es[0]).value, ExprsColumns(es[1..]).value);
    }
  }

  /** A function call: its arguments in order, then PARTITION BY, then ORDER BY. */
  lemma {:induction false} FunctionLineage(f: Function, c: State)
    requires FunctionColumns(f).Some?
    ensures VisitFunction(f, c) == Done(Record(c, FunctionColumns(f).value))
  {
    ArgsLineage(f.args, c);
    var c1 := Record(c, ArgsColumns(f.args).value);
    if f.over.Some? {
      WindowLineage(f.over.value, c1);
      RecordAppend(c, ArgsColumns(f.args).value, WindowColumns(f.over.value).value);
    } else {
      assert ArgsColumns(f.args).value + [] == ArgsColumns(f.args).value;
    }
  }

  lemma {:induction false} ArgsLineage(args: seq<FunctionArg>, c: State)
    requires ArgsColumns(args).Some?
    ensures VisitFunctionArgs(args, c) == Done(Record(c, ArgsColumns(args).value))
  {
    if args == [] {
      assert Record(c, []) == c;
    } else {
      ArgLineage(args[0], c);
      ArgsLineage(args[1..], Record(c, ArgColumns(args[0]).value));
      RecordAppend(c, ArgColumns(args[0]).value, ArgsColumns(args[1..]).value);
    }
  }

  lemma {:induction false} ArgLineage(a: FunctionArg, c: State)
    requires ArgColumns(a).Some?
    ensures VisitFunctionArg(a, c) == Done(Record(c, ArgColumns(a).value))
  {
    match a.arg
    case ArgExpr(e) =>
      ExprLineage(e, c);
    case _ =>
      assert Record(c, []) == c;
  }

  lemma {:induction false} WindowLineage(w: WindowSpec, c: State)
    requires WindowColumns(w).Some?
    ensures VisitWindowSpec(w, c) == Done(Record(c, WindowColumns(w).value))
  {
    ExprsLineage(w.partitionBy, c);
    OrderByLineage(w.orderBy, Record(c, ExprsColumns(w.partitionBy).value));
    RecordAppend(c, ExprsColumns(w.partitionBy).value, OrderByColumns(w.orderBy).value);
  }

  lemma {:induction false} OrderByLineage(obs: seq<OrderByExpr>, c: State)
    requires OrderByColumns(obs).Some?
    ensures VisitOrderBy(obs, c) == Done(Record(c, OrderByColumns(obs).value))
  {
    if obs == [] {
      assert Record(c, []) == c;
    } else {
      OrderByExprLineage(obs[0], c);
      OrderByLineage(obs[1..], Record(c, OrderByExprColumns(obs[0]).value));
      RecordAppend(c, OrderByExprColumns(obs[0]).value, OrderByColumns(obs[1..]).value);
    }
  }

  lemma {:induction false} OrderByExprLineage(ob: OrderByExpr, c: State)
    requires OrderByExprColumns(ob).Some?
    ensures VisitOrderByExpr(ob, c) == Done(Record(c, OrderByExprColumns(ob).value))
  {
    ExprLineage(ob.expr, c);
  }

  // ---------------------------------------------------------------- a simple SELECT

  /** A projection item whose expression reaches no subquery (wildcards always qualify). */
  predicate ItemFlat(item: SelectItem) {
    (item.UnnamedExpr? || item.ExprWithAlias?) ==> ExprColumns(item.expr).Some?
  }

  predicate FlatProjection(items: seq<SelectItem>) {
    forall i :: 0 <= i < |items| ==> ItemFlat(items[i])
  }

  /** The descendant an item's ancestors are recorded under: its alias, or the projected column. */
  function ItemDescendant(item: SelectItem): string
    requires item.UnnamedExpr? || item.ExprWithAlias?
  {
    if item.UnnamedExpr? then ProjectionColumn(item.expr).name else item.alias
  }

  function ItemLineage(m: map<string, seq<ColumnMeta>>, item: SelectItem, origin: Option<DbTableMeta>): map<string, seq<ColumnMeta>> {
    if (item.UnnamedExpr? || item.ExprWithAlias?) && ExprColumns(item.expr).Some? then
      AppendAncestors(m, ItemDescendant(item), Ancestors(ExprColumns(item.expr).value, origin))
    else m
  }

  /** The column lineage after the projection, every item read against table `origin`. */
  function ProjectionLineage(m: map<string, seq<ColumnMeta>>, items: seq<SelectItem>, origin: Option<DbTableMeta>): map<string, seq<ColumnMeta>>
    decreases items
  {
    if items == [] then m else ProjectionLineage(ItemLineage(m, items[0], origin), items[1..], origin)
  }

  function ProjectionAliases(items: seq<SelectItem>): set<string> {
    if items == [] then {}
    else (if items[0].ExprWithAlias? then {items[0].alias} else {}) + ProjectionAliases(items[1..])
  }

  /** What a projection of subquery-free items does to the context (the column register aside). */
  ghost predicate ProjectionEffect(c: State, o: Outcome, items: seq<SelectItem>) {
    && o.result.Ok?
    && o.after.inputs == c.inputs
    && o.after.outputs == c.outputs
    && o.after.aliases == c.aliases + ProjectionAliases(items)
    && o.after.columnLineage == ProjectionLineage(c.columnLineage, items, c.tableContext)
    && o.after.tableContext == c.tableContext
    && o.after.dialect == c.dialect
    && o.after.defaultSchema == c.defaultSchema
  }

  lemma {:induction false} ProjectionFlat(items: seq<SelectItem>, c: State)
    requires FlatProjection(items)
    ensures ProjectionEffect(c, VisitProjection(items, c), items)
  {
    if items != [] {
      var item := items[0];
      assert ItemFlat(item);
      var o1 := VisitSelectItem(item, c);
      match item {
        case UnnamedExpr(e) =>
          ExprLineage(e, c.SetColumnContext(Some(ProjectionColumn(e))));
        case ExprWithAlias(e, alias) =>
          ExprLineage(e, c.SetColumnContext(Some(ColumnMeta(alias, None))));
        case QualifiedWildcard(_) =>
        case Wildcard =>
      }
      assert o1.result.Ok? && o1.after.tableContext == c.tableContext;
      assert o1.after.columnLineage == ItemLineage(c.columnLineage, item, c.tableContext);
      ProjectionFlat(items[1..], o1.after);
    }
  }

  predicate PlainJoins(joins: seq<Join>) {
    forall j :: 0 <= j < |joins| ==> joins[j].relation.Table?
  }

  /** Every FROM item and every join target is a plain table. */
  predicate PlainFrom(from: seq<TableWithJoins>) {
    forall i :: 0 <= i < |from| ==> from[i].relation.Table? && PlainJoins(from[i].joins)
  }

  function JoinTables(joins: seq<Join>): set<ObjectName>
    requires PlainJoins(joins)
  {
    if joins == [] then {} else {joins[0].relation.name} + JoinTables(joins[1..])
  }

  function FromTables(from: seq<TableWithJoins>): set<ObjectName>
    requires PlainFrom(from)
  {
    if from == [] then {}
    else {from[0].relation.name} + JoinTables(from[0].joins) + FromTables(from[1..])
  }

  lemma {:induction false} JoinsPlain(joins: seq<Join>, c: State)
    requires PlainJoins(joins)
    ensures VisitJoins(joins, c) == Done(c.(inputs := c.inputs + JoinTables(joins)))
  {
    if joins != [] {
      var c1 := c.AddInput(joins[0].relation.name);
      assert VisitJoin(joins[0], c) == Done(c1);
      JoinsPlain(joins[1..], c1);
      assert c1.inputs + JoinTables(joins[1..]) == c.inputs + JoinTables(joins);
    }
  }

  lemma {:induction false} FromPlain(from: seq<TableWithJoins>, c: State)
    requires PlainFrom(from)
    ensures VisitFrom(from, c) == Done(c.(inputs := c.inputs + FromTables(from)))
  {
    if from != [] {
      var c1 := c.AddInput(from[0].relation.name);
      JoinsPlain(from[0].joins, c1);
      var c2 := c1.(inputs := c1.inputs + JoinTables(from[0].joins));
      assert VisitTableWithJoins(from[0], c) == Done(c2);
      FromPlain(from[1..], c2);
      assert c2.inputs + FromTables(from[1..]) == c.inputs + FromTables(from);
    }
  }

  /**
   * A SELECT over plain tables whose projections reach no subquery: the table context is
   * seeded from the first FROM item only, every projected column's ancestors are read
   * against it, aliases are recorded, INTO adds an output, every FROM and join table is an
   * input, and both registers end empty. With no FROM item the table context in force
   * before the SELECT is used.
   */
  lemma SelectFlat(s: Select, c: State)
    requires FlatProjection(s.projection) && PlainFrom(s.from)
    ensures VisitSelect(s, c) == Done(State(
      c.inputs + FromTables(s.from),
      c.outputs + (if s.into.Some? then {s.into.value} else {}),
      c.aliases + ProjectionAliases(s.projection),
      ProjectionLineage(c.columnLineage, s.projection, SeedTableContext(s, c).tableContext),
      None, None, c.dialect, c.defaultSchema))
  {
    var c1 := SeedTableContext(s, c);
    ProjectionFlat(s.projection, c1);
    var c2 := VisitProjection(s.projection, c1).after.SetColumnContext(None);
    var c3 := if s.into.Some? then c2.AddOutput(s.into.value) else c2;
    FromPlain(s.from, c3);
  }
}
