/**
 * Table-level lineage, stated without the walk: which tables a statement reads and
 * writes and which names it introduces as aliases, as plain unions over its parts, or
 * `None` when some visited position holds a table source the visitor rejects. The
 * agreement lemmas prove that the visitor fails exactly when this is `None`, and that
 * otherwise it adds exactly these names to the three sets, whatever the context held
 * before: the order of the walk and the scope registers play no part at table level.
 */
module TableLineage {
  import opened Common
  import opened SqlAst
  import opened Lineage
  import opened Visit

  datatype Facts = Facts(inputs: set<ObjectName>, outputs: set<ObjectName>, aliases: set<string>)

  function Nothing(): Option<Facts> {
    Some(Facts({}, {}, {}))
  }

  function Input(name: ObjectName): Option<Facts> {
    Some(Facts({name}, {}, {}))
  }

  function Output(name: ObjectName): Option<Facts> {
    Some(Facts({}, {name}, {}))
  }

  function Alias(name: string): Option<Facts> {
    Some(Facts({}, {}, {name}))
  }

  /** Both parts must be supported; their facts are united. */
  function Both(a: Option<Facts>, b: Option<Facts>): Option<Facts> {
    if a.Some? && b.Some? then
      Some(Facts(a.value.inputs + b.value.inputs, a.value.outputs + b.value.outputs, a.value.aliases + b.value.aliases))
    else None
  }

  function WithFacts(w: With): Option<Facts> {
    CtesFacts(w.cteTables)
  }

  function CtesFacts(ctes: seq<Cte>): Option<Facts> {
    if ctes == [] then Nothing() else Both(CteFacts(ctes[0]), CtesFacts(ctes[1..]))
  }

  function CteFacts(cte: Cte): Option<Facts> {
    Both(Alias(cte.alias.name), QueryFacts(cte.query))
  }

  function TableFactorFacts(t: TableFactor): Option<Facts> {
    match t
    case Table(name, _) => Input(name)
    case Derived(_, subquery, alias) =>
      Both(QueryFacts(subquery), if alias.Some? then Alias(alias.value.name) else Nothing())
    case _ => None
  }

  function ExprFacts(e: Expr): Option<Facts> {
    match e
    case Subquery(q) => QueryFacts(q)
    case InSubquery(_, subquery, _) => QueryFacts(subquery)
    case BinaryOp(left, _, right) => Both(ExprFacts(left), ExprFacts(right))
    case UnaryOp(_, operand) => ExprFacts(operand)
    case Case(_, conditions, _, _) => ExprsFacts(conditions)
    case FunctionCall(f) => FunctionFacts(f)
    case _ => Nothing()
  }

  function ExprsFacts(es: seq<Expr>): Option<Facts> {
    if es == [] then Nothing() else Both(ExprFacts(es[0]), ExprsFacts(es[1..]))
  }

  function FunctionFacts(f: Function): Option<Facts> {
    Both(ArgsFacts(f.args), if f.over.Some? then WindowFacts(f.over.value) else Nothing())
  }

  function ArgsFacts(args: seq<FunctionArg>): Option<Facts> {
    if args == [] then Nothing() else Both(ArgFacts(args[0]), ArgsFacts(args[1..]))
  }

  function ArgFacts(a: FunctionArg): Option<Facts> {
    match a.arg
    case ArgExpr(e) => ExprFacts(e)
    case _ => Nothing()
  }

  function WindowFacts(w: WindowSpec): Option<Facts> {
    Both(ExprsFacts(w.partitionBy), OrderByFacts(w.orderBy))
  }

  function OrderByFacts(obs: seq<OrderByExpr>): Option<Facts> {
    if obs == [] then Nothing() else Both(OrderByExprFacts(obs[0]), OrderByFacts(obs[1..]))
  }

  function OrderByExprFacts(ob: OrderByExpr): Option<Facts> {
    ExprFacts(ob.expr)
  }

  function ItemFacts(item: SelectItem): Option<Facts> {
    match item
    case UnnamedExpr(e) => ExprFacts(e)
    case ExprWithAlias(e, alias) => Both(ExprFacts(e), Alias(alias))
    case _ => Nothing()
  }

  function ProjectionFacts(items: seq<SelectItem>): Option<Facts> {
    if items == [] then Nothing() else Both(ItemFacts(items[0]), ProjectionFacts(items[1..]))
  }

  function TableWithJoinsFacts(t: TableWithJoins): Option<Facts> {
    Both(TableFactorFacts(t.relation), JoinsFacts(t.joins))
  }

  function JoinsFacts(joins: seq<Join>): Option<Facts> {
    if joins == [] then Nothing() else Both(JoinFacts(joins[0]), JoinsFacts(joins[1..]))
  }

  function JoinFacts(j: Join): Option<Facts> {
    TableFactorFacts(j.relation)
  }

  function FromFacts(from: seq<TableWithJoins>): Option<Facts> {
    if from == [] then Nothing() else Both(TableWithJoinsFacts(from[0]), FromFacts(from[1..]))
  }

  function SelectFacts(s: Select): Option<Facts> {
    Both(ProjectionFacts(s.projection),
         Both(if s.into.Some? then Output(s.into.value) else Nothing(), FromFacts(s.from)))
  }

  function SetExprFacts(s: SetExpr): Option<Facts> {
    match s
    case SelectBody(select) => SelectFacts(select)
    case Values(_) => Nothing()
    case InsertBody(stmt) => StatementFacts(stmt)
    case QueryBody(q) => QueryFacts(q)
    case SetOperation(_, _, left, right) => Both(SetExprFacts(left), SetExprFacts(right))
  }

  function QueryFacts(q: Query): Option<Facts> {
    Both(if q.with.Some? then WithFacts(q.with.value) else Nothing(), SetExprFacts(q.body))
  }

  function OptionalInput(name: Option<ObjectName>): set<ObjectName> {
    if name.Some? then {name.value} else {}
  }

  function StatementFacts(s: Statement): Option<Facts> {
    match s
    case QueryStatement(q) => QueryFacts(q)
    case Insert(tableName, _, source) => Both(QueryFacts(source), Output(tableName))
    case Merge(_, table, source, _) =>
      if table.Table? then Both(Output(table.name), TableFactorFacts(source)) else None
    case CreateTable(name, query, like, clone) =>
      Both(if query.Some? then QueryFacts(query.value) else Nothing(),
           Some(Facts(OptionalInput(like) + OptionalInput(clone), {name}, {})))
    case Update(target, _, from, selection) =>
      if target.relation.Table? then
        Both(Output(target.relation.name),
             Both(if from.Some? then TableWithJoinsFacts(from.value) else Nothing(),
                  if selection.Some? then ExprFacts(selection.value) else Nothing()))
      else None
    case Delete(table, using, selection) =>
      if table.Table? then
        Both(Output(table.name),
             Both(if using.Some? then TableFactorFacts(using.value) else Nothing(),
                  if selection.Some? then ExprFacts(selection.value) else Nothing()))
      else None
    case OtherStatement(_) => Nothing()
  }

  // ---------------------------------------------------------------- agreement

  /** The visit from `c` failed iff `f` is `None`, and otherwise added exactly `f`'s names. */
  ghost predicate Agrees(c: State, o: Outcome, f: Option<Facts>) {
    && (o.result.Ok? <==> f.Some?)
    && (f.Some? ==>
          && o.after.inputs == c.inputs + f.value.inputs
          && o.after.outputs == c.outputs + f.value.outputs
          && o.after.aliases == c.aliases + f.value.aliases)
  }

  /** Running two visits in a row, stopping at the first failure, agrees with `Both`. */
  lemma Then(c: State, o1: Outcome, f1: Option<Facts>, o2: Outcome, f2: Option<Facts>)
    requires Agrees(c, o1, f1)
    requires o1.result.Ok? ==> Agrees(o1.after, o2, f2)
    ensures Agrees(c, if o1.result.Err? then o1 else o2, Both(f1, f2))
  {
  }

  lemma {:induction false} WithAgrees(w: With, c: State)
    ensures Agrees(c, VisitWith(w, c), WithFacts(w))
  {
    CtesAgree(w.cteTables, c);
  }

  lemma {:induction false} CtesAgree(ctes: seq<Cte>, c: State)
    ensures Agrees(c, VisitCtes(ctes, c), CtesFacts(ctes))
  {
    if ctes != [] {
      var o1 := VisitCte(ctes[0], c);
      CteAgrees(ctes[0], c);
      if o1.result.Ok? {
        CtesAgree(ctes[1..], o1.after);
      }
      Then(c, o1, CteFacts(ctes[0]), VisitCtes(ctes[1..], o1.after), CtesFacts(ctes[1..]));
    }
  }

  lemma {:induction false} CteAgrees(cte: Cte, c: State)
    ensures Agrees(c, VisitCte(cte, c), CteFacts(cte))
  {
    var c1 := c.AddAlias(cte.alias.name);
    QueryAgrees(cte.query, c1);
    Then(c, Done(c1), Alias(cte.alias.name), VisitQuery(cte.query, c1), QueryFacts(cte.query));
  }

  lemma {:induction false} TableFactorAgrees(t: TableFactor, c: State)
    ensures Agrees(c, VisitTableFactor(t, c), TableFactorFacts(t))
  {
    match t
    case Table(_, _) =>
    case Derived(_, subquery, alias) =>
      var o1 := VisitQuery(subquery, c);
      QueryAgrees(subquery, c);
      var after := if alias.Some? then o1.after.AddAlias(alias.value.name) else o1.after;
      Then(c, o1, QueryFacts(subquery), Done(after), if alias.Some? then Alias(alias.value.name) else Nothing());
    case TableFunction(_, _) =>
    case NestedJoin(_) =>
  }

  lemma {:induction false} ExprAgrees(e: Expr, c: State)
    ensures Agrees(c, VisitExpr(e, c), ExprFacts(e))
  {
    match e
    case Subquery(q) =>
      QueryAgrees(q, c);
    case InSubquery(_, subquery, _) =>
      QueryAgrees(subquery, c);
    case BinaryOp(left, _, right) =>
      var o1 := VisitExpr(left, c);
      ExprAgrees(left, c);
      if o1.result.Ok? {
        ExprAgrees(right, o1.after);
      }
      Then(c, o1, ExprFacts(left), VisitExpr(right, o1.after), ExprFacts(right));
    case UnaryOp(_, operand) =>
      ExprAgrees(operand, c);
    case Case(_, conditions, _, _) =>
      ExprsAgree(conditions, c);
    case FunctionCall(f) =>
      FunctionAgrees(f, c);
    case Identifier(_) =>
    case CompoundIdentifier(_) =>
    case Nested(_) =>
    case IsNull(_) =>
    case Between(_, _, _, _) =>
    case InList(_, _, _) =>
    case Cast(_, _) =>
    case Value(_) =>
  }

  lemma {:induction false} ExprsAgree(es: seq<Expr>, c: State)
    ensures Agrees(c, VisitExprs(es, c), ExprsFacts(es))
  {
    if es != [] {
      var o1 := VisitExpr(es[0], c);
      ExprAgrees(es[0], c);
      if o1.result.Ok? {
        ExprsAgree(es[1..], o1.after);
      }
      Then(c, o1, ExprFacts(es[0]), VisitExprs(es[1..], o1.after), ExprsFacts(es[1..]));
    }
  }

  lemma {:induction false} FunctionAgrees(f: Function, c: State)
    ensures Agrees(c, VisitFunction(f, c), FunctionFacts(f))
  {
    var o1 := VisitFunctionArgs(f.args, c);
    ArgsAgree(f.args, c);
    if f.over.Some? {
      if o1.result.Ok? {
        WindowAgrees(f.over.value, o1.after);
      }
      Then(c, o1, ArgsFacts(f.args), VisitWindowSpec(f.over.value, o1.after), WindowFacts(f.over.value));
    } else {
      Then(c, o1, ArgsFacts(f.args), Done(o1.after), Nothing());
    }
  }

  lemma {:induction false} ArgsAgree(args: seq<FunctionArg>, c: State)
    ensures Agrees(c, VisitFunctionArgs(args, c), ArgsFacts(args))
  {
    if args != [] {
      var o1 := VisitFunctionArg(args[0], c);
      ArgAgrees(args[0], c);
      if o1.result.Ok? {
        ArgsAgree(args[1..], o1.after);
      }
      Then(c, o1, ArgFacts(args[0]), VisitFunctionArgs(args[1..], o1.after), ArgsFacts(args[1..]));
    }
  }

  lemma {:induction false} ArgAgrees(a: FunctionArg, c: State)
    ensures Agrees(c, VisitFunctionArg(a, c), ArgFacts(a))
  {
    match a.arg
    case ArgExpr(e) =>
      ExprAgrees(e, c);
    case ArgQualifiedWildcard(_) =>
    case ArgWildcard =>
  }

  lemma {:induction false} WindowAgrees(w: WindowSpec, c: State)
    ensures Agrees(c, VisitWindowSpec(w, c), WindowFacts(w))
  {
    var o1 := VisitExprs(w.partitionBy, c);
    ExprsAgree(w.partitionBy, c);
    if o1.result.Ok? {
      OrderByAgrees(w.orderBy, o1.after);
    }
    Then(c, o1, ExprsFacts(w.partitionBy), VisitOrderBy(w.orderBy, o1.after), OrderByFacts(w.orderBy));
  }

  lemma {:induction false} OrderByAgrees(obs: seq<OrderByExpr>, c: State)
    ensures Agrees(c, VisitOrderBy(obs, c), OrderByFacts(obs))
  {
    if obs != [] {
      var o1 := VisitOrderByExpr(obs[0], c);
      OrderByExprAgrees(obs[0], c);
      if o1.result.Ok? {
        OrderByAgrees(obs[1..], o1.after);
      }
      Then(c, o1, OrderByExprFacts(obs[0]), VisitOrderBy(obs[1..], o1.after), OrderByFacts(obs[1..]));
    }
  }

  lemma {:induction false} OrderByExprAgrees(ob: OrderByExpr, c: State)
    ensures Agrees(c, VisitOrderByExpr(ob, c), OrderByExprFacts(ob))
  {
    ExprAgrees(ob.expr, c);
  }

  lemma {:induction false} ItemAgrees(item: SelectItem, c: State)
    ensures Agrees(c, VisitSelectItem(item, c), ItemFacts(item))
  {
    match item
    case UnnamedExpr(e) =>
      ExprAgrees(e, c.SetColumnContext(Some(ProjectionColumn(e))));
    case ExprWithAlias(e, alias) =>
      var c1 := c.SetColumnContext(Some(ColumnMeta(alias, None)));
      var o1 := VisitExpr(e, c1);
      ExprAgrees(e, c1);
      Then(c, o1, ExprFacts(e), Done(o1.after.AddAlias(alias)), Alias(alias));
    case QualifiedWildcard(_) =>
    case Wildcard =>
  }

  lemma {:induction false} ProjectionAgrees(items: seq<SelectItem>, c: State)
    ensures Agrees(c, VisitProjection(items, c), ProjectionFacts(items))
  {
    if items != [] {
      var o1 := VisitSelectItem(items[0], c);
      ItemAgrees(items[0], c);
      if o1.result.Ok? {
        ProjectionAgrees(items[1..], o1.after);
      }
      Then(c, o1, ItemFacts(items[0]), VisitProjection(items[1..], o1.after), ProjectionFacts(items[1..]));
    }
  }

  lemma {:induction false} TableWithJoinsAgrees(t: TableWithJoins, c: State)
    ensures Agrees(c, VisitTableWithJoins(t, c), TableWithJoinsFacts(t))
  {
    var o1 := VisitTableFactor(t.relation, c);
    TableFactorAgrees(t.relation, c);
    if o1.result.Ok? {
      JoinsAgree(t.joins, o1.after);
    }
    Then(c, o1, TableFactorFacts(t.relation), VisitJoins(t.joins, o1.after), JoinsFacts(t.joins));
  }

  lemma {:induction false} JoinsAgree(joins: seq<Join>, c: State)
    ensures Agrees(c, VisitJoins(joins, c), JoinsFacts(joins))
  {
    if joins != [] {
      var o1 := VisitJoin(joins[0], c);
      JoinAgrees(joins[0], c);
      if o1.result.Ok? {
        JoinsAgree(joins[1..], o1.after);
      }
      Then(c, o1, JoinFacts(joins[0]), VisitJoins(joins[1..], o1.after), JoinsFacts(joins[1..]));
    }
  }

  lemma {:induction false} JoinAgrees(j: Join, c: State)
    ensures Agrees(c, VisitJoin(j, c), JoinFacts(j))
  {
    TableFactorAgrees(j.relation, c);
  }

  lemma {:induction false} FromAgrees(from: seq<TableWithJoins>, c: State)
    ensures Agrees(c, VisitFrom(from, c), FromFacts(from))
  {
    if from != [] {
      var o1 := VisitTableWithJoins(from[0], c);
      TableWithJoinsAgrees(from[0], c);
      if o1.result.Ok? {
        FromAgrees(from[1..], o1.after);
      }
      Then(c, o1, TableWithJoinsFacts(from[0]), VisitFrom(from[1..], o1.after), FromFacts(from[1..]));
    }
  }

  lemma {:induction false} SelectAgrees(s: Select, c: State)
    ensures Agrees(c, VisitSelect(s, c), SelectFacts(s))
  {
    var c1 := SeedTableContext(s, c);
    var o1 := VisitProjection(s.projection, c1);
    ProjectionAgrees(s.projection, c1);
    if o1.result.Ok? {
      var c2 := o1.after.SetColumnContext(None);
      var c3 := if s.into.Some? then c2.AddOutput(s.into.value) else c2;
      var o2 := VisitFrom(s.from, c3);
      FromAgrees(s.from, c3);
      var intoFacts := if s.into.Some? then Output(s.into.value) else Nothing();
      Then(c2, Done(c3), intoFacts, o2, FromFacts(s.from));
      var o3 := if o2.result.Err? then o2 else Done(o2.after.SetTableContext(None));
      assert Agrees(o1.after, o3, Both(intoFacts, FromFacts(s.from)));
    }
  }

  lemma {:induction false} SetExprAgrees(s: SetExpr, c: State)
    ensures Agrees(c, VisitSetExpr(s, c), SetExprFacts(s))
  {
    match s
    case SelectBody(select) =>
      SelectAgrees(select, c);
    case Values(_) =>
    case InsertBody(stmt) =>
      StatementAgrees(stmt, c);
    case QueryBody(q) =>
      QueryAgrees(q, c);
    case SetOperation(_, _, left, right) =>
      var o1 := VisitSetExpr(left, c);
      SetExprAgrees(left, c);
      if o1.result.Ok? {
        SetExprAgrees(right, o1.after);
      }
      Then(c, o1, SetExprFacts(left), VisitSetExpr(right, o1.after), SetExprFacts(right));
  }

  lemma {:induction false} QueryAgrees(q: Query, c: State)
    ensures Agrees(c, VisitQuery(q, c), QueryFacts(q))
  {
    var o1 := if q.with.Some? then VisitWith(q.with.value, c) else Done(c);
    if q.with.Some? {
      WithAgrees(q.with.value, c);
    }
    if o1.result.Ok? {
      SetExprAgrees(q.body, o1.after);
    }
    Then(c, o1, if q.with.Some? then WithFacts(q.with.value) else Nothing(), VisitSetExpr(q.body, o1.after), SetExprFacts(q.body));
  }

  lemma {:induction false} StatementAgrees(s: Statement, c: State)
    ensures Agrees(c, VisitStatement(s, c), StatementFacts(s))
    decreases s, 1
  {
    match s
    case QueryStatement(q) =>
      QueryAgrees(q, c);
    case Insert(tableName, _, source) =>
      var o1 := VisitQuery(source, c);
      QueryAgrees(source, c);
      Then(c, o1, QueryFacts(source), Done(o1.after.AddOutput(tableName)), Output(tableName));
    case Merge(_, table, source, _) =>
      if table.Table? {
        var c1 := c.AddOutput(table.name);
        TableFactorAgrees(source, c1);
        Then(c, Done(c1), Output(table.name), VisitTableFactor(source, c1), TableFactorFacts(source));
      }
    case CreateTable(name, query, like, clone) =>
      CreateTableAgrees(name, query, like, clone, c);
    case Update(target, _, from, selection) =>
      if target.relation.Table? {
        var c1 := c.AddOutput(target.relation.name);
        UpdateSourceAgrees(s, c1);
        var o1 := if from.Some? then VisitTableWithJoins(from.value, c1) else Done(c1);
        Then(c, Done(c1), Output(target.relation.name),
             if o1.result.Err? || selection.None? then o1 else VisitExpr(selection.value, o1.after),
             Both(if from.Some? then TableWithJoinsFacts(from.value) else Nothing(),
                  if selection.Some? then ExprFacts(selection.value) else Nothing()));
      }
    case Delete(table, using, selection) =>
      if table.Table? {
        var c1 := c.AddOutput(table.name);
        DeleteSourceAgrees(s, c1);
        var o1 := if using.Some? then VisitTableFactor(using.value, c1) else Done(c1);
        Then(c, Done(c1), Output(table.name),
             if o1.result.Err? || selection.None? then o1 else VisitExpr(selection.value, o1.after),
             Both(if using.Some? then TableFactorFacts(using.value) else Nothing(),
                  if selection.Some? then ExprFacts(selection.value) else Nothing()));
      }
    case OtherStatement(_) =>
  }

  lemma {:induction false} CreateTableAgrees(name: ObjectName, query: Option<Query>, like: Option<ObjectName>, clone: Option<ObjectName>, c: State)
    ensures Agrees(c, VisitCreateTable(name, query, like, clone, c),
                   Both(if query.Some? then QueryFacts(query.value) else Nothing(),
                        Some(Facts(OptionalInput(like) + OptionalInput(clone), {name}, {}))))
    decreases query
  {
    var o1 := if query.Some? then VisitQuery(query.value, c) else Done(c);
    if query.Some? {
      QueryAgrees(query.value, c);
    }
    if o1.result.Ok? {
      var c2 := if like.Some? then o1.after.AddInput(like.value) else o1.after;
      var c3 := if clone.Some? then c2.AddInput(clone.value) else c2;
      var tail := Some(Facts(OptionalInput(like) + OptionalInput(clone), {name}, {}));
      assert Agrees(o1.after, Done(c3.AddOutput(name)), tail);
      Then(c, o1, if query.Some? then QueryFacts(query.value) else Nothing(), Done(c3.AddOutput(name)), tail);
    }
  }

  /** UPDATE after its target: the FROM source, then the WHERE expression. */
  lemma {:induction false} UpdateSourceAgrees(s: Statement, c1: State)
    requires s.Update?
    ensures var from := s.from; var selection := s.selection;
      var o1 := if from.Some? then VisitTableWithJoins(from.value, c1) else Done(c1);
      Agrees(c1, if o1.result.Err? || selection.None? then o1 else VisitExpr(selection.value, o1.after),
             Both(if from.Some? then TableWithJoinsFacts(from.value) else Nothing(),
                  if selection.Some? then ExprFacts(selection.value) else Nothing()))
    decreases s, 0
  {
    var from, selection := s.from, s.selection;
    var o1 := if from.Some? then VisitTableWithJoins(from.value, c1) else Done(c1);
    var f1 := if from.Some? then TableWithJoinsFacts(from.value) else Nothing();
    if from.Some? {
      TableWithJoinsAgrees(from.value, c1);
    }
    var f2 := if selection.Some? then ExprFacts(selection.value) else Nothing();
    var o2 := if selection.Some? then VisitExpr(selection.value, o1.after) else Done(o1.after);
    if o1.result.Ok? && selection.Some? {
      ExprAgrees(selection.value, o1.after);
    }
    Then(c1, o1, f1, o2, f2);
  }

  /** DELETE after its target: the USING source, then the WHERE expression. */
  lemma {:induction false} DeleteSourceAgrees(s: Statement, c1: State)
    requires s.Delete?
    ensures var using := s.using; var selection := s.selection;
      var o1 := if using.Some? then VisitTableFactor(using.value, c1) else Done(c1);
      Agrees(c1, if o1.result.Err? || selection.None? then o1 else VisitExpr(selection.value, o1.after),
             Both(if using.Some? then TableFactorFacts(using.value) else Nothing(),
                  if selection.Some? then ExprFacts(selection.value) else Nothing()))
    decreases s, 0
  {
    var using, selection := s.using, s.selection;
    var o1 := if using.Some? then VisitTableFactor(using.value, c1) else Done(c1);
    var f1 := if using.Some? then TableFactorFacts(using.value) else Nothing();
    if using.Some? {
      TableFactorAgrees(using.value, c1);
    }
    var f2 := if selection.Some? then ExprFacts(selection.value) else Nothing();
    var o2 := if selection.Some? then VisitExpr(selection.value, o1.after) else Done(o1.after);
    if o1.result.Ok? && selection.Some? {
      ExprAgrees(selection.value, o1.after);
    }
    Then(c1, o1, f1, o2, f2);
  }

  // ---------------------------------------------------------------- consequences

  /**
   * Whether a statement's walk fails, and the tables and aliases it adds, depend only on
   * the table-level sets the context starts with: not on the scope registers and not on
   * the column lineage recorded so far.
   */
  lemma TableLevelIgnoresScopes(s: Statement, c1: State, c2: State)
    requires c1.inputs == c2.inputs && c1.outputs == c2.outputs && c1.aliases == c2.aliases
    ensures VisitStatement(s, c1).result.Ok? <==> VisitStatement(s, c2).result.Ok?
    ensures VisitStatement(s, c1).result.Ok? ==>
      && VisitStatement(s, c1).after.inputs == VisitStatement(s, c2).after.inputs
      && VisitStatement(s, c1).after.outputs == VisitStatement(s, c2).after.outputs
      && VisitStatement(s, c1).after.aliases == VisitStatement(s, c2).after.aliases
  {
    StatementAgrees(s, c1);
    StatementAgrees(s, c2);
  }
}
