/**
 * The already-parsed SQL syntax tree the lineage visitor walks: the subset of the
 * node kinds of the `sqlparser` AST that the visitor matches on. Names (`ObjectName`)
 * are opaque strings, standing for their rendered `to_string()` form. Fields the
 * visitor ignores are kept, so that the model shows they contribute nothing.
 */
module SqlAst {
  import opened Common

  type Ident = string

  /** A rendered (possibly dotted) object name, e.g. `db.schema.table`. */
  type ObjectName = string

  /** The parts of a compound identifier `a.b.c`; the parser never yields an empty one. */
  type IdentPath = ids: seq<Ident> | |ids| > 0 witness ["_"]

  datatype Expr =
    | Identifier(ident: Ident)
    | CompoundIdentifier(idents: IdentPath)
    | BinaryOp(left: Expr, op: string, right: Expr)
    | UnaryOp(uop: string, operand: Expr)
    | Subquery(query: Query)
    | InSubquery(inExpr: Expr, subquery: Query, negated: bool)
    | Case(caseOperand: Option<Expr>, conditions: seq<Expr>, results: seq<Expr>, elseResult: Option<Expr>)
    | FunctionCall(call: Function)
    | Nested(inner: Expr)
    | IsNull(nullTested: Expr)
    | Between(betweenExpr: Expr, betweenNegated: bool, low: Expr, high: Expr)
    | InList(listExpr: Expr, list: seq<Expr>, listNegated: bool)
    | Cast(castExpr: Expr, dataType: string)
    | Value(literal: string)

  datatype Function = Function(name: ObjectName, args: seq<FunctionArg>, over: Option<WindowSpec>, distinct: bool)

  datatype FunctionArg =
    | Named(argName: Ident, arg: FunctionArgExpr)
    | Unnamed(arg: FunctionArgExpr)

  datatype FunctionArgExpr =
    | ArgExpr(expr: Expr)
    | ArgQualifiedWildcard(prefix: ObjectName)
    | ArgWildcard

  datatype WindowSpec = WindowSpec(partitionBy: seq<Expr>, orderBy: seq<OrderByExpr>, windowFrame: Option<string>)

  datatype OrderByExpr = OrderByExpr(expr: Expr, asc: Option<bool>, nullsFirst: Option<bool>)

  datatype TableAlias = TableAlias(name: Ident, columns: seq<Ident>)

  datatype TableFactor =
    | Table(name: ObjectName, alias: Option<TableAlias>)
    | Derived(lateral: bool, subquery: Query, alias: Option<TableAlias>)
    | TableFunction(tableExpr: Expr, alias: Option<TableAlias>)
    | NestedJoin(nested: TableWithJoins)

  datatype Join = Join(relation: TableFactor, constraint: Option<Expr>)

  datatype TableWithJoins = TableWithJoins(relation: TableFactor, joins: seq<Join>)

  datatype SelectItem =
    | UnnamedExpr(expr: Expr)
    | ExprWithAlias(expr: Expr, alias: Ident)
    | QualifiedWildcard(prefix: ObjectName)
    | Wildcard

  datatype Select = Select(
    distinct: bool,
    projection: seq<SelectItem>,
    into: Option<ObjectName>,
    from: seq<TableWithJoins>,
    selection: Option<Expr>,
    groupBy: seq<Expr>,
    having: Option<Expr>)

  datatype SetExpr =
    | SelectBody(select: Select)
    | QueryBody(query: Query)
    | SetOperation(setOp: string, all: bool, left: SetExpr, right: SetExpr)
    | Values(rows: seq<seq<Expr>>)
    | InsertBody(statement: Statement)

  datatype Cte = Cte(alias: TableAlias, query: Query)

  datatype With = With(recursive: bool, cteTables: seq<Cte>)

  datatype Query = Query(with: Option<With>, body: SetExpr, orderBy: seq<OrderByExpr>, limit: Option<Expr>)

  datatype Assignment = Assignment(target: seq<Ident>, value: Expr)

  datatype Statement =
    | QueryStatement(query: Query)
    | Insert(tableName: ObjectName, columns: seq<Ident>, source: Query)
    | Merge(into: bool, table: TableFactor, mergeSource: TableFactor, on: Expr)
    | CreateTable(name: ObjectName, createQuery: Option<Query>, like: Option<ObjectName>, clone: Option<ObjectName>)
    | Update(target: TableWithJoins, assignments: seq<Assignment>, from: Option<TableWithJoins>, selection: Option<Expr>)
    | Delete(deleteTable: TableFactor, using: Option<TableFactor>, selection: Option<Expr>)
    | OtherStatement(kind: string)

  /** The column a compound identifier names: its last segment. */
  function Last(ids: IdentPath): Ident {
    ids[|ids| - 1]
  }
}
