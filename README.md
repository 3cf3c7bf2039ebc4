# SQL column- and table-lineage visitor

A model of the lineage visitor of the OpenLineage SQL integration. The visitor walks an
already parsed SQL syntax tree and threads one mutable context through it. The context
collects input tables, output tables and alias names, and a column-lineage map from each
descendant column to an append-only list of ancestor columns. Two single-slot registers say
which table and which descendant column are in scope. A walk either succeeds or stops at the
first unsupported construct with an error.

The project has two layers.

- `Visit` (visit.dfy) is a functional semantics: one function per node kind. It maps a node
  and a context snapshot (`Lineage.State`) to an `Outcome`: the context afterwards and Ok or
  error. Its contracts state monotonicity (`Lineage.Grows`) and register discipline.
- `Engine` (engine.dfy) is the visitor as the source writes it. A `Context` class holds the
  collections as fields that methods update in place. Recursive methods loop over CTEs, CASE
  conditions, arguments, window clauses, the projection, FROM items and joins. Each method is
  proved to change the context exactly as the matching `Visit` function says.

Independent reference definitions are connected to `Visit` by lemmas over all inputs:

- `ColumnLineage` (column_lineage.dfy) lists the columns a subquery-free expression
  contributes, and proves that visiting records exactly those columns, in order.
- `TableLineage` (table_lineage.dfy) gives order-free table-level lineage for every node
  kind, and proves that the walk agrees with it on success, failure and the names added.
- `StatementProperties` (statements.dfy) states the per-rule facts: what each statement kind
  does, which parts of a node are ignored, and how the single-slot registers behave.
- `Examples` (examples.dfy) works through small statements end to end.

Supporting files: `Common` (common.dfy) has `Option` and `Result`. `SqlAst` (ast.dfy) is the
syntax tree. `Lineage` (lineage.dfy) holds the context value, `DbTableMeta` and `ColumnMeta`.

Where the code and its surrounding description differ, the model follows the code:

- `BETWEEN`, `IS NULL`, `IN (list)`, `CAST`, nested (parenthesised) expressions and literals
  fall into the catch-all arm and contribute no lineage.
- A SELECT's WHERE clause is never visited, and neither is a join constraint.
- A nested SELECT overwrites and then clears the outer registers. Lineage recorded after it
  in the same projection therefore has no owning table (`Examples.NestedSelectLosesOuterScope`).

## Model

| member | source | states |
|---|---|---|
| Visit.GetTableNameFromTableFactor | integration/sql/impl/src/visitor.rs:332-340 | succeeds exactly for a plain table, and then yields its name |
| Visit.VisitWith | integration/sql/impl/src/visitor.rs:16-24 | never removes an input, output or alias, only extends ancestor lists, keeps dialect and default schema; on success from empty registers, leaves them empty |
| Visit.VisitCtes | integration/sql/impl/src/visitor.rs:18-21 | never removes an input, output or alias, only extends ancestor lists, keeps dialect and default schema; on success from empty registers, leaves them empty |
| Visit.VisitCte | integration/sql/impl/src/visitor.rs:19-20 | never removes an input, output or alias, only extends ancestor lists, keeps dialect and default schema; on success from empty registers, leaves them empty |
| Visit.VisitTableFactor | integration/sql/impl/src/visitor.rs:26-49 | never removes an input, output or alias, only extends ancestor lists, keeps dialect and default schema; on success from empty registers, leaves them empty |
| Visit.VisitExpr | integration/sql/impl/src/visitor.rs:53-117 | never removes an input, output or alias, only extends ancestor lists, keeps dialect and default schema; on success from empty registers, leaves them empty |
| Visit.VisitExprs | integration/sql/impl/src/visitor.rs:79-81 | never removes an input, output or alias, only extends ancestor lists, keeps dialect and default schema; on success from empty registers, leaves them empty |
| Visit.VisitFunction | integration/sql/impl/src/visitor.rs:119-131 | never removes an input, output or alias, only extends ancestor lists, keeps dialect and default schema; on success from empty registers, leaves them empty |
| Visit.VisitFunctionArgs | integration/sql/impl/src/visitor.rs:121-123 | never removes an input, output or alias, only extends ancestor lists, keeps dialect and default schema; on success from empty registers, leaves them empty |
| Visit.VisitFunctionArg | integration/sql/impl/src/visitor.rs:133-140 | never removes an input, output or alias, only extends ancestor lists, keeps dialect and default schema; on success from empty registers, leaves them empty |
| Visit.VisitFunctionArgExpr | integration/sql/impl/src/visitor.rs:142-149 | never removes an input, output or alias, only extends ancestor lists, keeps dialect and default schema; on success from empty registers, leaves them empty |
| Visit.VisitWindowSpec | integration/sql/impl/src/visitor.rs:151-163 | never removes an input, output or alias, only extends ancestor lists, keeps dialect and default schema; on success from empty registers, leaves them empty |
| Visit.VisitOrderBy | integration/sql/impl/src/visitor.rs:157-159 | never removes an input, output or alias, only extends ancestor lists, keeps dialect and default schema; on success from empty registers, leaves them empty |
| Visit.VisitOrderByExpr | integration/sql/impl/src/visitor.rs:158 | never removes an input, output or alias, only extends ancestor lists, keeps dialect and default schema; on success from empty registers, leaves them empty |
| Visit.VisitSelectItem | integration/sql/impl/src/visitor.rs:180-198 | never removes an input, output or alias and only extends ancestor lists |
| Visit.VisitProjection | integration/sql/impl/src/visitor.rs:179-199 | never removes an input, output or alias and only extends ancestor lists |
| Visit.VisitTableWithJoins | integration/sql/impl/src/visitor.rs:208-211 | never removes an input, output or alias, only extends ancestor lists, keeps dialect and default schema; on success from empty registers, leaves them empty |
| Visit.VisitJoins | integration/sql/impl/src/visitor.rs:209-211 | never removes an input, output or alias, only extends ancestor lists, keeps dialect and default schema; on success from empty registers, leaves them empty |
| Visit.VisitJoin | integration/sql/impl/src/visitor.rs:210 | never removes an input, output or alias, only extends ancestor lists, keeps dialect and default schema; on success from empty registers, leaves them empty |
| Visit.VisitFrom | integration/sql/impl/src/visitor.rs:207-212 | never removes an input, output or alias, only extends ancestor lists, keeps dialect and default schema; on success from empty registers, leaves them empty |
| Visit.VisitSelect | integration/sql/impl/src/visitor.rs:165-217 | only grows the context; on success both the table and the column register are empty |
| Visit.VisitSetExpr | integration/sql/impl/src/visitor.rs:219-237 | never removes an input, output or alias, only extends ancestor lists, keeps dialect and default schema; on success from empty registers, leaves them empty |
| Visit.VisitQuery | integration/sql/impl/src/visitor.rs:239-249 | never removes an input, output or alias, only extends ancestor lists, keeps dialect and default schema; on success from empty registers, leaves them empty |
| Visit.VisitCreateTable | integration/sql/impl/src/visitor.rs:268-287 | never removes an input, output or alias, only extends ancestor lists, keeps dialect and default schema; on success from empty registers, leaves them empty |
| Visit.VisitStatement | integration/sql/impl/src/visitor.rs:251-328 | never removes an input, output or alias, only extends ancestor lists, keeps dialect and default schema; on success from empty registers, leaves them empty |
| Engine.VisitWith | integration/sql/impl/src/visitor.rs:16-24 | loops over the CTEs, adding each name as an alias before its query; changes the shared context exactly as the matching `Visit` function describes and returns the same Ok or error |
| Engine.VisitTableFactor | integration/sql/impl/src/visitor.rs:26-49 | changes the shared context exactly as the matching `Visit` function describes and returns the same Ok or error |
| Engine.VisitExpr | integration/sql/impl/src/visitor.rs:53-117 | loops over the CASE conditions; changes the shared context exactly as the matching `Visit` function describes and returns the same Ok or error |
| Engine.VisitFunction | integration/sql/impl/src/visitor.rs:119-131 | loops over the arguments, then visits the window; changes the shared context exactly as the matching `Visit` function describes and returns the same Ok or error |
| Engine.VisitFunctionArg | integration/sql/impl/src/visitor.rs:133-140 | changes the shared context exactly as the matching `Visit` function describes and returns the same Ok or error |
| Engine.VisitFunctionArgExpr | integration/sql/impl/src/visitor.rs:142-149 | changes the shared context exactly as the matching `Visit` function describes and returns the same Ok or error |
| Engine.VisitWindowSpec | integration/sql/impl/src/visitor.rs:151-163 | loops over PARTITION BY, then over ORDER BY; changes the shared context exactly as the matching `Visit` function describes and returns the same Ok or error |
| Engine.VisitSelect | integration/sql/impl/src/visitor.rs:165-217 | changes the shared context exactly as the matching `Visit` function describes and returns the same Ok or error |
| Engine.VisitProjection | integration/sql/impl/src/visitor.rs:179-199 | loops over the projection, stopping at the first error; changes the shared context exactly as the matching `Visit` function describes and returns the same Ok or error |
| Engine.VisitSelectItem | integration/sql/impl/src/visitor.rs:180-198 | changes the shared context exactly as the matching `Visit` function describes and returns the same Ok or error |
| Engine.VisitFrom | integration/sql/impl/src/visitor.rs:207-212 | loops over the FROM items, stopping at the first error; changes the shared context exactly as the matching `Visit` function describes and returns the same Ok or error |
| Engine.VisitTableWithJoins | integration/sql/impl/src/visitor.rs:208-211 | visits the relation, then loops over the joins' relations; changes the shared context exactly as the matching `Visit` function describes and returns the same Ok or error |
| Engine.VisitSetExpr | integration/sql/impl/src/visitor.rs:219-237 | changes the shared context exactly as the matching `Visit` function describes and returns the same Ok or error |
| Engine.VisitQuery | integration/sql/impl/src/visitor.rs:239-249 | changes the shared context exactly as the matching `Visit` function describes and returns the same Ok or error |
| Engine.VisitStatement | integration/sql/impl/src/visitor.rs:251-328 | changes the shared context exactly as the matching `Visit` function describes and returns the same Ok or error |
| Engine.Context.AddInput | integration/sql/impl/src/visitor.rs:30 | adds one name to the inputs; nothing else changes |
| Engine.Context.AddOutput | integration/sql/impl/src/visitor.rs:204 | adds one name to the outputs; nothing else changes |
| Engine.Context.AddAlias | integration/sql/impl/src/visitor.rs:19 | adds one name to the aliases; nothing else changes |
| Engine.Context.AddColumnAncestors | integration/sql/impl/src/visitor.rs:87-93 | appends the ancestors to the descendant's list, keeping what was there; nothing else changes |
| Engine.Context.SetTableContext | integration/sql/impl/src/visitor.rs:171-175 | overwrites the table register; nothing else changes |
| Engine.Context.SetColumnContext | integration/sql/impl/src/visitor.rs:184 | overwrites the column register; nothing else changes |
| Engine.Context.SetUnnamedColumnContext | integration/sql/impl/src/visitor.rs:188 | sets the column register to the fixed unnamed marker; nothing else changes |
| ColumnLineage.ExprLineage | integration/sql/impl/src/visitor.rs:53-117 | a subquery-free expression: visiting equals recording the reference column list under the current descendant, each column owned by the current table; never fails; BinaryOp is left then right, CASE contributes only its conditions |
| ColumnLineage.ExprsLineage | integration/sql/impl/src/visitor.rs:79-81 | a list of subquery-free expressions, left to right: visiting equals recording the reference column list under the current descendant, each column owned by the current table; never fails |
| ColumnLineage.FunctionLineage | integration/sql/impl/src/visitor.rs:119-131 | the arguments, then PARTITION BY, then ORDER BY: visiting equals recording the reference column list under the current descendant, each column owned by the current table; never fails |
| ColumnLineage.ArgsLineage | integration/sql/impl/src/visitor.rs:121-123 | visiting equals recording the reference column list under the current descendant, each column owned by the current table; never fails |
| ColumnLineage.ArgLineage | integration/sql/impl/src/visitor.rs:133-149 | named and unnamed arguments alike, wildcards contribute nothing: visiting equals recording the reference column list under the current descendant, each column owned by the current table; never fails |
| ColumnLineage.WindowLineage | integration/sql/impl/src/visitor.rs:151-163 | PARTITION BY then ORDER BY: visiting equals recording the reference column list under the current descendant, each column owned by the current table; never fails |
| ColumnLineage.OrderByLineage | integration/sql/impl/src/visitor.rs:157-159 | visiting equals recording the reference column list under the current descendant, each column owned by the current table; never fails |
| ColumnLineage.OrderByExprLineage | integration/sql/impl/src/visitor.rs:158 | visiting equals recording the reference column list under the current descendant, each column owned by the current table; never fails |
| ColumnLineage.AncestorsAppend | integration/sql/impl/src/visitor.rs:87-109 | the ancestors of two column lists in a row are those of the joined list |
| ColumnLineage.RecordAppend | integration/sql/impl/src/visitor.rs:87-109 | recording two column lists one after the other equals recording their concatenation |
| ColumnLineage.ProjectionFlat | integration/sql/impl/src/visitor.rs:179-199 | for subquery-free items: succeeds, adds each alias, records each item's columns under its alias or its own column name, keeps the table register |
| ColumnLineage.JoinsPlain | integration/sql/impl/src/visitor.rs:209-211 | plain-table joins add exactly their names to the inputs |
| ColumnLineage.FromPlain | integration/sql/impl/src/visitor.rs:207-212 | plain-table FROM items add exactly their names to the inputs |
| ColumnLineage.SelectFlat | integration/sql/impl/src/visitor.rs:165-217 | a SELECT with subquery-free items over plain tables: exactly the FROM tables become inputs, INTO an output, the aliases are added, lineage is recorded against the first FROM table, and both registers end empty |
| TableLineage.Then | integration/sql/impl/src/visitor.rs:66-69 | running two visits in a row, stopping at the first error, agrees with combining their references |
| TableLineage.WithAgrees | integration/sql/impl/src/visitor.rs:16-24 | each CTE name is an alias; succeeds exactly when the order-free reference succeeds, and then adds exactly its inputs, outputs and aliases |
| TableLineage.CtesAgree | integration/sql/impl/src/visitor.rs:18-21 | succeeds exactly when the order-free reference succeeds, and then adds exactly its inputs, outputs and aliases |
| TableLineage.CteAgrees | integration/sql/impl/src/visitor.rs:19-20 | succeeds exactly when the order-free reference succeeds, and then adds exactly its inputs, outputs and aliases |
| TableLineage.TableFactorAgrees | integration/sql/impl/src/visitor.rs:26-49 | a table is an input, a derived table adds its subquery's names and its alias, other factors fail; succeeds exactly when the order-free reference succeeds, and then adds exactly its inputs, outputs and aliases |
| TableLineage.ExprAgrees | integration/sql/impl/src/visitor.rs:53-117 | only subqueries, CASE conditions and function calls add tables; succeeds exactly when the order-free reference succeeds, and then adds exactly its inputs, outputs and aliases |
| TableLineage.ExprsAgree | integration/sql/impl/src/visitor.rs:79-81 | succeeds exactly when the order-free reference succeeds, and then adds exactly its inputs, outputs and aliases |
| TableLineage.FunctionAgrees | integration/sql/impl/src/visitor.rs:119-131 | succeeds exactly when the order-free reference succeeds, and then adds exactly its inputs, outputs and aliases |
| TableLineage.ArgsAgree | integration/sql/impl/src/visitor.rs:121-123 | succeeds exactly when the order-free reference succeeds, and then adds exactly its inputs, outputs and aliases |
| TableLineage.ArgAgrees | integration/sql/impl/src/visitor.rs:133-149 | succeeds exactly when the order-free reference succeeds, and then adds exactly its inputs, outputs and aliases |
| TableLineage.WindowAgrees | integration/sql/impl/src/visitor.rs:151-163 | succeeds exactly when the order-free reference succeeds, and then adds exactly its inputs, outputs and aliases |
| TableLineage.OrderByAgrees | integration/sql/impl/src/visitor.rs:157-159 | succeeds exactly when the order-free reference succeeds, and then adds exactly its inputs, outputs and aliases |
| TableLineage.OrderByExprAgrees | integration/sql/impl/src/visitor.rs:158 | succeeds exactly when the order-free reference succeeds, and then adds exactly its inputs, outputs and aliases |
| TableLineage.ItemAgrees | integration/sql/impl/src/visitor.rs:180-198 | an aliased item adds its alias; succeeds exactly when the order-free reference succeeds, and then adds exactly its inputs, outputs and aliases |
| TableLineage.ProjectionAgrees | integration/sql/impl/src/visitor.rs:179-199 | succeeds exactly when the order-free reference succeeds, and then adds exactly its inputs, outputs and aliases |
| TableLineage.TableWithJoinsAgrees | integration/sql/impl/src/visitor.rs:208-211 | succeeds exactly when the order-free reference succeeds, and then adds exactly its inputs, outputs and aliases |
| TableLineage.JoinsAgree | integration/sql/impl/src/visitor.rs:209-211 | succeeds exactly when the order-free reference succeeds, and then adds exactly its inputs, outputs and aliases |
| TableLineage.JoinAgrees | integration/sql/impl/src/visitor.rs:210 | succeeds exactly when the order-free reference succeeds, and then adds exactly its inputs, outputs and aliases |
| TableLineage.FromAgrees | integration/sql/impl/src/visitor.rs:207-212 | succeeds exactly when the order-free reference succeeds, and then adds exactly its inputs, outputs and aliases |
| TableLineage.SelectAgrees | integration/sql/impl/src/visitor.rs:165-217 | INTO is an output; succeeds exactly when the order-free reference succeeds, and then adds exactly its inputs, outputs and aliases, whatever the registers hold |
| TableLineage.SetExprAgrees | integration/sql/impl/src/visitor.rs:219-237 | succeeds exactly when the order-free reference succeeds, and then adds exactly its inputs, outputs and aliases |
| TableLineage.QueryAgrees | integration/sql/impl/src/visitor.rs:239-249 | succeeds exactly when the order-free reference succeeds, and then adds exactly its inputs, outputs and aliases |
| TableLineage.StatementAgrees | integration/sql/impl/src/visitor.rs:251-328 | INSERT and CREATE TABLE add their targets to outputs and LIKE/CLONE to inputs; MERGE/UPDATE/DELETE fail on a non-table target; succeeds exactly when the order-free reference succeeds, and then adds exactly its inputs, outputs and aliases |
| TableLineage.CreateTableAgrees | integration/sql/impl/src/visitor.rs:268-287 | the AS query's names, LIKE and CLONE as inputs, the new table as output; succeeds exactly when the order-free reference succeeds, and then adds exactly its inputs, outputs and aliases |
| TableLineage.UpdateSourceAgrees | integration/sql/impl/src/visitor.rs:297-306 | after UPDATE's target: the FROM source's names, then the WHERE expression's; succeeds exactly when the order-free reference succeeds, and then adds exactly its inputs, outputs and aliases |
| TableLineage.DeleteSourceAgrees | integration/sql/impl/src/visitor.rs:316-323 | after DELETE's target: the USING source's names, then the WHERE expression's; succeeds exactly when the order-free reference succeeds, and then adds exactly its inputs, outputs and aliases |
| TableLineage.TableLevelIgnoresScopes | integration/sql/impl/src/visitor.rs:251-328 | whether a statement fails and which tables and aliases it adds depend only on the table-level sets of the starting context |
| StatementProperties.PlainTableIsInput | integration/sql/impl/src/visitor.rs:29-32 | a plain table adds exactly its name to the inputs and changes nothing else |
| StatementProperties.OtherTableFactors | integration/sql/impl/src/visitor.rs:33-47 | a derived table visits its subquery, then on success adds its alias if any; table functions and nested joins fail leaving the context unchanged |
| StatementProperties.IdentifierRecordsOneAncestor | integration/sql/impl/src/visitor.rs:83-111 | with a descendant set, an identifier (or the last part of a compound one) is appended as exactly one ancestor owned by the current table; without one, nothing changes |
| StatementProperties.TargetMustBePlainTable | integration/sql/impl/src/visitor.rs:262-314 | MERGE, UPDATE and DELETE fail with the context unchanged when the target is not a plain table; on success the target is an output |
| StatementProperties.InsertAfterSource | integration/sql/impl/src/visitor.rs:255-261 | INSERT visits its source first; on error it stops there, else it adds the target to the outputs |
| StatementProperties.CreateTableWithoutQuery | integration/sql/impl/src/visitor.rs:268-287 | CREATE TABLE without a query never fails, adds LIKE and CLONE to inputs and the name to outputs |
| StatementProperties.CreateTableOutputs | integration/sql/impl/src/visitor.rs:268-287 | CREATE TABLE on success has its name among the outputs and LIKE/CLONE among the inputs |
| StatementProperties.NoOps | integration/sql/impl/src/visitor.rs:325 | a VALUES body (line 223) and any other statement kind return Ok with the context unchanged |
| StatementProperties.CaseVisitsOnlyConditions | integration/sql/impl/src/visitor.rs:73-82 | the CASE operand, results and ELSE make no difference to the walk |
| StatementProperties.InSubqueryIgnoresLeft | integration/sql/impl/src/visitor.rs:59-65 | the left side of `IN (subquery)` and its negation make no difference |
| StatementProperties.LateralIgnored | integration/sql/impl/src/visitor.rs:33-43 | LATERAL makes no difference to a derived table |
| StatementProperties.UpdateAssignmentsIgnored | integration/sql/impl/src/visitor.rs:288-307 | UPDATE's assignments make no difference |
| StatementProperties.WildcardItemsIgnored | integration/sql/impl/src/visitor.rs:197 | wildcard projection items leave the context unchanged and succeed |
| StatementProperties.WildcardArgumentsIgnored | integration/sql/impl/src/visitor.rs:146 | wildcard function arguments leave the context unchanged and succeed |
| StatementProperties.SelectIgnoresFilters | integration/sql/impl/src/visitor.rs:165-217 | a SELECT's WHERE, GROUP BY, HAVING and DISTINCT make no difference |
| StatementProperties.JoinConstraintIgnored | integration/sql/impl/src/visitor.rs:209-211 | a join's constraint makes no difference |
| StatementProperties.NestedSelectClearsScopes | integration/sql/impl/src/visitor.rs:201-214 | a successful scalar subquery over a SELECT leaves both registers empty, whatever the enclosing item had set |
| Examples.SelectFromTable | integration/sql/impl/src/visitor.rs:165-217 | a SELECT over one plain table adds that table as an input and records each item's columns against it |
| Examples.InsertSelectStar | integration/sql/impl/src/visitor.rs:255-261 | INSERT INTO t SELECT * FROM s: s is the one input, t the one output, no lineage |
| Examples.AliasAndPlainColumn | integration/sql/impl/src/visitor.rs:179-199 | SELECT a AS x, b FROM s: x is an alias, x gets ancestor a and b gets ancestor b, both owned by s |
| Examples.SumOfTwoColumns | integration/sql/impl/src/visitor.rs:66-69 | SELECT a + b AS total FROM s: total gets ancestors a then b |
| Examples.OneCte | integration/sql/impl/src/visitor.rs:16-24 | WITH w AS (SELECT x FROM s): w is an alias, s an input, x an ancestor of itself owned by s |
| Examples.CteIsAliasAndInput | integration/sql/impl/src/visitor.rs:16-24 | WITH w AS (SELECT x FROM s) SELECT x FROM w: w is both alias and input, x has ancestors from s then from w |
| Examples.SubqueryItem | integration/sql/impl/src/visitor.rs:192-196 | (SELECT y FROM t2) AS p: the inner SELECT records y under y, not p, and clears both registers |
| Examples.NestedSelectLosesOuterScope | integration/sql/impl/src/visitor.rs:165-217 | SELECT (SELECT y FROM t2) AS p, a FROM t1: after the subquery, a is recorded with no owning table |
| Examples.DeleteWithFilter | integration/sql/impl/src/visitor.rs:308-324 | DELETE FROM t WHERE k = 1: t is the one output, no lineage |
| Examples.MergeIntoSubquery | integration/sql/impl/src/visitor.rs:262-267 | MERGE into a derived table fails with the context unchanged |

## Left out

- SQL lexing and parsing: the model starts from an already-built syntax tree.
- The `Display` rendering of object names: names are opaque strings.
- `DbTableMeta::new` lives in a file that is not part of this model. It is a record of its
  three arguments, so only its determinism is used.
- Dialect-specific identifier normalisation and default-schema filling are not modelled.
- `crate::context` is not part of this model. The context is specified abstractly: sets for
  inputs, outputs and aliases, a map of ancestor lists, and two optional registers.
  `Engine.Context.constructor` starts from the empty context.
- Error messages: an error is a single `Err` value, so only Ok versus error is modelled.
- Alias resolution against inputs and outputs, and serialisation of the final lineage
  result: both happen outside the visitor.
- The Airflow extractor base class: plugin plumbing with no logic of its own.
- Query `ORDER BY`/`LIMIT`, SELECT `GROUP BY`/`HAVING`, MERGE clauses and most other syntax
  fields are not visited by the code. The syntax tree keeps only the fields the code reads,
  plus those it deliberately skips, so the model can show that they contribute nothing.
- `ColumnLineage.ExprLineage` and its siblings cover only subquery-free expressions. With a
  subquery the walk depends on the single-slot registers, which `Visit` and
  `StatementProperties.NestedSelectClearsScopes` cover instead.
- `ColumnLineage.SelectFlat` covers only SELECTs whose items are subquery-free and whose FROM
  items and joins are plain tables.
