/**
 * Whole walks over small statements, from an empty context, showing what the visitor
 * records for them. Table and column names are parameters, so each lemma covers every
 * statement of the given shape.
 */
module Examples {
  import opened Common
  import opened SqlAst
  import opened Lineage
  import opened Visit
  import ColumnLineage

  /** Table `t` read against the configuration of `c`. */
  function Meta(t: ObjectName, c: State): Option<DbTableMeta> {
    Some(NewDbTableMeta(t, c.dialect, c.defaultSchema))
  }

  function SelectFrom(items: seq<SelectItem>, table: ObjectName): Select {
    Select(false, items, None, [TableWithJoins(Table(table, None), [])], None, [], None)
  }

  function AsQuery(s: Select): Query {
    Query(None, SelectBody(s), [], None)
  }

  lemma QueryOfSelect(s: Select, c: State)
    ensures VisitStatement(QueryStatement(AsQuery(s)), c) == VisitSelect(s, c)
    ensures VisitQuery(AsQuery(s), c) == VisitSelect(s, c)
  {
    assert VisitQuery(AsQuery(s), c) == VisitSetExpr(SelectBody(s), c);
  }

  lemma SubqueryOfSelect(s: Select, c: State)
    ensures VisitExpr(Subquery(AsQuery(s)), c) == VisitSelect(s, c)
  {
    QueryOfSelect(s, c);
  }

  lemma WithThenSelect(w: With, s: Select, c: State)
    requires VisitWith(w, c).result.Ok?
    ensures VisitStatement(QueryStatement(Query(Some(w), SelectBody(s), [], None)), c)
         == VisitSelect(s, VisitWith(w, c).after)
  {
    var q := Query(Some(w), SelectBody(s), [], None);
    assert VisitQuery(q, c) == VisitSetExpr(SelectBody(s), VisitWith(w, c).after);
  }

  lemma SingleTable(table: ObjectName)
    ensures ColumnLineage.PlainFrom([TableWithJoins(Table(table, None), [])])
    ensures ColumnLineage.FromTables([TableWithJoins(Table(table, None), [])]) == {table}
  {
    assert ColumnLineage.JoinTables([]) == {};
  }

  /** A flat SELECT over one plain table, from any context. */
  lemma SelectFromTable(items: seq<SelectItem>, t: ObjectName, c: State)
    requires ColumnLineage.FlatProjection(items)
    ensures VisitSelect(SelectFrom(items, t), c) == Done(c.(
      inputs := c.inputs + {t},
      aliases := c.aliases + ColumnLineage.ProjectionAliases(items),
      columnLineage := ColumnLineage.ProjectionLineage(c.columnLineage, items, Meta(t, c)),
      tableContext := None, columnContext := None))
  {
    var s := SelectFrom(items, t);
    SingleTable(t);
    assert SeedTableContext(s, c).tableContext == Meta(t, c);
    assert c.outputs + {} == c.outputs;
    ColumnLineage.SelectFlat(s, c);
  }

  /** Appending to a key the map does not hold yet makes a one-entry extension. */
  lemma AppendFresh(m: map<string, seq<ColumnMeta>>, k: string, l: seq<ColumnMeta>)
    requires l != [] && k !in m
    ensures ColumnLineage.AppendAncestors(m, k, l) == m[k := l]
  {
    assert ColumnLineage.AppendAncestors(m, k, l) == m[k := [] + l];
    assert [] + l == l;
  }

  /** Two single ancestors appended under one fresh key, in order. */
  lemma AppendTwo(k: string, a: ColumnMeta, b: ColumnMeta)
    ensures ColumnLineage.AppendAncestors(ColumnLineage.AppendAncestors(map[], k, [a]), k, [b]) == map[k := [a, b]]
  {
    AppendFresh(map[], k, [a]);
    assert [a] + [b] == [a, b];
  }

  /** An unaliased column item records the column under its own name. */
  lemma OneColumn(m: map<string, seq<ColumnMeta>>, x: Ident, origin: Option<DbTableMeta>)
    ensures ColumnLineage.FlatProjection([UnnamedExpr(Identifier(x))])
    ensures ColumnLineage.ProjectionAliases([UnnamedExpr(Identifier(x))]) == {}
    ensures ColumnLineage.ProjectionLineage(m, [UnnamedExpr(Identifier(x))], origin)
         == ColumnLineage.AppendAncestors(m, x, [ColumnMeta(x, origin)])
  {
    var items := [UnnamedExpr(Identifier(x))];
    assert ColumnLineage.ItemFlat(items[0]);
    assert ColumnLineage.Ancestors([x], origin) == [ColumnMeta(x, origin)];
    assert items[1..] == [];
  }

  /** INSERT INTO t SELECT * FROM s */
  lemma InsertSelectStar(t: ObjectName, s: ObjectName, d: Dialect, schema: Option<string>)
    ensures VisitStatement(Insert(t, [], AsQuery(SelectFrom([Wildcard], s))), Empty(d, schema))
         == Done(Empty(d, schema).(inputs := {s}, outputs := {t}))
  {
    var c := Empty(d, schema);
    var sel := SelectFrom([Wildcard], s);
    assert ColumnLineage.FlatProjection([Wildcard]) by {
      assert ColumnLineage.ItemFlat(Wildcard);
    }
    assert ColumnLineage.ProjectionLineage(map[], [Wildcard], Meta(s, c)) == map[];
    assert ColumnLineage.ProjectionAliases([Wildcard]) == {};
    SelectFromTable([Wildcard], s, c);
    QueryOfSelect(sel, c);
  }

  /** SELECT a AS x, b FROM s */
  lemma AliasAndPlainColumn(a: Ident, x: Ident, b: Ident, s: ObjectName, d: Dialect, schema: Option<string>)
    requires x != b
    ensures var c := Empty(d, schema);
      VisitStatement(QueryStatement(AsQuery(SelectFrom([ExprWithAlias(Identifier(a), x), UnnamedExpr(Identifier(b))], s))), c)
      == Done(c.(
           inputs := {s},
           aliases := {x},
           columnLineage := map[x := [ColumnMeta(a, Meta(s, c))], b := [ColumnMeta(b, Meta(s, c))]]))
  {
    var c := Empty(d, schema);
    var first := ExprWithAlias(Identifier(a), x);
    var items := [first, UnnamedExpr(Identifier(b))];
    assert items[1..] == [UnnamedExpr(Identifier(b))];
    var m1 := map[x := [ColumnMeta(a, Meta(s, c))]];
    assert ColumnLineage.Ancestors([a], Meta(s, c)) == [ColumnMeta(a, Meta(s, c))];
    assert ColumnLineage.ExprColumns(Identifier(a)) == Some([a]);
    AppendFresh(map[], x, [ColumnMeta(a, Meta(s, c))]);
    assert ColumnLineage.ItemLineage(map[], first, Meta(s, c)) == m1;
    OneColumn(m1, b, Meta(s, c));
    AppendFresh(m1, b, [ColumnMeta(b, Meta(s, c))]);
    assert ColumnLineage.ProjectionLineage(map[], items, Meta(s, c)) == m1[b := [ColumnMeta(b, Meta(s, c))]];
    assert ColumnLineage.ProjectionAliases(items) == {x};
    assert ColumnLineage.FlatProjection(items) by {
      assert ColumnLineage.ItemFlat(items[0]) && ColumnLineage.ItemFlat(items[1]);
    }
    SelectFromTable(items, s, c);
    QueryOfSelect(SelectFrom(items, s), c);
  }

  /** SELECT a + b AS total FROM s: both columns, left to right, under one descendant. */
  lemma SumOfTwoColumns(a: Ident, b: Ident, total: Ident, s: ObjectName, d: Dialect, schema: Option<string>)
    ensures var c := Empty(d, schema);
      VisitStatement(QueryStatement(AsQuery(SelectFrom([ExprWithAlias(BinaryOp(Identifier(a), "+", Identifier(b)), total)], s))), c).after.columnLineage
      == map[total := [ColumnMeta(a, Meta(s, c)), ColumnMeta(b, Meta(s, c))]]
  {
    var c := Empty(d, schema);
    var e := BinaryOp(Identifier(a), "+", Identifier(b));
    var items := [ExprWithAlias(e, total)];
    assert ColumnLineage.ExprColumns(Identifier(a)) == Some([a]);
    assert ColumnLineage.ExprColumns(Identifier(b)) == Some([b]);
    assert [a] + [b] == [a, b];
    assert ColumnLineage.ExprColumns(e) == Some([a, b]);
    assert ColumnLineage.FlatProjection(items) by {
      assert ColumnLineage.ItemFlat(items[0]);
    }
    var l := [ColumnMeta(a, Meta(s, c)), ColumnMeta(b, Meta(s, c))];
    assert ColumnLineage.Ancestors([a, b], Meta(s, c)) == l by {
      assert [a, b][1..] == [b];
      assert ColumnLineage.Ancestors([b], Meta(s, c)) == [ColumnMeta(b, Meta(s, c))];
    }
    AppendFresh(map[], total, l);
    assert items[1..] == [];
    assert ColumnLineage.ProjectionLineage(map[], items, Meta(s, c)) == map[total := l];
    SelectFromTable(items, s, c);
    QueryOfSelect(SelectFrom(items, s), c);
  }

  /** A WITH clause of one CTE `w AS (SELECT x FROM s)`, from any context. */
  lemma OneCte(w: Ident, x: Ident, s: ObjectName, c: State)
    ensures VisitWith(With(false, [Cte(TableAlias(w, []), AsQuery(SelectFrom([UnnamedExpr(Identifier(x))], s)))]), c)
         == Done(c.(
              inputs := c.inputs + {s},
              aliases := c.aliases + {w},
              columnLineage := ColumnLineage.AppendAncestors(c.columnLineage, x, [ColumnMeta(x, Meta(s, c))]),
              tableContext := None, columnContext := None))
  {
    var items := [UnnamedExpr(Identifier(x))];
    var inner := SelectFrom(items, s);
    var cte := Cte(TableAlias(w, []), AsQuery(inner));
    var c1 := c.AddAlias(w);
    OneColumn(c1.columnLineage, x, Meta(s, c));
    SelectFromTable(items, s, c1);
    QueryOfSelect(inner, c1);
    var c2 := VisitSelect(inner, c1).after;
    assert VisitCte(cte, c) == Done(c2);
    assert [cte][1..] == [];
    assert VisitCtes([], c2) == Done(c2);
    assert VisitCtes([cte], c) == Done(c2);
  }

  /** WITH w AS (SELECT x FROM s) SELECT x FROM w: the CTE name is an alias and also an input. */
  lemma CteIsAliasAndInput(w: Ident, x: Ident, s: ObjectName, d: Dialect, schema: Option<string>)
    ensures var c := Empty(d, schema);
      var o := VisitStatement(QueryStatement(Query(
              Some(With(false, [Cte(TableAlias(w, []), AsQuery(SelectFrom([UnnamedExpr(Identifier(x))], s)))])),
              SelectBody(SelectFrom([UnnamedExpr(Identifier(x))], w)), [], None)), c);
      && o.result.Ok?
      && o.after.aliases == {w}
      && o.after.inputs == {s, w}
      && o.after.columnLineage == map[x := [ColumnMeta(x, Meta(s, c)), ColumnMeta(x, Meta(w, c))]]
  {
    var c := Empty(d, schema);
    var items := [UnnamedExpr(Identifier(x))];
    var outer := SelectFrom(items, w);
    var wc := With(false, [Cte(TableAlias(w, []), AsQuery(SelectFrom(items, s)))]);
    OneCte(w, x, s, c);
    var c2 := VisitWith(wc, c).after;
    OneColumn(c2.columnLineage, x, Meta(w, c));
    SelectFromTable(items, w, c2);
    WithThenSelect(wc, outer, c);
    AppendTwo(x, ColumnMeta(x, Meta(s, c)), ColumnMeta(x, Meta(w, c)));
  }

  /** DELETE FROM t WHERE k = 1: the WHERE clause is walked with no descendant set. */
  lemma DeleteWithFilter()
    ensures VisitStatement(Delete(Table("t", None), None, Some(BinaryOp(Identifier("k"), "=", Value("1")))), Empty("generic", None))
         == Done(Empty("generic", None).(outputs := {"t"}))
  {
  }

  /** MERGE INTO (SELECT 1) AS m USING s ...: the target is not a plain table. */
  lemma MergeIntoSubquery()
    ensures VisitStatement(Merge(true,
              Derived(false, AsQuery(Select(false, [UnnamedExpr(Value("1"))], None, [], None, [], None)), Some(TableAlias("m", []))),
              Table("s", None), Value("true")), Empty("generic", None))
         == Outcome(Empty("generic", None), Err)
  {
  }

  /** The item `(SELECT y FROM t2) AS p`, from any context. */
  lemma SubqueryItem(y: Ident, p: Ident, t2: ObjectName, c: State)
    ensures VisitSelectItem(ExprWithAlias(Subquery(AsQuery(SelectFrom([UnnamedExpr(Identifier(y))], t2))), p), c)
         == Done(c.(
              inputs := c.inputs + {t2},
              aliases := c.aliases + {p},
              columnLineage := ColumnLineage.AppendAncestors(c.columnLineage, y, [ColumnMeta(y, Meta(t2, c))]),
              tableContext := None, columnContext := None))
  {
    var items := [UnnamedExpr(Identifier(y))];
    var inner := SelectFrom(items, t2);
    var e := Subquery(AsQuery(inner));
    var c1 := c.SetColumnContext(Some(ColumnMeta(p, None)));
    OneColumn(c1.columnLineage, y, Meta(t2, c));
    SelectFromTable(items, t2, c1);
    var c2 := c1.(
      inputs := c1.inputs + {t2},
      columnLineage := ColumnLineage.AppendAncestors(c1.columnLineage, y, [ColumnMeta(y, Meta(t2, c))]),
      tableContext := None, columnContext := None);
    assert VisitSelect(inner, c1) == Done(c2);
    SubqueryOfSelect(inner, c1);
    assert VisitSelectItem(ExprWithAlias(e, p), c) == Done(c2.AddAlias(p));
  }

  /**
   * SELECT (SELECT y FROM t2) AS p, a FROM t1: the inner SELECT overwrites the column
   * register (so `y` is recorded under `y`, and `p` gets nothing) and clears the table
   * register on return, so the outer `a` is recorded with no owning table.
   */
  lemma NestedSelectLosesOuterScope(y: Ident, p: Ident, a: Ident, t1: ObjectName, t2: ObjectName, d: Dialect, schema: Option<string>)
    requires y != a
    ensures var c := Empty(d, schema);
      VisitStatement(QueryStatement(AsQuery(SelectFrom(
        [ExprWithAlias(Subquery(AsQuery(SelectFrom([UnnamedExpr(Identifier(y))], t2))), p),
         UnnamedExpr(Identifier(a))], t1))), c).after.columnLineage
      == map[y := [ColumnMeta(y, Meta(t2, c))], a := [ColumnMeta(a, None)]]
  {
    var c := Empty(d, schema);
    var items := [ExprWithAlias(Subquery(AsQuery(SelectFrom([UnnamedExpr(Identifier(y))], t2))), p), UnnamedExpr(Identifier(a))];
    var outer := SelectFrom(items, t1);
    var c1 := c.SetTableContext(Meta(t1, c));
    assert SeedTableContext(outer, c) == c1;
    SubqueryItem(y, p, t2, c1);
    AppendFresh(map[], y, [ColumnMeta(y, Meta(t2, c))]);
    var c2 := VisitSelectItem(items[0], c1).after;
    assert c2.columnLineage == map[y := [ColumnMeta(y, Meta(t2, c))]];
    assert c2.tableContext == None;
    var c3 := c2.SetColumnContext(Some(ColumnMeta(a, None)));
    var c4 := c3.AddColumnAncestors(a, [ColumnMeta(a, None)]);
    assert VisitSelectItem(items[1], c2) == Done(c4);
    assert a !in c3.columnLineage;
    assert c3.AncestorsOf(a) + [ColumnMeta(a, None)] == [ColumnMeta(a, None)];
    assert items[1..][1..] == [];
    assert VisitProjection(items[1..], c2) == Done(c4);
    assert VisitProjection(items, c1) == Done(c4);
    assert c4.columnLineage == map[y := [ColumnMeta(y, Meta(t2, c))], a := [ColumnMeta(a, None)]];
    QueryOfSelect(outer, c);
    var c5 := c4.SetColumnContext(None);
    SingleTable(t1);
    ColumnLineage.FromPlain(outer.from, c5);
  }
}
