/**
 * The lineage vocabulary (table and column references) and the abstract value of the
 * traversal context: what has been read, written and aliased, the column-ancestry map,
 * and the two single-slot scope registers.
 */
module Lineage {
  import opened Common

  /** The identifier-normalisation policy the caller configures; opaque here. */
  type Dialect = string

  /**
   * A table reference built by `DbTableMeta::new` from a raw name, the dialect and the
   * default schema. The normalisation itself lives outside this model, so the record
   * just keeps the three arguments: construction is total and deterministic.
   */
  datatype DbTableMeta = DbTableMeta(rawName: string, dialect: Dialect, defaultSchema: Option<string>)

  function NewDbTableMeta(name: string, dialect: Dialect, defaultSchema: Option<string>): DbTableMeta {
    DbTableMeta(name, dialect, defaultSchema)
  }

  /** A column name with the table it belongs to, when that is known. */
  datatype ColumnMeta = ColumnMeta(name: string, origin: Option<DbTableMeta>)

  /** The descendant name used while the projected expression has no name of its own. */
  const UnnamedColumn: string := "_unnamed_"

  /** The value of a traversal context at one point of the walk. */
  datatype State = State(
    inputs: set<string>,
    outputs: set<string>,
    aliases: set<string>,
    columnLineage: map<string, seq<ColumnMeta>>,
    tableContext: Option<DbTableMeta>,
    columnContext: Option<ColumnMeta>,
    dialect: Dialect,
    defaultSchema: Option<string>)
  {
    function AddInput(name: string): State {
      this.(inputs := inputs + {name})
    }

    function AddOutput(name: string): State {
      this.(outputs := outputs + {name})
    }

    function AddAlias(name: string): State {
      this.(aliases := aliases + {name})
    }

    /** The ancestors recorded so far for `descendant` (none when it is not a key yet). */
    function AncestorsOf(descendant: string): seq<ColumnMeta> {
      if descendant in columnLineage then columnLineage[descendant] else []
    }

    /** Appends `ancestors` to the list kept for `descendant`; nothing is replaced. */
    function AddColumnAncestors(descendant: string, ancestors: seq<ColumnMeta>): State {
      this.(columnLineage := columnLineage[descendant := AncestorsOf(descendant) + ancestors])
    }

    function SetTableContext(t: Option<DbTableMeta>): State {
      this.(tableContext := t)
    }

    function SetColumnContext(col: Option<ColumnMeta>): State {
      this.(columnContext := col)
    }

    function SetUnnamedColumnContext(): State {
      this.(columnContext := Some(ColumnMeta(UnnamedColumn, None)))
    }
  }

  /** A fresh context for one top-level statement. */
  function Empty(dialect: Dialect, defaultSchema: Option<string>): State {
    State({}, {}, {}, map[], None, None, dialect, defaultSchema)
  }

  /** What a visit leaves behind: the context, and whether it failed. */
  datatype Outcome = Outcome(after: State, result: Result<()>)

  function Done(s: State): Outcome {
    Outcome(s, Ok(()))
  }

  /**
   * `b` is `a` after some `add_*` calls and register updates: no set lost an element,
   * no ancestor list was shortened or reordered, and the configuration is untouched.
   */
  ghost predicate Grows(a: State, b: State) {
    && a.inputs <= b.inputs
    && a.outputs <= b.outputs
    && a.aliases <= b.aliases
    && (forall d :: d in a.columnLineage ==> d in b.columnLineage && a.columnLineage[d] <= b.columnLineage[d])
    && a.dialect == b.dialect
    && a.defaultSchema == b.defaultSchema
  }

  /** Both scope registers are empty, as in a fresh context. */
  predicate ScopesClear(s: State) {
    s.tableContext.None? && s.columnContext.None?
  }

  /** A successful visit that starts with the registers empty leaves them empty. */
  predicate KeepsScopes(c: State, o: Outcome) {
    && (o.result.Ok? && c.columnContext.None? ==> o.after.columnContext.None?)
    && (o.result.Ok? && ScopesClear(c) ==> ScopesClear(o.after))
  }

  lemma GrowsTransitive(a: State, b: State, c: State)
    requires Grows(a, b) && Grows(b, c)
    ensures Grows(a, c)
  {
    forall d | d in a.columnLineage
      ensures d in c.columnLineage && a.columnLineage[d] <= c.columnLineage[d]
    {
      assert b.columnLineage[d] <= c.columnLineage[d];
    }
  }
}
