/**
 * The two batched operations of src/turbo_orm/execution.py: `execute_bulk_insert`
 * (one multi-row INSERT ... RETURNING per batch, the returned keys zipped back onto
 * the batch) and `execute_bulk_update` (one UPDATE per object, batch after batch).
 * The cursor is a parameter indexed by the number of the statement it answers.
 */
module BulkExecution {
  import opened Base
  import opened SqlText
  import opened Django
  import opened Execution

  // ------------------------------------------------------------------ batch size

  /** `batch_size`, defaulting to `len(objs)` when it is None. */
  function BatchSize(batchSize: Option<int>, n: nat): int
  {
    if batchSize.None? then n else batchSize.value
  }

  /** `range(0, n, step)` with step < 0 is empty: the source's loop then does nothing. */
  predicate NoBatches(step: int)
  {
    step < 0
  }

  // ------------------------------------------------------------------ states of a list of instances

  /** The states of the instances, in list order. */
  ghost function States(objs: seq<Instance>): (r: seq<InstanceState>)
    reads objs
    ensures |r| == |objs|
  {
    if |objs| == 0 then []
    else States(objs[..|objs| - 1]) + [objs[|objs| - 1].State()]
  }

  /** The j-th state is the state of the j-th instance. */
  lemma {:induction false} StatesAt(objs: seq<Instance>, j: nat)
    requires j < |objs|
    ensures States(objs)[j] == objs[j].State()
  {
    if j < |objs| - 1 {
      StatesAt(objs[..|objs| - 1], j);
    }
  }

  lemma StatesAll(objs: seq<Instance>)
    ensures forall j :: 0 <= j < |objs| ==> States(objs)[j] == objs[j].State()
  {
    forall j | 0 <= j < |objs| {
      StatesAt(objs, j);
    }
  }

  /** The attribute maps of the states. */
  function ValuesOf(states: seq<InstanceState>): (r: seq<map<string, Value>>)
    ensures |r| == |states|
    ensures forall j :: 0 <= j < |states| ==> r[j] == states[j].values
  {
    seq(|states|, j requires 0 <= j < |states| => states[j].values)
  }

  // ------------------------------------------------------------------ the multi-row INSERT

  /** `f"({', '.join(['%s'] * n)})"`: the placeholders of one object. */
  function RowPlaceholders(n: nat): string
  {
    Parens(Join(Repeat("%s", n), ", "))
  }

  lemma RowPlaceholdersPercents(n: nat)
    ensures Percents(RowPlaceholders(n)) == n
  {
    ParensPercents(Join(Repeat("%s", n), ", "));
    PlaceholderList(n);
  }

  /** The parameters of a batch: every insertable field of the first object, then of the next, and so on. */
  function BatchParams(fs: seq<Field>, rows: seq<map<string, Value>>): seq<Param>
  {
    if |rows| == 0 then []
    else BatchParams(fs, rows[..|rows| - 1]) + PreparedParams(fs, rows[|rows| - 1])
  }

  lemma MulPred(b: nat, step: nat)
    requires b > 0
    ensures (b - 1) * step + step == b * step
  {
  }

  lemma MulMono(a: nat, b: nat, c: nat)
    requires a <= b
    ensures a * c <= b * c
  {
  }

  /**
   * A batch carries one parameter per object and field, object-major: the parameter
   * at r * #fields + c is field c of object r, whatever its value (no field is skipped
   * for being None, unlike the single insert).
   */
  lemma {:induction false} BatchParamsAt(fs: seq<Field>, rows: seq<map<string, Value>>)
    ensures |BatchParams(fs, rows)| == |rows| * |fs|
    ensures forall r, c :: 0 <= r < |rows| && 0 <= c < |fs| ==>
              r * |fs| + c < |rows| * |fs| &&
              BatchParams(fs, rows)[r * |fs| + c] == Prepared(fs[c], AttrValue(rows[r], fs[c].attname))
  {
    BatchParamsLength(fs, rows);
    forall r: nat, c: nat | r < |rows| && c < |fs| {
      BatchParamsCell(fs, rows, r, c);
    }
  }

  /** A batch has one parameter per object and field. */
  lemma {:induction false} BatchParamsLength(fs: seq<Field>, rows: seq<map<string, Value>>)
    ensures |BatchParams(fs, rows)| == |rows| * |fs|
  {
    if |rows| > 0 {
      BatchParamsLength(fs, rows[..|rows| - 1]);
      MulPred(|rows|, |fs|);
    }
  }

  /** Field c of object r sits at r * #fields + c. */
  lemma {:induction false} BatchParamsCell(fs: seq<Field>, rows: seq<map<string, Value>>, r: nat, c: nat)
    requires r < |rows| && c < |fs|
    ensures r * |fs| + c < |rows| * |fs| == |BatchParams(fs, rows)|
    ensures BatchParams(fs, rows)[r * |fs| + c] == Prepared(fs[c], AttrValue(rows[r], fs[c].attname))
  {
    var init := rows[..|rows| - 1];
    BatchParamsLength(fs, rows);
    BatchParamsLength(fs, init);
    MulPred(|rows|, |fs|);
    if r < |init| {
      BatchParamsCell(fs, init, r, c);
      assert rows[r] == init[r];
    } else {
      assert r * |fs| == |init| * |fs|;
    }
  }

  /** `f"INSERT INTO {table} ({cols}) VALUES {values_sql}"`, the conflict clause, then `f" RETURNING {pk_column}"`. */
  function BatchSql(table: string, cols: string, rowsSql: string, clause: string, pkColumn: string): string
  {
    IntoSql(table, cols) + (ValuesSql(rowsSql) + (clause + ReturningSql(pkColumn)))
  }

  lemma BatchSqlPercents(table: string, cols: string, rowsSql: string, clause: string, pkColumn: string)
    ensures Percents(BatchSql(table, cols, rowsSql, clause, pkColumn))
         == Percents(table) + Percents(cols) + Percents(rowsSql) + Percents(clause) + Percents(pkColumn)
  {
    IntoSqlPercents(table, cols);
    ValuesSqlPercents(rowsSql);
    ReturningSqlPercents(pkColumn);
    PercentsConcat(clause, ReturningSql(pkColumn));
    PercentsConcat(ValuesSql(rowsSql), clause + ReturningSql(pkColumn));
    PercentsConcat(IntoSql(table, cols), ValuesSql(rowsSql) + (clause + ReturningSql(pkColumn)));
  }

  /** The statement one batch sends, for the attribute maps of its objects. */
  function BatchStatement(m: ModelMeta, rows: seq<map<string, Value>>, clause: string): Statement
  {
    var fs := InsertableFields(m);
    Statement(BatchSql(QuoteName(m.dbTable), Join(QuotedColumns(fs), ", "),
                       Join(Repeat(RowPlaceholders(|fs|), |rows|), ", "), clause, QuoteName(m.pk.column)),
              BatchParams(fs, rows))
  }

  /** With percent-free names and clause, a batch statement has exactly one placeholder per parameter. */
  lemma BatchStatementPlaceholders(m: ModelMeta, rows: seq<map<string, Value>>, clause: string)
    requires PercentFree(m) && Percents(clause) == 0
    ensures Percents(BatchStatement(m, rows, clause).sql) == |BatchStatement(m, rows, clause).params|
  {
    var fs := InsertableFields(m);
    var sep := ", ";
    NoPercents(sep);
    InsertableOfShape(m.concreteFields);
    ColumnListPercents(fs);
    RowPlaceholdersPercents(|fs|);
    SumPercentsUniform(Repeat(RowPlaceholders(|fs|), |rows|), |fs|);
    PercentsJoin(Repeat(RowPlaceholders(|fs|), |rows|), sep);
    BatchSqlPercents(QuoteName(m.dbTable), Join(QuotedColumns(fs), sep),
                     Join(Repeat(RowPlaceholders(|fs|), |rows|), sep), clause, QuoteName(m.pk.column));
    BatchParamsAt(fs, rows);
  }

  /** The prepared parameters of one object, built field by field. */
  method BuildRowParams(fs: seq<Field>, obj: Instance) returns (params: seq<Param>)
    ensures params == PreparedParams(fs, obj.values)
  {
    params := [];
    for c := 0 to |fs|
      invariant params == PreparedParams(fs[..c], obj.values)
    {
      FieldListsSnoc(fs[..c], fs[c], obj.values);
      assert fs[..c + 1] == fs[..c] + [fs[c]];
      params := params + [Prepared(fs[c], obj.FieldValue(fs[c]))];
    }
    assert fs[..|fs|] == fs;
  }

  /** The statement-building part of one iteration of `execute_bulk_insert`'s batch loop. */
  method BuildBatchStatement(m: ModelMeta, batch: seq<Instance>, clause: string) returns (stmt: Statement)
    ensures stmt == BatchStatement(m, ValuesOf(States(batch)), clause)
  {
    var fs := InsertableFields(m);
    var columns := QuotedColumns(fs);
    ghost var rows := ValuesOf(States(batch));
    var allParams: seq<Param> := [];
    var valueRows: seq<string> := [];
    for r := 0 to |batch|
      invariant allParams == BatchParams(fs, rows[..r])
      invariant valueRows == Repeat(RowPlaceholders(|fs|), r)
    {
      var rowParams := BuildRowParams(fs, batch[r]);
      StatesAt(batch, r);
      assert rows[..r + 1][..r] == rows[..r];
      allParams := allParams + rowParams;
      RepeatSnoc(RowPlaceholders(|fs|), r);
      valueRows := valueRows + [RowPlaceholders(|fs|)];
    }
    assert rows[..|batch|] == rows;
    var table, pkColumn := QuoteName(m.dbTable), QuoteName(m.pk.column);
    stmt := Statement(BatchSql(table, Join(columns, ", "), Join(valueRows, ", "), clause, pkColumn), allParams);
  }

  // ------------------------------------------------------------------ the conflict clause

  /** `f"{col} = EXCLUDED.{col}"`. */
  function ExcludedAssignment(column: string): string
  {
    column + (" = EXCLUDED." + column)
  }

  function ExcludedAssignments(fs: seq<Field>): (r: seq<string>)
    ensures |r| == |fs|
    ensures forall i :: 0 <= i < |fs| ==> r[i] == ExcludedAssignment(QuoteName(fs[i].column))
  {
    seq(|fs|, i requires 0 <= i < |fs| => ExcludedAssignment(QuoteName(fs[i].column)))
  }

  /** `f" ON CONFLICT ({unique}) DO UPDATE SET {updates}"`. */
  function DoUpdateSql(uniqueCols: string, updates: string): string
  {
    OnConflictSql(Parens(uniqueCols)) + UpdateSetSql(updates)
  }

  function OnConflictSql(target: string): string
  {
    " ON CONFLICT " + target
  }

  function UpdateSetSql(updates: string): string
  {
    " DO UPDATE SET " + updates
  }

  function DoNothingSql(): string
  {
    " ON CONFLICT DO NOTHING"
  }

  /** Whether an optional name list is given and non-empty (Python truthiness). */
  predicate Given(names: Option<seq<string>>)
  {
    names.Some? && |names.value| > 0
  }

  /**
   * The conflict clause of a batch: DO NOTHING when conflicts are ignored; DO UPDATE
   * when conflicts update and both name lists are given, failing on the first unknown
   * unique name, then on the first unknown update name; nothing otherwise.
   */
  function ConflictClause(m: ModelMeta, ignoreConflicts: bool, updateConflicts: bool,
                          updateFields: Option<seq<string>>, uniqueFields: Option<seq<string>>): Result<string>
  {
    if ignoreConflicts then Ok(DoNothingSql())
    else if updateConflicts && Given(updateFields) && Given(uniqueFields) then
      match GetFields(m, uniqueFields.value)
      case Err(e) => Err(e)
      case Ok(us) =>
        match GetFields(m, updateFields.value)
        case Err(e) => Err(e)
        case Ok(ups) => Ok(DoUpdateSql(Join(QuotedColumns(us), ", "), Join(ExcludedAssignments(ups), ", ")))
    else Ok("")
  }

  /**
   * The conflict clause fails only on an upsert with an unknown field name, and then
   * with `FieldDoesNotExist` for a name that is no field of the model.
   */
  lemma ConflictClauseErrors(m: ModelMeta, ignoreConflicts: bool, updateConflicts: bool,
                             updateFields: Option<seq<string>>, uniqueFields: Option<seq<string>>)
    ensures var r := ConflictClause(m, ignoreConflicts, updateConflicts, updateFields, uniqueFields);
            r.Err? ==> !ignoreConflicts && updateConflicts && Given(updateFields) && Given(uniqueFields)
                       && (exists name :: r.error == FieldDoesNotExist(name)
                             && (name in uniqueFields.value || name in updateFields.value)
                             && forall f :: f in m.concreteFields ==> f.name != name && f.attname != name)
  {
    var r := ConflictClause(m, ignoreConflicts, updateConflicts, updateFields, uniqueFields);
    if !ignoreConflicts && updateConflicts && Given(updateFields) && Given(uniqueFields) {
      var gu := GetFields(m, uniqueFields.value);
      if gu.Err? {
        var i :| 0 <= i < |uniqueFields.value| && GetField(m, uniqueFields.value[i]) == Err(gu.error);
        assert r.error == FieldDoesNotExist(uniqueFields.value[i]);
      } else {
        var gp := GetFields(m, updateFields.value);
        if gp.Err? {
          var i :| 0 <= i < |updateFields.value| && GetField(m, updateFields.value[i]) == Err(gp.error);
          assert r.error == FieldDoesNotExist(updateFields.value[i]);
        }
      }
    }
  }

  /** With percent-free names, a DO UPDATE clause over fields of the model carries no placeholder. */
  lemma DoUpdatePercents(m: ModelMeta, us: seq<Field>, ups: seq<Field>)
    requires PercentFree(m)
    requires forall f :: f in us ==> f in m.concreteFields
    requires forall f :: f in ups ==> f in m.concreteFields
    ensures Percents(DoUpdateSql(Join(QuotedColumns(us), ", "), Join(ExcludedAssignments(ups), ", "))) == 0
  {
    var sep := ", ";
    NoPercents(sep);
    ColumnListPercents(us);
    var assigns := ExcludedAssignments(ups);
    forall i | 0 <= i < |assigns| ensures Percents(assigns[i]) == 0 {
      assert ups[i] in ups;
      ExcludedAssignmentPercents(QuoteName(ups[i].column));
    }
    SumPercentsUniform(assigns, 0);
    PercentsJoin(assigns, sep);
    DoUpdateSqlPercents(Join(QuotedColumns(us), sep), Join(assigns, sep));
  }

  /** With percent-free names every clause the conflict handling produces carries no placeholder. */
  lemma ConflictClausePercents(m: ModelMeta, ignoreConflicts: bool, updateConflicts: bool,
                               updateFields: Option<seq<string>>, uniqueFields: Option<seq<string>>)
    requires PercentFree(m)
    ensures var r := ConflictClause(m, ignoreConflicts, updateConflicts, updateFields, uniqueFields);
            r.Ok? ==> Percents(r.value) == 0
  {
    if ignoreConflicts {
      NoPercents(DoNothingSql());
    } else if updateConflicts && Given(updateFields) && Given(uniqueFields) {
      var gu := GetFields(m, uniqueFields.value);
      var gp := GetFields(m, updateFields.value);
      if gu.Ok? && gp.Ok? {
        forall f | f in gu.value ensures f in m.concreteFields {
          var i :| 0 <= i < |gu.value| && gu.value[i] == f;
          assert GetField(m, uniqueFields.value[i]) == Ok(f);
        }
        forall f | f in gp.value ensures f in m.concreteFields {
          var i :| 0 <= i < |gp.value| && gp.value[i] == f;
          assert GetField(m, updateFields.value[i]) == Ok(f);
        }
        DoUpdatePercents(m, gu.value, gp.value);
      }
    }
  }

  lemma ExcludedAssignmentPercents(column: string)
    ensures Percents(ExcludedAssignment(column)) == 2 * Percents(column)
  {
    LitPrefix(" = EXCLUDED.", column);
    PercentsConcat(column, " = EXCLUDED." + column);
  }

  lemma DoUpdateSqlPercents(uniqueCols: string, updates: string)
    ensures Percents(DoUpdateSql(uniqueCols, updates)) == Percents(uniqueCols) + Percents(updates)
  {
    ParensPercents(uniqueCols);
    LitPrefix(" ON CONFLICT ", Parens(uniqueCols));
    LitPrefix(" DO UPDATE SET ", updates);
    PercentsConcat(OnConflictSql(Parens(uniqueCols)), UpdateSetSql(updates));
  }

  /** The conflict handling of one batch iteration: the unique columns first, then the update loop. */
  method BuildConflictClause(m: ModelMeta, ignoreConflicts: bool, updateConflicts: bool,
                             updateFields: Option<seq<string>>, uniqueFields: Option<seq<string>>)
    returns (r: Result<string>)
    ensures r == ConflictClause(m, ignoreConflicts, updateConflicts, updateFields, uniqueFields)
  {
    if ignoreConflicts {
      return Ok(DoNothingSql());
    }
    if !(updateConflicts && Given(updateFields) && Given(uniqueFields)) {
      return Ok("");
    }
    var unique := GetFields(m, uniqueFields.value);
    if unique.Err? {
      return Err(unique.error);
    }
    var uniqueCols := QuotedColumns(unique.value);
    var names := updateFields.value;
    var updateCols: seq<string> := [];
    ghost var ups: seq<Field> := [];
    for i := 0 to |names|
      invariant |ups| == i
      invariant forall j :: 0 <= j < i ==> GetField(m, names[j]) == Ok(ups[j])
      invariant updateCols == ExcludedAssignments(ups)
    {
      var f := GetField(m, names[i]);
      if f.Err? {
        GetFieldsFirstError(m, names, i);
        return Err(f.error);
      }
      var col := QuoteName(f.value.column);
      updateCols := updateCols + [ExcludedAssignment(col)];
      ups := ups + [f.value];
    }
    GetFieldsAllKnown(m, names, ups);
    return Ok(DoUpdateSql(Join(uniqueCols, ", "), Join(updateCols, ", ")));
  }

  // ------------------------------------------------------------------ batches and their outcome

  /** After a batch: the i-th object takes the i-th returned key (zip stops at the shorter list). */
  function AfterBatch(states: seq<InstanceState>, returned: seq<Value>, pkAttname: string, using: string): (r: seq<InstanceState>)
    ensures |r| == |states|
    ensures forall p :: 0 <= p < |states| ==>
              r[p] == if p < |returned| then AfterInsert(states[p], pkAttname, Some(returned[p]), using) else states[p]
  {
    seq(|states|, p requires 0 <= p < |states| =>
      if p < |returned| then AfterInsert(states[p], pkAttname, Some(returned[p]), using) else states[p])
  }

  /** `objs[i : i + step]` for i in `range(0, len(objs), step)`: consecutive slices of `step` items, the last one possibly shorter. */
  function Batches<T>(s: seq<T>, step: nat): seq<seq<T>>
    requires step > 0
    decreases |s|
  {
    if |s| == 0 then [] else [s[..Min(step, |s|)]] + Batches(s[Min(step, |s|)..], step)
  }

  /** The parts one after the other. */
  function Concat<T>(parts: seq<seq<T>>): seq<T>
  {
    if |parts| == 0 then [] else Concat(parts[..|parts| - 1]) + parts[|parts| - 1]
  }

  lemma {:induction false} ConcatCons<T>(head: seq<T>, parts: seq<seq<T>>)
    ensures Concat([head] + parts) == head + Concat(parts)
  {
    if |parts| > 0 {
      var init := parts[..|parts| - 1];
      ConcatCons(head, init);
      assert ([head] + parts)[..|parts|] == [head] + init;
    }
  }

  /**
   * The batches partition the list: together they are the list, in order; each holds
   * between 1 and `step` items, and all but the last exactly `step`.
   */
  lemma {:induction false} BatchesPartition<T>(s: seq<T>, step: nat)
    requires step > 0
    ensures Concat(Batches(s, step)) == s
    ensures forall b :: 0 <= b < |Batches(s, step)| ==>
              0 < |Batches(s, step)[b]| <= step && (b < |Batches(s, step)| - 1 ==> |Batches(s, step)[b]| == step)
  {
    if |s| > 0 {
      var n := Min(step, |s|);
      BatchesPartition(s[n..], step);
      ConcatCons(s[..n], Batches(s[n..], step));
      assert s[..n] + s[n..] == s;
      forall b | 0 < b < |Batches(s, step)|
        ensures Batches(s, step)[b] == Batches(s[n..], step)[b - 1]
      {
      }
      if |Batches(s, step)| > 1 {
        assert |s[n..]| > 0;
      }
    }
  }

  /** There is one batch per started `step` items. */
  lemma {:induction false} BatchesCount<T>(s: seq<T>, step: nat)
    requires step > 0
    ensures (|Batches(s, step)| - 1) * step < |s| <= |Batches(s, step)| * step
  {
    if |s| > 0 {
      var n := Min(step, |s|);
      var rest := Batches(s[n..], step);
      BatchesCount(s[n..], step);
      MulPred(|Batches(s, step)|, step);
      if |rest| > 0 {
        MulPred(|rest|, step);
      }
    }
  }

  /** Past the first batch, batch b of a list is batch b - 1 of the list without its first `step` items. */
  lemma BatchesTail<T>(s: seq<T>, step: nat, b: nat)
    requires step > 0 && 0 < b < |Batches(s, step)|
    ensures step < |s|
    ensures b - 1 < |Batches(s[step..], step)| && Batches(s, step)[b] == Batches(s[step..], step)[b - 1]
  {
    if |s| <= step {
      assert Batches(s[|s|..], step) == [];
      assert false;
    }
  }

  /** A slice of a suffix is a slice of the list. */
  lemma SliceOfSuffix<T>(s: seq<T>, n: nat, lo: nat, hi: nat)
    requires n <= |s| && lo <= hi <= |s| - n
    ensures s[n..][lo..hi] == s[n + lo..n + hi]
  {
  }

  /** Batch b holds the items from b * step up to (b + 1) * step, or to the end of the list. */
  lemma {:induction false} BatchesAt<T>(s: seq<T>, step: nat, b: nat)
    requires step > 0 && b < |Batches(s, step)|
    ensures b * step < |s|
    ensures Batches(s, step)[b] == s[b * step..Min(b * step + step, |s|)]
  {
    if b > 0 {
      BatchesTail(s, step, b);
      var rest := s[step..];
      BatchesAt(rest, step, b - 1);
      var lo := (b - 1) * step;
      MulPred(b, step);
      var hi := Min(lo + step, |rest|);
      SliceOfSuffix(s, step, lo, hi);
      assert step + lo == b * step;
      assert step + hi == Min(b * step + step, |s|);
    } else {
      assert 0 * step == 0;
    }
  }

  /** The batches of the items from i on: the first `step` of them, then the batches of the rest. */
  lemma BatchesStep<T>(s: seq<T>, i: nat, step: nat)
    requires step > 0 && i < |s|
    ensures Batches(s[i..], step) == [s[i..Min(i + step, |s|)]] + Batches(s[Min(i + step, |s|)..], step)
  {
    assert s[i..][..Min(step, |s| - i)] == s[i..Min(i + step, |s|)];
    assert s[i..][Min(step, |s| - i)..] == s[Min(i + step, |s|)..];
  }

  /** The statements the batches send, one per batch, in order. */
  function BatchStatements(m: ModelMeta, batches: seq<seq<InstanceState>>, clause: string): seq<Statement>
  {
    if |batches| == 0 then []
    else BatchStatements(m, batches[..|batches| - 1], clause) + [BatchStatement(m, ValuesOf(batches[|batches| - 1]), clause)]
  }

  /** Statement b is the statement of batch b. */
  lemma {:induction false} BatchStatementsAt(m: ModelMeta, batches: seq<seq<InstanceState>>, clause: string, b: nat)
    requires b < |batches|
    ensures |BatchStatements(m, batches, clause)| == |batches|
    ensures BatchStatements(m, batches, clause)[b] == BatchStatement(m, ValuesOf(batches[b]), clause)
  {
    var init := batches[..|batches| - 1];
    if b < |init| {
      BatchStatementsAt(m, init, clause, b);
      assert batches[b] == init[b];
    } else {
      BatchStatementsLength(m, init, clause);
    }
  }

  lemma {:induction false} BatchStatementsLength(m: ModelMeta, batches: seq<seq<InstanceState>>, clause: string)
    ensures |BatchStatements(m, batches, clause)| == |batches|
  {
    if |batches| > 0 {
      BatchStatementsLength(m, batches[..|batches| - 1], clause);
    }
  }

  /** One more batch sends one more statement, after the others. */
  lemma BatchStatementsSnoc(m: ModelMeta, batches: seq<seq<InstanceState>>, batch: seq<InstanceState>, clause: string)
    ensures BatchStatements(m, batches + [batch], clause) == BatchStatements(m, batches, clause) + [BatchStatement(m, ValuesOf(batch), clause)]
  {
    assert (batches + [batch])[..|batches|] == batches;
  }

  /** The states the objects of the batches end in, batch b having been answered by `returning(b)`. */
  function Finals(pkAttname: string, batches: seq<seq<InstanceState>>, returning: nat -> seq<Value>, using: string): seq<InstanceState>
  {
    if |batches| == 0 then []
    else Finals(pkAttname, batches[..|batches| - 1], returning, using)
         + AfterBatch(batches[|batches| - 1], returning(|batches| - 1), pkAttname, using)
  }

  /** The final states line up with the objects: place p of batch b is the object at |batches before b| + p. */
  lemma {:induction false} FinalsAt(pkAttname: string, batches: seq<seq<InstanceState>>, returning: nat -> seq<Value>, using: string,
                                    b: nat, p: nat)
    requires b < |batches| && p < |batches[b]|
    ensures |Finals(pkAttname, batches, returning, using)| == |Concat(batches)|
    ensures |Concat(batches[..b])| + p < |Concat(batches)|
    ensures Concat(batches)[|Concat(batches[..b])| + p] == batches[b][p]
    ensures Finals(pkAttname, batches, returning, using)[|Concat(batches[..b])| + p]
         == AfterBatch(batches[b], returning(b), pkAttname, using)[p]
  {
    var init := batches[..|batches| - 1];
    if b < |init| {
      FinalsAt(pkAttname, init, returning, using, b, p);
      assert init[..b] == batches[..b];
      assert init[b] == batches[b];
    } else {
      FinalsLength(pkAttname, init, returning, using);
      assert batches[..b] == init;
    }
  }

  lemma {:induction false} FinalsLength(pkAttname: string, batches: seq<seq<InstanceState>>, returning: nat -> seq<Value>, using: string)
    ensures |Finals(pkAttname, batches, returning, using)| == |Concat(batches)|
  {
    if |batches| > 0 {
      FinalsLength(pkAttname, batches[..|batches| - 1], returning, using);
    }
  }

  /** The first b batches hold b * step items. */
  lemma {:induction false} BatchesPrefix<T>(s: seq<T>, step: nat, b: nat)
    requires step > 0 && b < |Batches(s, step)|
    ensures |Concat(Batches(s, step)[..b])| == b * step
  {
    if b > 0 {
      var bs := Batches(s, step);
      BatchesPrefix(s, step, b - 1);
      BatchesPartition(s, step);
      assert bs[..b][..b - 1] == bs[..b - 1];
      MulPred(b, step);
    }
  }

  /** An item at b * step or later lies in batch b or a later one. */
  lemma BatchIndex<T>(s: seq<T>, step: nat, b: nat)
    requires step > 0 && b * step < |s|
    ensures b < |Batches(s, step)|
  {
    var bs := Batches(s, step);
    BatchesCount(s, step);
    if b >= |bs| {
      MulMono(|bs|, b, step);
      assert false;
    }
  }

  /**
   * `execute_bulk_insert` sends one statement per batch: statement b inserts the
   * objects from b * step up to (b + 1) * step, or to the end of the list.
   */
  lemma BulkInsertStatements(m: ModelMeta, s: seq<InstanceState>, step: nat, clause: string, b: nat)
    requires step > 0 && b * step < |s|
    ensures b < |BatchStatements(m, Batches(s, step), clause)|
    ensures BatchStatements(m, Batches(s, step), clause)[b]
         == BatchStatement(m, ValuesOf(s[b * step..Min(b * step + step, |s|)]), clause)
  {
    BatchIndex(s, step, b);
    BatchesAt(s, step, b);
    BatchStatementsAt(m, Batches(s, step), clause, b);
  }

  /** The item at b * step + p is item p of batch b, after b full batches. */
  lemma BatchesLocate<T>(s: seq<T>, step: nat, b: nat, p: nat)
    requires step > 0 && p < step && b * step + p < |s|
    ensures b < |Batches(s, step)| && p < |Batches(s, step)[b]|
    ensures |Concat(Batches(s, step)[..b])| == b * step
    ensures Batches(s, step)[b][p] == s[b * step + p]
  {
    BatchIndex(s, step, b);
    BatchesAt(s, step, b);
    BatchesPrefix(s, step, b);
  }

  /**
   * After `execute_bulk_insert`, the object at place p of batch b has taken the p-th
   * key batch b returned, if that many came back, and is left as it was otherwise.
   */
  lemma BulkInsertStates(pkAttname: string, s: seq<InstanceState>, step: nat,
                         returning: nat -> seq<Value>, using: string, b: nat, p: nat)
    requires step > 0 && p < step && b * step + p < |s|
    ensures b * step + p < |Finals(pkAttname, Batches(s, step), returning, using)|
    ensures Finals(pkAttname, Batches(s, step), returning, using)[b * step + p]
         == if p < |returning(b)| then AfterInsert(s[b * step + p], pkAttname, Some(returning(b)[p]), using)
            else s[b * step + p]
  {
    var bs := Batches(s, step);
    BatchesLocate(s, step, b, p);
    FinalsAt(pkAttname, bs, returning, using, b, p);
    BatchesPartition(s, step);
  }

  /** The states of a slice are the slice of the states. */
  lemma {:induction false} StatesSlice(objs: seq<Instance>, i: nat, end: nat)
    requires i <= end <= |objs|
    ensures States(objs[i..end]) == States(objs)[i..end]
    decreases end - i
  {
    if i < end {
      var batch := objs[i..end];
      StatesSlice(objs, i, end - 1);
      assert batch[..|batch| - 1] == objs[i..end - 1];
      StatesAt(objs, end - 1);
      var all := States(objs);
      assert all[i..end] == all[i..end - 1] + [all[end - 1]];
    }
  }

  /** `setattr(obj, pk.attname, key)` then `obj._state.adding = False` and `obj._state.db = using`, for the object at x. */
  method SetReturnedKey(objs: seq<Instance>, x: nat, key: Value, pkAttname: string, using: string)
    requires x < |objs| && Distinct(objs)
    modifies objs[x]
    ensures States(objs) == old(States(objs))[x := AfterInsert(old(States(objs))[x], pkAttname, Some(key), using)]
  {
    ghost var s0 := States(objs);
    StatesAll(objs);
    var obj := objs[x];
    obj.values := obj.values[pkAttname := key];
    obj.adding := false;
    obj.db := Some(using);
    StatesAll(objs);
    forall j | 0 <= j < |objs| && j != x
      ensures States(objs)[j] == s0[j]
    {
      assert objs[j] != obj;
    }
  }

  /** Zipping no key onto a batch leaves it as it was. */
  lemma AfterBatchNone(states: seq<InstanceState>, pkAttname: string, using: string)
    ensures AfterBatch(states, [], pkAttname, using) == states
  {
  }

  /** Zipping one more key onto a batch sets the key of one more object. */
  lemma AfterBatchSnoc(states: seq<InstanceState>, rows: seq<Value>, p: nat, pkAttname: string, using: string)
    requires p < |states| && p < |rows|
    ensures AfterBatch(states, rows[..p + 1], pkAttname, using)
         == AfterBatch(states, rows[..p], pkAttname, using)[p := AfterInsert(states[p], pkAttname, Some(rows[p]), using)]
  {
  }

  /** `zip` stops at the shorter list: keys past the end of the batch are ignored. */
  lemma AfterBatchZip(states: seq<InstanceState>, rows: seq<Value>, pkAttname: string, using: string)
    ensures AfterBatch(states, rows[..Min(|states|, |rows|)], pkAttname, using) == AfterBatch(states, rows, pkAttname, using)
  {
  }

  /** Place p of the middle part of a three-part sequence. */
  lemma SpliceAt<T>(a: seq<T>, b: seq<T>, c: seq<T>, p: nat)
    requires p < |b|
    ensures |a| + p < |a + b + c| && (a + b + c)[|a| + p] == b[p]
  {
  }

  /** Updating place p of the middle part of a three-part sequence. */
  lemma SpliceUpdate<T>(a: seq<T>, b: seq<T>, c: seq<T>, p: nat, v: T)
    requires p < |b|
    ensures (a + b + c)[|a| + p := v] == a + b[p := v] + c
  {
  }

  /**
   * One more step of the zip over the batch `s[i..end]`, seen in the whole list: the
   * (i + p)-th state is still untouched, and setting it gives the state after p + 1 keys.
   */
  lemma ZipStep(s: seq<InstanceState>, i: nat, end: nat, rows: seq<Value>, p: nat, pkAttname: string, using: string)
    requires i <= end <= |s| && p < end - i && p < |rows|
    ensures var cur := s[..i] + AfterBatch(s[i..end], rows[..p], pkAttname, using) + s[end..];
            && i + p < |cur| && cur[i + p] == s[i + p]
            && cur[i + p := AfterInsert(s[i + p], pkAttname, Some(rows[p]), using)]
               == s[..i] + AfterBatch(s[i..end], rows[..p + 1], pkAttname, using) + s[end..]
  {
    var states := s[i..end];
    var cur := AfterBatch(states, rows[..p], pkAttname, using);
    SpliceAt(s[..i], cur, s[end..], p);
    AfterBatchSnoc(states, rows, p, pkAttname, using);
    SpliceUpdate(s[..i], cur, s[end..], p, AfterInsert(states[p], pkAttname, Some(rows[p]), using));
  }

  /** Before any key is zipped, the list is as it was. */
  lemma ZipStart(s: seq<InstanceState>, i: nat, end: nat, rows: seq<Value>, pkAttname: string, using: string)
    requires i <= end <= |s|
    ensures s == s[..i] + AfterBatch(s[i..end], rows[..0], pkAttname, using) + s[end..]
  {
    AfterBatchNone(s[i..end], pkAttname, using);
    assert rows[..0] == [];
    assert s == s[..i] + s[i..end] + s[end..];
  }

  /**
   * The zip loop of the batch `objs[i:end]`: its p-th object takes the p-th returned
   * key and is saved to `using`; objects past the returned rows and outside the batch
   * are left alone.
   */
  method AssignReturnedKeys(objs: seq<Instance>, i: nat, end: nat, rows: seq<Value>, pkAttname: string, using: string)
    requires i <= end <= |objs| && Distinct(objs)
    modifies objs[i..end]
    ensures States(objs) == old(States(objs))[..i]
                            + AfterBatch(old(States(objs))[i..end], rows, pkAttname, using)
                            + old(States(objs))[end..]
  {
    ghost var s0 := States(objs);
    var batch := objs[i..end];
    ZipStart(s0, i, end, rows, pkAttname, using);
    for p := 0 to Min(|batch|, |rows|)
      invariant States(objs) == s0[..i] + AfterBatch(s0[i..end], rows[..p], pkAttname, using) + s0[end..]
    {
      ZipStep(s0, i, end, rows, p, pkAttname, using);
      assert batch[p] == objs[i + p];
      SetReturnedKey(objs, i + p, rows[p], pkAttname, using);
    }
    AfterBatchZip(s0[i..end], rows, pkAttname, using);
  }

  /**
   * One iteration of the batch loop of `execute_bulk_insert`, for the batch
   * `objs[i:end]`: build its statement, send it as statement number k, and zip the
   * keys the cursor returns back onto the batch.
   */
  method InsertBatch(m: ModelMeta, objs: seq<Instance>, i: nat, end: nat, clause: string, k: nat,
                     returning: nat -> seq<Value>, using: string, ghost states: seq<InstanceState>)
    returns (stmt: Statement)
    requires i <= end <= |objs| && Distinct(objs)
    requires States(objs)[i..end] == states
    modifies objs[i..end]
    ensures stmt == BatchStatement(m, ValuesOf(states), clause)
    ensures States(objs) == old(States(objs))[..i] + AfterBatch(states, returning(k), m.pk.attname, using) + old(States(objs))[end..]
  {
    var batch := objs[i..end];
    StatesSlice(objs, i, end);
    stmt := BuildBatchStatement(m, batch, clause);
    AssignReturnedKeys(objs, i, end, returning(k), m.pk.attname, using);
  }

  /** The bookkeeping of one batch of the loop of `execute_bulk_insert`, on the recorded states. */
  lemma InsertLoopStep(s0: seq<InstanceState>, step: nat, i: nat, end: nat,
                       doneB: seq<seq<InstanceState>>, done: seq<InstanceState>, now: seq<InstanceState>)
    requires step > 0 && i < |s0| && end == Min(i + step, |s0|)
    requires Batches(s0, step) == doneB + Batches(s0[i..], step)
    requires |done| == i && now == done + s0[i..]
    ensures Batches(s0, step) == (doneB + [s0[i..end]]) + Batches(s0[end..], step)
    ensures now[i..end] == s0[i..end]
    ensures now[..i] == done
    ensures now[end..] == s0[end..]
  {
    BatchesStep(s0, i, step);
  }

  /** The final states after one more batch. */
  lemma FinalsSnoc(pkAttname: string, batches: seq<seq<InstanceState>>, batch: seq<InstanceState>,
                   returning: nat -> seq<Value>, using: string)
    ensures Finals(pkAttname, batches + [batch], returning, using)
         == Finals(pkAttname, batches, returning, using) + AfterBatch(batch, returning(|batches|), pkAttname, using)
  {
    assert (batches + [batch])[..|batches|] == batches;
  }

  /**
   * One batch of the insert loop: the objects from i on, at most step of them, sent as
   * one statement (the k-th, k being the number of batches done) and given the keys
   * `returning(k)` answers. The ghost parameters are the states before the loop and
   * the batches done so far.
   */
  method InsertNextBatch(m: ModelMeta, objs: seq<Instance>, i: nat, step: nat, clause: string,
                         k: nat, returning: nat -> seq<Value>, using: string,
                         ghost s0: seq<InstanceState>, ghost doneB: seq<seq<InstanceState>>)
    returns (stmt: Statement, end: nat)
    requires step > 0 && i < |objs| == |s0| && Distinct(objs) && k == |doneB|
    requires Batches(s0, step) == doneB + Batches(s0[i..], step)
    requires |Finals(m.pk.attname, doneB, returning, using)| == i
    requires States(objs) == Finals(m.pk.attname, doneB, returning, using) + s0[i..]
    modifies objs
    ensures end == Min(i + step, |objs|)
    ensures Batches(s0, step) == (doneB + [s0[i..end]]) + Batches(s0[end..], step)
    ensures BatchStatements(m, doneB + [s0[i..end]], clause) == BatchStatements(m, doneB, clause) + [stmt]
    ensures |Finals(m.pk.attname, doneB + [s0[i..end]], returning, using)| == end
    ensures States(objs) == Finals(m.pk.attname, doneB + [s0[i..end]], returning, using) + s0[end..]
  {
    // the slice stops at the end of the list, where the next start would be past it
    end := Min(i + step, |objs|);
    ghost var states := s0[i..end];
    ghost var done := Finals(m.pk.attname, doneB, returning, using);
    InsertLoopStep(s0, step, i, end, doneB, done, States(objs));
    stmt := InsertBatch(m, objs, i, end, clause, k, returning, using, states);
    BatchStatementsSnoc(m, doneB, states, clause);
    FinalsSnoc(m.pk.attname, doneB, states, returning, using);
    assert (done + AfterBatch(states, returning(k), m.pk.attname, using)) + s0[end..]
        == done + AfterBatch(states, returning(k), m.pk.attname, using) + s0[end..];
  }

  /**
   * The loop of `execute_bulk_insert` for a positive batch size and a conflict clause:
   * every batch sends its statement, its objects take the returned keys, and the
   * result lists all objects in order.
   */
  method InsertAll(m: ModelMeta, objs: seq<Instance>, using: string, step: nat, clause: string,
                   returning: nat -> seq<Value>)
    returns (results: seq<Instance>, issued: seq<Statement>)
    requires Distinct(objs) && step > 0
    modifies objs
    ensures results == objs
    ensures issued == BatchStatements(m, Batches(old(States(objs)), step), clause)
    ensures States(objs) == Finals(m.pk.attname, Batches(old(States(objs)), step), returning, using)
  {
    ghost var s0 := States(objs);
    results, issued := [], [];
    ghost var doneB: seq<seq<InstanceState>> := [];
    var i := 0;
    assert s0[0..] == s0;
    while i < |objs|
      invariant 0 <= i <= |objs|
      invariant results == objs[..i]
      invariant |doneB| == |issued|
      invariant Batches(s0, step) == doneB + Batches(s0[i..], step)
      invariant issued == BatchStatements(m, doneB, clause)
      invariant |Finals(m.pk.attname, doneB, returning, using)| == i
      invariant States(objs) == Finals(m.pk.attname, doneB, returning, using) + s0[i..]
      decreases |objs| - i
    {
      var stmt, end := InsertNextBatch(m, objs, i, step, clause, |issued|, returning, using, s0, doneB);
      PrefixExtend(objs, i, end);
      results := results + objs[i..end];
      issued := issued + [stmt];
      doneB := doneB + [s0[i..end]];
      i := end;
    }
    assert s0[i..] == [];
    assert doneB == Batches(s0, step);
    assert objs[..i] == objs;
  }

  /**
   * `execute_bulk_insert`: nothing to insert gives []; a zero batch size fails as
   * `range` does, a negative one runs no batch; an unknown conflict field fails
   * before anything is sent. Otherwise every batch sends its statement, its objects
   * take the returned keys, and the result lists all objects in order.
   */
  method ExecuteBulkInsert(m: ModelMeta, objs: seq<Instance>, using: string, batchSize: Option<int>,
                           ignoreConflicts: bool, updateConflicts: bool,
                           updateFields: Option<seq<string>>, uniqueFields: Option<seq<string>>,
                           returning: (string, nat) -> seq<Value>)
    returns (r: Result<seq<Instance>>, issued: seq<Statement>)
    requires Distinct(objs)
    modifies objs
    ensures var step := BatchSize(batchSize, |objs|);
            var clause := ConflictClause(m, ignoreConflicts, updateConflicts, updateFields, uniqueFields);
            if |objs| == 0 || step < 0 then r == Ok([]) && issued == [] && States(objs) == old(States(objs))
            else if step == 0 then r == Err(ValueError) && issued == [] && States(objs) == old(States(objs))
            else if clause.Err? then r == Err(clause.error) && issued == [] && States(objs) == old(States(objs))
            else
              var batches := Batches(old(States(objs)), step);
              r == Ok(objs) && issued == BatchStatements(m, batches, clause.value)
              && States(objs) == Finals(m.pk.attname, batches, On(returning, using), using)
  {
    if |objs| == 0 {
      return Ok([]), [];
    }
    var step := BatchSize(batchSize, |objs|);
    if step == 0 {
      return Err(ValueError), [];
    }
    if NoBatches(step) {
      return Ok([]), [];
    }
    var clause := BuildConflictClause(m, ignoreConflicts, updateConflicts, updateFields, uniqueFields);
    if clause.Err? {
      return Err(clause.error), [];
    }
    var results;
    results, issued := InsertAll(m, objs, using, step, clause.value, On(returning, using));
    return Ok(results), issued;
  }

  // ------------------------------------------------------------------ execute_bulk_update

  /** The total the cursor reports for the first n statements, the j-th answered by `rowcount(j)`. */
  function SumRowcounts(rowcount: nat -> int, n: nat): int
  {
    if n == 0 then 0 else SumRowcounts(rowcount, n - 1) + rowcount(n - 1)
  }

  /** What an UPDATE of one object needs: its attribute values and its primary key. */
  ghost function UpdateTargets(objs: seq<Instance>): (r: seq<(map<string, Value>, Value)>)
    reads objs
    ensures |r| == |objs|
  {
    seq(|objs|, j requires 0 <= j < |objs| reads objs => (objs[j].values, objs[j].Pk()))
  }

  /** The targets of a slice are the slice of the targets. */
  lemma UpdateTargetsSlice(objs: seq<Instance>, i: nat, end: nat)
    requires i <= end <= |objs|
    ensures UpdateTargets(objs[i..end]) == UpdateTargets(objs)[i..end]
  {
    var lhs, rhs := UpdateTargets(objs[i..end]), UpdateTargets(objs)[i..end];
    forall q | 0 <= q < |lhs|
      ensures lhs[q] == rhs[q]
    {
      assert objs[i..end][q] == objs[i + q];
    }
    assert |lhs| == |rhs|;
  }

  /** One UPDATE per target, in order. */
  function UpdateStatements(m: ModelMeta, fs: seq<Field>, targets: seq<(map<string, Value>, Value)>): (r: seq<Statement>)
    ensures |r| == |targets|
  {
    seq(|targets|, j requires 0 <= j < |targets| => UpdateStatement(m, fs, targets[j].0, targets[j].1))
  }

  lemma UpdateStatementsAppend(m: ModelMeta, fs: seq<Field>, a: seq<(map<string, Value>, Value)>, b: seq<(map<string, Value>, Value)>)
    ensures UpdateStatements(m, fs, a + b) == UpdateStatements(m, fs, a) + UpdateStatements(m, fs, b)
  {
  }

  /**
   * One batch of `execute_bulk_update`: an UPDATE per object of the batch, in order,
   * adding up the rowcounts of statements first .. first + |batch| - 1.
   */
  method UpdateBatch(m: ModelMeta, fs: seq<Field>, batch: seq<Instance>, first: nat, rowcount: nat -> int)
    returns (stmts: seq<Statement>, sum: int)
    ensures stmts == UpdateStatements(m, fs, UpdateTargets(batch))
    ensures SumRowcounts(rowcount, first) + sum == SumRowcounts(rowcount, first + |batch|)
  {
    ghost var targets := UpdateTargets(batch);
    stmts, sum := [], 0;
    for p := 0 to |batch|
      invariant stmts == UpdateStatements(m, fs, targets[..p])
      invariant SumRowcounts(rowcount, first) + sum == SumRowcounts(rowcount, first + p)
    {
      var stmt := BuildUpdate(m, batch[p], fs);
      sum := sum + rowcount(first + p);
      assert targets[..p + 1] == targets[..p] + [targets[p]];
      UpdateStatementsAppend(m, fs, targets[..p], [targets[p]]);
      stmts := stmts + [stmt];
    }
    assert targets[..|batch|] == targets;
  }

  /** The loop of `execute_bulk_update`: batch after batch, an UPDATE per object in list order. */
  method UpdateAll(m: ModelMeta, fs: seq<Field>, objs: seq<Instance>, step: nat, rowcount: nat -> int)
    returns (total: int, issued: seq<Statement>)
    requires step > 0
    ensures issued == UpdateStatements(m, fs, UpdateTargets(objs))
    ensures total == SumRowcounts(rowcount, |objs|)
  {
    ghost var targets := UpdateTargets(objs);
    total, issued := 0, [];
    var i := 0;
    while i < |objs|
      invariant 0 <= i <= |objs|
      invariant issued == UpdateStatements(m, fs, targets[..i])
      invariant total == SumRowcounts(rowcount, i)
    {
      var end := Min(i + step, |objs|);
      var batch := objs[i..end];
      var stmts, sum := UpdateBatch(m, fs, batch, i, rowcount);
      UpdateTargetsSlice(objs, i, end);
      assert targets[..end] == targets[..i] + targets[i..end];
      UpdateStatementsAppend(m, fs, targets[..i], targets[i..end]);
      total := total + sum;
      issued := issued + stmts;
      i := end;
    }
    assert targets[..|objs|] == targets;
  }

  /**
   * `execute_bulk_update`: nothing to update gives 0; an unknown field name fails
   * before anything is sent, then a zero batch size fails as `range` does and a
   * negative one sends nothing. Otherwise every object gets its own UPDATE of the
   * named fields keyed by its primary key, in list order whatever the batch size,
   * and the result is the sum of their rowcounts.
   */
  method ExecuteBulkUpdate(m: ModelMeta, objs: seq<Instance>, fields: seq<string>, using: string, batchSize: Option<int>,
                           rowcount: (string, nat) -> int)
    returns (r: Result<int>, issued: seq<Statement>)
    ensures |objs| == 0 || |fields| == 0 ==> r == Ok(0) && issued == []
    ensures |objs| > 0 && |fields| > 0 && GetFields(m, fields).Err? ==> r == Err(GetFields(m, fields).error) && issued == []
    ensures |objs| > 0 && |fields| > 0 && GetFields(m, fields).Ok? && BatchSize(batchSize, |objs|) == 0
            ==> r == Err(ValueError) && issued == []
    ensures |objs| > 0 && |fields| > 0 && GetFields(m, fields).Ok? && BatchSize(batchSize, |objs|) < 0
            ==> r == Ok(0) && issued == []
    ensures |objs| > 0 && |fields| > 0 && GetFields(m, fields).Ok? && BatchSize(batchSize, |objs|) > 0 ==>
              && |issued| == |objs|
              && (forall j :: 0 <= j < |objs| ==>
                    issued[j] == UpdateStatement(m, GetFields(m, fields).value, objs[j].values, objs[j].Pk()))
              && r == Ok(SumRowcounts(On(rowcount, using), |objs|))
  {
    if |objs| == 0 || |fields| == 0 {
      return Ok(0), [];
    }
    var step := BatchSize(batchSize, |objs|);
    var fieldObjs := GetFields(m, fields);
    if fieldObjs.Err? {
      return Err(fieldObjs.error), [];
    }
    var fs := fieldObjs.value;
    if step == 0 {
      return Err(ValueError), [];
    }
    if NoBatches(step) {
      return Ok(0), [];
    }
    var total;
    total, issued := UpdateAll(m, fs, objs, step, On(rowcount, using));
    return Ok(total), issued;
  }
}
