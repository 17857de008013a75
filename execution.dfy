/**
 * The statement builders and loops of src/turbo_orm/execution.py. The cursor is
 * a parameter: a function from the database alias and the statement sent to what
 * that database answers (the rows fetched, or the rowcount). Django's compiler for
 * the alias's connection is a parameter too, where the module hands SQL generation
 * to it.
 */
module Execution {
  import opened Base
  import opened Dicts
  import opened SqlText
  import opened Django

  // ------------------------------------------------------------------ shared pieces

  /** A where clause as the compiler renders it: SQL text and its parameters. */
  datatype Compiled = Compiled(sql: string, params: seq<Value>)

  /** `row[0]` guarded by `if row`: the first column of a fetched, non-empty row. */
  function FirstColumn(row: Option<Row>): Option<Value>
  {
    if row.Some? && |row.value| > 0 then Some(row.value[0]) else None
  }

  /** Compiler parameters passed to the cursor as they are. */
  function Plains(vs: seq<Value>): (r: seq<Param>)
    ensures |r| == |vs|
    ensures forall i :: 0 <= i < |vs| ==> r[i] == Plain(vs[i])
  {
    seq(|vs|, i requires 0 <= i < |vs| => Plain(vs[i]))
  }

  /** No table or column name of the model contains a `%`, so every `%` in a statement is a placeholder. */
  predicate PercentFree(m: ModelMeta)
  {
    && Percents(m.dbTable) == 0
    && Percents(m.pk.column) == 0
    && forall f :: f in m.concreteFields ==> Percents(f.column) == 0
  }

  /** `connection.ops.quote_name(f.column)` for each field. */
  function QuotedColumns(fs: seq<Field>): (r: seq<string>)
    ensures |r| == |fs|
    ensures forall i :: 0 <= i < |fs| ==> r[i] == QuoteName(fs[i].column)
  {
    seq(|fs|, i requires 0 <= i < |fs| => QuoteName(fs[i].column))
  }

  /** `field.get_db_prep_save(value)` for each field, reading the value from the attributes. */
  function PreparedParams(fs: seq<Field>, values: map<string, Value>): (r: seq<Param>)
    ensures |r| == |fs|
    ensures forall i :: 0 <= i < |fs| ==> r[i] == Prepared(fs[i], AttrValue(values, fs[i].attname))
  {
    seq(|fs|, i requires 0 <= i < |fs| => Prepared(fs[i], AttrValue(values, fs[i].attname)))
  }

  /** Appending a field appends its quoted column and its prepared parameter. */
  lemma FieldListsSnoc(fs: seq<Field>, f: Field, values: map<string, Value>)
    ensures QuotedColumns(fs + [f]) == QuotedColumns(fs) + [QuoteName(f.column)]
    ensures PreparedParams(fs + [f], values) == PreparedParams(fs, values) + [Prepared(f, AttrValue(values, f.attname))]
  {
    assert QuotedColumns(fs + [f]) == QuotedColumns(fs) + [QuoteName(f.column)] by {
      forall i | 0 <= i < |fs|
        ensures QuotedColumns(fs + [f])[i] == QuotedColumns(fs)[i]
      {
        assert (fs + [f])[i] == fs[i];
      }
    }
    assert PreparedParams(fs + [f], values) == PreparedParams(fs, values) + [Prepared(f, AttrValue(values, f.attname))] by {
      forall i | 0 <= i < |fs|
        ensures PreparedParams(fs + [f], values)[i] == PreparedParams(fs, values)[i]
      {
        assert (fs + [f])[i] == fs[i];
      }
    }
  }

  /** Quoted columns of percent-free fields, joined by ", ", carry no placeholder. */
  lemma ColumnListPercents(fs: seq<Field>)
    requires forall f :: f in fs ==> Percents(f.column) == 0
    ensures Percents(Join(QuotedColumns(fs), ", ")) == 0
  {
    var sep := ", ";
    NoPercents(sep);
    PercentsJoin(QuotedColumns(fs), sep);
    SumPercentsUniform(QuotedColumns(fs), 0);
  }

  // ------------------------------------------------------------------ SQL templates
  // One function per f-string of the source, concatenated from the right; each
  // lemma counts the `%` characters the template adds to its arguments.

  /** `f"SELECT COUNT(*) FROM {table}"` followed by the WHERE part. */
  function CountSql(table: string, whereSql: string): string
  {
    "SELECT COUNT(*) FROM " + (table + whereSql)
  }

  lemma CountSqlPercents(table: string, whereSql: string)
    ensures Percents(CountSql(table, whereSql)) == Percents(table) + Percents(whereSql)
  {
    PercentsConcat(table, whereSql);
    LitPrefix("SELECT COUNT(*) FROM ", table + whereSql);
  }

  /** `f" WHERE {clause}"`. */
  function WhereSql(clause: string): string
  {
    " WHERE " + clause
  }

  lemma WhereSqlPercents(clause: string)
    ensures Percents(WhereSql(clause)) == Percents(clause)
  {
    LitPrefix(" WHERE ", clause);
  }

  /** `f"({s})"`. */
  function Parens(s: string): string
  {
    "(" + (s + ")")
  }

  lemma ParensPercents(s: string)
    ensures Percents(Parens(s)) == Percents(s)
  {
    NoPercents(")");
    PercentsConcat(s, ")");
    LitPrefix("(", s + ")");
  }

  /** `f"INSERT INTO {table} ({cols})"`. */
  function IntoSql(table: string, cols: string): string
  {
    "INSERT INTO " + (table + (" " + Parens(cols)))
  }

  lemma IntoSqlPercents(table: string, cols: string)
    ensures Percents(IntoSql(table, cols)) == Percents(table) + Percents(cols)
  {
    ParensPercents(cols);
    LitPrefix(" ", Parens(cols));
    PercentsConcat(table, " " + Parens(cols));
    LitPrefix("INSERT INTO ", table + (" " + Parens(cols)));
  }

  /** `f" VALUES {rows}"`. */
  function ValuesSql(rows: string): string
  {
    " VALUES " + rows
  }

  lemma ValuesSqlPercents(rows: string)
    ensures Percents(ValuesSql(rows)) == Percents(rows)
  {
    LitPrefix(" VALUES ", rows);
  }

  /** `f" RETURNING {pk_column}"`. */
  function ReturningSql(pkColumn: string): string
  {
    " RETURNING " + pkColumn
  }

  lemma ReturningSqlPercents(pkColumn: string)
    ensures Percents(ReturningSql(pkColumn)) == Percents(pkColumn)
  {
    LitPrefix(" RETURNING ", pkColumn);
  }

  /** `f"INSERT INTO {table} ({cols}) VALUES ({vals}) RETURNING {pk_column}"`. */
  function InsertValuesSql(table: string, cols: string, vals: string, pkColumn: string): string
  {
    IntoSql(table, cols) + (ValuesSql(Parens(vals)) + ReturningSql(pkColumn))
  }

  lemma InsertValuesSqlPercents(table: string, cols: string, vals: string, pkColumn: string)
    ensures Percents(InsertValuesSql(table, cols, vals, pkColumn))
         == Percents(table) + Percents(cols) + Percents(vals) + Percents(pkColumn)
  {
    IntoSqlPercents(table, cols);
    ParensPercents(vals);
    ValuesSqlPercents(Parens(vals));
    ReturningSqlPercents(pkColumn);
    PercentsConcat(ValuesSql(Parens(vals)), ReturningSql(pkColumn));
    PercentsConcat(IntoSql(table, cols), ValuesSql(Parens(vals)) + ReturningSql(pkColumn));
  }

  /** `f"INSERT INTO {table} DEFAULT VALUES RETURNING {pk_column}"`. */
  function InsertDefaultSql(table: string, pkColumn: string): string
  {
    "INSERT INTO " + (table + (" DEFAULT VALUES" + ReturningSql(pkColumn)))
  }

  lemma InsertDefaultSqlPercents(table: string, pkColumn: string)
    ensures Percents(InsertDefaultSql(table, pkColumn)) == Percents(table) + Percents(pkColumn)
  {
    ReturningSqlPercents(pkColumn);
    LitPrefix(" DEFAULT VALUES", ReturningSql(pkColumn));
    PercentsConcat(table, " DEFAULT VALUES" + ReturningSql(pkColumn));
    LitPrefix("INSERT INTO ", table + (" DEFAULT VALUES" + ReturningSql(pkColumn)));
  }

  /** `f"{col} = %s"`. */
  function SetClause(column: string): string
  {
    column + " = %s"
  }

  lemma SetClausePercents(column: string)
    ensures Percents(SetClause(column)) == Percents(column) + 1
  {
    PlaceholderPercents();
    LitPrefix(" = ", "%s");
    PercentsConcat(column, " = %s");
  }

  /** `f"UPDATE {table} SET {set_list} WHERE {pk_column} = %s"`. */
  function UpdateSql(table: string, setList: string, pkColumn: string): string
  {
    "UPDATE " + (table + (" SET " + (setList + WhereSql(SetClause(pkColumn)))))
  }

  lemma UpdateSqlPercents(table: string, setList: string, pkColumn: string)
    ensures Percents(UpdateSql(table, setList, pkColumn)) == Percents(table) + Percents(setList) + Percents(pkColumn) + 1
  {
    var where := WhereSql(SetClause(pkColumn));
    SetClausePercents(pkColumn);
    WhereSqlPercents(SetClause(pkColumn));
    PercentsConcat(setList, where);
    LitPrefix(" SET ", setList + where);
    PercentsConcat(table, " SET " + (setList + where));
    LitPrefix("UPDATE ", table + (" SET " + (setList + where)));
  }

  // ------------------------------------------------------------------ execute_count

  /** The statement `execute_count` sends: a WHERE part only for conditions that compile to some text. */
  function CountStatement(m: ModelMeta, where: seq<Q>, compiled: Compiled): Statement
  {
    if |where| > 0 && |compiled.sql| > 0 then
      Statement(CountSql(QuoteName(m.dbTable), WhereSql(compiled.sql)), Plains(compiled.params))
    else
      Statement(CountSql(QuoteName(m.dbTable), ""), [])
  }

  /**
   * The count statement is `SELECT COUNT(*) FROM t`, extended exactly when the query
   * has conditions whose compiled text is non-empty; without the extension it has no
   * parameters, and with percent-free names its placeholders match its parameters.
   */
  lemma CountStatementShape(m: ModelMeta, where: seq<Q>, compiled: Compiled)
    ensures CountSql(QuoteName(m.dbTable), "") <= CountStatement(m, where, compiled).sql
    ensures CountStatement(m, where, compiled).sql == CountSql(QuoteName(m.dbTable), "")
            <==> |where| == 0 || |compiled.sql| == 0
    ensures |where| == 0 || |compiled.sql| == 0 ==> CountStatement(m, where, compiled).params == []
    ensures |where| > 0 && |compiled.sql| > 0 ==> CountStatement(m, where, compiled).params == Plains(compiled.params)
    ensures Percents(m.dbTable) == 0 && Percents(compiled.sql) == |compiled.params|
            ==> Percents(CountStatement(m, where, compiled).sql) == |CountStatement(m, where, compiled).params|
  {
    var table := QuoteName(m.dbTable);
    var head := CountSql(table, "");
    assert table + "" == table;
    if |where| > 0 && |compiled.sql| > 0 {
      var full := CountSql(table, WhereSql(compiled.sql));
      assert full == head + WhereSql(compiled.sql);
      assert full[..|head|] == head;
      assert |full| > |head|;
      CountSqlPercents(table, WhereSql(compiled.sql));
      WhereSqlPercents(compiled.sql);
    } else {
      CountSqlPercents(table, "");
    }
  }

  /** `execute_count`: sends the count statement and returns the first column, or 0 when no row comes back. */
  method ExecuteCount(m: ModelMeta, query: Query, using: string,
                      compile: (string, seq<Q>) -> Compiled, fetchOne: (string, Statement) -> Option<Row>)
    returns (count: Value, stmt: Statement)
    ensures stmt == CountStatement(m, query.where, compile(using, query.where))
    ensures FirstColumn(fetchOne(using, stmt)).Some? ==> count == FirstColumn(fetchOne(using, stmt)).value
    ensures FirstColumn(fetchOne(using, stmt)).None? ==> count == Int(0)
  {
    var table := QuoteName(m.dbTable);
    var whereSql := "";
    var params: seq<Param> := [];
    if |query.where| > 0 {
      var c := compile(using, query.where);
      if |c.sql| > 0 {
        whereSql := WhereSql(c.sql);
        params := Plains(c.params);
      }
    }
    stmt := Statement(CountSql(table, whereSql), params);
    var row := fetchOne(using, stmt);
    count := if row.Some? && |row.value| > 0 then row.value[0] else Int(0);
  }

  // ------------------------------------------------------------------ execute_aggregate

  /** `zip(ks, vs)`. */
  function ZipPairs<K, V>(ks: seq<K>, vs: seq<V>): (r: seq<(K, V)>)
    ensures |r| == Min(|ks|, |vs|)
    ensures forall i :: 0 <= i < |r| ==> r[i] == (ks[i], vs[i])
  {
    seq(Min(|ks|, |vs|), i requires 0 <= i < Min(|ks|, |vs|) => (ks[i], vs[i]))
  }

  /** What `execute_aggregate` makes of the fetched row, given the selected annotation aliases. */
  function AggregateResult(aliases: seq<string>, row: Option<Row>): Result<Dict<string, Value>>
  {
    if row.None? || |row.value| == 0 then Ok([])
    else if |row.value| < |aliases| then Err(IndexError)
    else Ok(FromPairs(ZipPairs(aliases, row.value)))
  }

  /**
   * No row gives `{}`; a row gives the i-th alias mapped to the i-th column, the keys
   * in alias order; a row shorter than the aliases fails on `row[i]`.
   */
  lemma AggregateResultShape(aliases: seq<string>, row: Option<Row>)
    requires Distinct(aliases)
    ensures row.None? || |row.value| == 0 ==> AggregateResult(aliases, row) == Ok([])
    ensures row.Some? && 0 < |row.value| < |aliases| ==> AggregateResult(aliases, row) == Err(IndexError)
    ensures row.Some? && 0 < |row.value| && |aliases| <= |row.value| ==>
              && AggregateResult(aliases, row).Ok?
              && Keys(AggregateResult(aliases, row).value) == aliases
              && forall i :: 0 <= i < |aliases| ==> Get(AggregateResult(aliases, row).value, aliases[i]) == Some(row.value[i])
  {
    if row.Some? && 0 < |row.value| && |aliases| <= |row.value| {
      var pairs := ZipPairs(aliases, row.value);
      assert Keys(pairs) == aliases;
      FromPairsDistinct(pairs);
      forall i | 0 <= i < |aliases|
        ensures Get(pairs, aliases[i]) == Some(row.value[i])
      {
        GetDistinct(pairs, i);
      }
    }
  }

  /** `execute_aggregate`: clears the ordering, fetches one row and maps each selected alias to its column. */
  method ExecuteAggregate(query: Query, using: string, fetchOne: (string, Query) -> Option<Row>)
    returns (result: Result<Dict<string, Value>>, sent: Query)
    ensures sent == ClearOrdering(query)
    ensures result == AggregateResult(AnnotationSelect(query), fetchOne(using, sent))
  {
    sent := ClearOrdering(query);
    var row := fetchOne(using, sent);
    if row.Some? && |row.value| > 0 {
      var aliases := AnnotationSelect(sent);
      var data: Dict<string, Value> := [];
      for i := 0 to |aliases|
        invariant i <= |row.value|
        invariant data == FromPairs(ZipPairs(aliases[..i], row.value))
      {
        if i >= |row.value| {
          return Err(IndexError), sent;
        }
        ghost var pairs := ZipPairs(aliases[..i], row.value);
        ghost var next := ZipPairs(aliases[..i + 1], row.value);
        assert next == pairs + [(aliases[i], row.value[i])];
        assert next[..|next| - 1] == pairs;
        data := Put(data, aliases[i], row.value[i]);
      }
      assert aliases[..|aliases|] == aliases;
      return Ok(data), sent;
    }
    return Ok([]), sent;
  }

  // ------------------------------------------------------------------ execute_insert

  /** `not f.primary_key or not f.auto_created`: whether the insert paths write the field at all. */
  predicate Insertable(f: Field)
  {
    !f.primaryKey || !f.autoCreated
  }

  /** The insertable fields of a field list, in order. */
  function InsertableOf(fields: seq<Field>): seq<Field>
  {
    if |fields| == 0 then []
    else
      var init, last := fields[..|fields| - 1], fields[|fields| - 1];
      InsertableOf(init) + (if Insertable(last) then [last] else [])
  }

  /** The fields both insert paths write: every concrete field except an auto-created primary key. */
  function InsertableFields(m: ModelMeta): seq<Field>
  {
    InsertableOf(m.concreteFields)
  }

  /** The insertable fields are exactly the fields passing the test, in their original order. */
  lemma {:induction false} InsertableOfShape(fields: seq<Field>)
    ensures forall f :: f in InsertableOf(fields) <==> f in fields && Insertable(f)
    ensures Subseq(InsertableOf(fields), fields)
  {
    if |fields| > 0 {
      var init, last := fields[..|fields| - 1], fields[|fields| - 1];
      var kept := InsertableOf(init);
      InsertableOfShape(init);
      SubseqSnoc(kept, init, last);
      assert fields == init + [last];
      assert forall f :: f in fields <==> f in init || f == last;
      if !Insertable(last) {
        assert InsertableOf(fields) == kept;
      }
    }
  }

  /** `value is not None or not field.null`: whether a single insert writes the field. */
  predicate Written(f: Field, v: Value)
  {
    v != Null || !f.nullable
  }

  /** The fields `execute_insert` writes for the given attributes. */
  function WrittenFields(fields: seq<Field>, values: map<string, Value>): seq<Field>
  {
    if |fields| == 0 then []
    else
      var init, last := fields[..|fields| - 1], fields[|fields| - 1];
      WrittenFields(init, values) + (if Written(last, AttrValue(values, last.attname)) then [last] else [])
  }

  /** The written fields are exactly the fields with a value or not nullable, in the order of the field list. */
  lemma {:induction false} WrittenFieldsShape(fields: seq<Field>, values: map<string, Value>)
    ensures forall f :: f in WrittenFields(fields, values) <==> f in fields && Written(f, AttrValue(values, f.attname))
    ensures Subseq(WrittenFields(fields, values), fields)
  {
    if |fields| > 0 {
      var init, last := fields[..|fields| - 1], fields[|fields| - 1];
      var kept := WrittenFields(init, values);
      WrittenFieldsShape(init, values);
      SubseqSnoc(kept, init, last);
      assert fields == init + [last];
      assert forall f :: f in fields <==> f in init || f == last;
      if !Written(last, AttrValue(values, last.attname)) {
        assert WrittenFields(fields, values) == kept;
      }
    }
  }

  /** The fields a single insert of these attributes writes. */
  function InsertedFields(m: ModelMeta, values: map<string, Value>): seq<Field>
  {
    WrittenFields(InsertableFields(m), values)
  }

  /** The statement `execute_insert` sends: columns, placeholders and parameters per written field, or DEFAULT VALUES. */
  function InsertStatement(m: ModelMeta, values: map<string, Value>): Statement
  {
    var fs := InsertedFields(m, values);
    var table, pkColumn := QuoteName(m.dbTable), QuoteName(m.pk.column);
    if |fs| > 0 then
      Statement(InsertValuesSql(table, Join(QuotedColumns(fs), ", "), Join(Repeat("%s", |fs|), ", "), pkColumn),
                PreparedParams(fs, values))
    else
      Statement(InsertDefaultSql(table, pkColumn), [])
  }

  /**
   * One parameter per written field, in field order, each the prepared attribute;
   * none at all exactly when no field is written (the DEFAULT VALUES form).
   */
  lemma InsertStatementParams(m: ModelMeta, values: map<string, Value>)
    ensures |InsertStatement(m, values).params| == |InsertedFields(m, values)|
    ensures forall i :: 0 <= i < |InsertedFields(m, values)| ==>
              InsertStatement(m, values).params[i]
              == Prepared(InsertedFields(m, values)[i], AttrValue(values, InsertedFields(m, values)[i].attname))
    ensures forall f :: f in InsertedFields(m, values) <==>
              f in m.concreteFields && (!f.primaryKey || !f.autoCreated) && Written(f, AttrValue(values, f.attname))
    ensures Subseq(InsertedFields(m, values), m.concreteFields)
  {
    InsertableOfShape(m.concreteFields);
    WrittenFieldsShape(InsertableFields(m), values);
    SubseqTrans(InsertedFields(m, values), InsertableFields(m), m.concreteFields);
  }

  /** With percent-free names the insert statement carries one placeholder per parameter. */
  lemma InsertStatementPlaceholders(m: ModelMeta, values: map<string, Value>)
    requires PercentFree(m)
    ensures Percents(InsertStatement(m, values).sql) == |InsertStatement(m, values).params|
  {
    var fs := InsertedFields(m, values);
    var table, pkColumn := QuoteName(m.dbTable), QuoteName(m.pk.column);
    if |fs| > 0 {
      InsertStatementParams(m, values);
      ColumnListPercents(fs);
      PlaceholderList(|fs|);
      InsertValuesSqlPercents(table, Join(QuotedColumns(fs), ", "), Join(Repeat("%s", |fs|), ", "), pkColumn);
    } else {
      InsertDefaultSqlPercents(table, pkColumn);
    }
  }

  /**
   * The statement-building part of `execute_insert`: the loop over the insertable
   * fields appends a quoted column, a `%s` and a prepared parameter in lockstep.
   */
  method BuildInsert(inst: Instance) returns (stmt: Statement)
    ensures stmt == InsertStatement(inst.meta, inst.values)
  {
    var m := inst.meta;
    var fields := InsertableFields(m);
    var columns: seq<string> := [];
    var placeholders: seq<string> := [];
    var params: seq<Param> := [];
    ghost var written: seq<Field> := [];
    for i := 0 to |fields|
      invariant written == WrittenFields(fields[..i], inst.values)
      invariant columns == QuotedColumns(written)
      invariant placeholders == Repeat("%s", |written|)
      invariant params == PreparedParams(written, inst.values)
    {
      var field := fields[i];
      var value := inst.FieldValue(field);
      assert fields[..i + 1] == fields[..i] + [field];
      if value != Null || !field.nullable {
        FieldListsSnoc(written, field, inst.values);
        RepeatSnoc("%s", |written|);
        columns := columns + [QuoteName(field.column)];
        placeholders := placeholders + ["%s"];
        params := params + [Prepared(field, value)];
        written := written + [field];
      }
    }
    assert fields[..|fields|] == fields;
    var table, pkColumn := QuoteName(m.dbTable), QuoteName(m.pk.column);
    if |columns| > 0 {
      stmt := Statement(InsertValuesSql(table, Join(columns, ", "), Join(placeholders, ", "), pkColumn), params);
    } else {
      stmt := Statement(InsertDefaultSql(table, pkColumn), []);
    }
  }

  /** The instance state after a single insert: the returned key set when a row came back, saved to `using`. */
  function AfterInsert(s: InstanceState, pkAttname: string, returned: Option<Value>, using: string): InstanceState
  {
    InstanceState(if returned.Some? then s.values[pkAttname := returned.value] else s.values, false, Some(using))
  }

  /**
   * After an insert the instance is no longer adding and belongs to `using`; its
   * primary key is the returned value when there is one, and no other attribute changes.
   */
  lemma AfterInsertState(s: InstanceState, pkAttname: string, returned: Option<Value>, using: string)
    ensures !AfterInsert(s, pkAttname, returned, using).adding
    ensures AfterInsert(s, pkAttname, returned, using).db == Some(using)
    ensures returned.Some? ==> AttrValue(AfterInsert(s, pkAttname, returned, using).values, pkAttname) == returned.value
    ensures returned.None? ==> AfterInsert(s, pkAttname, returned, using).values == s.values
    ensures forall a :: a != pkAttname ==> AttrValue(AfterInsert(s, pkAttname, returned, using).values, a) == AttrValue(s.values, a)
  {
  }

  /** `execute_insert`: builds and sends the insert, then records the returned key and the saved state. */
  method ExecuteInsert(inst: Instance, using: string, fetchOne: (string, Statement) -> Option<Row>) returns (stmt: Statement)
    modifies inst
    ensures stmt == InsertStatement(inst.meta, old(inst.values))
    ensures inst.State() == AfterInsert(old(inst.State()), inst.meta.pk.attname, FirstColumn(fetchOne(using, stmt)), using)
  {
    stmt := BuildInsert(inst);
    var row := fetchOne(using, stmt);
    if row.Some? && |row.value| > 0 {
      inst.values := inst.values[inst.meta.pk.attname := row.value[0]];
    }
    inst.adding := false;
    inst.db := Some(using);
  }

  // ------------------------------------------------------------------ execute_instance_save

  /** `f"{col} = %s"` for each field. */
  function SetClauses(fs: seq<Field>): (r: seq<string>)
    ensures |r| == |fs|
    ensures forall i :: 0 <= i < |fs| ==> r[i] == SetClause(QuoteName(fs[i].column))
  {
    seq(|fs|, i requires 0 <= i < |fs| => SetClause(QuoteName(fs[i].column)))
  }

  /** The UPDATE of one instance: a SET clause per field, then the primary key as the last parameter. */
  function UpdateStatement(m: ModelMeta, fs: seq<Field>, values: map<string, Value>, pk: Value): Statement
  {
    Statement(UpdateSql(QuoteName(m.dbTable), Join(SetClauses(fs), ", "), QuoteName(m.pk.column)),
              PreparedParams(fs, values) + [Plain(pk)])
  }

  /**
   * One prepared parameter per SET field in order, then the primary key as it is;
   * with percent-free names one placeholder per parameter.
   */
  lemma UpdateStatementLayout(m: ModelMeta, fs: seq<Field>, values: map<string, Value>, pk: Value)
    ensures |UpdateStatement(m, fs, values, pk).params| == |fs| + 1
    ensures forall i :: 0 <= i < |fs| ==>
              UpdateStatement(m, fs, values, pk).params[i] == Prepared(fs[i], AttrValue(values, fs[i].attname))
    ensures UpdateStatement(m, fs, values, pk).params[|fs|] == Plain(pk)
    ensures Percents(m.dbTable) == 0 && Percents(m.pk.column) == 0 && (forall f :: f in fs ==> Percents(f.column) == 0)
            ==> Percents(UpdateStatement(m, fs, values, pk).sql) == |UpdateStatement(m, fs, values, pk).params|
  {
    if Percents(m.dbTable) == 0 && Percents(m.pk.column) == 0 && (forall f :: f in fs ==> Percents(f.column) == 0) {
      var sep, clauses := ", ", SetClauses(fs);
      NoPercents(sep);
      forall i | 0 <= i < |fs|
        ensures Percents(clauses[i]) == 1
      {
        assert fs[i] in fs;
        SetClausePercents(QuoteName(fs[i].column));
      }
      SumPercentsUniform(clauses, 1);
      PercentsJoin(clauses, sep);
      UpdateSqlPercents(QuoteName(m.dbTable), Join(clauses, sep), QuoteName(m.pk.column));
    }
  }

  /**
   * The statement-building loop shared by `execute_instance_save` and
   * `execute_bulk_update`: a SET clause and a prepared parameter per field, in order.
   */
  method BuildUpdate(m: ModelMeta, inst: Instance, fs: seq<Field>) returns (stmt: Statement)
    ensures stmt == UpdateStatement(m, fs, inst.values, inst.Pk())
  {
    var pkValue := inst.Pk();
    var setClauses: seq<string> := [];
    var params: seq<Param> := [];
    for i := 0 to |fs|
      invariant setClauses == SetClauses(fs[..i])
      invariant params == PreparedParams(fs[..i], inst.values)
    {
      var value := inst.FieldValue(fs[i]);
      var col := QuoteName(fs[i].column);
      setClauses := setClauses + [SetClause(col)];
      params := params + [Prepared(fs[i], value)];
    }
    assert fs[..|fs|] == fs;
    var table, pkColumn := QuoteName(m.dbTable), QuoteName(m.pk.column);
    params := params + [Plain(pkValue)];
    stmt := Statement(UpdateSql(table, Join(setClauses, ", "), pkColumn), params);
  }

  /**
   * `execute_instance_save`: looks every name up with `get_field` (the first unknown
   * name fails before any statement) and sends the UPDATE of those fields.
   */
  method ExecuteInstanceSave(inst: Instance, updateFields: seq<string>) returns (r: Result<Statement>)
    ensures GetFields(inst.meta, updateFields).Err? ==> r == Err(GetFields(inst.meta, updateFields).error)
    ensures GetFields(inst.meta, updateFields).Ok? ==>
              r == Ok(UpdateStatement(inst.meta, GetFields(inst.meta, updateFields).value, inst.values, inst.Pk()))
  {
    var fields := GetFields(inst.meta, updateFields);
    if fields.Err? {
      return Err(fields.error);
    }
    var stmt := BuildUpdate(inst.meta, inst, fields.value);
    return Ok(stmt);
  }

  // ------------------------------------------------------------------ execute_update, execute_delete

  /** The UPDATE Django compiles from the query's conditions and `add_update_values` calls. */
  datatype UpdateRequest = UpdateRequest(where: seq<Q>, assignments: seq<(string, Value)>)

  /** `{field.name: value}` for each resolved key, in dict order. */
  function Assignments(fs: seq<Field>, values: Dict<string, Value>): (r: seq<(string, Value)>)
    requires |fs| == |values|
    ensures |r| == |fs|
    ensures forall i :: 0 <= i < |fs| ==> r[i] == (fs[i].name, values[i].1)
  {
    seq(|fs|, i requires 0 <= i < |fs| => (fs[i].name, values[i].1))
  }

  /**
   * `execute_update`: resolves each key with `get_field` in dict order (the first
   * unknown key fails and nothing is sent) and returns the rowcount of the UPDATE.
   */
  method ExecuteUpdate(m: ModelMeta, query: Query, values: Dict<string, Value>, using: string,
                       rowcount: (string, UpdateRequest) -> int)
    returns (r: Result<int>)
    ensures GetFields(m, Keys(values)).Err? ==> r == Err(GetFields(m, Keys(values)).error)
    ensures GetFields(m, Keys(values)).Ok? ==>
              r == Ok(rowcount(using, UpdateRequest(query.where, Assignments(GetFields(m, Keys(values)).value, values))))
  {
    var assignments: seq<(string, Value)> := [];
    ghost var fs: seq<Field> := [];
    for i := 0 to |values|
      invariant |fs| == |assignments| == i
      invariant forall j :: 0 <= j < i ==> GetField(m, Keys(values)[j]) == Ok(fs[j])
      invariant forall j :: 0 <= j < i ==> assignments[j] == (fs[j].name, values[j].1)
    {
      var field := GetField(m, values[i].0);
      if field.Err? {
        GetFieldsFirstError(m, Keys(values), i);
        return Err(field.error);
      }
      assignments := assignments + [(field.value.name, values[i].1)];
      fs := fs + [field.value];
    }
    GetFieldsAllKnown(m, Keys(values), fs);
    assert assignments == Assignments(fs, values);
    return Ok(rowcount(using, UpdateRequest(query.where, assignments)));
  }

  /** `execute_delete`: the rowcount of the DELETE, and a one-entry dict from the model label to it. */
  method ExecuteDelete(m: ModelMeta, query: Query, using: string, rowcount: (string, seq<Q>) -> int)
    returns (count: int, details: Dict<string, int>)
    ensures count == rowcount(using, query.where)
    ensures Keys(details) == [m.modelLabel]
    ensures Get(details, m.modelLabel) == Some(count)
  {
    count := rowcount(using, query.where);
    details := [(m.modelLabel, count)];
  }
}
