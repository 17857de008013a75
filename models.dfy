/**
 * `AsyncModelMixin` of src/turbo_orm/models.py: saving, deleting and reloading one
 * model instance. The mixin's methods take the instance as their first parameter;
 * the database is a parameter too (the row an INSERT returns, the rowcount of a
 * DELETE, the rows a SELECT fetches), answering for the alias `using` names.
 */
module Models {
  import opened Base
  import opened Dicts
  import opened Django
  import opened Execution

  // ------------------------------------------------------------------ asave

  /** What `asave` does: insert a new instance, update the named fields of a saved one, or nothing. */
  datatype SavePlan = InsertRow | UpdateRow(names: seq<string>) | NoStatement

  /** `[f.name for f in concrete_fields if not f.primary_key]`. */
  function NonPkNames(fields: seq<Field>): seq<string>
  {
    if |fields| == 0 then []
    else
      var init, last := fields[..|fields| - 1], fields[|fields| - 1];
      NonPkNames(init) + (if last.primaryKey then [] else [last.name])
  }

  /** The non-primary-key names are the names of exactly the fields that are not the primary key. */
  lemma {:induction false} NonPkNamesShape(fields: seq<Field>)
    ensures forall n :: n in NonPkNames(fields) <==> exists f :: f in fields && !f.primaryKey && f.name == n
  {
    if |fields| > 0 {
      var init, last := fields[..|fields| - 1], fields[|fields| - 1];
      NonPkNamesShape(init);
      assert forall f :: f in fields <==> f in init || f == last;
      forall n
        ensures n in NonPkNames(fields) <==> n in NonPkNames(init) || (!last.primaryKey && n == last.name)
      {
      }
    }
  }

  /** The non-primary-key names keep the order of the fields. */
  lemma {:induction false} NonPkNamesOrder(fields: seq<Field>)
    ensures Subseq(NonPkNames(fields), Names(fields))
  {
    if |fields| > 0 {
      var init, last := fields[..|fields| - 1], fields[|fields| - 1];
      NonPkNamesOrder(init);
      assert fields == init + [last];
      assert Names(fields) == Names(init) + [last.name];
      SubseqSnoc(NonPkNames(init), Names(init), last.name);
      if last.primaryKey {
        assert NonPkNames(fields) == NonPkNames(init);
      } else {
        assert NonPkNames(fields) == NonPkNames(init) + [last.name];
      }
    }
  }

  /** The decision of `asave`: an adding instance is inserted; otherwise the given names, or every non-pk name, are updated unless there are none. */
  function PlanSave(m: ModelMeta, adding: bool, updateFields: Option<seq<string>>): SavePlan
  {
    if adding then InsertRow
    else
      var names := if updateFields.Some? then updateFields.value else NonPkNames(m.concreteFields);
      if |names| > 0 then UpdateRow(names) else NoStatement
  }

  /**
   * An adding instance is always inserted, whatever `update_fields` says; a saved one
   * with explicit names updates exactly those names, an empty list sends nothing;
   * a saved one without names updates every non-pk field, and sends nothing only
   * for a model whose one field is its key.
   */
  lemma PlanSaveCases(m: ModelMeta, adding: bool, updateFields: Option<seq<string>>)
    ensures adding <==> PlanSave(m, adding, updateFields) == InsertRow
    ensures !adding && updateFields.Some? ==>
              PlanSave(m, adding, updateFields) == (if |updateFields.value| > 0 then UpdateRow(updateFields.value) else NoStatement)
    ensures !adding && updateFields.None? && PlanSave(m, adding, updateFields).UpdateRow? ==>
              forall n :: n in PlanSave(m, adding, updateFields).names <==>
                exists f :: f in m.concreteFields && !f.primaryKey && f.name == n
    ensures !adding && updateFields.None? ==>
              (PlanSave(m, adding, updateFields) == NoStatement <==> forall f :: f in m.concreteFields ==> f.primaryKey)
  {
    var names := NonPkNames(m.concreteFields);
    NonPkNamesShape(m.concreteFields);
    if |names| > 0 {
      assert names[0] in names;
      var f :| f in m.concreteFields && !f.primaryKey && f.name == names[0];
    } else {
      forall f | f in m.concreteFields
        ensures f.primaryKey
      {
        assert !f.primaryKey ==> f.name in names;
      }
    }
  }

  /** Every name `asave` picks by default is a field's name, so the lookup of the update never fails. */
  lemma DefaultNamesKnown(m: ModelMeta)
    ensures GetFields(m, NonPkNames(m.concreteFields)).Ok?
  {
    var names := NonPkNames(m.concreteFields);
    NonPkNamesShape(m.concreteFields);
    forall i | 0 <= i < |names|
      ensures GetField(m, names[i]).Ok?
    {
      assert names[i] in names;
      var f :| f in m.concreteFields && !f.primaryKey && f.name == names[i];
    }
  }

  /**
   * The UPDATE `asave(update_fields=names)` sends writes only the named fields: its
   * parameters are one prepared value per name, each for the field with that name
   * or attname, in the order of the names, and then the primary key.
   */
  lemma SaveWritesOnlyNamed(m: ModelMeta, names: seq<string>, values: map<string, Value>, pk: Value)
    requires GetFields(m, names).Ok?
    ensures |UpdateStatement(m, GetFields(m, names).value, values, pk).params| == |names| + 1
    ensures forall i :: 0 <= i < |names| ==>
              && UpdateStatement(m, GetFields(m, names).value, values, pk).params[i].Prepared?
              && (UpdateStatement(m, GetFields(m, names).value, values, pk).params[i].field.name == names[i]
                  || UpdateStatement(m, GetFields(m, names).value, values, pk).params[i].field.attname == names[i])
    ensures UpdateStatement(m, GetFields(m, names).value, values, pk).params[|names|] == Plain(pk)
  {
    UpdateStatementLayout(m, GetFields(m, names).value, values, pk);
  }

  /**
   * `asave`: an adding instance goes through `execute_insert`; a saved one through
   * `execute_instance_save` when there are names to update. `sent` is what reached
   * the database (nothing when the lookup of a name failed).
   */
  method ASave(inst: Instance, updateFields: Option<seq<string>>, using: string, fetchOne: (string, Statement) -> Option<Row>)
    returns (r: Result<seq<Statement>>)
    modifies inst
    ensures PlanSave(inst.meta, old(inst.adding), updateFields) == InsertRow ==>
              && r == Ok([InsertStatement(inst.meta, old(inst.values))])
              && inst.State() == AfterInsert(old(inst.State()), inst.meta.pk.attname, FirstColumn(fetchOne(using, r.value[0])), using)
    ensures PlanSave(inst.meta, old(inst.adding), updateFields).UpdateRow? ==>
              && inst.State() == old(inst.State())
              && var names := PlanSave(inst.meta, old(inst.adding), updateFields).names;
                 r == match GetFields(inst.meta, names)
                      case Err(e) => Err(e)
                      case Ok(fs) => Ok([UpdateStatement(inst.meta, fs, inst.values, inst.Pk())])
    ensures PlanSave(inst.meta, old(inst.adding), updateFields) == NoStatement ==>
              r == Ok([]) && inst.State() == old(inst.State())
  {
    if inst.adding {
      var stmt := ExecuteInsert(inst, using, fetchOne);
      return Ok([stmt]);
    }
    var names := if updateFields.Some? then updateFields.value else NonPkNames(inst.meta.concreteFields);
    if |names| > 0 {
      var saved := ExecuteInstanceSave(inst, names);
      if saved.Err? {
        return Err(saved.error);
      }
      return Ok([saved.value]);
    }
    return Ok([]);
  }

  // ------------------------------------------------------------------ adelete

  /** `Q(pk=value)`. */
  function PkQ(pk: Value): Q
  {
    Q([], [("pk", pk)], false)
  }

  /** `Query(model)` filtered by `Q(pk=value)`: the DELETE of one instance. */
  function DeleteQuery(m: ModelMeta, pk: Value): Query
  {
    AddQ(NewQuery(m), PkQ(pk))
  }

  /** The instance state after `adelete`: the primary key cleared and the instance adding again. */
  function AfterDelete(s: InstanceState, pkAttname: string): InstanceState
  {
    s.(values := s.values[pkAttname := Null], adding := true)
  }

  /**
   * A deleted instance has no primary key and is adding again, keeps its database
   * and every other attribute, and its next `asave` inserts it afresh.
   */
  lemma AfterDeleteState(m: ModelMeta, s: InstanceState, updateFields: Option<seq<string>>)
    ensures AttrValue(AfterDelete(s, m.pk.attname).values, m.pk.attname) == Null
    ensures AfterDelete(s, m.pk.attname).adding
    ensures AfterDelete(s, m.pk.attname).db == s.db
    ensures forall a :: a != m.pk.attname ==> AttrValue(AfterDelete(s, m.pk.attname).values, a) == AttrValue(s.values, a)
    ensures PlanSave(m, AfterDelete(s, m.pk.attname).adding, updateFields) == InsertRow
  {
  }

  /**
   * `adelete`: deletes the rows matching the instance's primary key, passes
   * `(count, details)` through, then clears the key and marks the instance adding.
   */
  method ADelete(inst: Instance, using: string, rowcount: (string, seq<Q>) -> int) returns (count: int, details: Dict<string, int>)
    modifies inst
    ensures count == rowcount(using, DeleteQuery(inst.meta, old(inst.Pk())).where)
    ensures Keys(details) == [inst.meta.modelLabel] && Get(details, inst.meta.modelLabel) == Some(count)
    ensures inst.State() == AfterDelete(old(inst.State()), inst.meta.pk.attname)
  {
    var query := DeleteQuery(inst.meta, inst.Pk());
    count, details := ExecuteDelete(inst.meta, query, using, rowcount);
    inst.SetAttr("pk", Null);
    inst.adding := true;
  }

  // ------------------------------------------------------------------ arefresh_from_db

  /** `f.name in fields or f.primary_key`: whether a refresh with a field list reloads f. */
  predicate Refreshed(f: Field, fields: seq<string>)
  {
    f.name in fields || f.primaryKey
  }

  /** `[f.name for f in concrete_fields if f.name not in fields and not f.primary_key]`. */
  function DeferNames(fs: seq<Field>, fields: seq<string>): seq<string>
  {
    if |fs| == 0 then []
    else
      var init, last := fs[..|fs| - 1], fs[|fs| - 1];
      DeferNames(init, fields) + (if Refreshed(last, fields) then [] else [last.name])
  }

  /** `[f.attname for f in concrete_fields if f.name in fields or f.primary_key]`, or every attname without a list. */
  function RefreshNames(fs: seq<Field>, fields: seq<string>): seq<string>
  {
    if |fields| == 0 then AttNames(fs)
    else RefreshedAttNames(fs, fields)
  }

  function RefreshedAttNames(fs: seq<Field>, fields: seq<string>): seq<string>
  {
    if |fs| == 0 then []
    else
      var init, last := fs[..|fs| - 1], fs[|fs| - 1];
      RefreshedAttNames(init, fields) + (if Refreshed(last, fields) then [last.attname] else [])
  }

  /** The deferred names are the names of exactly the fields not refreshed. */
  lemma {:induction false} DeferNamesShape(fs: seq<Field>, fields: seq<string>)
    ensures forall n :: n in DeferNames(fs, fields) <==> exists f :: f in fs && !Refreshed(f, fields) && f.name == n
  {
    if |fs| > 0 {
      var init, last := fs[..|fs| - 1], fs[|fs| - 1];
      DeferNamesShape(init, fields);
      assert fs == init + [last];
      assert forall f :: f in fs <==> f in init || f == last;
    }
  }

  /** The refreshed attnames are the attnames of exactly the refreshed fields. */
  lemma {:induction false} RefreshedAttNamesShape(fs: seq<Field>, fields: seq<string>)
    ensures forall n :: n in RefreshedAttNames(fs, fields) <==> exists f :: f in fs && Refreshed(f, fields) && f.attname == n
  {
    if |fs| > 0 {
      var init, last := fs[..|fs| - 1], fs[|fs| - 1];
      RefreshedAttNamesShape(init, fields);
      assert forall f :: f in fs <==> f in init || f == last;
      forall n
        ensures n in RefreshedAttNames(fs, fields) <==> n in RefreshedAttNames(init, fields) || (Refreshed(last, fields) && n == last.attname)
      {
      }
    }
  }

  /** The refreshed attnames keep the order of the fields. */
  lemma {:induction false} RefreshedAttNamesOrder(fs: seq<Field>, fields: seq<string>)
    ensures Subseq(RefreshedAttNames(fs, fields), AttNames(fs))
  {
    if |fs| > 0 {
      var init, last := fs[..|fs| - 1], fs[|fs| - 1];
      RefreshedAttNamesOrder(init, fields);
      assert fs == init + [last];
      assert AttNames(fs) == AttNames(init) + [last.attname];
      SubseqSnoc(RefreshedAttNames(init, fields), AttNames(init), last.attname);
      if Refreshed(last, fields) {
        assert RefreshedAttNames(fs, fields) == RefreshedAttNames(init, fields) + [last.attname];
      } else {
        assert RefreshedAttNames(fs, fields) == RefreshedAttNames(init, fields);
      }
    }
  }

  /** Two fields of a list with no name twice that share a name are the same field; likewise for attnames. */
  lemma SameNameSameField(fs: seq<Field>, f: Field, g: Field)
    requires f in fs && g in fs
    ensures Distinct(Names(fs)) && f.name == g.name ==> f == g
    ensures Distinct(AttNames(fs)) && f.attname == g.attname ==> f == g
  {
    var i :| 0 <= i < |fs| && fs[i] == f;
    var j :| 0 <= j < |fs| && fs[j] == g;
    assert Names(fs)[i] == f.name && Names(fs)[j] == g.name;
    assert AttNames(fs)[i] == f.attname && AttNames(fs)[j] == g.attname;
  }

  /**
   * The deferred fields and the refreshed fields split the concrete fields: with no
   * name or attname twice, a field's name is deferred exactly when the field is not
   * refreshed, and its attname is refreshed exactly when it is. The refreshed
   * attnames keep the concrete order.
   */
  lemma RefreshSplit(fs: seq<Field>, fields: seq<string>)
    requires Distinct(Names(fs)) && Distinct(AttNames(fs))
    ensures forall f :: f in fs ==> (f.name in DeferNames(fs, fields) <==> !Refreshed(f, fields))
    ensures forall f :: f in fs ==> (f.attname in RefreshedAttNames(fs, fields) <==> Refreshed(f, fields))
    ensures Subseq(RefreshedAttNames(fs, fields), AttNames(fs))
  {
    DeferNamesShape(fs, fields);
    RefreshedAttNamesShape(fs, fields);
    RefreshedAttNamesOrder(fs, fields);
    forall f | f in fs
      ensures f.name in DeferNames(fs, fields) <==> !Refreshed(f, fields)
      ensures f.attname in RefreshedAttNames(fs, fields) <==> Refreshed(f, fields)
    {
      if f.name in DeferNames(fs, fields) {
        var g :| g in fs && !Refreshed(g, fields) && g.name == f.name;
        SameNameSameField(fs, f, g);
      }
      if f.attname in RefreshedAttNames(fs, fields) {
        var g :| g in fs && Refreshed(g, fields) && g.attname == f.attname;
        SameNameSameField(fs, f, g);
      }
    }
  }

  /** The query `arefresh_from_db` sends: the instance's row, deferring the fields not asked for. */
  function RefreshQuery(m: ModelMeta, pk: Value, fields: Option<seq<string>>): Query
  {
    var q := AddQ(NewQuery(m), PkQ(pk));
    if fields.Some? && |fields.value| > 0 && |DeferNames(m.concreteFields, fields.value)| > 0 then
      AddLoading(q, Defer(DeferNames(m.concreteFields, fields.value)))
    else q
  }

  /** The first n elements of a list with no element twice have none twice either. */
  lemma DistinctPrefix<T>(s: seq<T>, n: nat)
    requires Distinct(s) && n <= |s|
    ensures Distinct(s[..n])
  {
  }

  /** The attributes after assigning `vals[i]` to `names[i]`, left to right. */
  function Overlay(values: map<string, Value>, names: seq<string>, vals: seq<Value>): map<string, Value>
    requires |names| == |vals|
  {
    if |names| == 0 then values
    else Overlay(values, names[..|names| - 1], vals[..|vals| - 1])[names[|names| - 1] := vals[|vals| - 1]]
  }

  /** Overlaying one more name of the lists assigns it on top of the shorter overlay. */
  lemma OverlayStep(values: map<string, Value>, names: seq<string>, vals: seq<Value>, i: nat)
    requires i < |names| && i < |vals|
    ensures Overlay(values, names[..i + 1], vals[..i + 1]) == Overlay(values, names[..i], vals[..i])[names[i] := vals[i]]
  {
    assert names[..i + 1][..i] == names[..i];
    assert vals[..i + 1][..i] == vals[..i];
  }

  /** The overlay leaves every attribute outside the names as it was, present or absent. */
  lemma {:induction false} OverlayKeeps(values: map<string, Value>, names: seq<string>, vals: seq<Value>, a: string)
    requires |names| == |vals| && a !in names
    ensures a in Overlay(values, names, vals) <==> a in values
    ensures a in values ==> Overlay(values, names, vals)[a] == values[a]
  {
    if |names| > 0 {
      var n := |names| - 1;
      assert a !in names[..n] by {
        assert forall x :: x in names[..n] ==> x in names;
      }
      assert a != names[n];
      OverlayKeeps(values, names[..n], vals[..n], a);
    }
  }

  /** With no name twice, the overlay gives the i-th name the i-th value. */
  lemma {:induction false} OverlayHas(values: map<string, Value>, names: seq<string>, vals: seq<Value>, i: nat)
    requires |names| == |vals| && Distinct(names) && i < |names|
    ensures names[i] in Overlay(values, names, vals) && Overlay(values, names, vals)[names[i]] == vals[i]
  {
    var n := |names| - 1;
    if i < n {
      assert names[i] != names[n];
      DistinctPrefix(names, n);
      OverlayHas(values, names[..n], vals[..n], i);
    }
  }

  /** The attributes after the refresh: the refreshed names paired with the row, cut to the shorter of the two. */
  function RefreshValues(values: map<string, Value>, names: seq<string>, row: Row): map<string, Value>
  {
    Overlay(values, names[..Min(|names|, |row|)], row[..Min(|names|, |row|)])
  }

  /** Assigning a row to names with no name twice: each name the row reaches holds its column, the rest is untouched. */
  lemma RefreshValuesOverlay(values: map<string, Value>, names: seq<string>, row: Row)
    requires Distinct(names)
    ensures forall i :: 0 <= i < Min(|names|, |row|) ==>
              names[i] in RefreshValues(values, names, row) && RefreshValues(values, names, row)[names[i]] == row[i]
    ensures forall a :: a !in names[..Min(|names|, |row|)] ==>
              && (a in RefreshValues(values, names, row) <==> a in values)
              && (a in values ==> RefreshValues(values, names, row)[a] == values[a])
  {
    var n := Min(|names|, |row|);
    DistinctPrefix(names, n);
    forall i | 0 <= i < n
      ensures names[i] in RefreshValues(values, names, row) && RefreshValues(values, names, row)[names[i]] == row[i]
    {
      OverlayHas(values, names[..n], row[..n], i);
    }
    forall a | a !in names[..n]
      ensures a in RefreshValues(values, names, row) <==> a in values
      ensures a in values ==> RefreshValues(values, names, row)[a] == values[a]
    {
      OverlayKeeps(values, names[..n], row[..n], a);
    }
  }

  /**
   * What a refresh does to the attributes: the i-th refreshed attname holds `row[i]`
   * for every i the row reaches; an attribute that is not among those names keeps
   * its value, or stays absent. Without a field list the names are every concrete
   * attname in order; with one, a field's attname is among them exactly when it was
   * asked for by name or is the primary key.
   */
  lemma RefreshValuesAt(fs: seq<Field>, fields: seq<string>, values: map<string, Value>, row: Row)
    requires Distinct(Names(fs)) && Distinct(AttNames(fs))
    ensures |fields| == 0 ==> RefreshNames(fs, fields) == AttNames(fs)
    ensures |fields| > 0 ==> forall f :: f in fs ==> (f.attname in RefreshNames(fs, fields) <==> Refreshed(f, fields))
    ensures Distinct(RefreshNames(fs, fields))
  {
    if |fields| > 0 {
      RefreshSplit(fs, fields);
      SubseqDistinct(RefreshNames(fs, fields), AttNames(fs));
    }
  }

  /**
   * `arefresh_from_db`: sends the refresh query; no row raises DoesNotExist and
   * changes nothing; otherwise the i-th refreshed attname gets `row[i]` while
   * `i < len(row)`.
   */
  method ARefreshFromDb(inst: Instance, using: string, fields: Option<seq<string>>, fetch: (string, Query) -> seq<Row>)
    returns (sent: Query, r: Result<()>)
    modifies inst
    ensures sent == RefreshQuery(inst.meta, old(inst.Pk()), fields)
    ensures |fetch(using, sent)| == 0 ==> r == Err(DoesNotExist) && inst.State() == old(inst.State())
    ensures |fetch(using, sent)| > 0 ==>
              && r == Ok(())
              && inst.values == RefreshValues(old(inst.values), RefreshNames(inst.meta.concreteFields, if fields.Some? then fields.value else []), fetch(using, sent)[0])
              && inst.adding == old(inst.adding) && inst.db == old(inst.db)
  {
    var m := inst.meta;
    var query := AddQ(NewQuery(m), PkQ(inst.Pk()));
    var asked := if fields.Some? then fields.value else [];
    if |asked| > 0 {
      var deferNames := DeferNames(m.concreteFields, asked);
      if |deferNames| > 0 {
        query := AddLoading(query, Defer(deferNames));
      }
    }
    sent := query;
    var rows := fetch(using, query);
    if |rows| == 0 {
      return sent, Err(DoesNotExist);
    }
    AssignRow(inst, RefreshNames(m.concreteFields, asked), rows[0]);
    return sent, Ok(());
  }

  /** The loop of `arefresh_from_db`: `setattr(self, name, value)` for each pair of `zip(names, row)`. */
  method AssignRow(inst: Instance, names: seq<string>, row: Row)
    modifies inst
    ensures inst.values == RefreshValues(old(inst.values), names, row)
    ensures inst.adding == old(inst.adding) && inst.db == old(inst.db)
  {
    ghost var before := inst.values;
    for i := 0 to Min(|names|, |row|)
      invariant inst.values == Overlay(before, names[..i], row[..i])
      invariant inst.adding == old(inst.adding) && inst.db == old(inst.db)
    {
      OverlayStep(before, names, row, i);
      inst.values := inst.values[names[i] := row[i]];
    }
  }
}
