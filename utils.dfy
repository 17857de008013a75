/**
 * Row hydration and field listings of src/turbo_orm/utils.py: turning cursor
 * rows into instances through `from_db`, the per-model field lists, and
 * `model_to_dict` with its include/exclude filter.
 */
module Utils {
  import opened Base
  import opened Dicts
  import opened Django

  /** `get_field_names`: the attname of every concrete field, in field order. */
  function GetFieldNames(m: ModelMeta): (r: seq<string>)
    ensures |r| == |m.concreteFields|
    ensures forall i :: 0 <= i < |r| ==> r[i] == m.concreteFields[i].attname
  {
    AttNames(m.concreteFields)
  }

  /** `get_field_columns`: the column of every concrete field, in field order. */
  function GetFieldColumns(m: ModelMeta): (r: seq<string>)
    ensures |r| == |m.concreteFields|
    ensures forall i :: 0 <= i < |r| ==> r[i] == m.concreteFields[i].column
  {
    ColumnsOf(m.concreteFields)
  }

  function ColumnsOf(fields: seq<Field>): (r: seq<string>)
    ensures |r| == |fields|
    ensures forall i :: 0 <= i < |fields| ==> r[i] == fields[i].column
  {
    if |fields| == 0 then [] else [fields[0].column] + ColumnsOf(fields[1..])
  }

  /**
   * What `rows_to_instances` hands to `from_db` for one row: `field_names[:len(row)]`
   * and `row[:len(field_names)]`. Both are prefixes cut to the shorter of the two,
   * so they always pair up.
   */
  function FromDbArgs(fieldNames: seq<string>, row: Row): (r: (seq<string>, seq<Value>))
    ensures |r.0| == |r.1| == Min(|fieldNames|, |row|)
    ensures r.0 <= fieldNames && r.1 <= row
  {
    (fieldNames[..Min(|row|, |fieldNames|)], row[..Min(|fieldNames|, |row|)])
  }

  /** The attributes of the instance `from_db` builds from one row. */
  function HydratedValues(m: ModelMeta, row: Row): map<string, Value>
  {
    var args := FromDbArgs(GetFieldNames(m), row);
    ZipMap(args.0, args.1)
  }

  /**
   * A hydrated instance holds exactly the attnames of the first min(#fields, #row)
   * fields, and the i-th of them holds row[i]; the rest are deferred.
   */
  lemma HydratedValuesAt(m: ModelMeta, row: Row)
    requires Distinct(GetFieldNames(m))
    ensures HydratedValues(m, row).Keys
         == set i | 0 <= i < Min(|m.concreteFields|, |row|) :: m.concreteFields[i].attname
    ensures forall i :: 0 <= i < Min(|m.concreteFields|, |row|) ==>
              HydratedValues(m, row)[m.concreteFields[i].attname] == row[i]
  {
    var args := FromDbArgs(GetFieldNames(m), row);
    ZipMapKeys(args.0, args.1);
    forall i | 0 <= i < Min(|m.concreteFields|, |row|)
      ensures HydratedValues(m, row)[m.concreteFields[i].attname] == row[i]
    {
      ZipMapAt(args.0, args.1, i);
    }
  }

  /** `inst` is what `from_db(using, ...)` makes of `row` for model m. */
  ghost predicate Hydrated(inst: Instance, m: ModelMeta, row: Row, using: string)
    reads inst
  {
    inst.meta == m && inst.values == HydratedValues(m, row) && !inst.adding && inst.db == Some(using)
  }

  /** `rows_to_instances`: one new instance per row, in row order; none for no rows. */
  method RowsToInstances(m: ModelMeta, rows: seq<Row>, using: string) returns (instances: seq<Instance>)
    ensures |instances| == |rows|
    ensures forall i :: 0 <= i < |rows| ==> fresh(instances[i]) && Hydrated(instances[i], m, rows[i], using)
  {
    if |rows| == 0 {
      return [];
    }
    var fieldNames := GetFieldNames(m);
    instances := [];
    for k := 0 to |rows|
      invariant |instances| == k
      invariant forall i :: 0 <= i < k ==> fresh(instances[i]) && Hydrated(instances[i], m, rows[i], using)
    {
      var args := FromDbArgs(fieldNames, rows[k]);
      var inst := new Instance.FromDb(m, using, args.0, args.1);
      instances := instances + [inst];
    }
  }

  /** The filter of `model_to_dict` for one attname. */
  predicate Selected(attname: string, fields: Option<seq<string>>, exclude: Option<seq<string>>)
  {
    (fields.None? || attname in fields.value) && (exclude.None? || attname !in exclude.value)
  }

  /** The attnames `model_to_dict` keeps, in the order given. */
  function SelectedNames(names: seq<string>, fields: Option<seq<string>>, exclude: Option<seq<string>>): seq<string>
  {
    if |names| == 0 then []
    else
      var init, last := names[..|names| - 1], names[|names| - 1];
      SelectedNames(init, fields, exclude) + (if Selected(last, fields, exclude) then [last] else [])
  }

  /**
   * The kept attnames are exactly the names passing the filter, and they keep
   * the order of the field list.
   */
  lemma {:induction false} SelectedNamesShape(names: seq<string>, fields: Option<seq<string>>, exclude: Option<seq<string>>)
    ensures forall a :: a in SelectedNames(names, fields, exclude) <==> a in names && Selected(a, fields, exclude)
    ensures Subseq(SelectedNames(names, fields, exclude), names)
  {
    if |names| > 0 {
      var init, last := names[..|names| - 1], names[|names| - 1];
      var kept := SelectedNames(init, fields, exclude);
      SelectedNamesShape(init, fields, exclude);
      SubseqSnoc(kept, init, last);
      assert names == init + [last];
      assert forall a :: a in names <==> a in init || a == last;
      if Selected(last, fields, exclude) {
        assert SelectedNames(names, fields, exclude) == kept + [last];
      } else {
        assert SelectedNames(names, fields, exclude) == kept;
      }
    }
  }

  /** With neither `fields` nor `exclude`, every concrete field is kept. */
  lemma {:induction false} SelectedNamesAll(names: seq<string>)
    ensures SelectedNames(names, None, None) == names
  {
    if |names| > 0 {
      SelectedNamesAll(names[..|names| - 1]);
      assert names == names[..|names| - 1] + [names[|names| - 1]];
    }
  }

  /** The dict `model_to_dict` builds from these fields and attribute values. */
  function ModelDict(fs: seq<Field>, values: map<string, Value>, fields: Option<seq<string>>, exclude: Option<seq<string>>)
    : Dict<string, Value>
  {
    if |fs| == 0 then []
    else
      var init, last := fs[..|fs| - 1], fs[|fs| - 1];
      ModelDict(init, values, fields, exclude)
      + (if Selected(last.attname, fields, exclude) then [(last.attname, AttrValue(values, last.attname))] else [])
  }

  /** The dict is keyed by the attnames passing the filter, in field order. */
  lemma {:induction false} ModelDictKeys(fs: seq<Field>, values: map<string, Value>,
                                         fields: Option<seq<string>>, exclude: Option<seq<string>>)
    ensures Keys(ModelDict(fs, values, fields, exclude)) == SelectedNames(AttNames(fs), fields, exclude)
  {
    if |fs| > 0 {
      var init, last := fs[..|fs| - 1], fs[|fs| - 1];
      ModelDictKeys(init, values, fields, exclude);
      var names := AttNames(fs);
      assert names[..|names| - 1] == AttNames(init);
      assert names[|names| - 1] == last.attname;
      var d := ModelDict(init, values, fields, exclude);
      var kept := SelectedNames(AttNames(init), fields, exclude);
      if Selected(last.attname, fields, exclude) {
        KeysSnoc(d, (last.attname, AttrValue(values, last.attname)));
        assert SelectedNames(names, fields, exclude) == kept + [last.attname];
      } else {
        assert ModelDict(fs, values, fields, exclude) == d;
        assert SelectedNames(names, fields, exclude) == kept;
      }
    }
  }

  /** Every entry of the dict holds the attribute value of its key. */
  lemma {:induction false} ModelDictValues(fs: seq<Field>, values: map<string, Value>,
                                           fields: Option<seq<string>>, exclude: Option<seq<string>>)
    ensures forall e :: e in ModelDict(fs, values, fields, exclude) ==> e.1 == AttrValue(values, e.0)
  {
    if |fs| > 0 {
      var init, last := fs[..|fs| - 1], fs[|fs| - 1];
      ModelDictValues(init, values, fields, exclude);
    }
  }

  /** With distinct attnames the next field's attname is not yet a key. */
  lemma ModelDictFresh(fs: seq<Field>, i: nat, values: map<string, Value>,
                       fields: Option<seq<string>>, exclude: Option<seq<string>>)
    requires Distinct(AttNames(fs)) && i < |fs|
    ensures fs[i].attname !in Keys(ModelDict(fs[..i], values, fields, exclude))
  {
    var names := AttNames(fs);
    ModelDictKeys(fs[..i], values, fields, exclude);
    assert AttNames(fs[..i]) == names[..i];
    SelectedNamesShape(names[..i], fields, exclude);
    assert names[i] == fs[i].attname;
  }

  /**
   * `model_to_dict`: one entry per concrete field passing the filter, keyed by
   * attname in field order, holding the instance's attribute.
   */
  method ModelToDict(inst: Instance, fields: Option<seq<string>>, exclude: Option<seq<string>>)
    returns (data: Dict<string, Value>)
    requires Distinct(GetFieldNames(inst.meta))
    ensures data == ModelDict(inst.meta.concreteFields, inst.values, fields, exclude)
  {
    var fs := inst.meta.concreteFields;
    data := [];
    for i := 0 to |fs|
      invariant data == ModelDict(fs[..i], inst.values, fields, exclude)
    {
      var f := fs[i];
      assert fs[..i + 1][..i] == fs[..i];
      if fields.Some? && f.attname !in fields.value {
        continue;
      }
      if exclude.Some? && f.attname in exclude.value {
        continue;
      }
      ModelDictFresh(fs, i, inst.values, fields, exclude);
      PutNew(data, f.attname, inst.Read(f.attname));
      data := Put(data, f.attname, inst.Read(f.attname));
    }
    assert fs[..|fs|] == fs;
  }
}
