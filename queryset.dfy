/**
 * `AsyncQuerySet` of src/turbo_orm/queryset.py. A query set holds a Django `Query`
 * (a record here), its database alias and its prefetch lookups; every chaining
 * method clones it and changes the clone, and every terminal method clones it,
 * adjusts the clone's query and hands it to the database. The database is a
 * parameter: `fetch(db, q)` is what `execute_query` returns for query q on the
 * database behind alias db.
 */
module QuerySets {
  import opened Base
  import opened Dicts
  import opened SqlText
  import opened Django
  import opened Utils
  import opened Execution
  import opened BulkExecution
  import opened Models

  /**
   * `_iterable_class` with `_flat` and `_named`: unset on a fresh clone, set by
   * `values()` and `values_list()`. No terminal method reads them: every one builds
   * model instances from the rows, whatever is recorded here.
   */
  datatype IterableClass = ModelInstances | ValueDicts | ValueTuples(flat: bool, named: bool)

  /** What a query set holds besides its model. */
  datatype QuerySetState = QuerySetState(query: Query, db: string, prefetch: seq<string>, iterable: IterableClass)

  // ------------------------------------------------------------------ limits

  /** The key of `qs[k]`: a slice `[start:stop]` (its step is ignored), an int, or anything else. */
  datatype Index = Slice(start: Option<int>, stop: Option<int>) | IntIndex(k: int) | OtherIndex

  /** The limits `__getitem__` sets: `(k.start or 0, k.stop)` for a slice, `(k, k + 1)` for an int. */
  function SliceLimits(k: Index): Result<(int, Option<int>)>
  {
    match k
    case Slice(start, stop) => Ok((if start.Some? then start.value else 0, stop))
    case IntIndex(i) => if i < 0 then Err(ValueError) else Ok((i, Some(i + 1)))
    case OtherIndex => Err(TypeError)
  }

  /** What a database returns under `OFFSET low LIMIT high - low`: skip `low` rows, keep at most `high - low`. */
  function Window(rows: seq<Row>, low: nat, high: Option<int>): seq<Row>
  {
    var rest := rows[Min(low, |rows|)..];
    if high.None? then rest
    else if high.value - low <= 0 then []
    else rest[..Min(high.value - low, |rest|)]
  }

  /** Python's `rows[start:stop]` for bounds that are absent or not negative. */
  function PySlice(rows: seq<Row>, start: Option<nat>, stop: Option<nat>): seq<Row>
  {
    var lo := if start.Some? then Min(start.value, |rows|) else 0;
    var hi := if stop.Some? then Min(stop.value, |rows|) else |rows|;
    if hi <= lo then [] else rows[lo..hi]
  }

  /**
   * `__getitem__` fails with ValueError exactly for a negative int and with TypeError
   * exactly for a key that is neither a slice nor an int; a slice with bounds that
   * are absent or not negative selects what Python's list slicing selects, and an
   * int k selects the k-th row alone, or nothing past the end.
   */
  lemma SliceLimitsSelect(k: Index, rows: seq<Row>)
    ensures SliceLimits(k) == Err(ValueError) <==> k.IntIndex? && k.k < 0
    ensures SliceLimits(k) == Err(TypeError) <==> k.OtherIndex?
    ensures k.Slice? && (k.start.None? || k.start.value >= 0) && (k.stop.None? || k.stop.value >= 0) ==>
              && SliceLimits(k).Ok? && SliceLimits(k).value.0 >= 0
              && Window(rows, SliceLimits(k).value.0, SliceLimits(k).value.1)
                 == PySlice(rows, if k.start.Some? then Some(k.start.value as nat) else None,
                                  if k.stop.Some? then Some(k.stop.value as nat) else None)
    ensures k.IntIndex? && k.k >= 0 ==>
              && SliceLimits(k) == Ok((k.k, Some(k.k + 1)))
              && Window(rows, k.k, Some(k.k + 1)) == if k.k < |rows| then [rows[k.k]] else []
  {
  }

  // ------------------------------------------------------------------ terminal queries

  /** `query.add_q(Q(*args, **kwargs))`. */
  function Filtered(q: Query, args: seq<Q>, kwargs: Dict<string, Value>): Query
  {
    AddQ(q, Q(args, kwargs, false))
  }

  /** The query `aget` sends: filtered only when given conditions, limited to two rows. */
  function GetQuery(q: Query, args: seq<Q>, kwargs: Dict<string, Value>): Query
  {
    SetLimits(if |args| > 0 || |kwargs| > 0 then Filtered(q, args, kwargs) else q, 0, Some(2))
  }

  /** How `aget` reads the rows: none is DoesNotExist, more than one is MultipleObjectsReturned, else the row. */
  function GetOutcome(rows: seq<Row>): Result<Row>
  {
    if |rows| == 0 then Err(DoesNotExist)
    else if |rows| > 1 then Err(MultipleObjectsReturned(|rows|))
    else Ok(rows[0])
  }

  /**
   * Reading at most two of the matching rows tells `aget` all it needs: no match is
   * DoesNotExist, exactly one match is that row, and two or more matches are
   * MultipleObjectsReturned reporting two rows.
   */
  lemma GetOutcomeWindow(matching: seq<Row>)
    ensures |matching| == 0 <==> GetOutcome(Window(matching, 0, Some(2))) == Err(DoesNotExist)
    ensures GetOutcome(Window(matching, 0, Some(2))).Ok? <==> |matching| == 1
    ensures |matching| == 1 ==> GetOutcome(Window(matching, 0, Some(2))) == Ok(matching[0])
    ensures |matching| >= 2 <==> GetOutcome(Window(matching, 0, Some(2))) == Err(MultipleObjectsReturned(2))
  {
  }

  /** The query `afirst` sends: ordered by `pk` when it has no ordering, limited to one row. */
  function FirstQuery(q: Query): Query
  {
    SetLimits(if |q.orderBy| == 0 then AddOrdering(q, ["pk"]) else q, 0, Some(1))
  }

  /** The query `alast` sends: ordered by `-pk` when it has no ordering, its ordering reversed otherwise, limited to one row. */
  function LastQuery(q: Query): Query
  {
    SetLimits(if |q.orderBy| == 0 then AddOrdering(q, ["-pk"]) else q.(standardOrdering := !q.standardOrdering), 0, Some(1))
  }

  /**
   * `alast` is `afirst` of the reversed query: an ordered query has its direction
   * flipped and keeps its terms; an unordered one is ordered by descending key where
   * `afirst` orders by ascending key. Neither touches the conditions.
   */
  lemma LastIsFirstReversed(q: Query)
    ensures |q.orderBy| > 0 ==> LastQuery(q) == FirstQuery(q.(standardOrdering := !q.standardOrdering))
    ensures |q.orderBy| > 0 ==> LastQuery(q).orderBy == FirstQuery(q).orderBy == q.orderBy
    ensures |q.orderBy| == 0 ==> LastQuery(q) == FirstQuery(AddOrdering(q, ["-pk"]))
    ensures |q.orderBy| == 0 ==> FirstQuery(q).orderBy == ["pk"] && LastQuery(q).orderBy == ["-pk"]
    ensures |q.orderBy| == 0 ==> LastQuery(q).standardOrdering == FirstQuery(q).standardOrdering == q.standardOrdering
    ensures LastQuery(q).where == FirstQuery(q).where == q.where
  {
  }

  /** The first row of the matching rows, if any: what `afirst`, `alast` and `aexists` read. */
  lemma FirstWindow(matching: seq<Row>)
    ensures |Window(matching, 0, Some(1))| > 0 <==> |matching| > 0
    ensures |matching| > 0 ==> Window(matching, 0, Some(1)) == [matching[0]]
  {
  }

  /** `{**a, **b}` is b's value for b's keys and a's for the rest; with `b = {}` it is a. */
  lemma MergePrecedence(a: Dict<string, Value>, b: Dict<string, Value>, x: string)
    requires DistinctKeys(b)
    ensures Get(Merge(a, b), x) == if x in Keys(b) then Get(b, x) else Get(a, x)
    ensures x in Keys(Merge(a, b)) <==> x in Keys(a) || x in Keys(b)
    ensures Merge(a, []) == a
  {
    MergeGet(a, b, x);
    MergeKeys(a, b);
    LastGetDistinct(b, x);
  }

  /** `defaults or {}`. */
  function OrEmpty(d: Option<Dict<string, Value>>): Dict<string, Value>
  {
    if d.Some? then d.value else []
  }

  /** The keywords `aget_or_create` creates with: `{**kwargs, **defaults}`. */
  function GetOrCreateKwargs(kwargs: Dict<string, Value>, defaults: Option<Dict<string, Value>>): Dict<string, Value>
  {
    Merge(kwargs, OrEmpty(defaults))
  }

  /** The keywords `aupdate_or_create` creates with: `{**kwargs, **defaults, **create_defaults}`. */
  function UpdateOrCreateKwargs(kwargs: Dict<string, Value>, defaults: Option<Dict<string, Value>>,
                                createDefaults: Option<Dict<string, Value>>): Dict<string, Value>
  {
    Merge(Merge(kwargs, OrEmpty(defaults)), OrEmpty(createDefaults))
  }

  /** A lookup keyword is overridden by a default of the same name; any other keyword is kept, and every default is added. */
  lemma GetOrCreatePrecedence(kwargs: Dict<string, Value>, defaults: Option<Dict<string, Value>>, x: string)
    requires DistinctKeys(OrEmpty(defaults))
    ensures Get(GetOrCreateKwargs(kwargs, defaults), x)
         == if defaults.Some? && x in Keys(defaults.value) then Get(defaults.value, x) else Get(kwargs, x)
    ensures x in Keys(GetOrCreateKwargs(kwargs, defaults)) <==> x in Keys(kwargs) || x in Keys(OrEmpty(defaults))
  {
    MergePrecedence(kwargs, OrEmpty(defaults), x);
  }

  /** On create, `create_defaults` beat `defaults`, which beat the lookup keywords. */
  lemma UpdateOrCreatePrecedence(kwargs: Dict<string, Value>, defaults: Option<Dict<string, Value>>,
                                 createDefaults: Option<Dict<string, Value>>, x: string)
    requires DistinctKeys(OrEmpty(defaults)) && DistinctKeys(OrEmpty(createDefaults))
    ensures Get(UpdateOrCreateKwargs(kwargs, defaults, createDefaults), x)
         == if x in Keys(OrEmpty(createDefaults)) then Get(OrEmpty(createDefaults), x)
            else if x in Keys(OrEmpty(defaults)) then Get(OrEmpty(defaults), x)
            else Get(kwargs, x)
    ensures x in Keys(UpdateOrCreateKwargs(kwargs, defaults, createDefaults))
            <==> x in Keys(kwargs) || x in Keys(OrEmpty(defaults)) || x in Keys(OrEmpty(createDefaults))
  {
    MergePrecedence(Merge(kwargs, OrEmpty(defaults)), OrEmpty(createDefaults), x);
    MergePrecedence(kwargs, OrEmpty(defaults), x);
  }

  // ------------------------------------------------------------------ lookups among the create keywords

  /** `"__" in k`: the keyword is a lookup such as `name__iexact`, not a field. */
  predicate IsLookup(k: string)
  {
    |k| >= 2 && ((k[0] == '_' && k[1] == '_') || IsLookup(k[1..]))
  }

  /** What Django's model checks guarantee: no field name or attname contains `__`. */
  predicate NoLookupNames(m: ModelMeta)
  {
    forall f :: f in m.concreteFields ==> !IsLookup(f.name) && !IsLookup(f.attname)
  }

  /** `Model(**kwargs)` refuses a lookup keyword: it is neither `pk` nor any field. */
  lemma LookupNotInitKeyword(m: ModelMeta, k: string)
    requires NoLookupNames(m) && IsLookup(k)
    ensures !InitKeyword(m, k)
  {
  }

  /**
   * As written, a lookup keyword of `aget_or_create` is passed on to `Model(**kwargs)`
   * when no row matches, and the create fails with TypeError.
   */
  lemma GetOrCreateLookupRefused(m: ModelMeta, kwargs: Dict<string, Value>, defaults: Option<Dict<string, Value>>, k: string)
    requires NoLookupNames(m) && DistinctKeys(OrEmpty(defaults))
    requires k in Keys(kwargs) && IsLookup(k)
    ensures ConstructArgs(m, GetOrCreateKwargs(kwargs, defaults)) == Err(TypeError)
  {
    GetOrCreatePrecedence(kwargs, defaults, k);
    LookupNotInitKeyword(m, k);
  }

  /** The same holds of the create of `aupdate_or_create`. */
  lemma UpdateOrCreateLookupRefused(m: ModelMeta, kwargs: Dict<string, Value>, defaults: Option<Dict<string, Value>>,
                                    createDefaults: Option<Dict<string, Value>>, k: string)
    requires NoLookupNames(m) && DistinctKeys(OrEmpty(defaults)) && DistinctKeys(OrEmpty(createDefaults))
    requires k in Keys(kwargs) && IsLookup(k)
    ensures ConstructArgs(m, UpdateOrCreateKwargs(kwargs, defaults, createDefaults)) == Err(TypeError)
  {
    UpdateOrCreatePrecedence(kwargs, defaults, createDefaults, k);
    LookupNotInitKeyword(m, k);
  }

  /** `{k: v for k, v in kwargs.items() if "__" not in k}`: the keywords that can name fields. */
  function StripLookups(kwargs: Dict<string, Value>): (r: Dict<string, Value>)
    ensures forall x :: x in Keys(r) <==> x in Keys(kwargs) && !IsLookup(x)
    ensures forall x :: !IsLookup(x) ==> Get(r, x) == Get(kwargs, x)
  {
    if |kwargs| == 0 then []
    else
      var rest := StripLookups(kwargs[1..]);
      KeysTail(kwargs);
      if IsLookup(kwargs[0].0) then rest
      else
        assert ([kwargs[0]] + rest)[1..] == rest;
        KeysTail([kwargs[0]] + rest);
        [kwargs[0]] + rest
  }

  /** The keywords the corrected `aget_or_create` creates with: `{**params, **defaults}`, the lookups dropped. */
  function CreateParams(kwargs: Dict<string, Value>, defaults: Option<Dict<string, Value>>): Dict<string, Value>
  {
    Merge(StripLookups(kwargs), OrEmpty(defaults))
  }

  /** The keywords the corrected `aupdate_or_create` creates with, the lookups dropped. */
  function UpdateCreateParams(kwargs: Dict<string, Value>, defaults: Option<Dict<string, Value>>,
                              createDefaults: Option<Dict<string, Value>>): Dict<string, Value>
  {
    Merge(CreateParams(kwargs, defaults), OrEmpty(createDefaults))
  }

  /**
   * With the lookups dropped, the create keeps every other keyword, lets the defaults
   * win, drops a lookup unless a default names it, and is accepted by `Model(**kwargs)`
   * whenever the remaining keywords and the defaults name fields.
   */
  lemma CreateParamsAccepted(m: ModelMeta, kwargs: Dict<string, Value>, defaults: Option<Dict<string, Value>>)
    requires DistinctKeys(OrEmpty(defaults))
    ensures forall x :: !IsLookup(x) ==>
              Get(CreateParams(kwargs, defaults), x) == if x in Keys(OrEmpty(defaults)) then Get(OrEmpty(defaults), x) else Get(kwargs, x)
    ensures forall x :: IsLookup(x) ==> (x in Keys(CreateParams(kwargs, defaults)) <==> x in Keys(OrEmpty(defaults)))
    ensures (forall k :: k in Keys(kwargs) && !IsLookup(k) ==> InitKeyword(m, k))
            && (forall k :: k in Keys(OrEmpty(defaults)) ==> InitKeyword(m, k))
            ==> ConstructArgs(m, CreateParams(kwargs, defaults)).Ok?
  {
    forall x {
      MergePrecedence(StripLookups(kwargs), OrEmpty(defaults), x);
    }
  }

  /** The same for `aupdate_or_create`, with `create_defaults` over `defaults` over the other keywords. */
  lemma UpdateCreateParamsAccepted(m: ModelMeta, kwargs: Dict<string, Value>, defaults: Option<Dict<string, Value>>,
                                   createDefaults: Option<Dict<string, Value>>)
    requires DistinctKeys(OrEmpty(defaults)) && DistinctKeys(OrEmpty(createDefaults))
    ensures forall x :: !IsLookup(x) ==>
              Get(UpdateCreateParams(kwargs, defaults, createDefaults), x)
              == if x in Keys(OrEmpty(createDefaults)) then Get(OrEmpty(createDefaults), x)
                 else if x in Keys(OrEmpty(defaults)) then Get(OrEmpty(defaults), x)
                 else Get(kwargs, x)
    ensures forall x :: IsLookup(x) ==>
              (x in Keys(UpdateCreateParams(kwargs, defaults, createDefaults))
               <==> x in Keys(OrEmpty(defaults)) || x in Keys(OrEmpty(createDefaults)))
    ensures (forall k :: k in Keys(kwargs) && !IsLookup(k) ==> InitKeyword(m, k))
            && (forall k :: k in Keys(OrEmpty(defaults)) ==> InitKeyword(m, k))
            && (forall k :: k in Keys(OrEmpty(createDefaults)) ==> InitKeyword(m, k))
            ==> ConstructArgs(m, UpdateCreateParams(kwargs, defaults, createDefaults)).Ok?
  {
    CreateParamsAccepted(m, kwargs, defaults);
    forall x {
      MergePrecedence(CreateParams(kwargs, defaults), OrEmpty(createDefaults), x);
    }
  }

  // ------------------------------------------------------------------ the update of aupdate_or_create

  /** `[AttrKey(name) for name in names]`: the attribute each `setattr` name stands for. */
  function AttrKeys(m: ModelMeta, names: seq<string>): (r: seq<string>)
    ensures |r| == |names|
  {
    seq(|names|, i requires 0 <= i < |names| => AttrKey(m, names[i]))
  }

  /** The values of a dict, in order. */
  function Vals<K, V>(d: Dict<K, V>): (r: seq<V>)
    ensures |r| == |d|
  {
    seq(|d|, i requires 0 <= i < |d| => d[i].1)
  }

  /**
   * The statement the update branch of `aupdate_or_create` sends, as written: the
   * UPDATE of every key of `defaults`, sent even when `defaults` is empty.
   */
  function UpdateOrCreateSaveAsWritten(m: ModelMeta, defaults: Dict<string, Value>, values: map<string, Value>, pk: Value): Result<Statement>
  {
    match GetFields(m, Keys(defaults))
    case Err(e) => Err(e)
    case Ok(fs) => Ok(UpdateStatement(m, fs, values, pk))
  }

  /** With empty defaults the statement sent as written has an empty SET list: `UPDATE t SET  WHERE pk = %s`. */
  lemma EmptyDefaultsEmptySet(m: ModelMeta, values: map<string, Value>, pk: Value)
    ensures UpdateOrCreateSaveAsWritten(m, [], values, pk).Ok?
    ensures UpdateOrCreateSaveAsWritten(m, [], values, pk).value.sql == UpdateSql(QuoteName(m.dbTable), "", QuoteName(m.pk.column))
    ensures UpdateOrCreateSaveAsWritten(m, [], values, pk).value.params == [Plain(pk)]
  {
    assert Keys<string, Value>([]) == [];
    var fs: seq<Field> := [];
    assert SetClauses(fs) == [];
    assert PreparedParams(fs, values) == [];
  }

  /** The statement the update branch sends, guarded as `asave` guards it: none for empty defaults. */
  function UpdateOrCreateSave(m: ModelMeta, defaults: Dict<string, Value>, values: map<string, Value>, pk: Value): Result<Option<Statement>>
  {
    if |defaults| == 0 then Ok(None)
    else match GetFields(m, Keys(defaults))
      case Err(e) => Err(e)
      case Ok(fs) => Ok(Some(UpdateStatement(m, fs, values, pk)))
  }

  /**
   * The guarded update sends nothing for empty defaults and otherwise exactly what the
   * code as written sends, whose SET list is then never empty: every UPDATE it sends
   * names at least one column.
   */
  lemma UpdateOrCreateSaveWellFormed(m: ModelMeta, defaults: Dict<string, Value>, values: map<string, Value>, pk: Value)
    ensures |defaults| == 0 ==> UpdateOrCreateSave(m, defaults, values, pk) == Ok(None)
    ensures |defaults| > 0 ==>
              UpdateOrCreateSave(m, defaults, values, pk)
              == match UpdateOrCreateSaveAsWritten(m, defaults, values, pk)
                 case Err(e) => Err(e)
                 case Ok(s) => Ok(Some(s))
    ensures UpdateOrCreateSave(m, defaults, values, pk).Ok? && UpdateOrCreateSave(m, defaults, values, pk).value.Some? ==>
              && GetFields(m, Keys(defaults)).Ok?
              && var clauses := SetClauses(GetFields(m, Keys(defaults)).value);
                 && UpdateOrCreateSave(m, defaults, values, pk).value.value.sql
                    == UpdateSql(QuoteName(m.dbTable), Join(clauses, ", "), QuoteName(m.pk.column))
                 && |Join(clauses, ", ")| > 0
  {
    if |defaults| > 0 && GetFields(m, Keys(defaults)).Ok? {
      var fs := GetFields(m, Keys(defaults)).value;
      assert |fs| == |Keys(defaults)| == |defaults|;
      JoinNonEmpty(SetClauses(fs), ", ");
    }
  }

  // ------------------------------------------------------------------ ain_bulk

  /** `{f"{field_name}__in": id_list}` as a filter. */
  function InBulkQuery(q: Query, idList: Option<seq<Value>>, fieldName: string): Query
  {
    if idList.Some? then Filtered(q, [], [(fieldName + "__in", List(idList.value))]) else q
  }

  /** `getattr(obj, field_name)` on the instance hydrated from a row; None when the attribute is missing. */
  function RowKey(m: ModelMeta, row: Row, fieldName: string): Option<Value>
  {
    Lookup(HydratedValues(m, row), AttrKey(m, fieldName))
  }

  /** The keys of the `ain_bulk` dict in row order, or AttributeError at the first row lacking the attribute. */
  function InBulkKeys(m: ModelMeta, rows: seq<Row>, fieldName: string): Result<seq<Value>>
  {
    if |rows| == 0 then Ok([])
    else match InBulkKeys(m, rows[..|rows| - 1], fieldName)
      case Err(e) => Err(e)
      case Ok(ks) =>
        match RowKey(m, rows[|rows| - 1], fieldName)
        case None => Err(AttributeError(fieldName))
        case Some(k) => Ok(ks + [k])
  }

  /** When the keys are found, there is one per row, each the row's attribute. */
  lemma InBulkKeysOk(m: ModelMeta, rows: seq<Row>, fieldName: string)
    requires InBulkKeys(m, rows, fieldName).Ok?
    ensures |InBulkKeys(m, rows, fieldName).value| == |rows|
    ensures forall i :: 0 <= i < |rows| ==> RowKey(m, rows[i], fieldName) == Some(InBulkKeys(m, rows, fieldName).value[i])
  {
    InBulkKeysLength(m, rows, fieldName);
    forall i | 0 <= i < |rows|
      ensures RowKey(m, rows[i], fieldName) == Some(InBulkKeys(m, rows, fieldName).value[i])
    {
      InBulkKeysAt(m, rows, fieldName, i);
    }
  }

  /** Found keys are one per row. */
  lemma {:induction false} InBulkKeysLength(m: ModelMeta, rows: seq<Row>, fieldName: string)
    requires InBulkKeys(m, rows, fieldName).Ok?
    ensures |InBulkKeys(m, rows, fieldName).value| == |rows|
  {
    if |rows| > 0 {
      InBulkKeysLength(m, rows[..|rows| - 1], fieldName);
    }
  }

  /** The i-th found key is the i-th row's attribute. */
  lemma {:induction false} InBulkKeysAt(m: ModelMeta, rows: seq<Row>, fieldName: string, i: nat)
    requires InBulkKeys(m, rows, fieldName).Ok? && i < |rows|
    ensures |InBulkKeys(m, rows, fieldName).value| == |rows|
    ensures RowKey(m, rows[i], fieldName) == Some(InBulkKeys(m, rows, fieldName).value[i])
  {
    var init := rows[..|rows| - 1];
    InBulkKeysSnoc(m, rows, fieldName);
    InBulkKeysLength(m, init, fieldName);
    if i < |init| {
      InBulkKeysAt(m, init, fieldName, i);
      SnocPrefixAt(InBulkKeys(m, init, fieldName).value, RowKey(m, rows[|rows| - 1], fieldName).value, i);
      assert init[i] == rows[i];
    }
  }

  /** Appending keeps the earlier elements at their places. */
  lemma SnocPrefixAt<T>(s: seq<T>, x: T, i: nat)
    requires i < |s|
    ensures (s + [x])[i] == s[i]
  {
  }

  /** Found keys for the rows are those of all but the last row, then the last row's attribute. */
  lemma InBulkKeysSnoc(m: ModelMeta, rows: seq<Row>, fieldName: string)
    requires InBulkKeys(m, rows, fieldName).Ok? && |rows| > 0
    ensures InBulkKeys(m, rows[..|rows| - 1], fieldName).Ok? && RowKey(m, rows[|rows| - 1], fieldName).Some?
    ensures InBulkKeys(m, rows, fieldName).value
         == InBulkKeys(m, rows[..|rows| - 1], fieldName).value + [RowKey(m, rows[|rows| - 1], fieldName).value]
  {
  }

  /** When the keys are not found, the failure is AttributeError and some row lacks the attribute. */
  lemma {:induction false} InBulkKeysErr(m: ModelMeta, rows: seq<Row>, fieldName: string) returns (i: nat)
    requires InBulkKeys(m, rows, fieldName).Err?
    ensures InBulkKeys(m, rows, fieldName).error == AttributeError(fieldName)
    ensures i < |rows| && RowKey(m, rows[i], fieldName).None?
  {
    var init := rows[..|rows| - 1];
    if InBulkKeys(m, init, fieldName).Err? {
      i := InBulkKeysErr(m, init, fieldName);
      assert init[i] == rows[i];
    } else {
      i := |rows| - 1;
    }
  }

  /** The last pair of `zip(keys, objs)` with key `keys[i]` is the i-th when no later key repeats it. */
  lemma {:induction false} LastGetZip<V>(keys: seq<Value>, objs: seq<V>, i: nat)
    requires |keys| == |objs| && i < |keys|
    requires forall j :: i < j < |keys| ==> keys[j] != keys[i]
    ensures LastGet(ZipPairs(keys, objs), keys[i]) == Some(objs[i])
  {
    var n := |keys| - 1;
    var z := ZipPairs(keys, objs);
    if i < n {
      assert z[..n] == ZipPairs(keys[..n], objs[..n]);
      LastGetZip(keys[..n], objs[..n], i);
    }
  }

  /**
   * `{key: obj for key, obj in zip(keys, objs)}` has each key once, exactly the keys
   * given, and maps each to the last object carrying it.
   */
  lemma InBulkDict<V>(keys: seq<Value>, objs: seq<V>, i: nat)
    requires |keys| == |objs| && i < |keys|
    requires forall j :: i < j < |keys| ==> keys[j] != keys[i]
    ensures DistinctKeys(FromPairs(ZipPairs(keys, objs)))
    ensures forall x :: x in Keys(FromPairs(ZipPairs(keys, objs))) <==> x in keys
    ensures Get(FromPairs(ZipPairs(keys, objs)), keys[i]) == Some(objs[i])
  {
    var z := ZipPairs(keys, objs);
    assert Keys(z) == keys;
    forall x
      ensures x in Keys(FromPairs(z)) <==> x in keys
    {
      FromPairsGet(z, x);
    }
    FromPairsGet(z, keys[i]);
    LastGetZip(keys, objs, i);
  }

  // ------------------------------------------------------------------ annotations

  /** Positional aggregates keyed by their default alias. */
  function Aliased(args: seq<Expression>): (r: Dict<string, Expression>)
    ensures |r| == |args|
  {
    seq(|args|, i requires 0 <= i < |args| => (args[i].defaultAlias, args[i]))
  }

  /** The query after `add_annotation(expr, alias)` for each pair, in order. */
  function Annotated(q: Query, pairs: Dict<string, Expression>): Query
  {
    q.(annotations := Merge(q.annotations, pairs), annotationMask := WithAliases(q.annotationMask, Keys(pairs)))
  }

  /**
   * After `annotate(*args, **kwargs)` an alias maps to its keyword expression when
   * one was given, else to the last positional expression with that default alias,
   * else to what the query had; earlier aliases keep their place.
   */
  lemma AnnotationPrecedence(q: Query, args: seq<Expression>, kwargs: Dict<string, Expression>, alias: string)
    requires DistinctKeys(kwargs)
    ensures Get(Annotated(q, Aliased(args) + kwargs).annotations, alias)
         == if alias in Keys(kwargs) then Get(kwargs, alias)
            else if alias in Keys(Aliased(args)) then LastGet(Aliased(args), alias)
            else Get(q.annotations, alias)
    ensures Keys(q.annotations) <= Keys(Annotated(q, Aliased(args) + kwargs).annotations)
  {
    var pairs := Aliased(args) + kwargs;
    MergeGet(q.annotations, pairs, alias);
    MergeKeys(q.annotations, pairs);
    assert Keys(pairs) == Keys(Aliased(args)) + Keys(kwargs);
    LastGetAppend(Aliased(args), kwargs, alias);
    LastGetDistinct(kwargs, alias);
  }

  /** Annotating with one more pair adds that annotation to the query annotated with the others. */
  lemma AnnotatedSnoc(q: Query, pairs: Dict<string, Expression>, p: (string, Expression))
    ensures Annotated(q, pairs + [p]) == AddAnnotation(Annotated(q, pairs), p.1, p.0)
  {
    assert (pairs + [p])[..|pairs|] == pairs;
    KeysSnoc(pairs, p);
    WithAliasesAppend(q.annotationMask, Keys(pairs), [p.0]);
  }

  /** The positional step: the first i + 1 aliased pairs are the first i and the i-th. */
  lemma AnnotatedStep(q: Query, pairs: Dict<string, Expression>, i: nat)
    requires i < |pairs|
    ensures Annotated(q, pairs[..i + 1]) == AddAnnotation(Annotated(q, pairs[..i]), pairs[i].1, pairs[i].0)
  {
    assert pairs[..i + 1] == pairs[..i] + [pairs[i]];
    AnnotatedSnoc(q, pairs[..i], pairs[i]);
  }

  /** The loops of `annotate` and `aaggregate`: positional aggregates, then keyword ones. */
  method AnnotateAll(q: Query, args: seq<Expression>, kwargs: Dict<string, Expression>) returns (r: Query)
    ensures r == Annotated(q, Aliased(args) + kwargs)
  {
    r := q;
    var aliased := Aliased(args);
    WithAliasesAppend(q.annotationMask, [], []);
    assert aliased[..0] == [];
    for i := 0 to |args|
      invariant r == Annotated(q, aliased[..i])
    {
      AnnotatedStep(q, aliased, i);
      r := AddAnnotation(r, args[i], args[i].defaultAlias);
    }
    assert aliased[..|args|] == aliased;
    assert aliased + kwargs[..0] == aliased;
    for j := 0 to |kwargs|
      invariant r == Annotated(q, aliased + kwargs[..j])
    {
      assert aliased + kwargs[..j + 1] == (aliased + kwargs[..j]) + [kwargs[j]];
      AnnotatedSnoc(q, aliased + kwargs[..j], kwargs[j]);
      r := AddAnnotation(r, kwargs[j].1, kwargs[j].0);
    }
    assert kwargs[..|kwargs|] == kwargs;
  }

  /** The query `aaggregate` hands to `execute_aggregate`: annotated, without default columns, grouped. */
  function AggregateQuery(q: Query, args: seq<Expression>, kwargs: Dict<string, Expression>): Query
  {
    Annotated(q, Aliased(args) + kwargs).(defaultCols := false, groupBy := true)
  }

  /**
   * `values(*fields)` masks out the annotations the fields do not name, so a later
   * `aaggregate(alias=e)` maps only its own alias: the row's first column.
   */
  lemma AggregateAfterValues(q: Query, fields: seq<string>, alias: string, e: Expression, row: Row)
    requires |fields| > 0 && |row| > 0
    requires forall f :: f in fields ==> f !in Keys(q.annotations)
    requires alias !in Keys(q.annotations)
    ensures AnnotationSelect(AggregateQuery(SetValues(q, fields), [], [(alias, e)])) == [alias]
    ensures AggregateResult(AnnotationSelect(AggregateQuery(SetValues(q, fields), [], [(alias, e)])), Some(row)) == Ok([(alias, row[0])])
  {
    var v := SetValues(q, fields);
    assert forall f :: f in fields ==> f !in AnnotationSelect(q);
    assert (set f | f in fields && f in AnnotationSelect(q)) == {};
    MaskedNone(Keys(v.annotations), v.annotationMask);
    assert Aliased([]) + [(alias, e)] == [] + [(alias, e)];
    AnnotatedSnoc(v, [], (alias, e));
    WithAliasesAppend(v.annotationMask, [], []);
    assert Keys<string, Expression>([]) == [];
    assert Annotated(v, []) == v;
    AddAnnotationLast(v, e, alias);
    assert ZipPairs([alias], row) == [(alias, row[0])];
    assert [(alias, row[0])][..0] == [];
    assert Merge([], [(alias, row[0])]) == Put([], alias, row[0]);
  }

  // ------------------------------------------------------------------ the query set

  class AsyncQuerySet {
    const model: ModelMeta
    var query: Query
    var db: string
    var prefetch: seq<string>
    var iterable: IterableClass

    /** `AsyncQuerySet(model, query=None, using)`: a new `Query(model)` unless one is given. */
    constructor (model: ModelMeta, query: Option<Query>, using: string)
      ensures this.model == model && db == using && prefetch == [] && iterable == ModelInstances
      ensures this.query == if query.Some? then query.value else NewQuery(model)
    {
      this.model := model;
      this.query := if query.Some? then query.value else NewQuery(model);
      db := using;
      prefetch := [];
      iterable := ModelInstances;
    }

    function State(): QuerySetState
      reads this
    {
      QuerySetState(query, db, prefetch, iterable)
    }

    /** What a clone of this query set holds once its query is q: same alias and lookups, no iterable class. */
    function Chained(q: Query): QuerySetState
      reads this
    {
      QuerySetState(q, db, prefetch, ModelInstances)
    }

    /** `_clone`: a new query set over the same model, a copy of the query, the same alias and prefetch lookups. */
    method Clone() returns (c: AsyncQuerySet)
      ensures fresh(c) && c.model == model && c.State() == Chained(query)
    {
      c := new AsyncQuerySet(model, Some(query), db);
      c.prefetch := prefetch;
    }

    method All() returns (c: AsyncQuerySet)
      ensures fresh(c) && c.model == model && c.State() == Chained(query)
    {
      c := Clone();
    }

    method Filter(args: seq<Q>, kwargs: Dict<string, Value>) returns (c: AsyncQuerySet)
      ensures fresh(c) && c.model == model && c.State() == Chained(Filtered(query, args, kwargs))
    {
      c := Clone();
      c.query := AddQ(c.query, Q(args, kwargs, false));
    }

    method Exclude(args: seq<Q>, kwargs: Dict<string, Value>) returns (c: AsyncQuerySet)
      ensures fresh(c) && c.model == model && c.State() == Chained(AddQ(query, Invert(Q(args, kwargs, false))))
    {
      c := Clone();
      c.query := AddQ(c.query, Invert(Q(args, kwargs, false)));
    }

    /** `order_by`: the new terms replace the ordering. */
    method OrderBy(fields: seq<string>) returns (c: AsyncQuerySet)
      ensures fresh(c) && c.model == model && c.State() == Chained(query.(orderBy := fields))
    {
      c := Clone();
      c.query := ClearOrdering(c.query);
      c.query := AddOrdering(c.query, fields);
    }

    method SelectDistinct(fields: seq<string>) returns (c: AsyncQuerySet)
      ensures fresh(c) && c.model == model && c.State() == Chained(AddDistinctFields(query, fields))
    {
      c := Clone();
      c.query := AddDistinctFields(c.query, fields);
    }

    /** `select_related`: the named relations, or every relation when none is named. */
    method SelectRelated(fields: seq<string>) returns (c: AsyncQuerySet)
      ensures fresh(c) && c.model == model
      ensures c.State() == Chained(if |fields| > 0 then AddSelectRelated(query, fields) else query.(selectRelated := AllJoins))
    {
      c := Clone();
      if |fields| > 0 {
        c.query := AddSelectRelated(c.query, fields);
      } else {
        c.query := c.query.(selectRelated := AllJoins);
      }
    }

    /** `prefetch_related`: the new lookups go after the existing ones. */
    method PrefetchRelated(lookups: seq<string>) returns (c: AsyncQuerySet)
      ensures fresh(c) && c.model == model && c.State() == Chained(query).(prefetch := prefetch + lookups)
    {
      c := Clone();
      c.prefetch := c.prefetch + lookups;
    }

    method OnlyFields(fields: seq<string>) returns (c: AsyncQuerySet)
      ensures fresh(c) && c.model == model && c.State() == Chained(AddLoading(query, Only(fields)))
    {
      c := Clone();
      c.query := AddLoading(c.query, Only(fields));
    }

    method DeferFields(fields: seq<string>) returns (c: AsyncQuerySet)
      ensures fresh(c) && c.model == model && c.State() == Chained(AddLoading(query, Defer(fields)))
    {
      c := Clone();
      c.query := AddLoading(c.query, Defer(fields));
    }

    /** `values`: the selected fields, each named expression added as an annotation, and the iterable class recorded as values. */
    method Values(fields: seq<string>, expressions: Dict<string, Expression>) returns (c: AsyncQuerySet)
      ensures fresh(c) && c.model == model
      ensures c.State() == Chained(Annotated(SetValues(query, fields), expressions)).(iterable := ValueDicts)
    {
      c := Clone();
      c.query := SetValues(c.query, fields);
      WithAliasesAppend(c.query.annotationMask, [], []);
      if |expressions| > 0 {
        var q := AnnotateAll(c.query, [], expressions);
        assert Aliased([]) + expressions == expressions;
        c.query := q;
      }
      c.iterable := ValueDicts;
    }

    /** `values_list`: the selected fields, and the iterable class recorded as values_list with the two flags. */
    method ValuesList(fields: seq<string>, flat: bool, named: bool) returns (c: AsyncQuerySet)
      ensures fresh(c) && c.model == model
      ensures c.State() == Chained(SetValues(query, fields)).(iterable := ValueTuples(flat, named))
    {
      c := Clone();
      c.query := SetValues(c.query, fields);
      c.iterable := ValueTuples(flat, named);
    }

    method Annotate(args: seq<Expression>, kwargs: Dict<string, Expression>) returns (c: AsyncQuerySet)
      ensures fresh(c) && c.model == model && c.State() == Chained(Annotated(query, Aliased(args) + kwargs))
    {
      c := Clone();
      c.query := AnnotateAll(c.query, args, kwargs);
    }

    method Using(alias: string) returns (c: AsyncQuerySet)
      ensures fresh(c) && c.model == model && c.State() == Chained(query).(db := alias)
    {
      c := Clone();
      c.db := alias;
    }

    /** `__getitem__`: a clone limited to the slice or the single row; an error before any clone otherwise. */
    method GetItem(k: Index) returns (r: Result<AsyncQuerySet>)
      ensures SliceLimits(k).Err? ==> r == Err(SliceLimits(k).error)
      ensures SliceLimits(k).Ok? ==>
                && r.Ok? && fresh(r.value) && r.value.model == model
                && r.value.State() == Chained(SetLimits(query, SliceLimits(k).value.0, SliceLimits(k).value.1))
    {
      match k
      case Slice(start, stop) =>
        var c := Clone();
        var low := if start.Some? && start.value != 0 then start.value else 0;
        c.query := SetLimits(c.query, low, stop);
        return Ok(c);
      case IntIndex(i) =>
        if i < 0 {
          return Err(ValueError);
        }
        var c := Clone();
        c.query := SetLimits(c.query, i, Some(i + 1));
        return Ok(c);
      case OtherIndex =>
        return Err(TypeError);
    }

    /**
     * `aget`: fetches at most two rows of the (filtered) query; raises on none or
     * several, else returns the instance hydrated from the single row.
     */
    method AGet(args: seq<Q>, kwargs: Dict<string, Value>, fetch: (string, Query) -> seq<Row>) returns (r: Result<Instance>, sent: Query)
      ensures sent == GetQuery(query, args, kwargs)
      ensures GetOutcome(fetch(db, sent)).Err? ==> r == Err(GetOutcome(fetch(db, sent)).error)
      ensures GetOutcome(fetch(db, sent)).Ok? ==>
                r.Ok? && fresh(r.value) && Hydrated(r.value, model, GetOutcome(fetch(db, sent)).value, db)
    {
      var c: AsyncQuerySet;
      if |args| > 0 || |kwargs| > 0 {
        c := Filter(args, kwargs);
      } else {
        c := Clone();
      }
      c.query := SetLimits(c.query, 0, Some(2));
      sent := c.query;
      var rows := fetch(c.db, c.query);
      if |rows| == 0 {
        return Err(DoesNotExist), sent;
      }
      if |rows| > 1 {
        return Err(MultipleObjectsReturned(|rows|)), sent;
      }
      var instances := RowsToInstances(model, rows, c.db);
      return Ok(instances[0]), sent;
    }

    /** `afirst`: the first row by the query's ordering, or by primary key when it has none; None on no row. */
    method AFirst(fetch: (string, Query) -> seq<Row>) returns (r: Option<Instance>, sent: Query)
      ensures sent == FirstQuery(query)
      ensures |fetch(db, sent)| == 0 ==> r == None
      ensures |fetch(db, sent)| > 0 ==> r.Some? && fresh(r.value) && Hydrated(r.value, model, fetch(db, sent)[0], db)
    {
      var c := Clone();
      if |c.query.orderBy| == 0 {
        c.query := AddOrdering(c.query, ["pk"]);
      }
      c.query := SetLimits(c.query, 0, Some(1));
      sent := c.query;
      var rows := fetch(c.db, c.query);
      if |rows| == 0 {
        return None, sent;
      }
      var instances := RowsToInstances(model, rows, c.db);
      return Some(instances[0]), sent;
    }

    /** `alast`: the first row of the reversed ordering, or of descending primary key; None on no row. */
    method ALast(fetch: (string, Query) -> seq<Row>) returns (r: Option<Instance>, sent: Query)
      ensures sent == LastQuery(query)
      ensures |fetch(db, sent)| == 0 ==> r == None
      ensures |fetch(db, sent)| > 0 ==> r.Some? && fresh(r.value) && Hydrated(r.value, model, fetch(db, sent)[0], db)
    {
      var c := Clone();
      if |c.query.orderBy| == 0 {
        c.query := AddOrdering(c.query, ["-pk"]);
      } else {
        c.query := c.query.(standardOrdering := !c.query.standardOrdering);
      }
      c.query := SetLimits(c.query, 0, Some(1));
      sent := c.query;
      var rows := fetch(c.db, c.query);
      if |rows| == 0 {
        return None, sent;
      }
      var instances := RowsToInstances(model, rows, c.db);
      return Some(instances[0]), sent;
    }

    /** `acount`: `execute_count` on a clone of the query. */
    method ACount(compile: (string, seq<Q>) -> Compiled, fetchOne: (string, Statement) -> Option<Row>) returns (count: Value, stmt: Statement)
      ensures stmt == CountStatement(model, query.where, compile(db, query.where))
      ensures FirstColumn(fetchOne(db, stmt)).Some? ==> count == FirstColumn(fetchOne(db, stmt)).value
      ensures FirstColumn(fetchOne(db, stmt)).None? ==> count == Int(0)
    {
      var c := Clone();
      count, stmt := ExecuteCount(model, c.query, c.db, compile, fetchOne);
    }

    /** `aexists`: whether the query limited to one row returns a row. */
    method AExists(fetch: (string, Query) -> seq<Row>) returns (b: bool, sent: Query)
      ensures sent == SetLimits(query, 0, Some(1))
      ensures b <==> |fetch(db, sent)| > 0
    {
      var c := Clone();
      c.query := SetLimits(c.query, 0, Some(1));
      sent := c.query;
      var rows := fetch(c.db, c.query);
      return |rows| > 0, sent;
    }

    /** `alist`: an instance per row of the query. */
    method AList(fetch: (string, Query) -> seq<Row>) returns (instances: seq<Instance>)
      ensures |instances| == |fetch(db, query)|
      ensures forall i :: 0 <= i < |instances| ==> fresh(instances[i]) && Hydrated(instances[i], model, fetch(db, query)[i], db)
    {
      var c := Clone();
      instances := RowsToInstances(model, fetch(c.db, c.query), c.db);
    }

    /**
     * `acreate`: `Model(**kwargs)` inserted through `execute_insert`. An unexpected
     * keyword makes the constructor raise TypeError before anything is sent.
     */
    method ACreate(kwargs: Dict<string, Value>, fetchOne: (string, Statement) -> Option<Row>)
      returns (r: Result<Instance>, stmt: Option<Statement>)
      ensures ConstructArgs(model, kwargs).Err? ==> r == Err(TypeError) && stmt == None
      ensures ConstructArgs(model, kwargs).Ok? ==>
                && r.Ok? && fresh(r.value) && Created(r.value, kwargs, fetchOne)
                && stmt == Some(InsertStatement(model, ConstructArgs(model, kwargs).value))
    {
      var values := ConstructArgs(model, kwargs);
      if values.Err? {
        return Err(values.error), None;
      }
      var inst := new Instance(model, kwargs);
      var sent := ExecuteInsert(inst, db, fetchOne);
      return Ok(inst), Some(sent);
    }

    /** `aupdate`: `execute_update` on a clone of the query. */
    method AUpdate(kwargs: Dict<string, Value>, rowcount: (string, UpdateRequest) -> int) returns (r: Result<int>)
      ensures GetFields(model, Keys(kwargs)).Err? ==> r == Err(GetFields(model, Keys(kwargs)).error)
      ensures GetFields(model, Keys(kwargs)).Ok? ==>
                r == Ok(rowcount(db, UpdateRequest(query.where, Assignments(GetFields(model, Keys(kwargs)).value, kwargs))))
    {
      var c := Clone();
      r := ExecuteUpdate(model, c.query, kwargs, c.db, rowcount);
    }

    /** `adelete`: `execute_delete` on a clone of the query. */
    method ADelete(rowcount: (string, seq<Q>) -> int) returns (count: int, details: Dict<string, int>)
      ensures count == rowcount(db, query.where)
      ensures Keys(details) == [model.modelLabel] && Get(details, model.modelLabel) == Some(count)
    {
      var c := Clone();
      count, details := ExecuteDelete(model, c.query, c.db, rowcount);
    }

    /** `abulk_create`: `execute_bulk_insert` with this query set's model and alias. */
    method ABulkCreate(objs: seq<Instance>, batchSize: Option<int>, ignoreConflicts: bool, updateConflicts: bool,
                       updateFields: Option<seq<string>>, uniqueFields: Option<seq<string>>, returning: (string, nat) -> seq<Value>)
      returns (r: Result<seq<Instance>>, issued: seq<Statement>)
      requires Distinct(objs)
      modifies objs
      ensures var step := BatchSize(batchSize, |objs|);
              var clause := ConflictClause(model, ignoreConflicts, updateConflicts, updateFields, uniqueFields);
              if |objs| == 0 || step < 0 then r == Ok([]) && issued == [] && States(objs) == old(States(objs))
              else if step == 0 then r == Err(ValueError) && issued == [] && States(objs) == old(States(objs))
              else if clause.Err? then r == Err(clause.error) && issued == [] && States(objs) == old(States(objs))
              else
                var batches := Batches(old(States(objs)), step);
                r == Ok(objs) && issued == BatchStatements(model, batches, clause.value)
                && States(objs) == Finals(model.pk.attname, batches, On(returning, db), db)
    {
      r, issued := ExecuteBulkInsert(model, objs, db, batchSize, ignoreConflicts, updateConflicts, updateFields, uniqueFields, returning);
    }

    /** `abulk_update`: `execute_bulk_update` with this query set's model. */
    method ABulkUpdate(objs: seq<Instance>, fields: seq<string>, batchSize: Option<int>, rowcount: (string, nat) -> int)
      returns (r: Result<int>, issued: seq<Statement>)
      ensures |objs| == 0 || |fields| == 0 ==> r == Ok(0) && issued == []
      ensures |objs| > 0 && |fields| > 0 && GetFields(model, fields).Err? ==> r == Err(GetFields(model, fields).error) && issued == []
      ensures |objs| > 0 && |fields| > 0 && GetFields(model, fields).Ok? && BatchSize(batchSize, |objs|) == 0
              ==> r == Err(ValueError) && issued == []
      ensures |objs| > 0 && |fields| > 0 && GetFields(model, fields).Ok? && BatchSize(batchSize, |objs|) < 0
              ==> r == Ok(0) && issued == []
      ensures |objs| > 0 && |fields| > 0 && GetFields(model, fields).Ok? && BatchSize(batchSize, |objs|) > 0 ==>
                && |issued| == |objs|
                && (forall j :: 0 <= j < |objs| ==>
                      issued[j] == UpdateStatement(model, GetFields(model, fields).value, objs[j].values, objs[j].Pk()))
                && r == Ok(SumRowcounts(On(rowcount, db), |objs|))
    {
      r, issued := ExecuteBulkUpdate(model, objs, fields, db, batchSize, rowcount);
    }

    /**
     * `aget(**kwargs)`, and on DoesNotExist `acreate(**createKwargs)`: the instance found,
     * not created, or the one created; any other error of `aget` passes through.
     */
    method GetOrCreateWith(kwargs: Dict<string, Value>, createKwargs: Dict<string, Value>,
                           fetch: (string, Query) -> seq<Row>, fetchOne: (string, Statement) -> Option<Row>)
      returns (r: Result<(Instance, bool)>)
      ensures var rows := fetch(db, GetQuery(query, [], kwargs));
              && (GetOutcome(rows).Ok? ==>
                    r.Ok? && !r.value.1 && fresh(r.value.0) && Hydrated(r.value.0, model, GetOutcome(rows).value, db))
              && (GetOutcome(rows) == Err(DoesNotExist) && ConstructArgs(model, createKwargs).Ok? ==>
                    r.Ok? && r.value.1 && fresh(r.value.0) && Created(r.value.0, createKwargs, fetchOne))
              && (GetOutcome(rows) == Err(DoesNotExist) && ConstructArgs(model, createKwargs).Err? ==> r == Err(TypeError))
              && (GetOutcome(rows).Err? && GetOutcome(rows).error != DoesNotExist ==> r == Err(GetOutcome(rows).error))
    {
      var got, _ := AGet([], kwargs, fetch);
      match got
      case Ok(inst) =>
        return Ok((inst, false));
      case Err(e) =>
        if e != DoesNotExist {
          return Err(e);
        }
        var made, _ := ACreate(createKwargs, fetchOne);
        if made.Err? {
          return Err(made.error);
        }
        return Ok((made.value, true));
    }

    /**
     * `aget_or_create` as written: on DoesNotExist it creates from `{**kwargs, **defaults}`,
     * lookup keywords included, so a lookup such as `name__iexact` makes the create fail
     * with TypeError (see `GetOrCreateLookupRefused`).
     */
    method AGetOrCreate(defaults: Option<Dict<string, Value>>, kwargs: Dict<string, Value>,
                        fetch: (string, Query) -> seq<Row>, fetchOne: (string, Statement) -> Option<Row>)
      returns (r: Result<(Instance, bool)>)
      ensures var rows := fetch(db, GetQuery(query, [], kwargs));
              var created := GetOrCreateKwargs(kwargs, defaults);
              && (GetOutcome(rows).Ok? ==>
                    r.Ok? && !r.value.1 && fresh(r.value.0) && Hydrated(r.value.0, model, GetOutcome(rows).value, db))
              && (GetOutcome(rows) == Err(DoesNotExist) && ConstructArgs(model, created).Ok? ==>
                    r.Ok? && r.value.1 && fresh(r.value.0) && Created(r.value.0, created, fetchOne))
              && (GetOutcome(rows) == Err(DoesNotExist) && ConstructArgs(model, created).Err? ==> r == Err(TypeError))
              && (GetOutcome(rows).Err? && GetOutcome(rows).error != DoesNotExist ==> r == Err(GetOutcome(rows).error))
    {
      r := GetOrCreateWith(kwargs, GetOrCreateKwargs(kwargs, defaults), fetch, fetchOne);
    }

    /**
     * `aget_or_create` corrected as Django's own `get_or_create` does it: the create
     * keywords are the non-lookup kwargs overridden by the defaults (`CreateParams`).
     */
    method AGetOrCreateCorrected(defaults: Option<Dict<string, Value>>, kwargs: Dict<string, Value>,
                                 fetch: (string, Query) -> seq<Row>, fetchOne: (string, Statement) -> Option<Row>)
      returns (r: Result<(Instance, bool)>)
      ensures var rows := fetch(db, GetQuery(query, [], kwargs));
              var created := CreateParams(kwargs, defaults);
              && (GetOutcome(rows).Ok? ==>
                    r.Ok? && !r.value.1 && fresh(r.value.0) && Hydrated(r.value.0, model, GetOutcome(rows).value, db))
              && (GetOutcome(rows) == Err(DoesNotExist) && ConstructArgs(model, created).Ok? ==>
                    r.Ok? && r.value.1 && fresh(r.value.0) && Created(r.value.0, created, fetchOne))
              && (GetOutcome(rows) == Err(DoesNotExist) && ConstructArgs(model, created).Err? ==> r == Err(TypeError))
              && (GetOutcome(rows).Err? && GetOutcome(rows).error != DoesNotExist ==> r == Err(GetOutcome(rows).error))
    {
      r := GetOrCreateWith(kwargs, CreateParams(kwargs, defaults), fetch, fetchOne);
    }

    /** `inst` is what `acreate(**kwargs)` made on this query set's alias, `Model(**kwargs)` having accepted the keywords. */
    ghost predicate Created(inst: Instance, kwargs: Dict<string, Value>, fetchOne: (string, Statement) -> Option<Row>)
      reads this, inst
    {
      && ConstructArgs(model, kwargs).Ok?
      && inst.meta == model
      && var values := ConstructArgs(model, kwargs).value;
         inst.State() == AfterInsert(InstanceState(values, true, None), model.pk.attname,
                                     FirstColumn(fetchOne(db, InsertStatement(model, values))), db)
    }

    /**
     * `aupdate_or_create` as written: when `aget(**kwargs)` finds the instance, each
     * default is set on it and `execute_instance_save` is called with the defaults'
     * keys, even when there are none: with empty defaults the UPDATE sent has an empty
     * SET list. On DoesNotExist a new instance is created from
     * `{**kwargs, **defaults, **create_defaults}`, lookup keywords included.
     */
    method AUpdateOrCreate(defaults: Option<Dict<string, Value>>, createDefaults: Option<Dict<string, Value>>,
                           kwargs: Dict<string, Value>, fetch: (string, Query) -> seq<Row>, fetchOne: (string, Statement) -> Option<Row>)
      returns (r: Result<(Instance, bool)>, saved: Option<Statement>)
      ensures var rows := fetch(db, GetQuery(query, [], kwargs));
              var d := OrEmpty(defaults);
              var created := UpdateOrCreateKwargs(kwargs, defaults, createDefaults);
              && (GetOutcome(rows).Ok? ==>
                    var values := Overlay(HydratedValues(model, GetOutcome(rows).value), AttrKeys(model, Keys(d)), Vals(d));
                    var save := UpdateOrCreateSaveAsWritten(model, d, values, AttrValue(values, model.pk.attname));
                    && (save.Err? ==> r == Err(save.error) && saved == None)
                    && (save.Ok? ==> && r.Ok? && !r.value.1 && fresh(r.value.0) && r.value.0.meta == model
                                     && r.value.0.State() == InstanceState(values, false, Some(db))
                                     && saved == Some(save.value)))
              && (GetOutcome(rows) == Err(DoesNotExist) && ConstructArgs(model, created).Ok? ==>
                    r.Ok? && r.value.1 && fresh(r.value.0) && saved == None && Created(r.value.0, created, fetchOne))
              && (GetOutcome(rows) == Err(DoesNotExist) && ConstructArgs(model, created).Err? ==>
                    r == Err(TypeError) && saved == None)
              && (GetOutcome(rows).Err? && GetOutcome(rows).error != DoesNotExist ==> r == Err(GetOutcome(rows).error) && saved == None)
      ensures GetOutcome(fetch(db, GetQuery(query, [], kwargs))).Ok? && |OrEmpty(defaults)| == 0 ==>
                && r.Ok? && saved.Some?
                && saved.value.sql == UpdateSql(QuoteName(model.dbTable), "", QuoteName(model.pk.column))
    {
      var d := OrEmpty(defaults);
      var got, _ := AGet([], kwargs, fetch);
      match got
      case Ok(inst) =>
        AssignDefaults(inst, d);
        var save := ExecuteInstanceSave(inst, Keys(d));
        if save.Err? {
          return Err(save.error), None;
        }
        if |d| == 0 {
          EmptyDefaultsEmptySet(model, inst.values, inst.Pk());
        }
        return Ok((inst, false)), Some(save.value);
      case Err(e) =>
        if e != DoesNotExist {
          return Err(e), None;
        }
        var made, _ := ACreate(UpdateOrCreateKwargs(kwargs, defaults, createDefaults), fetchOne);
        if made.Err? {
          return Err(made.error), None;
        }
        return Ok((made.value, true)), None;
    }

    /**
     * `aupdate_or_create` corrected: the found instance is saved only when there are
     * defaults, as `asave` guards its update (`UpdateOrCreateSave`), so every UPDATE
     * sent names a column; the create drops lookup keywords (`UpdateCreateParams`).
     */
    method AUpdateOrCreateCorrected(defaults: Option<Dict<string, Value>>, createDefaults: Option<Dict<string, Value>>,
                                    kwargs: Dict<string, Value>, fetch: (string, Query) -> seq<Row>,
                                    fetchOne: (string, Statement) -> Option<Row>)
      returns (r: Result<(Instance, bool)>, saved: Option<Statement>)
      ensures var rows := fetch(db, GetQuery(query, [], kwargs));
              var d := OrEmpty(defaults);
              var created := UpdateCreateParams(kwargs, defaults, createDefaults);
              && (GetOutcome(rows).Ok? ==>
                    var values := Overlay(HydratedValues(model, GetOutcome(rows).value), AttrKeys(model, Keys(d)), Vals(d));
                    var save := UpdateOrCreateSave(model, d, values, AttrValue(values, model.pk.attname));
                    && (save.Err? ==> r == Err(save.error) && saved == None)
                    && (save.Ok? ==> && r.Ok? && !r.value.1 && fresh(r.value.0) && r.value.0.meta == model
                                     && r.value.0.State() == InstanceState(values, false, Some(db))
                                     && saved == save.value))
              && (GetOutcome(rows) == Err(DoesNotExist) && ConstructArgs(model, created).Ok? ==>
                    r.Ok? && r.value.1 && fresh(r.value.0) && saved == None && Created(r.value.0, created, fetchOne))
              && (GetOutcome(rows) == Err(DoesNotExist) && ConstructArgs(model, created).Err? ==>
                    r == Err(TypeError) && saved == None)
              && (GetOutcome(rows).Err? && GetOutcome(rows).error != DoesNotExist ==> r == Err(GetOutcome(rows).error) && saved == None)
      ensures |OrEmpty(defaults)| == 0 ==> saved == None
    {
      var d := OrEmpty(defaults);
      var got, _ := AGet([], kwargs, fetch);
      match got
      case Ok(inst) =>
        AssignDefaults(inst, d);
        if |d| > 0 {
          var save := ExecuteInstanceSave(inst, Keys(d));
          if save.Err? {
            return Err(save.error), None;
          }
          return Ok((inst, false)), Some(save.value);
        }
        return Ok((inst, false)), None;
      case Err(e) =>
        if e != DoesNotExist {
          return Err(e), None;
        }
        var made, _ := ACreate(UpdateCreateParams(kwargs, defaults, createDefaults), fetchOne);
        if made.Err? {
          return Err(made.error), None;
        }
        return Ok((made.value, true)), None;
    }

    /** `ain_bulk`: the rows of the (id-filtered) query as a dict from each instance's attribute to the instance. */
    method AInBulk(idList: Option<seq<Value>>, fieldName: string, fetch: (string, Query) -> seq<Row>)
      returns (r: Result<Dict<Value, Instance>>, instances: seq<Instance>, sent: Query)
      ensures sent == InBulkQuery(query, idList, fieldName)
      ensures |instances| == |fetch(db, sent)|
      ensures forall i :: 0 <= i < |instances| ==> fresh(instances[i]) && Hydrated(instances[i], model, fetch(db, sent)[i], db)
      ensures InBulkKeys(model, fetch(db, sent), fieldName).Err? ==> r == Err(AttributeError(fieldName))
      ensures InBulkKeys(model, fetch(db, sent), fieldName).Ok? ==>
                r == Ok(FromPairs(ZipPairs(InBulkKeys(model, fetch(db, sent), fieldName).value, instances)))
    {
      var c := Clone();
      if idList.Some? {
        c := c.Filter([], [(fieldName + "__in", List(idList.value))]);
      }
      sent := c.query;
      var rows := fetch(c.db, c.query);
      instances := RowsToInstances(model, rows, c.db);
      r := KeyedBy(model, rows, instances, fieldName);
    }

    /** `aaggregate`: annotates a clone, drops its default columns, groups it, and runs `execute_aggregate`. */
    method AAggregate(args: seq<Expression>, kwargs: Dict<string, Expression>, fetchOne: (string, Query) -> Option<Row>)
      returns (r: Result<Dict<string, Value>>, sent: Query)
      ensures sent == ClearOrdering(AggregateQuery(query, args, kwargs))
      ensures r == AggregateResult(AnnotationSelect(AggregateQuery(query, args, kwargs)), fetchOne(db, sent))
    {
      var c := Clone();
      c.query := AnnotateAll(c.query, args, kwargs);
      c.query := c.query.(defaultCols := false);
      c.query := c.query.(groupBy := true);
      r, sent := ExecuteAggregate(c.query, c.db, fetchOne);
    }
  }

  /** The loop of `aupdate_or_create` that sets each default on the instance. */
  method AssignDefaults(inst: Instance, d: Dict<string, Value>)
    modifies inst
    ensures inst.values == Overlay(old(inst.values), AttrKeys(inst.meta, Keys(d)), Vals(d))
    ensures inst.adding == old(inst.adding) && inst.db == old(inst.db)
  {
    ghost var before := inst.values;
    ghost var names := AttrKeys(inst.meta, Keys(d));
    ghost var vals := Vals(d);
    for i := 0 to |d|
      invariant inst.values == Overlay(before, names[..i], vals[..i])
      invariant inst.adding == old(inst.adding) && inst.db == old(inst.db)
    {
      OverlayStep(before, names, vals, i);
      inst.SetAttr(d[i].0, d[i].1);
    }
    assert names[..|d|] == names && vals[..|d|] == vals;
  }

  /** The dict comprehension of `ain_bulk`: `{getattr(obj, field_name): obj for obj in instances}`. */
  method KeyedBy(m: ModelMeta, rows: seq<Row>, instances: seq<Instance>, fieldName: string)
    returns (r: Result<Dict<Value, Instance>>)
    requires |instances| == |rows|
    requires forall i :: 0 <= i < |rows| ==> instances[i].meta == m && instances[i].values == HydratedValues(m, rows[i])
    ensures InBulkKeys(m, rows, fieldName).Err? ==> r == Err(AttributeError(fieldName))
    ensures InBulkKeys(m, rows, fieldName).Ok? ==> r == Ok(FromPairs(ZipPairs(InBulkKeys(m, rows, fieldName).value, instances)))
  {
    var data: Dict<Value, Instance> := [];
    ghost var keys: seq<Value> := [];
    for i := 0 to |instances|
      invariant InBulkKeys(m, rows[..i], fieldName) == Ok(keys)
      invariant |keys| == i
      invariant data == FromPairs(ZipPairs(keys, instances[..i]))
    {
      var key := instances[i].Attr(fieldName);
      if key.None? {
        InBulkKeysStop(m, rows, i, fieldName);
        return Err(AttributeError(fieldName));
      }
      KeyedStep(m, rows, instances, fieldName, i, keys, key.value);
      data := Put(data, key.value, instances[i]);
      keys := keys + [key.value];
    }
    assert rows[..|rows|] == rows;
    assert instances[..|instances|] == instances;
    return Ok(data);
  }

  /** One step of the `ain_bulk` loop: a row with the attribute extends the keys and assigns its instance. */
  lemma KeyedStep<V>(m: ModelMeta, rows: seq<Row>, vs: seq<V>, fieldName: string, i: nat, keys: seq<Value>, k: Value)
    requires i < |rows| && i < |vs| && |keys| == i
    requires InBulkKeys(m, rows[..i], fieldName) == Ok(keys) && RowKey(m, rows[i], fieldName) == Some(k)
    ensures InBulkKeys(m, rows[..i + 1], fieldName) == Ok(keys + [k])
    ensures FromPairs(ZipPairs(keys + [k], vs[..i + 1])) == Put(FromPairs(ZipPairs(keys, vs[..i])), k, vs[i])
  {
    assert rows[..i + 1][..i] == rows[..i];
    ZipSnoc(keys, vs, i, k);
  }

  /** Zipping one more key with one more value appends that pair, so the dict assigns it last. */
  lemma ZipSnoc<V>(keys: seq<Value>, vs: seq<V>, i: nat, k: Value)
    requires i < |vs| && |keys| == i
    ensures FromPairs(ZipPairs(keys + [k], vs[..i + 1])) == Put(FromPairs(ZipPairs(keys, vs[..i])), k, vs[i])
  {
    var z := ZipPairs(keys + [k], vs[..i + 1]);
    assert z[..|z| - 1] == ZipPairs(keys, vs[..i]);
  }

  /** Where the `ain_bulk` loop stops: the rows so far had their keys and this row lacks one, so the whole fails. */
  lemma InBulkKeysStop(m: ModelMeta, rows: seq<Row>, i: nat, fieldName: string)
    requires i < |rows| && InBulkKeys(m, rows[..i], fieldName).Ok? && RowKey(m, rows[i], fieldName).None?
    ensures InBulkKeys(m, rows, fieldName) == Err(AttributeError(fieldName))
  {
    InBulkKeysPrefixErr(m, rows, i + 1, fieldName);
    assert rows[..i + 1][..i] == rows[..i];
  }

  /** Once a prefix of the rows fails, the whole fails the same way. */
  lemma {:induction false} InBulkKeysPrefixErr(m: ModelMeta, rows: seq<Row>, n: nat, fieldName: string)
    requires n <= |rows| && InBulkKeys(m, rows[..n], fieldName).Err?
    ensures InBulkKeys(m, rows, fieldName) == InBulkKeys(m, rows[..n], fieldName)
  {
    if n < |rows| {
      var init := rows[..|rows| - 1];
      assert init[..n] == rows[..n];
      InBulkKeysPrefixErr(m, init, n, fieldName);
    } else {
      assert rows[..n] == rows;
    }
  }
}
