/**
 * The parts of Django the core leans on, reduced to records: a model's metadata
 * (`_meta`), the `Q` filter object, the `Query` record and the updates the core
 * asks of it, the PostgreSQL identifier quoting, and model instances with their
 * `_state`. None of this is code of the modelled repository; it is the interface
 * the repository's code is written against.
 */
module Django {
  import opened Base
  import opened Dicts
  import opened SqlText

  /** One concrete field of a model. */
  datatype Field = Field(
    name: string,
    attname: string,      // the instance attribute (differs from name for foreign keys)
    column: string,       // the database column
    nullable: bool,       // Field.null
    primaryKey: bool,
    autoCreated: bool,
    default: Value)       // what the model constructor uses when no keyword names the field

  /** `Model._meta`. */
  datatype ModelMeta = ModelMeta(
    modelLabel: string,   // _meta.label, "app_label.ModelName"
    objectName: string,
    dbTable: string,
    concreteFields: seq<Field>,
    pk: Field)

  function AttNames(fields: seq<Field>): (r: seq<string>)
    ensures |r| == |fields|
    ensures forall i :: 0 <= i < |fields| ==> r[i] == fields[i].attname
  {
    if |fields| == 0 then [] else [fields[0].attname] + AttNames(fields[1..])
  }

  function Names(fields: seq<Field>): (r: seq<string>)
    ensures |r| == |fields|
    ensures forall i :: 0 <= i < |fields| ==> r[i] == fields[i].name
  {
    if |fields| == 0 then [] else [fields[0].name] + Names(fields[1..])
  }

  /** What Django's model checks guarantee of `_meta`: one primary key among the fields, no name or attname twice. */
  predicate ValidMeta(m: ModelMeta)
  {
    && m.pk in m.concreteFields
    && m.pk.primaryKey
    && (forall f :: f in m.concreteFields && f.primaryKey ==> f == m.pk)
    && Distinct(AttNames(m.concreteFields))
    && Distinct(Names(m.concreteFields))
  }

  /** `_meta.get_field(name)`: the concrete field with that name or attname. */
  function GetField(m: ModelMeta, name: string): (r: Result<Field>)
    ensures r.Ok? ==> r.value in m.concreteFields && (r.value.name == name || r.value.attname == name)
    ensures r.Err? ==> r.error == FieldDoesNotExist(name)
    ensures r.Err? ==> forall f :: f in m.concreteFields ==> f.name != name && f.attname != name
  {
    FindField(m.concreteFields, name)
  }

  function FindField(fs: seq<Field>, name: string): (r: Result<Field>)
    ensures r.Ok? ==> r.value in fs && (r.value.name == name || r.value.attname == name)
    ensures r.Err? ==> r.error == FieldDoesNotExist(name) && forall f :: f in fs ==> f.name != name && f.attname != name
  {
    if |fs| == 0 then Err(FieldDoesNotExist(name))
    else if fs[0].name == name || fs[0].attname == name then Ok(fs[0])
    else FindField(fs[1..], name)
  }

  /** `[_meta.get_field(n) for n in names]`: the fields in order, or the error of the first unknown name. */
  function GetFields(m: ModelMeta, names: seq<string>): (r: Result<seq<Field>>)
    ensures r.Ok? ==> |r.value| == |names|
    ensures r.Ok? ==> forall i :: 0 <= i < |names| ==> GetField(m, names[i]) == Ok(r.value[i])
    ensures r.Err? ==> exists i :: (0 <= i < |names| && GetField(m, names[i]) == Err(r.error)
                                    && forall j :: 0 <= j < i ==> GetField(m, names[j]).Ok?)
  {
    if |names| == 0 then Ok([])
    else match GetField(m, names[0])
      case Err(e) => Err(e)
      case Ok(f) =>
        match GetFields(m, names[1..])
        case Err(e) =>
          ghost var i :| 0 <= i < |names[1..]| && GetField(m, names[1..][i]) == Err(e)
            && forall j :: 0 <= j < i ==> GetField(m, names[1..][j]).Ok?;
          assert GetField(m, names[i + 1]) == Err(e);
          assert forall j :: 0 <= j < i + 1 ==> GetField(m, names[j]).Ok? by {
            forall j | 0 <= j < i + 1 ensures GetField(m, names[j]).Ok? {
              if j > 0 { assert names[j] == names[1..][j - 1]; }
            }
          }
          Err(e)
        case Ok(rest) => Ok([f] + rest)
  }

  /** A list of `get_field` calls evaluated left to right fails with the error of the first unknown name. */
  lemma {:induction false} GetFieldsFirstError(m: ModelMeta, names: seq<string>, i: nat)
    requires i < |names| && GetField(m, names[i]).Err?
    requires forall j :: 0 <= j < i ==> GetField(m, names[j]).Ok?
    ensures GetFields(m, names) == Err(GetField(m, names[i]).error)
  {
    if i > 0 {
      assert names[1..][i - 1] == names[i];
      assert forall j :: 0 <= j < i - 1 ==> names[1..][j] == names[j + 1];
      GetFieldsFirstError(m, names[1..], i - 1);
    }
  }

  /** When every name is known, the list is the fields found, in order. */
  lemma {:induction false} GetFieldsAllKnown(m: ModelMeta, names: seq<string>, fs: seq<Field>)
    requires |fs| == |names|
    requires forall j :: 0 <= j < |names| ==> GetField(m, names[j]) == Ok(fs[j])
    ensures GetFields(m, names) == Ok(fs)
  {
    if |names| > 0 {
      assert forall j :: 0 <= j < |names| - 1 ==> names[1..][j] == names[j + 1] && fs[1..][j] == fs[j + 1];
      GetFieldsAllKnown(m, names[1..], fs[1..]);
      assert fs == [fs[0]] + fs[1..];
    }
  }

  /** A `Q` object: positional Q children, keyword lookups, and the negation flag `~` flips. */
  datatype Q = Q(args: seq<Q>, kwargs: Dict<string, Value>, negated: bool)

  /** `~q`. */
  function Invert(q: Q): Q
  {
    q.(negated := !q.negated)
  }

  datatype SelectRelated = NoJoins | AllJoins | Paths(paths: seq<string>)

  /** A call to `add_immediate_loading` (only) or `add_deferred_loading` (defer), as recorded on the query. */
  datatype Loading = Only(fields: seq<string>) | Defer(fields: seq<string>)

  /** An aggregate or annotation expression; only its default alias is read by the core. */
  datatype Expression = Expression(source: string, defaultAlias: string)

  /**
   * Django's `Query`, as a record of what the core reads and writes. `where` is the
   * conjunction of the Q objects given to `add_q`, in order; `low`/`high` are the limits.
   */
  datatype Query = Query(
    modelLabel: string,
    where: seq<Q>,
    orderBy: seq<string>,
    standardOrdering: bool,
    low: int,
    high: Option<int>,
    distinct: bool,
    distinctFields: seq<string>,
    selectRelated: SelectRelated,
    loading: seq<Loading>,
    valuesSelect: Option<seq<string>>,
    annotations: Dict<string, Expression>,
    annotationMask: Option<set<string>>,
    defaultCols: bool,
    groupBy: bool)

  /** `Query(model)`: nothing filtered, ordered, limited or annotated. */
  function NewQuery(m: ModelMeta): Query
  {
    Query(m.modelLabel, [], [], true, 0, None, false, [], NoJoins, [], None, [], None, true, false)
  }

  function AddQ(q: Query, c: Q): Query
  {
    q.(where := q.where + [c])
  }

  function ClearOrdering(q: Query): Query
  {
    q.(orderBy := [])
  }

  function AddOrdering(q: Query, fields: seq<string>): Query
  {
    q.(orderBy := q.orderBy + fields)
  }

  function SetLimits(q: Query, low: int, high: Option<int>): Query
  {
    q.(low := low, high := high)
  }

  function AddDistinctFields(q: Query, fields: seq<string>): Query
  {
    q.(distinct := true, distinctFields := fields)
  }

  function AddSelectRelated(q: Query, fields: seq<string>): Query
  {
    q.(selectRelated := if q.selectRelated.Paths? then Paths(q.selectRelated.paths + fields) else Paths(fields))
  }

  function AddLoading(q: Query, l: Loading): Query
  {
    q.(loading := q.loading + [l])
  }

  /**
   * `set_values(fields)`: the fields recorded; given any, the annotation mask becomes
   * the fields that are selected annotations, so other annotations drop out of
   * `annotation_select`.
   */
  function SetValues(q: Query, fields: seq<string>): Query
  {
    if |fields| == 0 then q.(valuesSelect := Some(fields))
    else q.(valuesSelect := Some(fields), annotationMask := Some(set f | f in fields && f in AnnotationSelect(q)))
  }

  /** `append_annotation_mask(aliases)`: a mask, when there is one, gains the aliases. */
  function WithAliases(mask: Option<set<string>>, aliases: seq<string>): Option<set<string>>
  {
    match mask
    case None => None
    case Some(m) => Some(m + set a | a in aliases)
  }

  /** Adding no aliases keeps a mask; adding two lists adds their concatenation. */
  lemma WithAliasesAppend(mask: Option<set<string>>, a: seq<string>, b: seq<string>)
    ensures WithAliases(mask, []) == mask
    ensures WithAliases(WithAliases(mask, a), b) == WithAliases(mask, a + b)
  {
    if mask.Some? {
      var m := mask.value;
      assert m + (set x: string | x in []) == m;
      var sa, sb, sab := (set x | x in a), (set x | x in b), (set x | x in a + b);
      forall y | y in sab
        ensures y in sa || y in sb
      {
        assert y in a || y in b;
      }
      assert (m + sa) + sb == m + sab;
    }
  }

  /** `add_annotation(e, alias)`: the annotation set, and selected through the mask. */
  function AddAnnotation(q: Query, e: Expression, alias: string): Query
  {
    q.(annotations := Put(q.annotations, alias, e), annotationMask := WithAliases(q.annotationMask, [alias]))
  }

  /** Whether a mask lets an alias through: no mask selects every annotation. */
  predicate Unmasked(mask: Option<set<string>>, alias: string)
  {
    mask.None? || alias in mask.value
  }

  /** The aliases a mask lets through, in their order. */
  function Masked(aliases: seq<string>, mask: Option<set<string>>): (r: seq<string>)
    ensures Subseq(r, aliases)
    ensures forall a :: a in r <==> a in aliases && Unmasked(mask, a)
    ensures mask.None? ==> r == aliases
  {
    if |aliases| == 0 then []
    else
      var init := aliases[..|aliases| - 1];
      var x := aliases[|aliases| - 1];
      assert aliases == init + [x];
      SubseqSnoc(Masked(init, mask), init, x);
      if Unmasked(mask, x) then Masked(init, mask) + [x] else Masked(init, mask)
  }

  /** `query.annotation_select.keys()`: the annotation aliases the mask selects, in annotation order. */
  function AnnotationSelect(q: Query): seq<string>
  {
    Masked(Keys(q.annotations), q.annotationMask)
  }

  /**
   * After `set_values(fields)` with some fields, an alias stays selected exactly when
   * it is one of the fields and was selected; with no fields nothing changes.
   */
  lemma ValuesSelect(q: Query, fields: seq<string>)
    ensures |fields| > 0 ==> forall a :: a in AnnotationSelect(SetValues(q, fields)) <==> a in fields && a in AnnotationSelect(q)
    ensures |fields| == 0 ==> AnnotationSelect(SetValues(q, fields)) == AnnotationSelect(q)
  {
  }

  /** After `add_annotation(e, alias)` the alias is selected and every other alias stays as it was. */
  lemma AddAnnotationSelect(q: Query, e: Expression, alias: string)
    ensures alias in AnnotationSelect(AddAnnotation(q, e, alias))
    ensures forall a :: a != alias ==> (a in AnnotationSelect(AddAnnotation(q, e, alias)) <==> a in AnnotationSelect(q))
  {
    PutKeys(q.annotations, alias, e);
  }

  /** A new alias added under a mask goes last in `annotation_select`. */
  lemma AddAnnotationLast(q: Query, e: Expression, alias: string)
    requires alias !in Keys(q.annotations)
    ensures AnnotationSelect(AddAnnotation(q, e, alias)) == AnnotationSelect(q) + [alias]
  {
    PutKeys(q.annotations, alias, e);
    var keys := Keys(q.annotations);
    var mask := AddAnnotation(q, e, alias).annotationMask;
    assert (keys + [alias])[..|keys|] == keys;
    MaskedWiden(keys, q.annotationMask, mask);
  }

  /** A mask that lets none of the aliases through selects nothing. */
  lemma {:induction false} MaskedNone(aliases: seq<string>, mask: Option<set<string>>)
    requires forall a :: a in aliases ==> !Unmasked(mask, a)
    ensures Masked(aliases, mask) == []
  {
    if |aliases| > 0 {
      MaskedNone(aliases[..|aliases| - 1], mask);
    }
  }

  /** Widening a mask by aliases outside the list selects the same aliases of it. */
  lemma {:induction false} MaskedWiden(aliases: seq<string>, mask: Option<set<string>>, wider: Option<set<string>>)
    requires forall a :: a in aliases ==> (Unmasked(mask, a) <==> Unmasked(wider, a))
    ensures Masked(aliases, mask) == Masked(aliases, wider)
  {
    if |aliases| > 0 {
      MaskedWiden(aliases[..|aliases| - 1], mask, wider);
    }
  }

  /**
   * `connection.ops.quote_name` of the PostgreSQL backend: wrap in double quotes
   * unless the name already starts and ends with one.
   */
  function QuoteName(name: string): (r: string)
    ensures Percents(r) == Percents(name)
  {
    if |name| > 0 && name[0] == '"' && name[|name| - 1] == '"' then name
    else
      PercentsConcat("\"", name);
      PercentsConcat("\"" + name, "\"");
      "\"" + name + "\""
  }

  /** A bound parameter: a value passed through `field.get_db_prep_save`, or one passed as it is. */
  datatype Param = Prepared(field: Field, value: Value) | Plain(value: Value)

  /** One SQL statement handed to the cursor. */
  datatype Statement = Statement(sql: string, params: seq<Param>)

  /** `_state` together with the attribute values: what a statement can change on an instance. */
  datatype InstanceState = InstanceState(values: map<string, Value>, adding: bool, db: Option<string>)

  /** `dict(zip(names, vals))` built left to right. */
  function ZipMap(names: seq<string>, vals: seq<Value>): map<string, Value>
    requires |names| == |vals|
  {
    if |names| == 0 then map[]
    else ZipMap(names[..|names| - 1], vals[..|vals| - 1])[names[|names| - 1] := vals[|vals| - 1]]
  }

  /** `dict(zip(names, vals))` has exactly the names as keys. */
  lemma {:induction false} ZipMapKeys(names: seq<string>, vals: seq<Value>)
    requires |names| == |vals|
    ensures ZipMap(names, vals).Keys == set i | 0 <= i < |names| :: names[i]
  {
    if |names| > 0 {
      var n := |names| - 1;
      ZipMapKeys(names[..n], vals[..n]);
      assert (set i | 0 <= i < |names| :: names[i]) == (set i | 0 <= i < n :: names[..n][i]) + {names[n]};
    }
  }

  lemma {:induction false} ZipMapAt(names: seq<string>, vals: seq<Value>, i: nat)
    requires |names| == |vals| && Distinct(names) && i < |names|
    ensures names[i] in ZipMap(names, vals) && ZipMap(names, vals)[names[i]] == vals[i]
  {
    if i < |names| - 1 {
      ZipMapAt(names[..|names| - 1], vals[..|vals| - 1], i);
    }
  }

  /** The attribute values `Model(**kwargs)` starts from: per field its attname, else its name, else its default. */
  function InitValues(fields: seq<Field>, kwargs: Dict<string, Value>): (r: map<string, Value>)
    ensures r.Keys == set f | f in fields :: f.attname
  {
    if |fields| == 0 then map[]
    else
      var f := fields[|fields| - 1];
      InitValues(fields[..|fields| - 1], kwargs)[f.attname := InitValue(f, kwargs)]
  }

  /** The value one field starts from: its attname keyword, else its name keyword, else its default. */
  function InitValue(f: Field, kwargs: Dict<string, Value>): Value
  {
    match Get(kwargs, f.attname)
    case Some(x) => x
    case None =>
      match Get(kwargs, f.name)
      case Some(x) => x
      case None => f.default
  }

  /** A model instance: its attributes (a concrete attname missing from `values` is a deferred field) and `_state`. */
  class Instance {
    const meta: ModelMeta
    var values: map<string, Value>
    var adding: bool
    var db: Option<string>

    /**
     * `Model(**kwargs)` for keywords it accepts: a new, unsaved instance; a `pk` keyword
     * sets the primary key. On any other keyword Django raises TypeError instead,
     * which `ConstructArgs` states and the callers check before constructing.
     */
    constructor (meta: ModelMeta, kwargs: Dict<string, Value>)
      requires ConstructArgs(meta, kwargs).Ok?
      ensures this.meta == meta && adding && db == None
      ensures values == ConstructArgs(meta, kwargs).value
    {
      this.meta := meta;
      values := Construct(meta, kwargs);
      adding := true;
      db := None;
    }

    /** `Model.from_db(using, names, vals)`: a loaded instance holding exactly the given attributes. */
    constructor FromDb(meta: ModelMeta, using: string, names: seq<string>, vals: seq<Value>)
      requires |names| == |vals|
      ensures this.meta == meta && values == ZipMap(names, vals) && !adding && db == Some(using)
    {
      this.meta := meta;
      values := ZipMap(names, vals);
      adding := false;
      db := Some(using);
    }

    function State(): InstanceState
      reads this
    {
      InstanceState(values, adding, db)
    }

    /** `getattr(instance, attname)` for a concrete attname, taken as a value: a deferred field reads as Null here. */
    function Read(attname: string): Value
      reads this
    {
      AttrValue(values, attname)
    }

    /** The value of a concrete field. */
    function FieldValue(f: Field): Value
      reads this
    {
      Read(f.attname)
    }

    /** `instance.pk`. */
    function Pk(): Value
      reads this
    {
      FieldValue(meta.pk)
    }

    /** `getattr(instance, name)`, with `pk` standing for the primary key's attname; None when unset. */
    function Attr(name: string): Option<Value>
      reads this
    {
      Lookup(values, AttrKey(meta, name))
    }

    /** `setattr(instance, name, v)`. */
    method SetAttr(name: string, v: Value)
      modifies this
      ensures values == old(values)[AttrKey(meta, name) := v]
      ensures adding == old(adding) && db == old(db)
    {
      values := values[AttrKey(meta, name) := v];
    }
  }

  /** `getattr` on an attribute map: the value held for key, or None when the attribute is absent. */
  function Lookup(values: map<string, Value>, key: string): Option<Value>
  {
    if key in values then Some(values[key]) else None
  }

  /** The value an attribute map holds for attname, an absent attribute taken as Null. */
  function AttrValue(values: map<string, Value>, attname: string): Value
  {
    match Lookup(values, attname)
    case Some(v) => v
    case None => Null
  }

  /** The attribute `name` stands for: the property `pk` is the primary key's attname. */
  function AttrKey(m: ModelMeta, name: string): string
  {
    if name == "pk" then m.pk.attname else name
  }

  /** The attribute values `Model(**kwargs)` sets: `InitValues`, then a `pk` keyword sets the primary key's attname. */
  function Construct(m: ModelMeta, kwargs: Dict<string, Value>): map<string, Value>
  {
    var init := InitValues(m.concreteFields, kwargs);
    match Get(kwargs, "pk")
    case Some(v) => init[m.pk.attname := v]
    case None => init
  }

  /** A keyword `Model(**kwargs)` accepts: the property `pk`, or a concrete field's name or attname. */
  predicate InitKeyword(m: ModelMeta, k: string)
  {
    k == "pk" || GetField(m, k).Ok?
  }

  /**
   * `Model(**kwargs)`: the attribute values it sets, or the TypeError ("unexpected
   * keyword arguments") it raises when a keyword is neither `pk` nor a field.
   */
  function ConstructArgs(m: ModelMeta, kwargs: Dict<string, Value>): (r: Result<map<string, Value>>)
    ensures r.Ok? <==> forall k :: k in Keys(kwargs) ==> InitKeyword(m, k)
    ensures r.Err? ==> r.error == TypeError
    ensures r.Ok? ==> r.value.Keys == (set f | f in m.concreteFields :: f.attname) + (if "pk" in Keys(kwargs) then {m.pk.attname} else {})
  {
    GetSome(kwargs, "pk");
    assert forall i :: 0 <= i < |kwargs| ==> Keys(kwargs)[i] == kwargs[i].0;
    if forall i :: 0 <= i < |kwargs| ==> InitKeyword(m, kwargs[i].0) then Ok(Construct(m, kwargs)) else Err(TypeError)
  }

  /** When no later field shares its attname, field i keeps the value it starts from. */
  lemma {:induction false} InitValuesAt(fields: seq<Field>, kwargs: Dict<string, Value>, i: nat)
    requires i < |fields|
    requires forall j :: i < j < |fields| ==> fields[j].attname != fields[i].attname
    ensures fields[i].attname in InitValues(fields, kwargs)
    ensures InitValues(fields, kwargs)[fields[i].attname] == InitValue(fields[i], kwargs)
  {
    var n := |fields| - 1;
    if i < n {
      InitValuesAt(fields[..n], kwargs, i);
    }
  }

  /**
   * What `Model(**kwargs)` sets when it accepts its keywords: every concrete field not
   * overridden by `pk` from its attname keyword, else its name keyword, else its
   * default; and the primary key's attname from a `pk` keyword.
   */
  lemma ConstructValues(m: ModelMeta, kwargs: Dict<string, Value>)
    requires ConstructArgs(m, kwargs).Ok? && Distinct(AttNames(m.concreteFields))
    ensures forall f :: f in m.concreteFields && !("pk" in Keys(kwargs) && f.attname == m.pk.attname) ==>
      && f.attname in ConstructArgs(m, kwargs).value
      && (Get(kwargs, f.attname).Some? ==> ConstructArgs(m, kwargs).value[f.attname] == Get(kwargs, f.attname).value)
      && (Get(kwargs, f.attname).None? && Get(kwargs, f.name).Some? ==>
            ConstructArgs(m, kwargs).value[f.attname] == Get(kwargs, f.name).value)
      && (Get(kwargs, f.attname).None? && Get(kwargs, f.name).None? ==>
            ConstructArgs(m, kwargs).value[f.attname] == f.default)
    ensures "pk" in Keys(kwargs) ==>
      && Get(kwargs, "pk").Some?
      && m.pk.attname in ConstructArgs(m, kwargs).value
      && ConstructArgs(m, kwargs).value[m.pk.attname] == Get(kwargs, "pk").value
  {
    GetSome(kwargs, "pk");
    assert ConstructArgs(m, kwargs).value == Construct(m, kwargs);
    forall f | f in m.concreteFields && !("pk" in Keys(kwargs) && f.attname == m.pk.attname)
      ensures f.attname in Construct(m, kwargs) && Construct(m, kwargs)[f.attname] == InitValue(f, kwargs)
    {
      var i :| 0 <= i < |m.concreteFields| && m.concreteFields[i] == f;
      ConstructAt(m, kwargs, i);
    }
  }

  /** A concrete field that no `pk` keyword overrides holds the value it starts from. */
  lemma ConstructAt(m: ModelMeta, kwargs: Dict<string, Value>, i: nat)
    requires Distinct(AttNames(m.concreteFields)) && i < |m.concreteFields|
    requires !(Get(kwargs, "pk").Some? && m.concreteFields[i].attname == m.pk.attname)
    ensures m.concreteFields[i].attname in Construct(m, kwargs)
    ensures Construct(m, kwargs)[m.concreteFields[i].attname] == InitValue(m.concreteFields[i], kwargs)
  {
    assert forall j :: i < j < |m.concreteFields| ==> AttNames(m.concreteFields)[j] != AttNames(m.concreteFields)[i];
    InitValuesAt(m.concreteFields, kwargs, i);
  }
}
