# turbo-orm, modelled in Dafny

turbo-orm puts an async layer over Django's ORM. `AsyncQuerySet` builds Django `Query`
objects by chaining, and its terminal coroutines (`aget`, `afirst`, `acreate`,
`abulk_create`, ...) hand those queries, or SQL that the module builds itself, to an
async PostgreSQL cursor. The same module turns the rows that come back into model
instances. `AsyncModelMixin` adds `asave`, `adelete` and `arefresh_from_db` to models.

This project models that core:

- `QuerySets` (queryset.dfy): the `AsyncQuerySet` class, with fields `query`, `db`,
  `prefetch` and `iterable`. It covers `_clone`, every chaining method, `__getitem__`,
  and the decisions of the terminal methods.
- `Execution` (execution.dfy) and `BulkExecution` (bulk.dfy): the statement builders
  and executors of `execution.py`.
- `Utils` (utils.py) and `Models` (models.py), for those two files.

The modules below them model the collaborators, not turbo-orm:

- `Django`: the Django collaborators.
  - `Field` and `ModelMeta` stand for `_meta` and `get_field`.
  - `Query` is a record of what the core sets on a query: conditions, ordering and its
    direction, limits, distinct, select_related, deferred and immediate loading,
    values, annotations and the annotation mask behind `annotation_select`, default columns
    and grouping.
  - `Instance` is a class holding an attribute map plus `_state.adding` and `_state.db`.
  - `quote_name` is PostgreSQL's double quoting.
- `Dicts`: Python's insertion-ordered `dict`.
- `SqlText`: `str.join` and counting `%s` placeholders.
- `Base`: Option, Result, errors, values and rows.

The database is a parameter. Each executor takes a function that answers for it, and
every such function takes the database alias first, the alias the source hands to
`_get_cursor(using)`:

- `fetch: (string, Query) -> seq<Row>` plays `execute_query`;
- `fetchOne` plays `cursor.fetchone()` after a statement;
- `rowcount` plays `cursor.rowcount`;
- `compile` plays the compiler of the alias's connection.

Bulk operations index these answers by statement number. `returning(using, k)` is the
`RETURNING` column of the k-th INSERT, and `rowcount(using, j)` is the count of the j-th
UPDATE; `On(answers, using)` is the sequence of answers of one alias.

Each method returns the statements it sends, so their contracts state the SQL text and
the parameters. A value passed through `get_db_prep_save` is kept symbolic as
`Prepared(field, value)`. A Django exception is an `Err` of the `Error` datatype:
DoesNotExist, MultipleObjectsReturned, FieldDoesNotExist, ValueError, TypeError,
AttributeError or IndexError.

`Window(rows, low, high)` states what the database returns under the limits
`set_limits(low, high)` records. `PySlice` is Python's list slicing, the reference that
`__getitem__` is proved against.

## Model

| member | source | states |
|---|---|---|
| Django.GetField | src/turbo_orm/execution.py:237 | `get_field(name)` finds a concrete field whose name or attname is `name`, or fails with FieldDoesNotExist exactly when no concrete field has it |
| Django.GetFields | src/turbo_orm/execution.py:237 | the list comprehension of `get_field` calls gives one field per name in order, or the error of the first unknown name |
| Django.GetFieldsFirstError | src/turbo_orm/execution.py:465 | when the i-th name is the first unknown one, the whole list fails with its error |
| Django.GetFieldsAllKnown | src/turbo_orm/execution.py:465 | when every name is known, the result is exactly the fields found, in order |
| Django.QuoteName | src/turbo_orm/execution.py:108 | quoting a table or column name adds no `%` placeholder |
| Django.ZipMapAt | src/turbo_orm/utils.py:45-49 | `from_db(names, values)` sets each attname to its value when no attname repeats |
| Django.ZipMapKeys | src/turbo_orm/utils.py:45-49 | the instance `from_db(names, values)` builds has exactly the given names as attributes |
| Django.ConstructAt | src/turbo_orm/queryset.py:459 | a concrete field that no `pk` keyword overrides holds the value it starts from |
| Django.Masked | src/turbo_orm/execution.py:156 | `annotation_select` keeps, in annotation order, exactly the aliases the mask lets through, and every alias when there is no mask |
| Django.ValuesSelect | src/turbo_orm/queryset.py:202-203 | after `set_values(fields)` with some fields, an alias stays selected exactly when it is one of the fields and was selected; with none nothing changes |
| Django.AddAnnotationSelect | src/turbo_orm/queryset.py:204-206 | after `add_annotation(e, alias)` the alias is selected and every other alias stays as it was |
| Django.AddAnnotationLast | src/turbo_orm/queryset.py:204-206 | a new alias goes last in `annotation_select` |
| Django.ConstructArgs | src/turbo_orm/queryset.py:459 | `Model(**kwargs)` raises TypeError exactly when some keyword is neither `pk` nor a concrete field's name or attname; otherwise it sets exactly the concrete attnames, plus the key's attname for `pk` |
| Django.Instance.constructor | src/turbo_orm/queryset.py:459 | for keywords it accepts, `Model(**kwargs)` is a new, adding, unsaved instance holding the values `ConstructArgs` gives, field by field as `ConstructValues` states |
| Django.InitValuesAt | src/turbo_orm/queryset.py:459 | a field whose attname no later field shares keeps the value it starts from (its attname keyword, else its name keyword, else its default); no later field overwrites it |
| Django.ConstructValues | src/turbo_orm/queryset.py:459 | when `Model(**kwargs)` accepts its keywords, every concrete field not overridden by `pk` holds its attname keyword, else its name keyword, else its default, and a `pk` keyword sets the primary key's attname |
| Django.Instance.FromDb | src/turbo_orm/utils.py:45-49 | an instance built by `from_db` is not adding, belongs to the alias, and holds exactly the zipped names and values |
| Django.Instance.SetAttr | src/turbo_orm/queryset.py:608 | `setattr` changes only the one attribute (`pk` meaning the primary key's attname) and leaves `_state` alone |
| Utils.GetFieldNames | src/turbo_orm/utils.py:68-78 | one attname per concrete field, in field order |
| Utils.GetFieldColumns | src/turbo_orm/utils.py:81-91 | one column per concrete field, in field order |
| Utils.FromDbArgs | src/turbo_orm/utils.py:47-48 | the two truncations keep equally long prefixes of the attnames and of the row, as long as the shorter one |
| Utils.HydratedValuesAt | src/turbo_orm/utils.py:43-50 | the instance built from a row has exactly the first min(fields, row) attnames, each holding the row value at its position |
| Utils.RowsToInstances | src/turbo_orm/utils.py:16-52 | one fresh instance per row, in row order, each hydrated from its own row for the alias; no rows gives none |
| Utils.SelectedNamesShape | src/turbo_orm/utils.py:113-117 | an attname is kept exactly when `fields` (if given) contains it and `exclude` (if given) does not; kept names keep field order |
| Utils.SelectedNamesAll | src/turbo_orm/utils.py:113-117 | with neither `fields` nor `exclude` every attname is kept |
| Utils.ModelDictKeys | src/turbo_orm/utils.py:110-120 | the keys of `model_to_dict` are the selected attnames in field order |
| Utils.ModelDictValues | src/turbo_orm/utils.py:118 | every entry maps an attname to the instance's attribute value |
| Utils.ModelDictFresh | src/turbo_orm/utils.py:113-118 | no attname is assigned twice, so each assignment appends a key |
| Utils.ModelToDict | src/turbo_orm/utils.py:94-120 | the loop builds exactly the dict of selected attnames and their values |
| Execution.CountStatementShape | src/turbo_orm/execution.py:107-122 | the COUNT has a WHERE clause and the compiled parameters exactly when the query has conditions that compile to text; otherwise there are no parameters; there is one placeholder per parameter |
| Execution.ExecuteCount | src/turbo_orm/execution.py:92-127 | sends that COUNT to the database `using` names and returns the first column of the fetched row, or 0 when no row comes back |
| Execution.AggregateResultShape | src/turbo_orm/execution.py:153-159 | no row or an empty row gives `{}`; a row shorter than the annotations is IndexError; otherwise the dict maps each annotation alias, in order, to its column |
| Execution.ExecuteAggregate | src/turbo_orm/execution.py:130-159 | the query sent has its ordering cleared, and the result is that mapping, over the aliases of `annotation_select` (the annotations the mask selects, in order), of the row the database `using` names returns |
| Execution.InsertableOfShape | src/turbo_orm/execution.py:177 | the inserted fields are exactly the concrete fields that are not an auto-created primary key, in field order |
| Execution.WrittenFieldsShape | src/turbo_orm/execution.py:184-189 | a field gets a column exactly when its value is not None or the field is not nullable, in field order |
| Execution.InsertStatementParams | src/turbo_orm/execution.py:177-202 | the INSERT carries one prepared parameter per written field, in order, and writes exactly the insertable fields whose value is set or not nullable |
| Execution.InsertStatementPlaceholders | src/turbo_orm/execution.py:184-202 | with percent-free names the INSERT, including the DEFAULT VALUES form, has one placeholder per parameter |
| Execution.BuildInsert | src/turbo_orm/execution.py:176-202 | the column loop builds exactly that INSERT ... RETURNING statement |
| Execution.AfterInsertState | src/turbo_orm/execution.py:209-215 | after the insert the instance is not adding and belongs to the alias; the returned key, if any, is its primary key; every other attribute is unchanged |
| Execution.ExecuteInsert | src/turbo_orm/execution.py:162-215 | sends the INSERT of the instance's values to the database `using` names and leaves the instance in that state, with that alias |
| Execution.UpdateStatementLayout | src/turbo_orm/execution.py:240-254 | the UPDATE has one prepared parameter per SET field in order, then the primary key as it is, and one placeholder per parameter |
| Execution.BuildUpdate | src/turbo_orm/execution.py:240-254 | the SET loop builds exactly that UPDATE for the instance's values and key |
| Execution.ExecuteInstanceSave | src/turbo_orm/execution.py:218-257 | an unknown update field fails with the first unknown name's error; otherwise the UPDATE of those fields is sent |
| Execution.Assignments | src/turbo_orm/execution.py:287-289 | each value is assigned to the `name` of the field that `get_field` found for its key, in dict order |
| Execution.ExecuteUpdate | src/turbo_orm/execution.py:260-297 | an unknown key fails with the first unknown name's error; otherwise the rowcount the database `using` names reports for the update with the query's conditions and those assignments |
| Execution.ExecuteDelete | src/turbo_orm/execution.py:300-332 | returns the rowcount the database `using` names reports for the delete with the query's conditions, and a dict holding only the model label, mapped to that count |
| BulkExecution.BatchParamsAt | src/turbo_orm/execution.py:388-393 | the parameters of a batch are row-major: row r, field c sits at r * fields + c |
| BulkExecution.BatchStatementPlaceholders | src/turbo_orm/execution.py:388-414 | with percent-free names and clause, a batch INSERT has one placeholder per parameter |
| BulkExecution.BuildRowParams | src/turbo_orm/execution.py:389-393 | the inner loop yields the prepared values of the insert fields for one object |
| BulkExecution.BuildBatchStatement | src/turbo_orm/execution.py:384-399 | the loops over a batch build exactly the batch's multi-row INSERT |
| BulkExecution.ConflictClauseErrors | src/turbo_orm/execution.py:402-412 | the conflict clause fails only when conflicts are updated with both field lists given, and then only on a unique or update field the model lacks |
| BulkExecution.ConflictClausePercents | src/turbo_orm/execution.py:402-412 | ON CONFLICT DO NOTHING and DO UPDATE SET ... = EXCLUDED... add no placeholder |
| BulkExecution.BuildConflictClause | src/turbo_orm/execution.py:402-412 | the two loops build exactly that clause |
| BulkExecution.AfterBatch | src/turbo_orm/execution.py:422-425 | `zip(batch, rows)`: the p-th object gets the p-th returned key, is no longer adding and belongs to the alias; objects past the returned rows are untouched |
| BulkExecution.BatchesPartition | src/turbo_orm/execution.py:381-382 | the batches concatenate back to the objects; each is non-empty and at most batch_size long, and all but the last are exactly batch_size long |
| BulkExecution.BatchesCount | src/turbo_orm/execution.py:381-382 | there are ceil(n / batch_size) batches |
| BulkExecution.BatchesAt | src/turbo_orm/execution.py:381-382 | batch b is `objs[b * size : b * size + size]` |
| BulkExecution.BulkInsertStatements | src/turbo_orm/execution.py:381-418 | the b-th statement sent is the INSERT of the objects from b * size on |
| BulkExecution.BulkInsertStates | src/turbo_orm/execution.py:381-425 | object b * size + p ends with the p-th key returned for batch b when that batch returned that many rows, and is otherwise unchanged |
| BulkExecution.SetReturnedKey | src/turbo_orm/execution.py:423-425 | setting one object's key changes only that object |
| BulkExecution.AssignReturnedKeys | src/turbo_orm/execution.py:422-425 | the zip loop leaves the objects before and after the batch alone and the batch as `AfterBatch` says |
| BulkExecution.InsertBatch | src/turbo_orm/execution.py:382-427 | one batch sends its INSERT and takes its returned keys |
| BulkExecution.InsertNextBatch | src/turbo_orm/execution.py:381-427 | one turn of the batch loop extends the statements sent and the finished objects by one batch |
| BulkExecution.InsertAll | src/turbo_orm/execution.py:378-429 | the batch loop sends one INSERT per batch, in order, leaves every object as its batch's returned keys say, and returns all the objects |
| BulkExecution.ExecuteBulkInsert | src/turbo_orm/execution.py:335-429 | no objects, or a negative batch size, sends nothing and returns `[]`; batch size 0 is the ValueError of `range`; an unknown conflict field fails before anything is sent; otherwise as `InsertAll` |
| BulkExecution.UpdateStatementsAppend | src/turbo_orm/execution.py:470-491 | the UPDATEs for two runs of objects are those of the first, then those of the second |
| BulkExecution.UpdateBatch | src/turbo_orm/execution.py:475-491 | one batch sends one UPDATE per object and adds their rowcounts |
| BulkExecution.UpdateAll | src/turbo_orm/execution.py:469-491 | batching changes nothing: one UPDATE per object in order, and the total is the sum of all rowcounts |
| BulkExecution.ExecuteBulkUpdate | src/turbo_orm/execution.py:432-493 | no objects or no fields gives 0 and sends nothing; an unknown field fails before anything is sent; batch size 0 is ValueError; a negative one sends nothing; otherwise the j-th statement is the UPDATE of object j and the result is the sum of the rowcounts the database `using` names reports |
| Models.NonPkNamesShape | src/turbo_orm/models.py:52-55 | the default update list holds exactly the names of the non-primary-key fields |
| Models.NonPkNamesOrder | src/turbo_orm/models.py:52-55 | that list keeps field order |
| Models.PlanSaveCases | src/turbo_orm/models.py:49-57 | an adding instance is inserted; otherwise the given names are updated, and an empty list sends nothing; without a list, every non-pk field is updated, and nothing is sent exactly when every field is a primary key |
| Models.DefaultNamesKnown | src/turbo_orm/models.py:52-57 | the default update list never fails in `get_field` |
| Models.SaveWritesOnlyNamed | src/turbo_orm/models.py:56-57 | the UPDATE of `asave` writes exactly the named fields, in order, then the key |
| Models.ASave | src/turbo_orm/models.py:34-57 | sends the INSERT and updates `_state`, or sends the planned UPDATE leaving the instance alone, or sends nothing |
| Models.AfterDeleteState | src/turbo_orm/models.py:77-79 | after `adelete` the primary key is None and the instance is adding, with every other attribute kept, so the next `asave` inserts |
| Models.ADelete | src/turbo_orm/models.py:59-81 | deletes by `pk=self.pk` on the database `using` names, returns the count under the model label, and resets the instance |
| Models.DeferNamesShape | src/turbo_orm/models.py:101-106 | the deferred names are exactly the names of the fields that are neither asked for nor the primary key |
| Models.RefreshedAttNamesShape | src/turbo_orm/models.py:121-123 | the refreshed attnames are exactly those of the asked-for fields and the primary key |
| Models.RefreshedAttNamesOrder | src/turbo_orm/models.py:121-123 | they keep field order |
| Models.RefreshSplit | src/turbo_orm/models.py:101-125 | every field is either deferred or refreshed, never both, and the refreshed ones keep their order |
| Models.RefreshValuesOverlay | src/turbo_orm/models.py:127-130 | the i-th refreshed attname takes the i-th column for every i below min(names, row); every other attribute is unchanged |
| Models.RefreshValuesAt | src/turbo_orm/models.py:119-130 | without a field list every attname is refreshed; with one exactly the asked-for fields and the key; no attname is set twice |
| Models.ARefreshFromDb | src/turbo_orm/models.py:83-130 | sends the query for this primary key to the database `using` names, deferring the unrequested fields; no row is DoesNotExist and leaves the instance alone; otherwise the first row is overlaid as above and `_state` is kept |
| Models.AssignRow | src/turbo_orm/models.py:127-130 | the `enumerate` loop guarded by `i < len(row)` sets exactly that overlay |
| QuerySets.SliceLimitsSelect | src/turbo_orm/queryset.py:264-287 | ValueError exactly for a negative int and TypeError exactly for a non-slice, non-int key; a slice with non-negative bounds selects the rows Python's slicing would; `qs[k]` selects row k, or nothing past the end |
| QuerySets.GetOutcomeWindow | src/turbo_orm/queryset.py:313-329 | limiting to two rows is enough: no match is DoesNotExist, exactly one match is that row, two or more is MultipleObjectsReturned |
| QuerySets.FirstWindow | src/turbo_orm/queryset.py:341-355 | limiting to one row returns the first matching row, or None exactly when nothing matches |
| QuerySets.LastIsFirstReversed | src/turbo_orm/queryset.py:357-376 | `alast` is `afirst` with the ordering reversed: an ordered query flips its direction; an unordered one is ordered by `-pk` where `afirst` uses `pk`; the conditions are untouched |
| QuerySets.MergePrecedence | src/turbo_orm/queryset.py:577 | in `{**a, **b}` a key of b takes b's value, and the keys are those of either |
| QuerySets.GetOrCreatePrecedence | src/turbo_orm/queryset.py:570-577 | the instance created takes a default over a lookup kwarg of the same name |
| QuerySets.UpdateOrCreatePrecedence | src/turbo_orm/queryset.py:600-612 | the instance created takes create_defaults over defaults over the lookup kwargs |
| QuerySets.EmptyDefaultsEmptySet | src/turbo_orm/queryset.py:607-609 | as written, empty defaults on an existing row still send an UPDATE whose SET list is empty |
| QuerySets.LookupNotInitKeyword | src/turbo_orm/queryset.py:459 | when no field name or attname contains `__`, `Model(**kwargs)` refuses a lookup keyword |
| QuerySets.GetOrCreateLookupRefused | src/turbo_orm/queryset.py:577-578 | as written, a lookup keyword of `aget_or_create` reaches the create, which fails with TypeError |
| QuerySets.UpdateOrCreateLookupRefused | src/turbo_orm/queryset.py:612-613 | as written, a lookup keyword of `aupdate_or_create` reaches the create, which fails with TypeError |
| QuerySets.StripLookups | src/turbo_orm/queryset.py:577 | dropping lookups keeps exactly the keywords without `__`, each with its value |
| QuerySets.CreateParamsAccepted | src/turbo_orm/queryset.py:577 | corrected create keywords: defaults win, other keywords keep their value, a lookup stays only if a default names it, and `Model` accepts them when the rest name fields |
| QuerySets.UpdateCreateParamsAccepted | src/turbo_orm/queryset.py:612 | the same with `create_defaults` over `defaults` over the other keywords |
| QuerySets.UpdateOrCreateSaveWellFormed | src/turbo_orm/queryset.py:607-609 | guarded as `asave` guards it, empty defaults send nothing; any other defaults send what the code as written sends, and every UPDATE sent has a non-empty SET list |
| QuerySets.InBulkKeysOk | src/turbo_orm/queryset.py:643 | when every instance has the attribute there is one key per row, each the row's attribute |
| QuerySets.InBulkKeysErr | src/turbo_orm/queryset.py:643 | the comprehension fails only with AttributeError, and only when some row's instance holds no value under the attname `field_name` stands for (`pk` is the primary key's attname) |
| QuerySets.LastGetZip | src/turbo_orm/queryset.py:643 | the last pair with a key is that of its last instance |
| QuerySets.InBulkDict | src/turbo_orm/queryset.py:643 | the dict has each key once and exactly the keys found, and a key maps to the last instance having it |
| QuerySets.AnnotationPrecedence | src/turbo_orm/queryset.py:242-247 | after `annotate(*args, **kwargs)` an alias maps to its keyword expression, else to the last positional one with that default alias, else to what the query had; existing aliases keep their place |
| QuerySets.AnnotateAll | src/turbo_orm/queryset.py:243-247 | the two `add_annotation` loops apply the positional pairs, then the keyword pairs, in order |
| QuerySets.AssignDefaults | src/turbo_orm/queryset.py:607-608 | the `setattr` loop overlays the defaults, in order, on the found instance |
| QuerySets.KeyedBy | src/turbo_orm/queryset.py:643 | the comprehension builds the dict of the pairs (key, instance) in row order, or stops with AttributeError at the first instance holding no value under the attname `field_name` stands for |
| QuerySets.AsyncQuerySet.constructor | src/turbo_orm/queryset.py:29-46 | the query is the one given, or `Query(model)`; no prefetch lookups; no iterable class recorded |
| QuerySets.AsyncQuerySet.Clone | src/turbo_orm/queryset.py:48-61 | a fresh query set with the same model, query, alias and prefetch lookups; the iterable class is not carried over |
| QuerySets.AsyncQuerySet.All | src/turbo_orm/queryset.py:67-69 | a clone |
| QuerySets.AsyncQuerySet.Filter | src/turbo_orm/queryset.py:71-84 | a clone whose conditions gain `Q(*args, **kwargs)` |
| QuerySets.AsyncQuerySet.Exclude | src/turbo_orm/queryset.py:86-99 | a clone whose conditions gain `~Q(*args, **kwargs)` |
| QuerySets.AsyncQuerySet.OrderBy | src/turbo_orm/queryset.py:101-114 | a clone ordered by exactly the given fields, the previous ordering dropped |
| QuerySets.AsyncQuerySet.SelectDistinct | src/turbo_orm/queryset.py:116-128 | a clone that is distinct on the given fields |
| QuerySets.AsyncQuerySet.SelectRelated | src/turbo_orm/queryset.py:130-145 | a clone joining the given relations, or every relation when none are given |
| QuerySets.AsyncQuerySet.PrefetchRelated | src/turbo_orm/queryset.py:147-161 | a clone whose prefetch lookups gain the given ones at the end |
| QuerySets.AsyncQuerySet.OnlyFields | src/turbo_orm/queryset.py:163-175 | a clone with immediate loading of the given fields |
| QuerySets.AsyncQuerySet.DeferFields | src/turbo_orm/queryset.py:177-189 | a clone with deferred loading of the given fields |
| QuerySets.AsyncQuerySet.Values | src/turbo_orm/queryset.py:191-208 | a clone selecting the given values (masking the annotations they do not name, as `ValuesSelect` states) plus the named expressions, recording the values iterable class, which no terminal method reads |
| QuerySets.AsyncQuerySet.ValuesList | src/turbo_orm/queryset.py:210-229 | a clone selecting the given values (masking the annotations they do not name), recording the values_list iterable class and the flat and named flags, which no terminal method reads |
| QuerySets.AsyncQuerySet.Annotate | src/turbo_orm/queryset.py:231-248 | a clone annotated as `AnnotateAll` states |
| QuerySets.AsyncQuerySet.Using | src/turbo_orm/queryset.py:250-262 | a clone on the given alias |
| QuerySets.AsyncQuerySet.GetItem | src/turbo_orm/queryset.py:264-287 | ValueError for a negative int, TypeError for another key type; otherwise a clone limited as `SliceLimitsSelect` states |
| QuerySets.AsyncQuerySet.AGet | src/turbo_orm/queryset.py:294-329 | sends the filtered query limited to two rows; DoesNotExist or MultipleObjectsReturned as `GetOutcomeWindow` states; otherwise the instance hydrated from the one row |
| QuerySets.AsyncQuerySet.AFirst | src/turbo_orm/queryset.py:331-355 | sends the query ordered by pk when unordered and limited to one row; None when no row comes back, else the instance of the first |
| QuerySets.AsyncQuerySet.ALast | src/turbo_orm/queryset.py:357-384 | the same with the ordering reversed |
| QuerySets.AsyncQuerySet.ACount | src/turbo_orm/queryset.py:386-396 | the COUNT of `execute_count` on the query's conditions, answered by the query set's database |
| QuerySets.AsyncQuerySet.AExists | src/turbo_orm/queryset.py:398-411 | sends the query limited to one row; true exactly when a row comes back |
| QuerySets.AsyncQuerySet.AList | src/turbo_orm/queryset.py:413-425 | one model instance per row the query set's database returns, in order, whatever iterable class is recorded |
| QuerySets.AsyncQuerySet.ACreate | src/turbo_orm/queryset.py:447-461 | an unexpected keyword is TypeError and sends nothing; otherwise the instance built from the kwargs is inserted on the query set's alias |
| QuerySets.AsyncQuerySet.AUpdate | src/turbo_orm/queryset.py:463-476 | `execute_update` on the query with the kwargs |
| QuerySets.AsyncQuerySet.ADelete | src/turbo_orm/queryset.py:478-488 | `execute_delete` on the query |
| QuerySets.AsyncQuerySet.ABulkCreate | src/turbo_orm/queryset.py:490-524 | `execute_bulk_insert` on the query set's model and alias |
| QuerySets.AsyncQuerySet.ABulkUpdate | src/turbo_orm/queryset.py:526-551 | `execute_bulk_update` on the query set's model and alias |
| QuerySets.AsyncQuerySet.GetOrCreateWith | src/turbo_orm/queryset.py:572-579 | a found instance is returned with False; DoesNotExist creates from the given keywords and returns the instance with True, or fails with TypeError when `Model` refuses a keyword; other errors propagate |
| QuerySets.AsyncQuerySet.AGetOrCreate | src/turbo_orm/queryset.py:553-579 | as written: the same, creating from `{**kwargs, **defaults}`, lookup keywords included |
| QuerySets.AsyncQuerySet.AGetOrCreateCorrected | src/turbo_orm/queryset.py:553-579 | the same, creating from the non-lookup kwargs overridden by the defaults |
| QuerySets.AsyncQuerySet.AUpdateOrCreate | src/turbo_orm/queryset.py:581-614 | as written: a found instance gets the defaults and the UPDATE of the defaults' keys is sent even when there are none, its SET list then empty; DoesNotExist creates from `{**kwargs, **defaults, **create_defaults}`, or fails with TypeError; other errors propagate |
| QuerySets.AsyncQuerySet.AUpdateOrCreateCorrected | src/turbo_orm/queryset.py:581-614 | corrected: empty defaults send nothing, others send what `UpdateOrCreateSave` says; the create drops lookup keywords |
| QuerySets.AsyncQuerySet.AInBulk | src/turbo_orm/queryset.py:616-643 | sends the query filtered by `field__in` when ids are given; the result is the dict `KeyedBy` builds from the hydrated instances |
| QuerySets.AsyncQuerySet.AAggregate | src/turbo_orm/queryset.py:649-674 | annotates as `AnnotateAll` does, drops the default columns, groups, clears the ordering, and maps the fetched row over the annotations the query selects, as `execute_aggregate` does |
| QuerySets.AggregateAfterValues | src/turbo_orm/queryset.py:202-203 | after `values(*fields)` naming no annotation, `aaggregate(alias=e)` selects only its own alias, and a row maps to `{alias: row[0]}` |

## Left out

- Async cursors, connections and `execute_query` are not modelled. The database is the `fetch`, `fetchOne`, `returning` and `rowcount` parameters.
- `execute_query_chunked` and the chunked `__aiter__` are not modelled: they are I/O in chunks over the same query.
- Transactions (`async_atomic` in `aget_or_create` and `aupdate_or_create`) are not modelled. Both methods are modelled as a sequence with no concurrent writers.
- manager.py is not part of this model. In `arefresh_from_db` the default manager's query is `Query(model)`.
- `__repr__`, `__str__`, the `db` property and the docstring examples are left out: they only format text.
- Django's SQL compiler is not modelled. Compiled WHERE text is a parameter of `execute_count` (`compile`), and the statements built by Django's `UpdateQuery`, `DeleteQuery` and `as_sql` are their inputs (conditions and assignments).
- `Field.pre_save` is modelled as reading the attribute, which ignores `auto_now` and similar hooks. `get_db_prep_save` is the symbolic `Prepared(field, value)`.
- Django.Instance.SetAttr: setting a field by its `name` does not also set the `attname` of a foreign key, because the related-object descriptor is not modelled.
- Models.ARefreshFromDb: `hasattr(self, field_name)` is taken as true for every concrete attname.
- Django's `set_limits` composes a new slice with the limits a query already has. Here it records the given bounds. Negative slice bounds are passed through as given, as the source does.
- QuerySets.SliceLimitsSelect: it relates limits to Python slicing only for non-negative bounds. Negative bounds have no SQL meaning.
- The clone drops `_iterable_class`, `_flat` and `_named`, because `_clone` does not copy them. No terminal method reads them, so they change no result.
- BulkExecution.ExecuteBulkInsert requires the objects to be distinct. The same instance listed twice (aliasing) is not modelled.
- BulkExecution.ExecuteBulkInsert builds the conflict clause once, before the batch loop, while the source rebuilds the same clause for every batch. The statements, the errors and when they happen are the same.
- Utils.ModelToDict requires distinct attnames, as Django's model checks guarantee.
- Utils.ModelToDict: a deferred attname reads as Null. In Django the read goes through the deferred-attribute loader, whose synchronous query fails inside the event loop; that failure is not modelled.
- Execution.ExecuteInstanceSave: a deferred field is written as `Prepared(f, Null)`, where Django's deferred loader would fail on the read. It also returns the UPDATE without the alias it goes to.
- BulkExecution.ExecuteBulkUpdate: a deferred field of an object is written as Null, for the same reason.
- BulkExecution.ExecuteBulkInsert and Models.ASave: a deferred field read by `pre_save` is taken as Null, for the same reason.
- Statements the database rejects, such as the UPDATE with an empty SET list, are not modelled as errors: the stand-in database functions answer every statement.
- QuerySets.AsyncQuerySet.AInBulk, QuerySets.KeyedBy and QuerySets.InBulkKeys: `getattr(obj, field_name)` is modelled as a read of a concrete attname or of `pk`. A foreign key's name, a deferred attname or a property yields AttributeError in the model. In Django the related-object descriptor answers a foreign key's name (None for a null nullable key, RelatedObjectDoesNotExist for a null non-null key, otherwise a synchronous query that fails inside the event loop), the deferred loader answers a deferred attname, and a property returns its value.
- QuerySets.InBulkKeysErr: its AttributeError is the model's, raised for any name that is not a present concrete attname or `pk`; relation names, deferred attnames and properties are not told apart, for the reason given on the AInBulk line.
- Django.GetField: only concrete fields are modelled. Django's `get_field` also finds many-to-many, private (generic) and reverse-relation fields, so `aupdate(tags=...)`, `asave(update_fields=["tags"])` or `abulk_update(objs, ["tags"])` with a many-to-many `tags` get FieldDoesNotExist in the model where Django finds the field and then fails elsewhere (FieldError in `add_update_values`).
- Django.SetValues: only the recorded fields and the annotation mask are modelled. The other effects of Django's `set_values` (default columns, deferred loading, select_related, the extra mask, a FieldError for an unselected annotation in recent Django versions) are not.
- Django.InitKeyword: `Model(**kwargs)` also accepts the names of many-to-many and reverse relations and of other properties; only `pk` and the concrete fields are modelled.

## Findings

| source | as written | input that shows it | evidently intended | confidence | as-written member | corrected member |
|---|---|---|---|---|---|---|
| src/turbo_orm/queryset.py:607-609 | `aupdate_or_create` on an existing row always calls `execute_instance_update(instance, list(defaults.keys()))` | `defaults=None` or `{}` with a matching row: the statement is `UPDATE "t" SET  WHERE "id" = %s`, which PostgreSQL rejects (`EmptyDefaultsEmptySet`) | send nothing when there is nothing to update, as `asave` does with `if update_fields:` (models.py:56); every UPDATE then names a column (`UpdateOrCreateSaveWellFormed`) | not executed | QuerySets.AsyncQuerySet.AUpdateOrCreate | QuerySets.AsyncQuerySet.AUpdateOrCreateCorrected |
| src/turbo_orm/queryset.py:577-578 | `aget_or_create` creates from `{**kwargs, **defaults}`, the lookup keywords included; `aupdate_or_create` does the same at lines 612-613 | `aget_or_create(name__iexact="x")` with no matching row: `Model(name__iexact="x")` raises TypeError (`GetOrCreateLookupRefused`) | drop the keywords containing `__` before creating, as Django's own `get_or_create` does; the create then accepts every call whose other keywords name fields (`CreateParamsAccepted`) | not executed | QuerySets.AsyncQuerySet.AGetOrCreate | QuerySets.AsyncQuerySet.AGetOrCreateCorrected |
