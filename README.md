# Repofuck repository façade, modelled in Dafny

`Repofuck` is an abstract PHP base class that sits on Eloquent, Laravel's
object-relational mapper. It holds a current query handle (`$entity`), a
container of models and a container of sub-repositories, and some pending
state: `data`, `keys`, `columns` and `paginates`. Calling code chains
`entity()`, `where()`, `data()`, `keys()` and `columns()` to build that
state. A terminal call (`first`, `paginate`, `create`, `update`,
`delete`) then consumes it.

This project models the class as a Dafny class, `Repofuck.Repository`.
The fields are the class's own. Each public method becomes a Dafny method
with `modifies` and a postcondition that gives the new state in full. The
loops stay loops: the clause fold in `where`, the allow-list loop in
`map`, and the resource walk in `loadResources`. A PHP exception becomes an
`Err` result.

Collaborators the source does not show are kept abstract:

- **Eloquent.** A model instance is a `Record` object. Its attributes are
  written in place, and `save()` and `delete()` change it in place. What
  `Model::fill` and the write inside `save()` do to the attributes (a key
  assigned on insert, timestamps, a cancelling listener) belongs to the
  model class, so each record carries them as uninterpreted functions. A
  query handle is either nothing yet (`Unset`), a bare model, or a builder
  bound to a model with the constraints it has taken, in order: where-clauses,
  a primary key, a row limit, a page window. Eloquent's builder methods
  change the builder they are called on, so a call the façade makes through
  a builder handle leaves its constraints on that handle, while a call
  through a bare model starts a new builder and leaves the handle alone
  (`Through`). The rows a query returns and the count `paginate` takes are
  uninterpreted functions in an `Engine`.
- **The entities container.** `push`, `set` and `current` follow their
  documented contract: append, set the current pointer, and return the
  current instance or fail with `ResourceNotDefined`. Two things stay
  uninterpreted, given by a `Lookup`: what `resolve($name, $hint)` returns,
  and whether `has()` returns an object.
- **PHP loose comparison.** The model states it explicitly. Each `switch`
  in the class compares its argument loosely (`==`) with a boolean, so the
  case that runs depends on the argument's truthiness (`FirstCase`,
  `WhereCase`). `in_array` compares loosely under PHP 8 rules
  (`LooseEquals`, `InArray`).

Where the code and the class's documented intent differ, the model follows
the code:

- `map`'s allow-list branch tests `in_array($key, $inserts)`, so a pair is
  written only when its key occurs among the bag's *values*. The names in
  `keys` only decide whether the branch runs. With `keys = ["name"]` and
  `{"name": "a", "role": "admin"}`, nothing is written (`AllowListExample`).
- `fill()` tests an undefined `$keys`. Reading it as null, as PHP does
  when no error handler intervenes, it never sets the allow-list and only
  replaces `data`.
- `first()` with an empty array does not fall back to `data`. The loose
  switch sends `[]` to the primary-key branch (`FalsyFirstArguments`).
- `update()` does not fail when `first()` finds nothing. `map` then falls
  back to the current entity and saves that instead, when it is a bare
  model.
- `delete()` with a model instance takes no case of `first`'s switch.
  `first` then returns its undefined `$entity`; read as null, `delete`
  answers false.
- `register()` seeds the current entity whenever `has()` does not return an
  object. If `has()` returns a boolean, this happens on every registration.
- On a builder handle, a lookup that runs in `first()`, or in `update()`
  and `delete()` through it, leaves its constraint and a limit of one on
  `$this->entity`, whether or not a record is found
  (`FirstNarrowsInPlace`). `paginate()` with a non-zero count leaves its
  page window there. Later calls inherit them. `update()` with a model
  instance and `first()` when no case runs leave the handle as it was.

## Model

| member | source | states |
|---|---|---|
| `Repofuck.Repository.constructor` | src/Prjkt/Component/Repofuck/Repofuck.php:95-99 | the part of the constructor before `loadResources()`: containers fresh and empty, entity unset, data and keys empty, columns `["*"]`, page size 15 |
| `Repofuck.Repository.Construct` | src/Prjkt/Component/Repofuck/Repofuck.php:95-102 | `new Repofuck`: the containers hold exactly the models and the repositories among the configured resources, in order; the entity is unset or the model the current pointer holds; a failure is possible only when there are resources |
| `Repofuck.Repository.LoadContainers` | src/Prjkt/Component/Repofuck/Repofuck.php:108-112 | both containers are replaced by fresh empty ones; nothing else changes |
| `Repofuck.Repository.Register` | src/Prjkt/Component/Repofuck/Repofuck.php:132-162 | a model is pushed only to the entities, a repository only to the repositories, anything else nowhere; when `has()` gives no object, the current pointer and the entity both become the resolved model; otherwise the entity is kept; the answer is true or `resolve`'s failure |
| `Repofuck.Repository.LoadResources` | src/Prjkt/Component/Repofuck/Repofuck.php:118-123 | registers the resources in order; the entity is kept or seeded from the current pointer; on success the containers gain exactly the models and the repositories among them and `has()` answers an object or the entity was just seeded; a failure at resource k leaves the containers extended by resources 0..k, with `has()` giving no object and `resolve` giving that failure |
| `Repofuck.Repository.RegisterStep` | src/Prjkt/Component/Repofuck/Repofuck.php:121 | one registration of the walk: the containers grow by what the next resource sorts into; the entity is kept or seeded from the current pointer; on success `has()` answers an object or the entity was just seeded; on failure `has()` gives no object and `resolve` gives that failure |
| `Repofuck.RegisterSorts` | src/Prjkt/Component/Repofuck/Repofuck.php:138-153 | one object feeds at most one container: a model the entities, a repository the repositories |
| `Repofuck.SortedPrefix` | src/Prjkt/Component/Repofuck/Repofuck.php:120-121 | walking one more resource extends each container by what registering that resource pushes |
| `Repofuck.ModelsOf` | src/Prjkt/Component/Repofuck/Repofuck.php:141-143 | the models among the objects, in order; every model present is in it and nothing else is |
| `Repofuck.ReposOf` | src/Prjkt/Component/Repofuck/Repofuck.php:148-150 | the repositories among the objects, in order; every repository present is in it and nothing else is |
| `Repofuck.Repository.Entity` | src/Prjkt/Component/Repofuck/Repofuck.php:172-189 | the resolved model is committed before the callback runs; if the callback returns neither a Model nor a Builder, it fails with `InvalidCallbackReturn` and the entity stays the resolved model; otherwise the return becomes the entity; a resolve failure changes nothing |
| `Repofuck.Repository.ResetEntity` | src/Prjkt/Component/Repofuck/Repofuck.php:196-199 | the entity becomes the resolved model |
| `Repofuck.Repository.Fill` | src/Prjkt/Component/Repofuck/Repofuck.php:207-216 | replaces only `data`; `keys` is untouched; returns the repository |
| `Repofuck.Repository.Data` | src/Prjkt/Component/Repofuck/Repofuck.php:224-229 | replaces only `data`; returns the repository |
| `Repofuck.Repository.Keys` | src/Prjkt/Component/Repofuck/Repofuck.php:237-242 | replaces only `keys`; returns the repository |
| `Repofuck.Repository.Columns` | src/Prjkt/Component/Repofuck/Repofuck.php:249-254 | replaces only `columns`; returns the repository |
| `Repofuck.Truthy` | src/Prjkt/Component/Repofuck/Repofuck.php:276 | the truthiness a loose `switch (…)` against booleans turns on: null is falsy, an object truthy, a string exactly when it is loosely equal to `true`, an array exactly when it has values |
| `Repofuck.IsNumeric` | src/Prjkt/Component/Repofuck/Repofuck.php:278 | `is_numeric`: every integer, a string exactly when it is a numeric string; a numeric argument has a key, and a numeric string equals its integer value |
| `Repofuck.FirstCase` | src/Prjkt/Component/Repofuck/Repofuck.php:276-297 | for a truthy argument, the case taken matches its shape: numeric gives a key lookup, an array a field filter, a non-numeric string with a value a single-field filter |
| `Repofuck.FalsyFirstArguments` | src/Prjkt/Component/Repofuck/Repofuck.php:276-290 | `[]` takes the key case; `0` and `"0"` take the array case |
| `Repofuck.FirstConstraint` | src/Prjkt/Component/Repofuck/Repofuck.php:276-297 | a truthy argument puts one constraint on the query exactly when a case runs: the key for a numeric argument, the fields for an array, the field and value for a string with a value |
| `Repofuck.Found` | src/Prjkt/Component/Repofuck/Repofuck.php:274-300 | when no case runs `first` finds nothing; otherwise it fails exactly when the entity is null |
| `Repofuck.AfterFirst` | src/Prjkt/Component/Repofuck/Repofuck.php:274-300 | `first` leaves a bare-model or null handle as it was and keeps a builder handle a builder on the same model |
| `Repofuck.FirstNarrowsInPlace` | src/Prjkt/Component/Repofuck/Repofuck.php:278-296 | on a builder handle the query `first` runs is the builder it leaves on the handle: the old constraints, then the case's constraint, then a limit of one |
| `Repofuck.Repository.TakeFirst` | src/Prjkt/Component/Repofuck/Repofuck.php:280-294 | the query is the handle's constraints, then the given one, then a limit of one; a builder handle keeps them, a bare model is left alone; a null entity fails and nothing changes |
| `Repofuck.Repository.First` | src/Prjkt/Component/Repofuck/Repofuck.php:274-300 | answers the first row of the case's query and leaves the handle as `first` leaves it; no other field changes |
| `Repofuck.Repository.Paginate` | src/Prjkt/Component/Repofuck/Repofuck.php:318-323 | the page size is the argument when given, otherwise `paginates`; the rows are counted on the current query; a non-zero count adds the page window, which a builder handle keeps; a zero count leaves the handle alone; an unset entity fails |
| `Repofuck.Repository.Create` | src/Prjkt/Component/Repofuck/Repofuck.php:330-339 | a fresh record of the current model's class becomes the entity; it receives `data` through `map` and is then saved by the model class's write, or left mapped and unsaved when the save is cancelled; a builder or an unset entity fails and nothing changes |
| `Repofuck.UpdateTarget` | src/Prjkt/Component/Repofuck/Repofuck.php:349 | a Model argument is the target as it is; otherwise `first` decides; it fails only on a null entity, and on a null entity a numeric or array argument always fails |
| `Repofuck.UpdateHandle` | src/Prjkt/Component/Repofuck/Repofuck.php:349 | a Model argument, or a handle that is not a builder, leaves the handle as it was; a builder stays a builder on the same model |
| `Eloquent.SavedAs` | src/Prjkt/Component/Repofuck/Repofuck.php:336 | after a save that went through, the record exists and its stored state equals its attributes; a record that does not exist afterwards did not exist before and holds the mapped attributes unsaved |
| `Repofuck.Repository.Update` | src/Prjkt/Component/Repofuck/Repofuck.php:347-355 | a Model argument is used as it is; anything else goes through `first`, which narrows a builder handle; `data` is mapped onto the record (or onto the current model when nothing is found) and saved; the record is returned whether or not the save went through |
| `Repofuck.Repository.Delete` | src/Prjkt/Component/Repofuck/Repofuck.php:397-408 | the handle is left as `first` leaves it; when `first` finds nothing it answers false and no record changes; otherwise exactly the found record is deleted and it answers true |
| `Repofuck.MapSubject` | src/Prjkt/Component/Repofuck/Repofuck.php:420 | the target is the given record, else the current entity when it is a bare model |
| `Repofuck.Repository.Map` | src/Prjkt/Component/Repofuck/Repofuck.php:418-439 | with `keys` set, the target gets the allow-list loop's result; without, it gets the model's own `fill`; only the target's attributes change; a target that is not a model fails |
| `Mapping.Mapped` | src/Prjkt/Component/Repofuck/Repofuck.php:422-438 | with `keys` non-empty, whatever names it holds, no field is removed and only fields named in the bag are added; with `keys` empty, the model's own `fill` |
| `Mapping.Assign` | src/Prjkt/Component/Repofuck/Repofuck.php:424-431 | the loop over a prefix of the bag removes no field and adds only fields that prefix names |
| `Mapping.AssignLeavesOthers` | src/Prjkt/Component/Repofuck/Repofuck.php:424-431 | a field that no passing pair names keeps its old value or stays absent |
| `Mapping.AssignWrites` | src/Prjkt/Component/Repofuck/Repofuck.php:424-431 | each pair whose key occurs among the bag's values is on the target afterwards, unless a later pair overrides it |
| `Mapping.AssignOnlyPassing` | src/Prjkt/Component/Repofuck/Repofuck.php:424-431 | every field the loop changes was named by a pair whose key occurs among the values |
| `Mapping.AllowListExample` | src/Prjkt/Component/Repofuck/Repofuck.php:422-433 | with `keys = ["name"]` and `{"name": "a", "role": "admin"}`, the target is unchanged |
| `Mapping.SelfNamedFieldExample` | src/Prjkt/Component/Repofuck/Repofuck.php:424-431 | a pair whose key equals one of the values is written, whatever `keys` holds |
| `Values.LooseEquals` | src/Prjkt/Component/Repofuck/Repofuck.php:426 | PHP 8 `==` between a key and a value: a string equals itself; a non-numeric key never equals an integer and equals a string only when identical; a boolean compares with the key's truthiness; null equals exactly the falsy keys `""` and `"0"` (the latter stored as the integer 0) |
| `Values.IsNumericString` | src/Prjkt/Component/Repofuck/Repofuck.php:278 | `is_numeric` on a string: non-empty, every character after the first a digit, the last a digit, the first a digit or a sign |
| `Mapping.Passes` | src/Prjkt/Component/Repofuck/Repofuck.php:426 | a pair passes exactly when its key is loosely equal to some value of the bag |
| `Mapping.ZeroKeyMatchesNull` | src/Prjkt/Component/Repofuck/Repofuck.php:424-431 | with `{"0": "x", "a": null}` and `keys` set, field `"0"` is written, because the key is the integer 0 and `0 == null` |
| `Values.InArray` | src/Prjkt/Component/Repofuck/Repofuck.php:426 | true exactly when some element is loosely equal to the key |
| `Values.TrueMatchesTruthyKeys` | src/Prjkt/Component/Repofuck/Repofuck.php:426 | a boolean `true` among the values lets every truthy key through |
| `Values.NumericKeyComparesByValue` | src/Prjkt/Component/Repofuck/Repofuck.php:426 | numeric strings compare as numbers, so `"5"` matches `"05"` and `5`; `"name"` does not match `0` |
| `Repofuck.Repository.Where` | src/Prjkt/Component/Repofuck/Repofuck.php:448-494 | closure form: the callback's result becomes the entity when it is a Builder, otherwise the entity before the call is kept; array form: the entity becomes the left fold of `where` over the clauses, and a null entity fails with nothing changed; `[]` fails as not callable; no other field changes |
| `Repofuck.Repository.WhereEach` | src/Prjkt/Component/Repofuck/Repofuck.php:483-487 | the array form of `where`: the entity becomes the left fold of `where` over the clauses in order; a null entity fails at the first clause with nothing changed; no other field changes |
| `Repofuck.WhereCase` | src/Prjkt/Component/Repofuck/Repofuck.php:452-483 | a closure takes the closure case; a clause array takes the array case exactly when it is non-empty |
| `Repofuck.CallbackSubject` | src/Prjkt/Component/Repofuck/Repofuck.php:456-460 | the closure sees the same model; it sees a builder and its constraints only when `append` is set |
| `Eloquent.Through` | src/Prjkt/Component/Repofuck/Repofuck.php:280-294 | a call through a bare model or a null handle leaves it as it was; a builder handle keeps its model and its old constraints, followed by exactly the new ones |
| `Eloquent.Narrow` | src/Prjkt/Component/Repofuck/Repofuck.php:280-294 | a query call on a handle gives a builder on the same model with the constraint after the existing ones; on null it fails |
| `Eloquent.WhereOn` | src/Prjkt/Component/Repofuck/Repofuck.php:486 | `where` on a handle gives a builder on the same model with the clause after the existing constraints; on null it fails |
| `Eloquent.FoldWhere` | src/Prjkt/Component/Repofuck/Repofuck.php:485-487 | an empty list leaves the handle; a non-empty one fails exactly on null and otherwise gives a builder on the same model |
| `Eloquent.FoldWhereAppends` | src/Prjkt/Component/Repofuck/Repofuck.php:485-487 | folding a non-empty clause list gives a builder on the same model carrying the old constraints followed by the clauses in order; from null it fails |
| `Eloquent.AsHandle` | src/Prjkt/Component/Repofuck/Repofuck.php:180-184 | a Model return becomes a bare-model handle and a Builder return the same builder with its constraints |
| `Eloquent.Record.SetAttribute` | src/Prjkt/Component/Repofuck/Repofuck.php:430 | writes one attribute and leaves the saved state alone |
| `Eloquent.Record.Fill` | src/Prjkt/Component/Repofuck/Repofuck.php:436 | the attributes become the model's own fill of the bag |
| `Eloquent.Record.Save` | src/Prjkt/Component/Repofuck/Repofuck.php:352 | unless a listener cancels it, the attributes become what the model class writes, the record exists and the stored state equals them; a cancelled save changes nothing |
| `Eloquent.Record.Delete` | src/Prjkt/Component/Repofuck/Repofuck.php:405 | the record no longer exists; its attributes are kept |
| `Eloquent.Record.constructor` | src/Prjkt/Component/Repofuck/Repofuck.php:332 | a fresh instance of the same model class, with its fill and write, unsaved and without attributes |
| `Containers.Entities.Push` | src/Prjkt/Component/Repofuck/Repofuck.php:143 | appends the model and keeps the current pointer |
| `Containers.Entities.Set` | src/Prjkt/Component/Repofuck/Repofuck.php:157 | the current pointer becomes the given model |
| `Containers.Entities.Current` | src/Prjkt/Component/Repofuck/Repofuck.php:158 | returns the current model, or fails with `ResourceNotDefined` when there is none |
| `Repofuck.Repositories.Push` | src/Prjkt/Component/Repofuck/Repofuck.php:150 | appends the repository |
| `Containers.Entities.constructor` | src/Prjkt/Component/Repofuck/Repofuck.php:110 | an empty entities container with no current model |
| `Repofuck.Repositories.constructor` | src/Prjkt/Component/Repofuck/Repofuck.php:111 | an empty repositories container |

## Left out

- Laravel's container. The constructor's `$app`, `app->make` for a resource given by name rather than as an object, and the `__get` pass-through are not modelled. `Register` takes an object that has already been resolved.
- Repofuck.Repository.constructor: stops before `loadResources()`, because a Dafny constructor cannot fail; `Repofuck.Repository.Construct` is the whole PHP constructor, with the resources the subclass configures as a parameter.
- `Containers\Entities`, `Containers\Repositories` and `Traits\Operations` are not part of this model. `resolve` and `is_object(has())` are uninterpreted functions. `resolveRepoName($this)` is the constant `name`. `hasValues` is taken to mean "non-empty".
- Repofuck.Repository.First: requires a truthy argument. For `0`, `"0"`, `[]`, `""`, `null` and `false`, the loose switch reaches `find` with a non-key or reaches `hasValues` on a non-array, and the outcome then depends on Eloquent and on the trait. `FalsyFirstArguments` records only which case these arguments take. `Update` and `Delete` inherit the requirement.
- Repofuck.Repository.Update: also requires that a record found by a lookup is an existing object, so that its attributes before the call can be referred to; `Delete` requires the same.
- Repofuck.Repository.Paginate: the current page, which Eloquent reads from the request, is a parameter; the paginator object is reduced to its count, page size, page and row query; Eloquent's use of the model's own page size for a zero size is not modelled. The window is applied only for a non-zero count, as Eloquent's `paginate` does from Laravel 5.4 on.
- `find()` and `get()` are direct calls into Eloquent and are not modelled; `first` models the `find` it makes as a key constraint followed by a limit of one.
- An undefined variable reads as null. PHP's warning, and an error handler that turns it into an exception (as Laravel's does), are not modelled. This affects `fill`, which reads `$keys`, and `first` when no case runs, which returns `$entity`, and through it `delete` with a model instance.
- `updateOrCreate()` reads the undefined variables `$identifer` and `$params`. What it does is an accident of PHP's undefined-variable handling, so it is not modelled.
- A builder that a `where` callback changes in place before returning something other than a Builder: PHP's restored handle shows the change, the model's does not. Callbacks are pure functions, and a callback that throws is not modelled.
- Eloquent.Record.Delete: always ends with the record not existing; a `deleting` listener that cancels, and soft deletes, are not modelled.
- Numeric strings are integer numerals with an optional sign. Leading or trailing whitespace, decimal points and exponents, which PHP also accepts as numeric, are not modelled. Array keys are strings; PHP's storing of canonical integer keys as integers matters against a scalar only for `"0"` against null, which `LooseEquals` covers.
- `Val` has no floats, arrays or objects, and its integers are unbounded. PHP's 64-bit integers, and numeric strings that overflow them and are then compared as floats, are not modelled.
- The exact PHP error class on a failing path (`Error`, `TypeError`, `ArgumentCountError`, `BadMethodCallException` from `fill` reaching a query builder) is collapsed to `NullEntity` or `TypeError`.
- A fresh model from `new $this->entity` starts with no attributes. Default attributes declared by the model class are not modelled. Eloquent's mass-assignment guarding, attribute mutators and SQL are not modelled either.
