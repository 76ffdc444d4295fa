/** The repository façade `Repofuck`: registration of models and
    sub-repositories, selection of the current entity, where-clause
    composition, mass assignment, and the lookups, updates and deletions
    built on them. Every operation changes the façade's own fields or the
    records it reaches; failures come back as `Err` in place of a thrown
    exception. */
module Repofuck {
  import opened Values
  import opened Mapping
  import opened Eloquent
  import opened Containers

  /** An argument to `first`, `update` or `delete`, by its PHP type. */
  datatype Arg =
    | NullArg
    | BoolArg(b: bool)
    | IntArg(n: int)
    | StrArg(s: string)
    | ArrayArg(pairs: Bag)
    | ModelArg(record: Record)

  /** PHP truthiness; `switch` compares the argument with each case's
      boolean through it. */
  predicate Truthy(a: Arg)
    ensures a.NullArg? ==> !Truthy(a)
    ensures a.ModelArg? ==> Truthy(a)
    ensures a.StrArg? ==> (Truthy(a) <==> LooseEquals(a.s, Bool(true)))
    ensures a.ArrayArg? ==> (Truthy(a) <==> HasValues(a.pairs))
  {
    match a
    case NullArg => false
    case BoolArg(b) => b
    case IntArg(n) => n != 0
    case StrArg(s) => StringTruthy(s)
    case ArrayArg(pairs) => |pairs| > 0
    case ModelArg(_) => true
  }

  /** `is_numeric`. */
  predicate IsNumeric(a: Arg)
    ensures IsNumeric(a) ==> KeyOf(a) != Null
    ensures a.IntArg? ==> IsNumeric(a)
    ensures a.StrArg? ==> (IsNumeric(a) <==> IsNumericString(a.s))
    ensures a.StrArg? && IsNumericString(a.s) ==> LooseEquals(a.s, Int(NumericValue(a.s)))
  {
    a.IntArg? || (a.StrArg? && IsNumericString(a.s))
  }

  /** The key a numeric argument hands to `find`. */
  function KeyOf(a: Arg): Val {
    match a
    case IntArg(n) => Int(n)
    case StrArg(s) => Str(s)
    case _ => Null
  }

  datatype FirstBranch = ByKey | ByFields | ByField | NoBranch

  /** Which case of `first`'s switch runs: the first whose predicate is
      loosely equal to the argument, i.e. has the argument's truthiness. */
  function FirstCase(params: Arg, value: Val): (b: FirstBranch)
    ensures Truthy(params) ==> (b == ByKey <==> IsNumeric(params))
    ensures Truthy(params) ==> (b == ByFields <==> params.ArrayArg?)
    ensures Truthy(params) ==> (b == ByField <==> params.StrArg? && !IsNumeric(params) && value != Null)
  {
    var truth := Truthy(params);
    if IsNumeric(params) == truth then ByKey
    else if params.ArrayArg? == truth then ByFields
    else if (params.StrArg? && value != Null) == truth then ByField
    else NoBranch
  }

  /** Falsy arguments land in a case other than the one their shape names. */
  lemma FalsyFirstArguments(value: Val)
    ensures FirstCase(ArrayArg([]), value) == ByKey
    ensures FirstCase(IntArg(0), value) == ByFields
    ensures FirstCase(StrArg("0"), value) == ByFields
  {
  }

  /** The constraint `first`'s case puts on the handle for a truthy
      argument: the key `find` looks up, or the fields or the single field
      `where` filters on; none when no case runs. */
  function FirstConstraint(params: Arg, value: Val): (k: Option<Constraint>)
    requires Truthy(params)
    ensures k.None? <==> FirstCase(params, value) == NoBranch
    ensures IsNumeric(params) ==> k == Some(KeyIs(KeyOf(params)))
    ensures params.ArrayArg? ==> k == Some(Filter(FieldsClause(params.pairs)))
    ensures params.StrArg? && !IsNumeric(params) && value != Null ==>
      k == Some(Filter(FieldClause(params.s, value)))
  {
    match FirstCase(params, value)
    case ByKey => Some(KeyIs(KeyOf(params)))
    case ByFields => Some(Filter(FieldsClause(params.pairs)))
    case ByField => Some(Filter(FieldClause(params.s, value)))
    case NoBranch => None
  }

  /** What `first` answers on handle `h`: the first row of the query its
      case builds, limited to one row; nothing when no case runs. */
  function Found(h: Handle, params: Arg, value: Val, columns: seq<string>, db: Engine): (r: Result<Option<Record>>)
    requires Truthy(params)
    ensures FirstConstraint(params, value).None? ==> r == Ok(None)
    ensures FirstConstraint(params, value).Some? ==> (r.Err? <==> h == Unset)
    ensures r.Err? ==> r.error == NullEntity
  {
    match FirstConstraint(params, value)
    case None => Ok(None)
    case Some(k) =>
      if h == Unset then Err(NullEntity)
      else Ok(db.firstRow(BuilderH(h.model, ConstraintsOf(h) + [k, Limit(1)]), columns))
  }

  /** What `$this->entity` holds after `first` on handle `h`. */
  function AfterFirst(h: Handle, params: Arg, value: Val): (after: Handle)
    requires Truthy(params)
    ensures !h.BuilderH? ==> after == h
    ensures h.BuilderH? ==> after.BuilderH? && after.model == h.model
  {
    match FirstConstraint(params, value)
    case None => h
    case Some(k) => Through(h, [k, Limit(1)])
  }

  /** On a builder handle `first` runs the very builder it leaves behind:
      the handle keeps the case's constraint and the limit of one. */
  lemma FirstNarrowsInPlace(h: Handle, params: Arg, value: Val, columns: seq<string>, db: Engine)
    requires Truthy(params) && h.BuilderH? && FirstConstraint(params, value).Some?
    ensures Found(h, params, value, columns, db) == Ok(db.firstRow(AfterFirst(h, params, value), columns))
    ensures AfterFirst(h, params, value).constraints ==
      h.constraints + [FirstConstraint(params, value).value, Limit(1)]
  {
  }

  /** The record `map` writes onto: the given one, else the current entity
      when that is a bare model. */
  function MapSubject(h: Handle, target: Option<Record>): (s: Option<Record>)
    ensures target.Some? ==> s == target
    ensures target.None? ==> (s.Some? <==> h.ModelH?)
    ensures target.None? && s.Some? ==> s.value == h.model
  {
    if target.Some? then target else if h.ModelH? then Some(h.model) else None
  }

  function MapFrame(h: Handle, target: Option<Record>): set<Record> {
    var s := MapSubject(h, target);
    if s.Some? then {s.value} else {}
  }

  /** The record `update` works on: a Model argument as it is, anything
      else through `first`. */
  function UpdateTarget(h: Handle, identifier: Arg, columns: seq<string>, db: Engine): (r: Result<Option<Record>>)
    requires Truthy(identifier)
    ensures identifier.ModelArg? ==> r == Ok(Some(identifier.record))
    ensures r.Err? ==> r.error == NullEntity && h == Unset
    ensures h == Unset && (IsNumeric(identifier) || identifier.ArrayArg?) ==> r == Err(NullEntity)
  {
    if identifier.ModelArg? then Ok(Some(identifier.record)) else Found(h, identifier, Null, columns, db)
  }

  /** The handle after `update` has looked its record up. */
  function UpdateHandle(h: Handle, identifier: Arg): (after: Handle)
    requires Truthy(identifier)
    ensures identifier.ModelArg? || !h.BuilderH? ==> after == h
    ensures h.BuilderH? ==> after.BuilderH? && after.model == h.model
  {
    if identifier.ModelArg? then h else AfterFirst(h, identifier, Null)
  }

  function UpdateFrame(h: Handle, identifier: Arg, columns: seq<string>, db: Engine): set<Record>
    requires Truthy(identifier)
  {
    var t := UpdateTarget(h, identifier, columns, db);
    if t.Err? then {} else MapFrame(UpdateHandle(h, identifier), t.value)
  }

  function DeleteFrame(h: Handle, identifier: Arg, columns: seq<string>, db: Engine): set<Record>
    requires Truthy(identifier)
  {
    var found := Found(h, identifier, Null, columns, db);
    if found.Ok? && found.value.Some? then {found.value.value} else {}
  }

  /** The argument of `where`: a closure, or an array of clauses. */
  datatype Query = Callback(f: Handle -> Value) | Clauses(clauses: seq<Clause>)

  datatype WhereBranch = ClosureBranch | ArrayBranch

  /** Which case of `where`'s switch runs. A closure is truthy and takes the
      first case; an empty array is falsy and also takes it, as
      `$query instanceof Closure` is false too. */
  function WhereCase(q: Query): (b: WhereBranch)
    ensures q.Callback? ==> b == ClosureBranch
    ensures q.Clauses? ==> (b == ArrayBranch <==> |q.clauses| > 0)
  {
    var truth := q.Callback? || |q.clauses| > 0;
    if q.Callback? == truth then ClosureBranch else ArrayBranch
  }

  /** What the closure of `where` receives: with `append` unset a builder
      is stripped to its model, so the closure starts from no constraints. */
  function CallbackSubject(h: Handle, append: bool): (s: Handle)
    ensures s == Unset <==> h == Unset
    ensures s != Unset ==> s.model == h.model
    ensures s.BuilderH? <==> append && h.BuilderH?
    ensures ConstraintsOf(s) == (if append then ConstraintsOf(h) else [])
  {
    if !append && h.BuilderH? then ModelH(h.model) else h
  }

  /** An object handed to `register`. */
  datatype Obj = ModelObj(record: Record) | RepoObj(repo: Repository) | OtherObj

  /** The models among `objs`, in order. */
  function ModelsOf(objs: seq<Obj>): (models: seq<Record>)
    ensures |models| <= |objs|
    ensures forall i :: 0 <= i < |models| ==> ModelObj(models[i]) in objs
    ensures forall j :: 0 <= j < |objs| && objs[j].ModelObj? ==> objs[j].record in models
    decreases |objs|
  {
    if objs == [] then []
    else
      var init := objs[..|objs| - 1];
      assert forall j :: 0 <= j < |init| ==> init[j] == objs[j];
      ModelsOf(init) + (if objs[|objs| - 1].ModelObj? then [objs[|objs| - 1].record] else [])
  }

  /** The repositories among `objs`, in order. */
  function ReposOf(objs: seq<Obj>): (repos: seq<Repository>)
    ensures |repos| <= |objs|
    ensures forall i :: 0 <= i < |repos| ==> RepoObj(repos[i]) in objs
    ensures forall j :: 0 <= j < |objs| && objs[j].RepoObj? ==> objs[j].repo in repos
    decreases |objs|
  {
    if objs == [] then []
    else
      var init := objs[..|objs| - 1];
      assert forall j :: 0 <= j < |init| ==> init[j] == objs[j];
      ReposOf(init) + (if objs[|objs| - 1].RepoObj? then [objs[|objs| - 1].repo] else [])
  }

  /** Registering one object pushes a model into the entities only, a
      repository into the repositories only, and anything else nowhere. */
  lemma {:induction false} RegisterSorts(o: Obj)
    ensures ModelsOf([o]) == (if o.ModelObj? then [o.record] else [])
    ensures ReposOf([o]) == (if o.RepoObj? then [o.repo] else [])
    ensures |ModelsOf([o])| + |ReposOf([o])| <= 1
  {
  }

  /** Extending a prefix by one object extends the sorted lists by what
      registering that object pushes. */
  lemma SortedPrefix(objs: seq<Obj>, i: nat)
    requires i < |objs|
    ensures ModelsOf(objs[..i + 1]) == ModelsOf(objs[..i]) + ModelsOf([objs[i]])
    ensures ReposOf(objs[..i + 1]) == ReposOf(objs[..i]) + ReposOf([objs[i]])
  {
    RegisterSorts(objs[i]);
    assert objs[..i + 1][..i] == objs[..i];
  }

  /** What `paginate` hands back: the row count, the page size and page
      asked for, and the query whose rows fill the page (none when the count
      is zero). */
  datatype PageQuery = PageQuery(total: nat, perPage: int, page: nat, rows: Option<Handle>)

  /** `Containers\Repositories`: the sub-repositories, in push order. */
  class Repositories {
    var items: seq<Repository>

    constructor ()
      ensures items == []
    {
      items := [];
    }

    /** `push($instance)`. */
    method Push(instance: Repository)
      modifies this
      ensures items == old(items) + [instance]
    {
      items := items + [instance];
    }
  }

  class Repository {
    var entity: Handle
    var entities: Entities
    var repositories: Repositories
    var data: Bag
    var keys: seq<string>
    var columns: seq<string>
    var paginates: int
    /** `resolveRepoName($this)`, the hint for seeding the current entity. */
    const name: string

    /** The constructor up to its `loadContainers()`; `Construct` adds the
        `loadResources()` call that ends it. */
    constructor (name: string, lookup: Lookup)
      ensures this.name == name && entity == Unset
      ensures fresh(entities) && fresh(repositories)
      ensures entities.lookup == lookup && entities.items == [] && entities.current == None
      ensures repositories.items == []
      ensures data == [] && keys == [] && columns == ["*"] && paginates == 15
    {
      this.name := name;
      entity := Unset;
      entities := new Entities(lookup);
      repositories := new Repositories();
      data := [];
      keys := [];
      columns := ["*"];
      paginates := 15;
    }

    /** `new Repofuck($app)` for a class configuring `resources`: the
        constructor, then `loadResources()`, whose failure escapes the
        constructor. */
    static method Construct(name: string, lookup: Lookup, resources: seq<Obj>) returns (r: Result<Repository>)
      ensures r.Err? ==> HasValues(resources)
      ensures !HasValues(resources) ==> r.Ok? && r.value.entity == Unset && r.value.entities.current == None
      ensures r.Ok? ==>
        var repo := r.value;
        fresh(repo) && fresh(repo.entities) && fresh(repo.repositories) && repo.name == name &&
        repo.entities.lookup == lookup &&
        repo.entities.items == ModelsOf(resources) && repo.repositories.items == ReposOf(resources) &&
        repo.data == [] && repo.keys == [] && repo.columns == ["*"] && repo.paginates == 15 &&
        ((repo.entity == Unset && repo.entities.current == None) || repo.Seeded())
    {
      var repo := new Repository(name, lookup);
      var failure := repo.LoadResources(resources);
      if failure.Some? {
        return Err(failure.value.1);
      }
      r := Ok(repo);
    }

    /** `loadContainers()`: fresh, empty containers. */
    method LoadContainers(lookup: Lookup)
      modifies this
      ensures fresh(entities) && fresh(repositories)
      ensures entities.lookup == lookup && entities.items == [] && entities.current == None
      ensures repositories.items == []
      ensures entity == old(entity) && data == old(data) && keys == old(keys)
      ensures columns == old(columns) && paginates == old(paginates)
    {
      entities := new Entities(lookup);
      repositories := new Repositories();
    }

    /** `register($instance)` for an object: sort it into its container,
        then seed the current entity when `has()` does not return an object.
        It answers true, or fails with what `resolve` fails with. */
    method Register(instance: Obj) returns (r: Result<bool>)
      modifies this, entities, repositories
      ensures entities == old(entities) && repositories == old(repositories)
      ensures entities.items == old(entities.items) + ModelsOf([instance])
      ensures repositories.items == old(repositories.items) + ReposOf([instance])
      ensures data == old(data) && keys == old(keys)
      ensures columns == old(columns) && paginates == old(paginates)
      ensures r.Ok? ==> r.value
      ensures entities.lookup.hasObject(entities.items, old(entities.current)) ==>
        r == Ok(true) && entity == old(entity) && entities.current == old(entities.current)
      ensures !entities.lookup.hasObject(entities.items, old(entities.current)) ==>
        match entities.lookup.resolve(entities.items, old(entities.current), None, Some(name))
        case Ok(x) => r == Ok(true) && entities.current == Some(x) && entity == ModelH(x)
        case Err(e) => r == Err(e) && entity == old(entity) && entities.current == old(entities.current)
    {
      RegisterSorts(instance);
      // An object is truthy, so the first case whose test holds is taken.
      match instance {
        case ModelObj(record) => entities.Push(record);
        case RepoObj(repo) => repositories.Push(repo);
        case OtherObj =>
      }
      if !entities.HasObject() {
        var resolved := entities.Resolve(None, Some(name));
        if resolved.Err? {
          return Err(resolved.error);
        }
        entities.Set(resolved.value);
        var current := entities.Current();
        entity := ModelH(current.value);
      }
      r := Ok(true);
    }

    /** The entity is the model the current pointer holds. */
    predicate Seeded()
      reads this, entities
    {
      entities.current.Some? && entity == ModelH(entities.current.value)
    }

    /** What a registration leaves: `has()` answers an object, or the
        entity has just been seeded from the current pointer. */
    predicate Settled()
      reads this, entities
    {
      entities.lookup.hasObject(entities.items, entities.current) || Seeded()
    }

    /** `register($resources[$i])` as one step of the walk of
        `loadResources`, after `resources[..i]` have been registered onto
        containers that held `models` and `repos`. */
    method RegisterStep(resources: seq<Obj>, i: nat, ghost models: seq<Record>, ghost repos: seq<Repository>)
      returns (r: Result<bool>)
      requires i < |resources|
      requires entities.items == models + ModelsOf(resources[..i])
      requires repositories.items == repos + ReposOf(resources[..i])
      modifies this, entities, repositories
      ensures entities == old(entities) && repositories == old(repositories)
      ensures entities.items == models + ModelsOf(resources[..i + 1])
      ensures repositories.items == repos + ReposOf(resources[..i + 1])
      ensures data == old(data) && keys == old(keys)
      ensures columns == old(columns) && paginates == old(paginates)
      ensures (entity == old(entity) && entities.current == old(entities.current)) || Seeded()
      ensures r.Ok? ==> Settled()
      ensures r.Err? ==>
        !entities.lookup.hasObject(entities.items, entities.current) &&
        entities.lookup.resolve(entities.items, entities.current, None, Some(name)) == Err(r.error)
    {
      r := Register(resources[i]);
      SortedPrefix(resources, i);
    }

    /** `loadResources()`: register each configured resource in order; the
        first failure stops the walk. The current entity is either left as
        it was or seeded from the current pointer. */
    method LoadResources(resources: seq<Obj>) returns (failure: Option<(nat, Error)>)
      modifies this, entities, repositories
      ensures entities == old(entities) && repositories == old(repositories)
      ensures data == old(data) && keys == old(keys)
      ensures columns == old(columns) && paginates == old(paginates)
      ensures (entity == old(entity) && entities.current == old(entities.current)) || Seeded()
      ensures !HasValues(resources) ==>
        failure.None? && entity == old(entity) && entities.current == old(entities.current)
      ensures failure.None? ==>
        entities.items == old(entities.items) + ModelsOf(resources) &&
        repositories.items == old(repositories.items) + ReposOf(resources)
      ensures failure.None? && HasValues(resources) ==> Settled()
      ensures failure.Some? ==>
        failure.value.0 < |resources| &&
        entities.items == old(entities.items) + ModelsOf(resources[..failure.value.0 + 1]) &&
        repositories.items == old(repositories.items) + ReposOf(resources[..failure.value.0 + 1]) &&
        !entities.lookup.hasObject(entities.items, entities.current) &&
        entities.lookup.resolve(entities.items, entities.current, None, Some(name)) == Err(failure.value.1)
    {
      failure := None;
      if HasValues(resources) {
        var i := 0;
        while i < |resources|
          invariant 0 <= i <= |resources|
          invariant entities == old(entities) && repositories == old(repositories)
          invariant entities.items == old(entities.items) + ModelsOf(resources[..i])
          invariant repositories.items == old(repositories.items) + ReposOf(resources[..i])
          invariant data == old(data) && keys == old(keys)
          invariant columns == old(columns) && paginates == old(paginates)
          invariant (entity == old(entity) && entities.current == old(entities.current)) || Seeded()
          invariant i > 0 ==> Settled()
        {
          var outcome := RegisterStep(resources, i, old(entities.items), old(repositories.items));
          if outcome.Err? {
            return Some((i, outcome.error));
          }
          i := i + 1;
        }
        assert resources[..|resources|] == resources;
      }
    }

    /** `entity($name, $closure)`: the resolved model is committed first;
        the closure's return is committed only when it is a Model or a
        Builder, otherwise InvalidCallbackReturn is raised. */
    method Entity(name: Option<string>, callback: Option<Handle -> Value>) returns (r: Result<Repository>)
      modifies this
      ensures entities == old(entities) && repositories == old(repositories)
      ensures data == old(data) && keys == old(keys)
      ensures columns == old(columns) && paginates == old(paginates)
      ensures r.Ok? ==> r.value == this && entity != Unset
      ensures match entities.Resolve(name, None)
        case Err(e) => r == Err(e) && entity == old(entity)
        case Ok(x) =>
          if callback.None? then r == Ok(this) && entity == ModelH(x)
          else
            var v := callback.value(ModelH(x));
            if v.VOther? then r == Err(InvalidCallbackReturn) && entity == ModelH(x)
            else r == Ok(this) && entity == AsHandle(v)
    {
      var resolved := entities.Resolve(name, None);
      if resolved.Err? {
        return Err(resolved.error);
      }
      entity := ModelH(resolved.value);
      if callback.Some? {
        var returned := callback.value(entity);
        if returned.VOther? {
          return Err(InvalidCallbackReturn);
        }
        entity := AsHandle(returned);
      }
      r := Ok(this);
    }

    /** `resetEntity($name)`: `entity($name)` without a closure. */
    method ResetEntity(name: Option<string>) returns (r: Result<Repository>)
      modifies this
      ensures entities == old(entities) && repositories == old(repositories)
      ensures data == old(data) && keys == old(keys)
      ensures columns == old(columns) && paginates == old(paginates)
      ensures match entities.Resolve(name, None)
        case Err(e) => r == Err(e) && entity == old(entity)
        case Ok(x) => r == Ok(this) && entity == ModelH(x)
    {
      r := Entity(name, None);
    }

    /** `fill($parameters)`: `$keys` is undefined in its body, so only the
        data is replaced. */
    method Fill(parameters: Bag) returns (self: Repository)
      modifies this
      ensures self == this && data == parameters
      ensures entity == old(entity) && keys == old(keys) && columns == old(columns)
      ensures paginates == old(paginates)
      ensures entities == old(entities) && repositories == old(repositories)
    {
      self := Data(parameters);
    }

    /** `data($data)`. */
    method Data(bag: Bag) returns (self: Repository)
      modifies this
      ensures self == this && data == bag
      ensures entity == old(entity) && keys == old(keys) && columns == old(columns)
      ensures paginates == old(paginates)
      ensures entities == old(entities) && repositories == old(repositories)
    {
      data := bag;
      self := this;
    }

    /** `keys($keys)`. */
    method Keys(names: seq<string>) returns (self: Repository)
      modifies this
      ensures self == this && keys == names
      ensures entity == old(entity) && data == old(data) && columns == old(columns)
      ensures paginates == old(paginates)
      ensures entities == old(entities) && repositories == old(repositories)
    {
      keys := names;
      self := this;
    }

    /** `columns($columns)`. */
    method Columns(names: seq<string>) returns (self: Repository)
      modifies this
      ensures self == this && columns == names
      ensures entity == old(entity) && data == old(data) && keys == old(keys)
      ensures paginates == old(paginates)
      ensures entities == old(entities) && repositories == old(repositories)
    {
      columns := names;
      self := this;
    }

    /** `$this->entity->...->first($this->columns)` after a call taking `k`:
        the query takes `k` and a limit of one, and a builder handle keeps
        both. */
    method TakeFirst(k: Constraint, db: Engine) returns (r: Result<Option<Record>>)
      modifies this
      ensures entities == old(entities) && repositories == old(repositories)
      ensures data == old(data) && keys == old(keys)
      ensures columns == old(columns) && paginates == old(paginates)
      ensures old(entity) == Unset ==> r == Err(NullEntity) && entity == old(entity)
      ensures old(entity) != Unset ==>
        r == Ok(db.firstRow(BuilderH(old(entity).model, ConstraintsOf(old(entity)) + [k, Limit(1)]), columns)) &&
        entity == Through(old(entity), [k, Limit(1)])
    {
      var narrowed := Narrow(entity, k);
      if narrowed.Err? {
        return Err(narrowed.error);
      }
      var query := Narrow(narrowed.value, Limit(1)).value;
      assert query.constraints == ConstraintsOf(entity) + [k, Limit(1)];
      if entity.BuilderH? {
        entity := query;
      }
      r := Ok(db.firstRow(query, columns));
    }

    /** `first($params, $value)` for a truthy `$params`: a numeric key goes
        through `find`, an array or a string with a value through `where`,
        each followed by `first`; any other argument finds nothing. */
    method First(params: Arg, value: Val, db: Engine) returns (r: Result<Option<Record>>)
      requires Truthy(params)
      modifies this
      ensures r == Found(old(entity), params, value, columns, db)
      ensures entity == AfterFirst(old(entity), params, value)
      ensures entities == old(entities) && repositories == old(repositories)
      ensures data == old(data) && keys == old(keys)
      ensures columns == old(columns) && paginates == old(paginates)
    {
      match FirstCase(params, value) {
        case ByKey =>
          // `find($id)` is `whereKey($id)->first()`.
          r := TakeFirst(KeyIs(KeyOf(params)), db);
        case ByFields =>
          var fields := if HasValues(params.pairs) then params.pairs else data;
          r := TakeFirst(Filter(FieldsClause(fields)), db);
        case ByField =>
          r := TakeFirst(Filter(FieldClause(params.s, value)), db);
        case NoBranch =>
          r := Ok(None);
      }
    }

    /** `paginate($items)`: the page size is the argument, or `paginates`
        when none is given. The rows are counted first; a non-zero count
        puts the page window on the query, which a builder handle keeps. */
    method Paginate(items: Option<int>, page: nat, db: Engine) returns (r: Result<PageQuery>)
      modifies this
      ensures entities == old(entities) && repositories == old(repositories)
      ensures data == old(data) && keys == old(keys)
      ensures columns == old(columns) && paginates == old(paginates)
      ensures old(entity) == Unset ==> r == Err(NullEntity) && entity == old(entity)
      ensures old(entity) != Unset ==>
        var perPage := if items.None? then paginates else items.value;
        var total := db.count(BuilderH(old(entity).model, ConstraintsOf(old(entity))));
        if total == 0 then
          r == Ok(PageQuery(0, perPage, page, None)) && entity == old(entity)
        else
          r == Ok(PageQuery(total, perPage, page,
                    Some(BuilderH(old(entity).model, ConstraintsOf(old(entity)) + [ForPage(page, perPage)])))) &&
          entity == Through(old(entity), [ForPage(page, perPage)])
    {
      var perPage := if items.None? then paginates else items.value;
      if entity == Unset {
        return Err(NullEntity);
      }
      var base := BuilderH(entity.model, ConstraintsOf(entity));
      var total := db.count(base);
      if total == 0 {
        return Ok(PageQuery(0, perPage, page, None));
      }
      var query := Narrow(base, ForPage(page, perPage)).value;
      if entity.BuilderH? {
        entity := query;
      }
      r := Ok(PageQuery(total, perPage, page, Some(query)));
    }

    /** `map($inserts, $entity)`: with `keys` set, write each pair whose key
        is among the values of `inserts`; otherwise the model's own `fill`.
        A target that is not a Model fails. */
    method Map(inserts: Bag, target: Option<Record>) returns (r: Result<Record>)
      modifies MapFrame(entity, target)
      ensures match MapSubject(entity, target)
        case None => r == Err(TypeError)
        case Some(e) =>
          r == Ok(e) && e.attributes == Mapped(old(e.attributes), inserts, keys, e.fill) &&
          e.persisted == old(e.persisted) && e.saved == old(e.saved)
    {
      var subject := MapSubject(entity, target);
      if subject.None? {
        return Err(TypeError);
      }
      var e := subject.value;
      if HasValues(keys) {
        var i := 0;
        while i < |inserts|
          invariant 0 <= i <= |inserts|
          invariant e.attributes == Assign(old(e.attributes), inserts[..i], inserts)
          invariant e.persisted == old(e.persisted) && e.saved == old(e.saved)
        {
          var (key, val) := inserts[i];
          assert inserts[..i + 1][..i] == inserts[..i];
          if InArray(key, ValuesOf(inserts)) {
            e.SetAttribute(key, val);
          }
          i := i + 1;
        }
        assert inserts[..|inserts|] == inserts;
        return Ok(e);
      }
      e.Fill(inserts);
      r := Ok(e);
    }

    /** `update($identifier)`: map `data` onto the record and save it. When
        `first` finds nothing, `map` falls back to the current entity. */
    method Update(identifier: Arg, db: Engine) returns (r: Result<Record>)
      requires Truthy(identifier)
      requires var t := UpdateTarget(entity, identifier, columns, db);
        t.Ok? && t.value.Some? ==> allocated(t.value.value)
      modifies this, UpdateFrame(entity, identifier, columns, db)
      ensures entity == UpdateHandle(old(entity), identifier)
      ensures entities == old(entities) && repositories == old(repositories)
      ensures data == old(data) && keys == old(keys)
      ensures columns == old(columns) && paginates == old(paginates)
      ensures match UpdateTarget(old(entity), identifier, columns, db)
        case Err(e) => r == Err(e)
        case Ok(found) =>
          match MapSubject(entity, found)
          case None => r == Err(TypeError)
          case Some(e) =>
            r == Ok(e) &&
            SavedAs(e, Mapped(old(e.attributes), data, keys, e.fill), old(e.persisted), old(e.saved))
    {
      var target: Option<Record>;
      if identifier.ModelArg? {
        target := Some(identifier.record);
      } else {
        var found := First(identifier, Null, db);
        if found.Err? {
          return Err(found.error);
        }
        target := found.value;
      }
      r := Map(data, target);
      if r.Ok? {
        var stored := r.value.Save();
      }
    }

    /** `delete($identifier)`: false when `first` finds nothing, otherwise
        that record is deleted and the answer is true. */
    method Delete(identifier: Arg, db: Engine) returns (r: Result<bool>)
      requires Truthy(identifier)
      requires var f := Found(entity, identifier, Null, columns, db);
        f.Ok? && f.value.Some? ==> allocated(f.value.value)
      modifies this, DeleteFrame(entity, identifier, columns, db)
      ensures entity == AfterFirst(old(entity), identifier, Null)
      ensures entities == old(entities) && repositories == old(repositories)
      ensures data == old(data) && keys == old(keys)
      ensures columns == old(columns) && paginates == old(paginates)
      ensures match Found(old(entity), identifier, Null, columns, db)
        case Err(e) => r == Err(e)
        case Ok(None) => r == Ok(false)
        case Ok(Some(x)) =>
          r == Ok(true) && !x.persisted && x.attributes == old(x.attributes) && x.saved == old(x.saved)
    {
      var found := First(identifier, Null, db);
      if found.Err? {
        return Err(found.error);
      }
      if found.value.None? {
        return Ok(false);
      }
      found.value.value.Delete();
      r := Ok(true);
    }

    /** `create()`: a fresh instance of the current model becomes the
        current entity, receives `data` through `map`, and is saved. */
    method Create() returns (r: Result<Record>)
      modifies this
      ensures entities == old(entities) && repositories == old(repositories)
      ensures data == old(data) && keys == old(keys)
      ensures columns == old(columns) && paginates == old(paginates)
      ensures old(entity) == Unset ==> r == Err(NullEntity) && entity == old(entity)
      ensures old(entity).BuilderH? ==> r == Err(TypeError) && entity == old(entity)
      ensures old(entity).ModelH? ==>
        r.Ok? && fresh(r.value) && entity == ModelH(r.value) &&
        r.value.model == old(entity).model.model && r.value.fill == old(entity).model.fill &&
        r.value.store == old(entity).model.store &&
        SavedAs(r.value, Mapped(map[], data, keys, r.value.fill), false, map[])
    {
      if entity == Unset {
        return Err(NullEntity);
      }
      if entity.BuilderH? {
        return Err(TypeError);
      }
      var record := new Record(entity.model.model, entity.model.fill, entity.model.store);
      entity := ModelH(record);
      r := Map(data, None);
      var stored := record.Save();
    }

    /** The array form of `where`: `$this->entity = $this->entity->where($clause)`
        for each clause in order; a null entity fails at the first clause. */
    method WhereEach(clauses: seq<Clause>) returns (r: Result<Repository>)
      requires |clauses| > 0
      modifies this
      ensures entities == old(entities) && repositories == old(repositories)
      ensures data == old(data) && keys == old(keys)
      ensures columns == old(columns) && paginates == old(paginates)
      ensures match FoldWhere(old(entity), clauses)
        case Ok(h) => r == Ok(this) && entity == h
        case Err(e) => r == Err(e) && entity == old(entity)
    {
      FoldWhereAppends(old(entity), clauses);
      var i := 0;
      while i < |clauses|
        invariant 0 <= i <= |clauses|
        invariant i == 0 ==> entity == old(entity)
        invariant i > 0 ==>
          old(entity) != Unset &&
          entity == BuilderH(old(entity).model, ConstraintsOf(old(entity)) + Filters(clauses[..i]))
        invariant entities == old(entities) && repositories == old(repositories)
        invariant data == old(data) && keys == old(keys)
        invariant columns == old(columns) && paginates == old(paginates)
      {
        FiltersExtend(ConstraintsOf(old(entity)), clauses, i);
        var next := WhereOn(entity, clauses[i]);
        if next.Err? {
          return Err(next.error);
        }
        entity := next.value;
        i := i + 1;
      }
      assert clauses[..|clauses|] == clauses;
      r := Ok(this);
    }

    /** `where($query, $append)`. The closure form strips a builder to its
        model unless `append` is set, runs the closure, and keeps its return
        only when that is a Builder, restoring the handle from before the
        call otherwise. The array form narrows the handle by each clause in
        order. */
    method Where(query: Query, append: bool) returns (r: Result<Repository>)
      modifies this
      ensures entities == old(entities) && repositories == old(repositories)
      ensures data == old(data) && keys == old(keys)
      ensures columns == old(columns) && paginates == old(paginates)
      ensures query.Callback? ==>
        r == Ok(this) &&
        var v := query.f(CallbackSubject(old(entity), append));
        entity == (if v.VBuilder? then AsHandle(v) else old(entity))
      ensures query.Clauses? && query.clauses == [] ==> r == Err(TypeError) && entity == old(entity)
      ensures query.Clauses? && query.clauses != [] ==>
        match FoldWhere(old(entity), query.clauses)
        case Ok(h) => r == Ok(this) && entity == h
        case Err(e) => r == Err(e) && entity == old(entity)
    {
      var current := entity;
      match WhereCase(query) {
        case ClosureBranch =>
          if !append && current.BuilderH? {
            current := ModelH(entity.model);
          }
          if query.Clauses? {
            // `call_user_func` on an array that is not a callable.
            return Err(TypeError);
          }
          var returned := query.f(current);
          if returned.VBuilder? {
            current := AsHandle(returned);
          } else {
            current := entity;
          }
          entity := current;
          r := Ok(this);
        case ArrayBranch =>
          r := WhereEach(query.clauses);
      }
    }
  }
}
