/** The part of Eloquent the façade touches, kept abstract: a record is an
    object whose attributes are written in place, saved and deleted; the
    query handle is either a bare model or a builder that has taken
    constraints in order; query execution is a set of uninterpreted
    functions. */
module Eloquent {
  import opened Values
  import opened Mapping

  /** A Model instance. `fill` stands for `Model::fill` and `store` for the
      write `save()` performs; both belong to the model class and are left
      uninterpreted. */
  class Record {
    const model: string
    const fill: (Attributes, Bag) -> Attributes
    /** `save()` on a record with these attributes that does or does not
        exist yet: the attributes after the write (a key assigned on insert,
        timestamps touched), or None when a saving listener cancels it. */
    const store: (Attributes, bool) -> Option<Attributes>
    var attributes: Attributes
    var persisted: bool          // Eloquent's `exists`
    var saved: Attributes        // the attributes as last written to the store

    /** `new $model`: a fresh, unsaved instance of the same model class. */
    constructor (model: string, fill: (Attributes, Bag) -> Attributes,
                 store: (Attributes, bool) -> Option<Attributes>)
      ensures this.model == model && this.fill == fill && this.store == store
      ensures attributes == map[] && !persisted && saved == map[]
    {
      this.model := model;
      this.fill := fill;
      this.store := store;
      attributes := map[];
      persisted := false;
      saved := map[];
    }

    /** `$record->{$key} = $val`. */
    method SetAttribute(key: string, val: Val)
      modifies this
      ensures attributes == old(attributes)[key := val]
      ensures persisted == old(persisted) && saved == old(saved)
    {
      attributes := attributes[key := val];
    }

    /** `$record->fill($inserts)`. */
    method Fill(inserts: Bag)
      modifies this
      ensures attributes == fill(old(attributes), inserts)
      ensures persisted == old(persisted) && saved == old(saved)
    {
      attributes := fill(attributes, inserts);
    }

    /** `$record->save()`: unless cancelled, the record exists afterwards
        and what is stored is exactly its attributes after the write. */
    method Save() returns (ok: bool)
      modifies this
      ensures ok <==> store(old(attributes), old(persisted)).Some?
      ensures ok ==> attributes == store(old(attributes), old(persisted)).value &&
                     persisted && saved == attributes
      ensures !ok ==> attributes == old(attributes) && persisted == old(persisted) && saved == old(saved)
    {
      var written := store(attributes, persisted);
      if written.None? {
        return false;
      }
      attributes := written.value;
      persisted := true;
      saved := attributes;
      ok := true;
    }

    /** `$record->delete()`. */
    method Delete()
      modifies this
      ensures !persisted && attributes == old(attributes) && saved == old(saved)
    {
      persisted := false;
    }
  }

  /** The state of `e` after `save()` on attributes `mapped`, with `existed`
      and `before` its `exists` flag and stored attributes beforehand: as
      the model class writes it, or mapped but unsaved when cancelled. */
  predicate SavedAs(e: Record, mapped: Attributes, existed: bool, before: Attributes)
    reads e
    ensures SavedAs(e, mapped, existed, before) && e.store(mapped, existed).Some? ==>
      e.persisted && e.saved == e.attributes
    ensures SavedAs(e, mapped, existed, before) && !e.persisted ==>
      !existed && e.attributes == mapped && e.saved == before
  {
    match e.store(mapped, existed)
    case Some(written) => e.attributes == written && e.persisted && e.saved == written
    case None => e.attributes == mapped && e.persisted == existed && e.saved == before
  }

  /** One where-clause: a field => value array, or a single field and value. */
  datatype Clause = FieldsClause(fields: Bag) | FieldClause(column: string, value: Val)

  /** One constraint a builder has taken, in the order the calls were made:
      `where($clause)`, `whereKey($id)` (from `find`), `take($count)` (from
      `first`) and `forPage($page, $perPage)` (from `paginate`). */
  datatype Constraint =
    | Filter(clause: Clause)
    | KeyIs(key: Val)
    | Limit(count: nat)
    | ForPage(page: nat, perPage: int)

  /** What `$this->entity` holds: nothing yet, a bare model, or a builder
      bound to a model with the constraints it has taken, in order. A
      builder is one object: a call made through it changes it in place. */
  datatype Handle = Unset | ModelH(model: Record) | BuilderH(model: Record, constraints: seq<Constraint>)

  /** What a callback can hand back. */
  datatype Value = VModel(model: Record) | VBuilder(model: Record, constraints: seq<Constraint>) | VOther

  /** The handle a Model or Builder return value becomes, unchanged. */
  function AsHandle(v: Value): (h: Handle)
    requires !v.VOther?
    ensures h.ModelH? <==> v.VModel?
    ensures h != Unset && h.model == v.model
    ensures v.VBuilder? ==> h == BuilderH(v.model, v.constraints)
  {
    match v
    case VModel(m) => ModelH(m)
    case VBuilder(m, ks) => BuilderH(m, ks)
  }

  /** The constraints a handle carries; a bare model carries none. */
  function ConstraintsOf(h: Handle): seq<Constraint> {
    if h.BuilderH? then h.constraints else []
  }

  /** Where-clauses as builder constraints, in order. */
  function Filters(cs: seq<Clause>): (ks: seq<Constraint>)
    ensures |ks| == |cs|
    ensures forall i :: 0 <= i < |cs| ==> ks[i] == Filter(cs[i])
  {
    seq(|cs|, i requires 0 <= i < |cs| => Filter(cs[i]))
  }

  /** A query call on a handle: a model starts a new builder, a builder
      takes the constraint after the ones it has; on null the call fails. */
  function Narrow(h: Handle, k: Constraint): (r: Result<Handle>)
    ensures r.Err? <==> h == Unset
    ensures r.Err? ==> r.error == NullEntity
    ensures r.Ok? ==> r.value.BuilderH? && r.value.model == h.model && r.value.constraints == ConstraintsOf(h) + [k]
  {
    match h
    case Unset => Err(NullEntity)
    case ModelH(m) => Ok(BuilderH(m, [k]))
    case BuilderH(m, ks) => Ok(BuilderH(m, ks + [k]))
  }

  /** `$handle->where($clause)`. */
  function WhereOn(h: Handle, c: Clause): (r: Result<Handle>)
    ensures r.Err? <==> h == Unset
    ensures r.Err? ==> r.error == NullEntity
    ensures r.Ok? ==> r.value.BuilderH? && r.value.model == h.model &&
                      r.value.constraints == ConstraintsOf(h) + [Filter(c)]
  {
    Narrow(h, Filter(c))
  }

  /** What the handle object itself holds after calls taking `ks` were made
      through it: a builder has taken them in place, while a bare model
      handed them to a new builder and is left as it was. */
  function Through(h: Handle, ks: seq<Constraint>): (after: Handle)
    ensures !h.BuilderH? ==> after == h
    ensures h.BuilderH? ==> after.BuilderH? && after.model == h.model
    ensures h.BuilderH? ==> |after.constraints| == |h.constraints| + |ks|
    ensures h.BuilderH? ==> after.constraints[..|h.constraints|] == h.constraints
  {
    if h.BuilderH? then BuilderH(h.model, h.constraints + ks) else h
  }

  /** `$h = $h->where($clause)` for each clause in list order. */
  function FoldWhere(h: Handle, cs: seq<Clause>): (r: Result<Handle>)
    ensures r.Err? <==> h == Unset && cs != []
    ensures r.Err? ==> r.error == NullEntity
    ensures cs == [] ==> r == Ok(h)
    ensures r.Ok? && cs != [] ==> r.value.BuilderH? && r.value.model == h.model
    decreases |cs|
  {
    if cs == [] then Ok(h)
    else match FoldWhere(h, cs[..|cs| - 1])
      case Err(e) => Err(e)
      case Ok(g) => WhereOn(g, cs[|cs| - 1])
  }

  /** The constraints of a clause list end with those of its last clause. */
  lemma FiltersSnoc(cs: seq<Clause>)
    requires |cs| > 0
    ensures Filters(cs) == Filters(cs[..|cs| - 1]) + [Filter(cs[|cs| - 1])]
  {
  }

  /** Constraints followed by the filters of a prefix, extended by the next
      clause, are those constraints followed by the longer prefix's filters. */
  lemma FiltersExtend(base: seq<Constraint>, cs: seq<Clause>, i: nat)
    requires i < |cs|
    ensures base + Filters(cs[..i]) + [Filter(cs[i])] == base + Filters(cs[..i + 1])
  {
    assert cs[..i + 1][..i] == cs[..i];
    FiltersSnoc(cs[..i + 1]);
  }

  /** Folding a non-empty clause list binds a builder to the same model
      with the list appended, in order; from null it fails. */
  lemma {:induction false} FoldWhereAppends(h: Handle, cs: seq<Clause>)
    requires |cs| > 0
    ensures h == Unset ==> FoldWhere(h, cs) == Err(NullEntity)
    ensures h != Unset ==> FoldWhere(h, cs) == Ok(BuilderH(h.model, ConstraintsOf(h) + Filters(cs)))
  {
    var init := cs[..|cs| - 1];
    if |cs| > 1 {
      FoldWhereAppends(h, init);
      if h != Unset {
        FiltersSnoc(cs);
        assert ConstraintsOf(h) + Filters(init) + [Filter(cs[|cs| - 1])] == ConstraintsOf(h) + Filters(cs);
      }
    } else {
      assert init == [] && FoldWhere(h, init) == Ok(h);
      assert Filters(cs) == [Filter(cs[0])];
    }
  }

  /** Query execution, left uninterpreted: the first row `get($columns)`
      returns for a builder, and the row count `paginate` takes first. */
  datatype Engine = Engine(
    firstRow: (Handle, seq<string>) -> Option<Record>,
    count: Handle -> nat)
}
