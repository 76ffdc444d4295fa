/** The entities container the façade pushes models into and resolves
    them from. Its class, `Containers\Entities`, is not part of this model:
    `push`, `set` and `current` follow their documented contract (append,
    force the current pointer, return it or fail), while what `resolve`
    returns and whether `has()` returns an object are left uninterpreted. */
module Containers {
  import opened Values
  import opened Eloquent

  /** The container behaviour that is not visible: `resolve($name, $hint)`
      and `is_object($this->has())`, each as a function of the held
      instances and the current pointer. */
  datatype Lookup = Lookup(
    resolve: (seq<Record>, Option<Record>, Option<string>, Option<string>) -> Result<Record>,
    hasObject: (seq<Record>, Option<Record>) -> bool)

  class Entities {
    const lookup: Lookup
    var items: seq<Record>        // pushed instances, in push order
    var current: Option<Record>   // the current pointer

    constructor (lookup: Lookup)
      ensures this.lookup == lookup && items == [] && current == None
    {
      this.lookup := lookup;
      items := [];
      current := None;
    }

    /** `push($instance)`. */
    method Push(instance: Record)
      modifies this
      ensures items == old(items) + [instance] && current == old(current)
    {
      items := items + [instance];
    }

    /** `set($instance)`. */
    method Set(instance: Record)
      modifies this
      ensures current == Some(instance) && items == old(items)
    {
      current := Some(instance);
    }

    /** `current()`: the current instance, or ResourceNotDefined. */
    function Current(): (r: Result<Record>)
      reads this
      ensures r.Ok? <==> current.Some?
      ensures r.Ok? ==> current == Some(r.value)
      ensures r.Err? ==> r.error == ResourceNotDefined
    {
      if current.None? then Err(ResourceNotDefined) else Ok(current.value)
    }

    /** `resolve($name, $hint)`. */
    function Resolve(name: Option<string>, hint: Option<string>): Result<Record>
      reads this
    {
      lookup.resolve(items, current, name, hint)
    }

    /** `is_object($this->has())`. */
    function HasObject(): bool
      reads this
    {
      lookup.hasObject(items, current)
    }
  }
}
