/**
 * The generic resource manager: a name-keyed cache that builds each
 * resource at most once, through the loader it was created with, and hands
 * out shared handles to it. Its state is updated in place; every method
 * is specified by the matching function of ResourceSpec.
 */
module ResourceManagers {
  import opened Wrappers
  import Spec = ResourceSpec

  class ResourceManager<A, R> {
    /** The loader bound at construction; it turns load details into a resource or an error. */
    const loader: A -> Result<R>
    /** The cached handles, by name. */
    var cache: map<string, Spec.Handle<R>>
    /** The identity the next new handle receives. */
    var next: nat
    /** Arguments of every loader invocation so far, oldest first. */
    ghost var calls: seq<A>

    /** The manager's state as a value. */
    ghost function State(): Spec.State<A, R>
      reads this
    {
      Spec.State(cache, next, calls)
    }

    ghost predicate Valid()
      reads this
    {
      Spec.Valid(State())
    }

    /** A manager bound to `loader`, with an empty cache. */
    constructor (loader: A -> Result<R>)
      ensures this.loader == loader
      ensures State() == Spec.Init()
      ensures Valid()
    {
      this.loader := loader;
      cache := map[];
      next := 0;
      calls := [];
    }

    /** Returns the handle cached under `name`, constructing and caching it on a miss. */
    method Load(name: string, details: A) returns (r: Result<Spec.Handle<R>>)
      requires Valid()
      modifies this
      ensures Valid()
      ensures Spec.Outcome(State(), r) == Spec.Load(old(State()), loader, name, details)
    {
      if name in cache {
        r := Ok(cache[name]);
      } else {
        calls := calls + [details];
        var loaded := loader(details);
        match loaded {
          case Err(e) =>
            r := Err(e);
          case Ok(v) =>
            var h := Spec.Handle(next, v);
            next := next + 1;
            cache := cache[name := h];
            r := Ok(h);
        }
      }
    }

    /** Caches `item` under `name` unless the name is taken; returns the handle now cached. */
    method Add(name: string, item: R) returns (r: Result<Spec.Handle<R>>)
      requires Valid()
      modifies this
      ensures Valid()
      ensures Spec.Outcome(State(), r) == Spec.Add(old(State()), name, item)
    {
      if name in cache {
        r := Ok(cache[name]);
      } else {
        var h := Spec.Handle(next, item);
        next := next + 1;
        cache := cache[name := h];
        r := Ok(h);
      }
    }

    /** Returns the handle cached under `name`, or "<name> not found". */
    method Get(name: string) returns (r: Result<Spec.Handle<R>>)
      ensures r == Spec.Get(State(), name)
    {
      if name in cache {
        r := Ok(cache[name]);
      } else {
        r := Err(name + " not found");
      }
    }
  }
}
