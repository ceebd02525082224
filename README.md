# Resource manager: a verified model

This project models the generic `ResourceManager` of the texturemanager crate. The manager is a cache keyed by name that memoizes resources which are expensive to construct, such as textures and fonts. It builds each resource at most once, through the loader it was created with, and returns shared (`Rc`) handles to the cached resource.

- `load(name, details)` is lookup-or-construct. On a hit it returns the cached handle, and the loader is not called. On a miss it calls the loader once. A successful result is wrapped in a new handle, cached under `name` and returned. A loader error is returned unchanged and nothing is cached.
- `add(name, item)` is insert-if-absent. On a miss it caches a new handle around `item`. On a hit it discards `item` and returns the cached handle. It never fails.
- `get(name)` is a read-only lookup. It fails with `"<name> not found"` when the name is not cached.

The project has three modules:

- `Wrappers` (`wrappers.dfy`) holds `Result<T>`, a value or a `string` error, as in Rust's `Result<_, String>`.
- `ResourceSpec` (`resource_spec.dfy`) describes the manager as a value, `State`. It has three parts:
  - the name-to-handle map;
  - the identity the next new handle receives;
  - a log of every loader invocation's argument.
  `Load`, `Add` and `Get` are functions on `State`. `Run` serves a whole sequence of requests. The lemmas state what holds along every such trace.
- `ResourceManagers` (`resource_manager.dfy`) holds the class `ResourceManager`. Its `cache` field is updated in place, as the Rust struct's `HashMap` is. Each of its methods is proved to produce exactly the state and result of the matching `ResourceSpec` function.

Modelling choices:

- **Handles.** An `Rc<R>` is modelled as `Handle(id, value)`. The `id` is drawn from a counter, `next`, which stands for the allocation `Rc::new` performs. Two handles are the same `Rc` exactly when their ids agree. `Valid` states two facts: every cached id was issued before `next`, and no two names share a handle.
- **The loader.** The `ResourceLoader` trait becomes a total function `A -> Result<R>`, where `A` is the trait's `Args`. It is fixed when the manager is created, as the `&'l L` field is. The ghost log `calls` records each invocation, so "on a hit the loader is not called" can be stated.
- **Overwriting.** Once a name is cached, its entry never changes. Neither `load` nor `add` overwrites. One could expect `add` to replace an existing entry with the new item, but the code never does, and the model follows the code.

## Model

| member | source | states |
|---|---|---|
| `ResourceSpec.Init` | src/lib.rs:44-49 | A new manager holds no entries and has not called its loader; its state is valid |
| `ResourceManagers.ResourceManager.constructor` | src/lib.rs:44-49 | The manager is bound to the given loader, with an empty cache and an empty loader log |
| `ResourceSpec.Get` | src/lib.rs:92-102 | Succeeds exactly when the name is cached and then returns the cached handle; otherwise fails with `name + " not found"`; never changes the state |
| `ResourceManagers.ResourceManager.Get` | src/lib.rs:92-102 | Returns what `ResourceSpec.Get` specifies for the current state and modifies nothing |
| `ResourceSpec.Load` | src/lib.rs:56-71 | Hit: returns the cached handle, does not call the loader, and changes nothing. Miss: calls the loader exactly once on `details`. On loader failure, returns its message unchanged and leaves the cache as before, so `get` still fails. On success, caches a handle fresh among the cached ones, around the loaded value, under `name` only, and returns it, so a later `get` returns it. Validity is preserved |
| `ResourceManagers.ResourceManager.Load` | src/lib.rs:56-71 | Updates the cache in place to exactly the state `ResourceSpec.Load` gives, returns the same result, and keeps `Valid` |
| `ResourceSpec.Add` | src/lib.rs:77-89 | Always succeeds. Hit: discards the item, returns the cached handle, and changes nothing. Miss: caches a fresh handle around the item under `name` only, without calling the loader. A later `get` returns the handle it returned. Validity is preserved |
| `ResourceManagers.ResourceManager.Add` | src/lib.rs:77-89 | Updates the cache in place to exactly the state `ResourceSpec.Add` gives, returns the same result, and keeps `Valid` |
| `ResourceSpec.Apply` | src/lib.rs:56-102 | Serving any one request keeps every existing entry, adds no name other than the request's own, only extends the loader log, and preserves validity |
| `ResourceSpec.Run` | src/lib.rs:56-102 | Along any sequence of requests, no cached entry is ever replaced or removed, the loader log only grows, and validity is kept |
| `ResourceSpec.ConstructedAreNew` | src/lib.rs:62-89 | The names whose entry a trace created are exactly the names cached at its end that were not cached at its start |
| `ResourceSpec.ConstructedOnce` | src/lib.rs:62-89 | No name has its resource constructed twice along a trace |
| `ResourceSpec.ConstructedCount` | src/lib.rs:62-89 | The number of cached entries grows by exactly the number of constructions |
| `ResourceSpec.StableEntry` | src/lib.rs:62-100 | Once a name is cached, every later load, add or get of that name, along any trace, returns that same handle |
| `ResourceSpec.WarmCache` | src/lib.rs:62-100 | A trace whose requests all name cached resources calls no loader, changes no state, and answers each request with its cached handle |
| `ResourceSpec.Untouched` | src/lib.rs:62-89 | Requests on other names never change a name's presence or its handle; the only mutation is the insert under the request's own name |
| `ResourceSpec.IdempotentHit` | src/lib.rs:56-71 | Two loads of one name: after a successful first load, the second returns the identical handle, and the loader runs once, or not at all on a hit. Only a failed first load lets the second load call the loader again |

## Left out

- The concrete loaders `TextureCreator::load_texture` and `Sdl2TtfContext::load_font` (src/lib.rs:106-120). They are SDL2 calls that do file and GPU I/O. Only the abstract loader contract is modelled.
- `FontDetails` and its clone through `From<&FontDetails>` (src/lib.rs:122-136). It is a plain data copy.
- The `TextureManager` and `FontManager` aliases (src/lib.rs:34, 37). They are instantiations of the generic manager with the SDL2 types.
- `Rc` reference counting and drop. The model has no notion of release or destruction. Handles are compared by identity only.
- Rust lifetimes (`'l`), the `Borrow<str>`/`From<&str>` key conversions and the `Hash`/`Display` bounds. These are language ergonomics. Keys are `string` throughout, and `format!("{} not found", name)` becomes `name + " not found"`.
- The loader is modelled as a deterministic function of its arguments. A real loader reads files, so two calls on the same path can answer differently. No property proved here relies on determinism, except that the model's loader answer on a miss is named `loader(details)`.
- `get` takes `&mut self` in the source but never modifies the cache. The model's `Get` method has no `modifies` clause.
