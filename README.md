# Tokenizer manager model

This project models tantivy's tokenizer manager. The manager is a registry
from pipeline names to pipeline templates. A pipeline is a base tokenizer
wrapped in an ordered chain of filters.

- `pipeline.dfy` (module `Pipelines`): pipelines as values. `Pipeline` is
  either a base tokenizer (`Raw`, `Simple`, `Japanese`) or a pipeline
  wrapped in one more filter (`RemoveLong(limit)`, `LowerCaser`,
  `Stemmer`). This matches how `.filter(...)` calls nest. `register`
  accepts any tokenizer, not only these, so both kinds also have an open
  case, `OtherTokenizer(id)` and `OtherFilter(id)`. That case stands for
  any tokenizer or filter a caller supplies. `Base()` and
  `Filters()` give the flattened view, and `Build` is their inverse.
- `tokenizer_manager.dfy` (module `Registry`): the shared table and the
  manager.
  - `Table` is the `RwLock<HashMap<..>>`. Its `entries` map is updated in
    place. A ghost `history` records every registration, and `Valid()`
    states that `entries` is the replay of `history`.
  - `TokenizerManager` holds the table in a `const` field. That field plays
    the part of the `Arc`, so `Clone` gives a new manager that shares the
    same table.
  - `Register` updates the map in place.
  - `Get` is a read-only function over the table.
  - The `Default` constructor registers the four default pipelines in
    order, starting from an empty table.

The reference for "last write wins" is `LastWrite(history, name)`. It
scans the registrations from the newest back. `Replay(history)` is the map
that results from inserting the registrations in order. `ReplayIsLastWrite`
proves that the two agree.

The doc comment on `Default::default` lists `simple`, `en_stem` and `ja`.
The code registers `raw`, `default`, `en_stem` and `ja`, and the model
follows the code. The manager puts no condition on names (the empty name is
accepted), so `Register` has no precondition on `name`.

## Model

| member | source | states |
|---|---|---|
| `Pipelines.Pipeline.Filter` | src/tokenizer/tokenizer_manager.rs:60-62 | attaching a filter keeps the base tokenizer and appends the filter after every filter already attached |
| `Pipelines.BuildThenFlatten` | src/tokenizer/tokenizer_manager.rs:66-69 | a pipeline built from a base and a filter list has exactly that base and that filter list, in order |
| `Pipelines.FlattenThenBuild` | src/tokenizer/tokenizer_manager.rs:66-69 | every pipeline is rebuilt exactly from its base and its filter list (the inverse round trip) |
| `Pipelines.PipelineExtensionality` | src/tokenizer/tokenizer_manager.rs:57-71 | two pipelines are equal if and only if they have the same base and the same filters in the same order |
| `Registry.ReplayIsLastWrite` | src/tokenizer/tokenizer_manager.rs:34-37 | inserting registrations in order into a map gives, for every name, the pipeline of that name's last registration, or no entry; the key set is exactly the set of registered names |
| `Registry.NeverRegisteredIsAbsent` | src/tokenizer/tokenizer_manager.rs:40-46 | a name never registered has no entry |
| `Registry.LastWriteWins` | src/tokenizer/tokenizer_manager.rs:34-37 | after registering `p` under `name`, the entry is `p` until `name` is registered again, and then it is the newest registration |
| `Registry.DefaultTableContents` | src/tokenizer/tokenizer_manager.rs:55-72 | the default table has exactly the keys raw, default, en_stem and ja. Each entry's base and filter list are stated directly: raw has base Raw and no filters. default has base Simple and filters [RemoveLong(40), LowerCaser]. en_stem has the same with Stemmer last. ja has base Japanese and filters [RemoveLong(40)] |
| `Registry.Table.constructor` | src/tokenizer/tokenizer_manager.rs:56 | a new table is empty and has no registrations |
| `Registry.TokenizerManager.Sharing` | src/tokenizer/tokenizer_manager.rs:24-25 | a manager built over a table holds that very table |
| `Registry.TokenizerManager.Clone` | src/tokenizer/tokenizer_manager.rs:23-25 | a clone is a new manager object that shares the original's table |
| `Registry.TokenizerManager.Register` | src/tokenizer/tokenizer_manager.rs:29-38 | the entry under `name` becomes `p`, every other entry is unchanged, only `name` is added to the key set, and the registration is appended to the table's history |
| `Registry.TokenizerManager.Get` | src/tokenizer/tokenizer_manager.rs:40-46 | the result is the pipeline of the last registration of `name`, or `None` if `name` is unregistered; it is `Some` exactly when `name` is a key; it reads the table and changes nothing |
| `Registry.TokenizerManager.Default` | src/tokenizer/tokenizer_manager.rs:55-73 | a fresh table whose registrations are the four default pipelines in source order, and whose key set is exactly raw, default, en_stem, ja |
| `Registry.RegisterThroughClone` | src/tokenizer/tokenizer_manager.rs:23-46 | a registration made through a clone is seen by `get` through the original manager |
| `Registry.ReRegister` | src/tokenizer/tokenizer_manager.rs:29-46 | after registering two pipelines under one name, `get` returns the second |
| `Registry.RegisterLeavesOtherNames` | src/tokenizer/tokenizer_manager.rs:37-45 | a lookup of a name returns the same result before and after a registration under a different name |
| `Registry.GetTwice` | src/tokenizer/tokenizer_manager.rs:40-46 | two successive lookups of one name return equal results |

## Left out

- Locking: the `RwLock` and the atomicity it gives under concurrent callers are not modelled. Every operation is sequential.
- The `.expect(...)` panics on lock failure are treated as unreachable.
- The `'static + Send + Sync` bounds on `register` are not modelled. They are type-level requirements with no run-time behaviour.
- `box_tokenizer`, `BoxedTokenizer` and `boxed_clone` are not part of this model. The type-erased template is a `Pipeline` value, and `boxed_clone` is a value copy. A copy's independence from the template therefore holds by construction and is not stated separately.
- The tokenizer and filter algorithms, token streams, positions and offsets are not part of this model. Pipelines only record which base tokenizer and which filters they are made of, and in what order.
- `Stemmer::new()` is modelled as a single `Stemmer` filter. Its language setting is not shown in the modelled file.
