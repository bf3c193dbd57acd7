# Crunch's lazy collection graph, in Dafny

This project models `PCollectionImpl`, the base class of every stage in a
Crunch MapReduce pipeline. A stage is a collection. It has a name and an
ordered list of parent collections it is computed from. It also has a slot
that records where its output has been materialized, and a lazily cached
reference to the `MRPipeline` that owns it. Building stages runs nothing.
The planner later walks the graph through `accept` and a `Visitor`.

Files:

- `collect.dfy` (module `Collect`) holds the graph.
  - `Collection` is a class. `name`, `kind` and `parents` are constants.
    `pipeline` and `materializedAt` are the two fields the source assigns.
  - `Kind` is the closed set of the five concrete classes the `Visitor`
    names: `InputCollection`, `UnionCollection`, `DoCollectionImpl`,
    `DoTableImpl` and `PGroupedTableImpl`.
  - A ghost `height` and the heap-independent `Valid()` keep the graph
    acyclic. `Valid()` also fixes each class's parent count.
  - `Pipeline` is the part of `MRPipeline` that a collection relies on:
    the anonymous-stage counter and the list of registered outputs.
- `stage_names.dfy` (module `StageNames`) models the name `"S" + id`. Java
  prints the int in decimal. The module proves that the printing reads back
  and that distinct ids give distinct names.
- `wrappers.dfy` (module `Wrappers`) holds `Option`, which stands for
  Java's `null`, and `Result`, which stands for the thrown
  `IllegalArgumentException`.
- `scenarios.dfy` (module `Scenarios`) holds client methods. They check
  end-to-end facts from the contracts alone:
  - depths 1, 2 and 3 along input, parallelDo and grouping;
  - a union of a union is two layers;
  - both unnamed parallelDo forms share one counter;
  - writing twice registers two outputs;
  - a second `getPipeline` returns the cached pipeline;
  - a materialized collection is visited as an input.

The user's `DoFn` and `PType`, and the `SourceTarget` and `Target` values,
are opaque type parameters `F`, `ST` and `T`.

Two facts about the code shape the model:

- `getPipeline` follows only the first parent (line 127), never the others.
- `materializeAt` overwrites any earlier value (line 104), so the slot is
  not one-way.

## Model

| member | source | states |
|---|---|---|
| `Collect.Collection.Union` | src/main/java/com/cloudera/crunch/impl/mr/collect/PCollectionImpl.java:53-61 | The new union's parents are exactly `[this] + collections`, in call order. An argument that is itself a union stays one parent. The loop's invariant is that the list built so far is `[this]` followed by the first `i` arguments. That `UnionCollection` exposes this list as its parents is assumed (see "## Left out"). |
| `Collect.Collection.ParallelDo` | src/main/java/com/cloudera/crunch/impl/mr/collect/PCollectionImpl.java:63-67 | The new `DoCollection` has `this` as its only parent. Its name is `"S" + k`, where `k` is the resolved pipeline's counter before the call. The counter goes up by one, and the pipeline is now cached along the first-parent line. |
| `Collect.Collection.ParallelDoNamed` | src/main/java/com/cloudera/crunch/impl/mr/collect/PCollectionImpl.java:69-73 | The new `DoCollection` has exactly the given name and `this` as its only parent. Nothing existing is modified, so the counter is not touched. |
| `Collect.Collection.ParallelDoTable` | src/main/java/com/cloudera/crunch/impl/mr/collect/PCollectionImpl.java:75-80 | Same as `ParallelDo`, producing a `DoTable`. It draws from the same pipeline counter. |
| `Collect.Collection.ParallelDoTableNamed` | src/main/java/com/cloudera/crunch/impl/mr/collect/PCollectionImpl.java:82-86 | Same as `ParallelDoNamed`, producing a `DoTable`. |
| `Collect.Collection.Write` | src/main/java/com/cloudera/crunch/impl/mr/collect/PCollectionImpl.java:88-92 | Returns `this`. The resolved pipeline's outputs become the old outputs followed by `(this, target)`, so repeated writes add several outputs. |
| `Collect.Pipeline.Write` | src/main/java/com/cloudera/crunch/impl/mr/collect/PCollectionImpl.java:90 | The pipeline's output list gets `(collection, target)` appended, and nothing else changes. Line 90 shows only the call, so this behaviour of `MRPipeline.write` is assumed (see "## Left out"). |
| `Collect.Pipeline.GetNextAnonymousStageId` | src/main/java/com/cloudera/crunch/impl/mr/collect/PCollectionImpl.java:66 | Returns the counter's current value and advances it by one. Ids therefore come out strictly increasing and never repeat. |
| `Collect.Collection.GetMaterializedAt` | src/main/java/com/cloudera/crunch/impl/mr/collect/PCollectionImpl.java:99-101 | Returns the materialized-at slot as it stands: `None` on a collection that was never materialized, and the value last given to `MaterializeAt` otherwise. |
| `Collect.Collection.MaterializeAt` | src/main/java/com/cloudera/crunch/impl/mr/collect/PCollectionImpl.java:99-105 | Afterwards `GetMaterializedAt()` returns the given source target. Only the `materializedAt` field changes, so the name, parents and pipeline stay the same. |
| `Collect.Collection.OnlyParent` | src/main/java/com/cloudera/crunch/impl/mr/collect/PCollectionImpl.java:116-122 | Succeeds if and only if there is exactly one parent, and then returns `parents[0]`. Otherwise it is `IllegalArgument` with the source's message. |
| `Collect.Collection.OnlyParentByKind` | src/main/java/com/cloudera/crunch/impl/mr/collect/PCollectionImpl.java:116-122 | On an input it always fails. On a do-collection, do-table or grouped table it always returns the single parent. On a union it succeeds exactly when the union has one parent, which by `Union`'s contract means it was built with no arguments. |
| `Collect.Collection.FirstParentLine` | src/main/java/com/cloudera/crunch/impl/mr/collect/PCollectionImpl.java:127 | The collections that getPipeline may walk through. They include this collection and lie no higher than it in the graph. |
| `Collect.Collection.Unresolved` | src/main/java/com/cloudera/crunch/impl/mr/collect/PCollectionImpl.java:126-127 | The collections getPipeline will cache into. Each is on the first-parent line and has no pipeline yet. This collection is among them exactly when its own pipeline is null. |
| `Collect.Collection.Resolved` | src/main/java/com/cloudera/crunch/impl/mr/collect/PCollectionImpl.java:124-130 | The pipeline `getPipeline` answers with. It is this collection's own cached pipeline whenever one is set. A non-null answer is a pipeline cached by some collection on the first-parent line. A null answer means no collection on that line caches one. |
| `Collect.Collection.GetPipeline` | src/main/java/com/cloudera/crunch/impl/mr/collect/PCollectionImpl.java:124-130 | Returns the first pipeline cached along the first-parent line. Every collection passed on the way, this one included, now caches that pipeline, and no other field changes. A second call therefore returns the same value and changes nothing; `Scenarios.PipelineCachedOnce` checks this from the contract. |
| `Collect.Collection.GetDepth` | src/main/java/com/cloudera/crunch/impl/mr/collect/PCollectionImpl.java:132-138 | The loop over parents with a running maximum returns `Depth()`. `Depth()` is 1 + the largest parent depth, or 1 when there are no parents. |
| `Collect.Collection.ParentMaxIsMax` | src/main/java/com/cloudera/crunch/impl/mr/collect/PCollectionImpl.java:133-136 | The running maximum is at least every parent's depth, is reached by some parent when there are any, and is 0 exactly when there are no parents. |
| `Collect.Collection.DepthAboveParents` | src/main/java/com/cloudera/crunch/impl/mr/collect/PCollectionImpl.java:132-138 | The depth is at least 1, and it is 1 exactly when there are no parents. It is strictly greater than every parent's depth and exactly one more than the deepest parent's. |
| `Collect.CallbackFor` | src/main/java/com/cloudera/crunch/impl/mr/collect/PCollectionImpl.java:140-150 | Each of the five classes has its own visitor callback, and no two classes share one (both directions for each callback). |
| `Collect.Collection.Accept` | src/main/java/com/cloudera/crunch/impl/mr/collect/PCollectionImpl.java:152-159 | Exactly one callback fires. If the collection is materialized, whatever its class, it is `visitInputCollection`. That callback gets a fresh, parentless input that wraps the materialized-at value in the collection's resolved pipeline. Otherwise the collection's own class's callback fires on the collection itself, and nothing is cached; what `acceptInternal` does is assumed (see "## Left out"). Only the materialized path needs a resolvable pipeline, since only it calls `getPipeline`. |
| `Collect.Collection.Input` | src/main/java/com/cloudera/crunch/impl/mr/collect/PCollectionImpl.java:154-155 | An input collection has no parents and holds its source. Its pipeline is set from construction. It starts unmaterialized. |
| `Collect.Collection.Derived` | src/main/java/com/cloudera/crunch/impl/mr/collect/PCollectionImpl.java:60-85 | A union, do-collection, do-table or grouped table has the given name, class and parents. Its parent count fits its class. It starts with no cached pipeline and no materialized-at value. |
| `StageNames.Decimal` | src/main/java/com/cloudera/crunch/impl/mr/collect/PCollectionImpl.java:66 | How `"S" + id` prints the id: at least one digit, only digits, and no leading zero. It is a single digit exactly when the id is below 10. |
| `StageNames.DecimalRoundTrip` | src/main/java/com/cloudera/crunch/impl/mr/collect/PCollectionImpl.java:66 | Reading the printed digits back gives the id. |
| `StageNames.DecimalInjective` | src/main/java/com/cloudera/crunch/impl/mr/collect/PCollectionImpl.java:66 | Two ids print alike if and only if they are equal. |
| `StageNames.StageName` | src/main/java/com/cloudera/crunch/impl/mr/collect/PCollectionImpl.java:66 | An anonymous stage name is `S` followed by one or more digits. |
| `StageNames.StageNameRoundTrip` | src/main/java/com/cloudera/crunch/impl/mr/collect/PCollectionImpl.java:66 | Every anonymous stage name gives back the id it was made from. `StageId` is the inverse it uses: it parses the digits after `S`, and no Java code parses names back. |
| `StageNames.StageNameInjective` | src/main/java/com/cloudera/crunch/impl/mr/collect/PCollectionImpl.java:66-79 | Two anonymous stages share a name if and only if they drew the same id. Since the counter never repeats, names from one pipeline never collide, whichever parallelDo form drew them. |

## Left out

- `materialize()` (lines 94-97) is not modelled. It hands the collection to `MRPipeline.materialize`, which runs MapReduce jobs and reads their results back. That is foreign execution and I/O.
- `createDoNode()` (line 112) is not modelled. It belongs to the planner, and the planner is not part of this model.
- `getTypeFamily()` (lines 107-110) is not modelled. It only delegates to the external `PType`.
- `getName()` and `toString()` (lines 43-51) are not separate members. Both return the `name` constant.
- `MRPipeline`, `InputCollection`, `UnionCollection`, `DoCollectionImpl`, `DoTableImpl` and `PGroupedTableImpl` are not part of this model. They appear only as far as this file relies on them, and some details come from outside this file:
  - `getParents()` is abstract (line 114), so the parent lists come from the subclasses: a union's parents are the `internal` list passed at line 60, a do-collection or do-table has the single `this` passed at lines 72 and 85, and an input has none; `ParentCountFits`, `Valid()` and `Union`'s parent list rest on this;
  - `acceptInternal` is abstract (line 161), so that each class fires exactly its own callback, once, on itself (`CallbackFor`) is taken from the `Visitor` interface's one callback per class (lines 140-150), not read from line 157;
  - the counter starts at 0 and post-increments;
  - `MRPipeline.write` appends `(collection, target)` to an ordered output list that keeps duplicates, and changes nothing else (line 90 shows only the call);
  - a union names itself `"union"`;
  - an input names itself after its source's `toString`, which `Accept` takes as the parameter `describe`;
  - derived collections start with no cached pipeline.
- `Collect.Collection.GetPipeline` requires that the first-parent line end at a collection with a pipeline. Every input has one from construction. On a parentless collection without a pipeline, the Java code would throw `IndexOutOfBoundsException`, but no such collection is ever built.
- `Collect.Collection.Accept` returns which callback fired and on which collection. It does not model what the planner's callback then does.
- `Collect.Pipeline.GetNextAnonymousStageId` uses an unbounded counter. Java's int would wrap after 2^31 stages.
- `Collect.Collection.GetDepth` likewise ignores int overflow. Recursion would exhaust the stack long before the depth reached 2^31.
- `Collect.Collection.MaterializeAt` takes a value rather than a nullable reference. The source never clears the slot with `null`.
- Type checks are not modelled: the cast of union arguments to `PCollectionImpl` and the element-type agreement of union operands belong to Java's type system.
- Concurrency is not modelled. Graph construction is single-threaded.
- The end-to-end word-count and page-rank runs and the runtime-parameter constants are not modelled. They are file I/O, floating point and string constants, not graph logic.
