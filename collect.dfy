/** The lazy computation graph of a Crunch MapReduce pipeline.

    Every stage of a pipeline is a Collection: a name, the ordered list of
    the collections it is computed from, a slot recording where its output
    has been materialized, and a lazily cached reference to the pipeline
    that owns it.  Building the graph runs nothing; the planner later walks
    it with a visitor. */
module Collect {

  import opened Wrappers
  import StageNames

  /** The five concrete collection classes, one per visitor callback.
      F stands for the user's DoFn together with its output PType; the
      planner reads it but this layer never looks inside. */
  datatype Kind<ST, F> =
    | Input(source: ST)
    | Union
    | DoCollection(stage: F)
    | DoTable(stage: F)
    | GroupedTable

  /** How many parents each class is built with: an input reads from
      storage, a union has the collection it was called on and then its
      arguments, and every other class has exactly one parent. */
  predicate ParentCountFits<ST, F>(kind: Kind<ST, F>, count: nat) {
    match kind
    case Input(_) => count == 0
    case Union => count >= 1
    case _ => count == 1
  }

  /** The callbacks of the Visitor interface. */
  datatype Callback =
    | VisitInputCollection
    | VisitUnionCollection
    | VisitDoFnCollection
    | VisitDoTable
    | VisitGroupedTable

  /** One visitor callback fired, on one collection. */
  datatype Visit<ST, F, T> = Visit(callback: Callback, collection: Collection<ST, F, T>)

  /** The callback a collection's own acceptInternal fires: one per class,
      no two classes sharing one. */
  function CallbackFor<ST, F>(kind: Kind<ST, F>): (cb: Callback)
    ensures cb == VisitInputCollection <==> kind.Input?
    ensures cb == VisitUnionCollection <==> kind.Union?
    ensures cb == VisitDoFnCollection <==> kind.DoCollection?
    ensures cb == VisitDoTable <==> kind.DoTable?
    ensures cb == VisitGroupedTable <==> kind.GroupedTable?
  {
    match kind
    case Input(_) => VisitInputCollection
    case Union => VisitUnionCollection
    case DoCollection(_) => VisitDoFnCollection
    case DoTable(_) => VisitDoTable
    case GroupedTable => VisitGroupedTable
  }

  const OnlyParentMessage := "Expected exactly one parent PCollection"

  /** The name UnionCollection gives itself. */
  const UnionName := "union"

  function Max(a: nat, b: nat): nat {
    if a >= b then a else b
  }

  /** The pipeline, as far as a collection relies on it: the counter that
      numbers anonymous stages and the outputs registered with write. */
  class Pipeline<ST, F, T> {
    var nextAnonymousStageId: nat
    var outputs: seq<(Collection<ST, F, T>, T)>

    constructor ()
      ensures nextAnonymousStageId == 0 && outputs == []
    {
      nextAnonymousStageId := 0;
      outputs := [];
    }

    /** Hands out the current counter value and advances it, so that ids
        come out 0, 1, 2, ... and none is handed out twice. */
    method GetNextAnonymousStageId() returns (id: nat)
      modifies this`nextAnonymousStageId
      ensures id == old(nextAnonymousStageId)
      ensures nextAnonymousStageId == id + 1
    {
      id := nextAnonymousStageId;
      nextAnonymousStageId := nextAnonymousStageId + 1;
    }

    /** Registers an output to be written when the pipeline runs. */
    method Write(collection: Collection<ST, F, T>, target: T)
      modifies this`outputs
      ensures outputs == old(outputs) + [(collection, target)]
    {
      outputs := outputs + [(collection, target)];
    }
  }

  class Collection<ST, F, T> {
    const name: string
    const kind: Kind<ST, F>
    const parents: seq<Collection<ST, F, T>>
    /** Strictly above every parent's: the graph has no cycles. */
    ghost const height: nat
    var pipeline: Pipeline?<ST, F, T>
    var materializedAt: Option<ST>

    /** The class has as many parents as it should, and every ancestor was
        built before its descendants.  Only constant fields are involved, so
        once a collection is valid it stays valid. */
    ghost predicate Valid()
      decreases height
    {
      && ParentCountFits(kind, |parents|)
      && forall p :: p in parents ==> p.height < height && p.Valid()
    }

    /** InputCollection: reads from a source and knows its pipeline from the
        start.  InputCollection names itself source.toString(); name stands
        for that string, which the model cannot compute from an opaque ST. */
    constructor Input(name: string, source: ST, pipeline: Pipeline<ST, F, T>)
      ensures Valid()
      ensures this.name == name && kind == Kind.Input(source) && parents == []
      ensures this.pipeline == pipeline && materializedAt == None
    {
      this.name := name;
      kind := Kind.Input(source);
      parents := [];
      height := 0;
      this.pipeline := pipeline;
      materializedAt := None;
    }

    /** Any other class, built on existing collections; its pipeline is
        found through its first parent when first asked for. */
    constructor Derived(name: string, kind: Kind<ST, F>, parents: seq<Collection<ST, F, T>>)
      requires !kind.Input? && ParentCountFits(kind, |parents|)
      requires forall p :: p in parents ==> p.Valid()
      ensures Valid()
      ensures this.name == name && this.kind == kind && this.parents == parents
      ensures pipeline == null && materializedAt == None
    {
      this.name := name;
      this.kind := kind;
      this.parents := parents;
      height := 1 + MaxHeight(parents);
      pipeline := null;
      materializedAt := None;
    }

    static ghost function MaxHeight(ps: seq<Collection<ST, F, T>>): (h: nat)
      ensures forall p :: p in ps ==> p.height <= h
    {
      if ps == [] then 0 else Max(MaxHeight(ps[..|ps| - 1]), ps[|ps| - 1].height)
    }

    // ----- union -----

    /** A new union whose parents are this collection followed by the
        arguments, in call order; an argument that is itself a union stays
        one parent and is not opened up. */
    method Union(collections: seq<Collection<ST, F, T>>) returns (u: Collection<ST, F, T>)
      requires Valid()
      requires forall c :: c in collections ==> c.Valid()
      ensures fresh(u) && u.Valid()
      ensures u.kind == Kind.Union && u.name == UnionName
      ensures u.parents == [this] + collections
      ensures u.pipeline == null && u.materializedAt == None
    {
      var internal := [this];
      for i := 0 to |collections|
        invariant internal == [this] + collections[..i]
      {
        internal := internal + [collections[i]];
      }
      assert collections[..|collections|] == collections;
      u := new Collection.Derived(UnionName, Kind.Union, internal);
    }

    // ----- the pipeline back-reference -----

    /** The collections met walking first parents down from this one. */
    ghost function FirstParentLine(): (line: set<Collection<ST, F, T>>)
      requires Valid()
      ensures this in line
      ensures forall n :: n in line ==> n.height <= height
      decreases height
    {
      {this} + if parents == [] then {} else parents[0].FirstParentLine()
    }

    /** The pipeline getPipeline answers with: the first one cached along
        the first-parent line, or null when the line ends without one. */
    ghost function Resolved(): (resolved: Pipeline?<ST, F, T>)
      requires Valid()
      reads FirstParentLine()
      ensures pipeline != null ==> resolved == pipeline
      ensures resolved != null ==> exists n :: n in FirstParentLine() && n.pipeline == resolved
      ensures resolved == null ==> forall n :: n in FirstParentLine() ==> n.pipeline == null
      decreases height
    {
      if pipeline != null then pipeline
      else if parents == [] then null
      else parents[0].Resolved()
    }

    /** The collections along the first-parent line that getPipeline passes
        before it finds a cached pipeline: the ones it will cache into. */
    ghost function Unresolved(): (pending: set<Collection<ST, F, T>>)
      requires Valid()
      reads FirstParentLine()
      ensures pending <= FirstParentLine()
      ensures forall n :: n in pending ==> n.height <= height && n.pipeline == null
      ensures pipeline == null <==> this in pending
      decreases height
    {
      if pipeline != null then {}
      else {this} + if parents == [] then {} else parents[0].Unresolved()
    }

    /** Everything on the first-parent line, and the pipeline it resolves
        to, exists in the heap. */
    lemma LineAllocated()
      requires Valid()
      ensures forall n :: n in FirstParentLine() ==> allocated(n)
      ensures allocated(Resolved())
      decreases height
    {
      if parents != [] {
        parents[0].LineAllocated();
      }
    }

    /** Returns the cached pipeline, or resolves it through the first parent
        (which caches it there too) and caches it here.  Every collection
        passed on the way now holds the pipeline, so asking again changes
        nothing and gives the same answer. */
    method GetPipeline() returns (p: Pipeline<ST, F, T>)
      requires Valid() && Resolved() != null
      modifies Unresolved()`pipeline
      ensures p == old(Resolved())
      ensures pipeline == p
      ensures forall n :: n in old(Unresolved()) ==> n.pipeline == p
      decreases height
    {
      if pipeline == null {
        p := parents[0].GetPipeline();
        pipeline := p;
      } else {
        p := pipeline;
      }
    }

    // ----- parallelDo -----

    /** parallelDo(name, fn, type) for a collection result: a new
        DoCollectionImpl with exactly that name and this as its only parent. */
    method ParallelDoNamed(name: string, stage: F) returns (c: Collection<ST, F, T>)
      requires Valid()
      ensures fresh(c) && c.Valid()
      ensures c.name == name && c.kind == DoCollection(stage) && c.parents == [this]
      ensures c.pipeline == null && c.materializedAt == None
    {
      c := new Collection.Derived(name, DoCollection(stage), [this]);
    }

    /** parallelDo(name, fn, type) for a table result: a new DoTableImpl. */
    method ParallelDoTableNamed(name: string, stage: F) returns (c: Collection<ST, F, T>)
      requires Valid()
      ensures fresh(c) && c.Valid()
      ensures c.name == name && c.kind == DoTable(stage) && c.parents == [this]
      ensures c.pipeline == null && c.materializedAt == None
    {
      c := new Collection.Derived(name, DoTable(stage), [this]);
    }

    /** parallelDo(fn, type) for a collection result: the new stage is
        named "S" + the pipeline's next anonymous stage id. */
    method ParallelDo(stage: F) returns (c: Collection<ST, F, T>)
      requires Valid() && Resolved() != null
      modifies Unresolved()`pipeline, Resolved()`nextAnonymousStageId
      ensures fresh(c) && c.Valid()
      ensures c.name == StageNames.StageName(old(Resolved().nextAnonymousStageId))
      ensures c.kind == DoCollection(stage) && c.parents == [this]
      ensures c.pipeline == null && c.materializedAt == None
      ensures old(Resolved()).nextAnonymousStageId == old(Resolved().nextAnonymousStageId) + 1
      ensures pipeline == old(Resolved())
      ensures forall n :: n in old(Unresolved()) ==> n.pipeline == old(Resolved())
    {
      LineAllocated();
      var p := GetPipeline();
      var id := p.GetNextAnonymousStageId();
      c := ParallelDoNamed(StageNames.StageName(id), stage);
    }

    /** parallelDo(fn, type) for a table result: same counter, DoTableImpl. */
    method ParallelDoTable(stage: F) returns (c: Collection<ST, F, T>)
      requires Valid() && Resolved() != null
      modifies Unresolved()`pipeline, Resolved()`nextAnonymousStageId
      ensures fresh(c) && c.Valid()
      ensures c.name == StageNames.StageName(old(Resolved().nextAnonymousStageId))
      ensures c.kind == DoTable(stage) && c.parents == [this]
      ensures c.pipeline == null && c.materializedAt == None
      ensures old(Resolved()).nextAnonymousStageId == old(Resolved().nextAnonymousStageId) + 1
      ensures pipeline == old(Resolved())
      ensures forall n :: n in old(Unresolved()) ==> n.pipeline == old(Resolved())
    {
      LineAllocated();
      var p := GetPipeline();
      var id := p.GetNextAnonymousStageId();
      c := ParallelDoTableNamed(StageNames.StageName(id), stage);
    }

    // ----- write -----

    /** Registers (this, target) as a pending output and returns this;
        writing again adds another output for the same collection. */
    method Write(target: T) returns (r: Collection<ST, F, T>)
      requires Valid() && Resolved() != null
      modifies Unresolved()`pipeline, Resolved()`outputs
      ensures r == this
      ensures old(Resolved()).outputs == old(Resolved().outputs) + [(this, target)]
      ensures pipeline == old(Resolved())
      ensures forall n :: n in old(Unresolved()) ==> n.pipeline == old(Resolved())
    {
      LineAllocated();
      var p := GetPipeline();
      p.Write(this, target);
      r := this;
    }

    // ----- materialization slot -----

    /** Where the output was last materialized; None until MaterializeAt is called. */
    function GetMaterializedAt(): (slot: Option<ST>)
      reads this
      ensures slot == materializedAt
    {
      materializedAt
    }

    /** Records where this collection's output now lives. */
    method MaterializeAt(sourceTarget: ST)
      modifies this`materializedAt
      ensures GetMaterializedAt() == Some(sourceTarget)
    {
      materializedAt := Some(sourceTarget);
    }

    // ----- getOnlyParent -----

    /** The single parent, or IllegalArgumentException when the parent
        count is anything other than one. */
    function OnlyParent(): (r: Result<Collection<ST, F, T>>)
      ensures r.Ok? <==> |parents| == 1
      ensures r.Ok? ==> r.value == parents[0]
      ensures r.IllegalArgument? ==> r.message == OnlyParentMessage
    {
      if |parents| != 1 then IllegalArgument(OnlyParentMessage) else Ok(parents[0])
    }

    /** Per class: an input always fails, the three single-parent classes
        always succeed with their parent, and a union succeeds exactly when
        it was called with no arguments. */
    lemma OnlyParentByKind()
      requires Valid()
      ensures kind.Input? ==> OnlyParent() == IllegalArgument(OnlyParentMessage)
      ensures kind.DoCollection? || kind.DoTable? || kind.GroupedTable? ==> OnlyParent() == Ok(parents[0])
      ensures kind.Union? ==> (OnlyParent().Ok? <==> |parents| == 1)
    {
    }

    // ----- getDepth -----

    /** 1 for a collection without parents, else 1 + the greatest depth
        among its parents. */
    ghost function Depth(): nat
      requires Valid()
      decreases height, 1
    {
      1 + ParentMax(parents, height)
    }

    /** The greatest depth in ps, 0 for none; bound is above every height in ps. */
    static ghost function ParentMax(ps: seq<Collection<ST, F, T>>, bound: nat): nat
      requires forall p :: p in ps ==> p.height < bound && p.Valid()
      decreases bound, 0, |ps|
    {
      if ps == [] then 0 else Max(ParentMax(ps[..|ps| - 1], bound), ps[|ps| - 1].Depth())
    }

    static lemma {:induction false} ParentMaxIsMax(ps: seq<Collection<ST, F, T>>, bound: nat)
      requires forall p :: p in ps ==> p.height < bound && p.Valid()
      ensures forall p :: p in ps ==> p.Depth() <= ParentMax(ps, bound)
      ensures ps == [] <==> ParentMax(ps, bound) == 0
      ensures ps != [] ==> exists p :: p in ps && p.Depth() == ParentMax(ps, bound)
      decreases |ps|
    {
      if ps != [] {
        var init, last := ps[..|ps| - 1], ps[|ps| - 1];
        ParentMaxIsMax(init, bound);
        assert forall p :: p in ps ==> p in init || p == last;
        assert last.Depth() >= 1;
      }
    }

    /** A collection is deeper than each of its parents, exactly one level
        below the deepest of them, and at depth 1 exactly when it has none. */
    lemma DepthAboveParents()
      requires Valid()
      ensures Depth() >= 1
      ensures Depth() == 1 <==> parents == []
      ensures forall p :: p in parents ==> p.Depth() < Depth()
      ensures parents != [] ==> exists p :: p in parents && Depth() == p.Depth() + 1
    {
      ParentMaxIsMax(parents, height);
    }

    /** getDepth: asks every parent for its depth, keeping the running
        maximum, and adds one. */
    method GetDepth() returns (d: nat)
      requires Valid()
      ensures d == Depth()
      decreases height
    {
      var parentMax := 0;
      for i := 0 to |parents|
        invariant parentMax == ParentMax(parents[..i], height)
      {
        var parentDepth := parents[i].GetDepth();
        parentMax := Max(parentDepth, parentMax);
        assert parents[..i + 1][..i] == parents[..i];
      }
      assert parents[..|parents|] == parents;
      d := 1 + parentMax;
    }

    // ----- accept -----

    /** Shows this collection to a visitor: exactly one callback fires.  A
        materialized collection is shown, whatever its class, as a fresh
        input reading from where it was materialized, in this collection's
        pipeline; otherwise its own class's callback fires on it.  The
        fresh input is named after its source, as describe prints it. */
    method Accept(describe: ST -> string) returns (v: Visit<ST, F, T>)
      requires Valid() && (materializedAt.Some? ==> Resolved() != null)
      modifies Unresolved()`pipeline
      ensures materializedAt.Some? ==>
        && fresh(v.collection) && v.collection.Valid()
        && v.callback == VisitInputCollection
        && v.collection.kind == Kind.Input(materializedAt.value)
        && v.collection.name == describe(materializedAt.value)
        && v.collection.parents == []
        && v.collection.pipeline == old(Resolved())
        && v.collection.materializedAt == None
        && forall n :: n in old(Unresolved()) ==> n.pipeline == old(Resolved())
      ensures materializedAt.None? ==>
        && v == Visit(CallbackFor(kind), this)
        && forall n :: n in old(Unresolved()) ==> n.pipeline == null
    {
      if materializedAt.Some? {
        LineAllocated();
        var p := GetPipeline();
        var input := new Collection.Input(describe(materializedAt.value), materializedAt.value, p);
        v := Visit(VisitInputCollection, input);
      } else {
        v := Visit(CallbackFor(kind), this);
      }
    }
  }
}
