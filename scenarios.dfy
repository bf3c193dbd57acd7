/** Small pipelines built with the operations of Collect.  Each method is a
    client that sees only the contracts, so every assertion below follows
    from what those contracts promise. */
module Scenarios {

  import opened Wrappers
  import opened Collect
  import StageNames

  /** An input, an unnamed parallelDo on it and a grouping of that sit at
      depths 1, 2 and 3; the parallelDo's only parent is the input. */
  method ChainDepths<ST, F, T>(source: ST, split: F)
  {
    var pipeline := new Pipeline<ST, F, T>();
    var s := new Collection<ST, F, T>.Input("doc", source, pipeline);
    var t := s.ParallelDo(split);
    var g := new Collection.Derived("GBK", GroupedTable, [t]);

    var ds := s.GetDepth();
    var dt := t.GetDepth();
    var dg := g.GetDepth();
    s.DepthAboveParents();
    t.DepthAboveParents();
    g.DepthAboveParents();
    assert ds == 1 && dt == 2 && dg == 3;

    assert t.name == StageNames.StageName(0);
    assert t.OnlyParent() == Ok(s);
    assert s.OnlyParent().IllegalArgument?;
  }

  /** A union of a union is two layers, not one flat union. */
  method UnionLayers<ST, F, T>(x: ST, y: ST, z: ST)
  {
    var pipeline := new Pipeline<ST, F, T>();
    var a := new Collection<ST, F, T>.Input("a", x, pipeline);
    var b := new Collection<ST, F, T>.Input("b", y, pipeline);
    var c := new Collection<ST, F, T>.Input("c", z, pipeline);
    var u := a.Union([b]);
    var v := u.Union([c]);
    assert u.parents == [a, b];
    assert v.parents == [u, c];
    assert v.OnlyParent().IllegalArgument?;

    var dv := v.GetDepth();
    v.DepthAboveParents();
    u.DepthAboveParents();
    a.DepthAboveParents();
    c.DepthAboveParents();
    assert dv == 3;
  }

  /** The collection and the table forms of unnamed parallelDo draw on one
      counter, so their names differ; a named parallelDo leaves it alone. */
  method SharedStageCounter<ST, F, T>(source: ST, f: F, g: F)
  {
    var pipeline := new Pipeline<ST, F, T>();
    var s := new Collection<ST, F, T>.Input("in", source, pipeline);
    var first := s.ParallelDo(f);
    var second := s.ParallelDoTable(g);
    var named := s.ParallelDoNamed("counts", f);
    assert first.name == StageNames.StageName(0);
    assert second.name == StageNames.StageName(1);
    assert named.name == "counts";
    assert pipeline.nextAnonymousStageId == 2;
    StageNames.StageNameInjective(0, 1);
    assert first.name != second.name;
  }

  /** getPipeline caches what it resolves: a second call returns the same
      pipeline and has nothing left to cache. */
  method PipelineCachedOnce<ST, F, T>(source: ST, f: F)
  {
    var pipeline := new Pipeline<ST, F, T>();
    var s := new Collection<ST, F, T>.Input("in", source, pipeline);
    var t := s.ParallelDoNamed("words", f);
    var u := t.ParallelDoNamed("pairs", f);
    assert u.Resolved() == pipeline && u.Unresolved() == {u, t};
    var p1 := u.GetPipeline();
    assert u.Unresolved() == {};
    var p2 := u.GetPipeline();
    assert p1 == p2 == pipeline;
    assert t.pipeline == pipeline;
  }

  /** Writing one collection twice registers two outputs, in order. */
  method WriteFanOut<ST, F, T>(source: ST, f: F, out1: T, out2: T)
  {
    var pipeline := new Pipeline<ST, F, T>();
    var s := new Collection<ST, F, T>.Input("in", source, pipeline);
    var t := s.ParallelDoNamed("words", f);
    assert t.Resolved() == pipeline && t.Unresolved() == {t};
    var w := t.Write(out1);
    var w' := w.Write(out2);
    assert w' == t;
    assert pipeline.outputs == [(t, out1), (t, out2)];
    assert t.pipeline == pipeline;
  }

  /** Before materialization the visitor sees the collection itself; after
      it, a fresh input reading from where the output was stored. */
  method AcceptAfterMaterialize<ST, F, T>(source: ST, stored: ST, f: F, describe: ST -> string)
  {
    var pipeline := new Pipeline<ST, F, T>();
    var s := new Collection<ST, F, T>.Input("in", source, pipeline);
    var t := s.ParallelDoNamed("words", f);

    var before := t.Accept(describe);
    assert before == Visit(VisitDoFnCollection, t);

    t.MaterializeAt(stored);
    var after := t.Accept(describe);
    assert after.callback == VisitInputCollection;
    assert after.collection != t && after.collection.kind == Kind.Input(stored);
    assert after.collection.pipeline == pipeline;
    assert after.collection.parents == [];
  }
}
