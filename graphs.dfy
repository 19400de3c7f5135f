/**
 * Compiled stage graphs and the module-level `_app` caches that hold them. Compilation
 * itself belongs to the graph library; a compiled app is represented by which graph it runs
 * and whether it was given a checkpointer.
 */
module Graphs {

  class CompiledApp {
    const graph: string
    const checkpointed: bool

    constructor(graph: string, checkpointed: bool)
      ensures this.graph == graph && this.checkpointed == checkpointed
    {
      this.graph := graph;
      this.checkpointed := checkpointed;
    }
  }

  /** `workflow.compile(...)` called afresh on every use. */
  method Compile(graph: string, checkpointed: bool) returns (a: CompiledApp)
    ensures fresh(a) && a.graph == graph && a.checkpointed == checkpointed
  {
    a := new CompiledApp(graph, checkpointed);
  }

  /** A global `_app`, compiled on first use and handed back afterwards. */
  class AppCache {
    const graph: string
    const checkpointed: bool
    var app: CompiledApp?

    /** The cached app, when there is one, is the graph this cache compiles. */
    predicate Valid()
      reads this
    {
      app != null ==> app.graph == graph && app.checkpointed == checkpointed
    }

    constructor(graph: string, checkpointed: bool)
      ensures Valid() && app == null
      ensures this.graph == graph && this.checkpointed == checkpointed
    {
      this.graph := graph;
      this.checkpointed := checkpointed;
      app := null;
    }

    /** The first call compiles a new app; every later call returns that same app. */
    method Get() returns (a: CompiledApp)
      requires Valid()
      modifies this
      ensures Valid() && app == a
      ensures a.graph == graph && a.checkpointed == checkpointed
      ensures old(app) == null ==> fresh(a)
      ensures old(app) != null ==> a == old(app)
    {
      if app == null {
        app := new CompiledApp(graph, checkpointed);
      }
      a := app;
    }
  }

  /** Two calls on the same cache give the same app. */
  method GetTwice(cache: AppCache) returns (a: CompiledApp, b: CompiledApp)
    requires cache.Valid()
    modifies cache
    ensures a == b && cache.app == a
  {
    a := cache.Get();
    b := cache.Get();
  }
}
