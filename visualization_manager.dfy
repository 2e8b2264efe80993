/**
 * The registry of visualizer constructors (src/visualizationManager.ts). The source keeps it in
 * static fields; here it is one registry object.
 */
module Visualization {
  import opened Wrappers

  /** A visualizer constructor, known only by identity; `VisualizerBase` is the fallback one. */
  datatype VisualizerConstructor = VisualizerBase | Registered(id: nat)

  /** The constructors registered per question type name. */
  type Registry = map<string, seq<VisualizerConstructor>>

  /** The registry after `registerVisualizer(typeName, visualizer)`. */
  function WithVisualizer(registry: Registry, typeName: string, visualizer: VisualizerConstructor): (r: Registry)
    ensures typeName in r
    ensures r[typeName] == (if typeName in registry then registry[typeName] else []) + [visualizer]
    ensures forall t :: t != typeName ==> (t in r <==> t in registry)
    ensures forall t :: t != typeName && t in registry ==> r[t] == registry[t]
  {
    registry[typeName := (if typeName in registry then registry[typeName] else []) + [visualizer]]
  }

  /** `getVisualizersByType`: the registered list, or just `VisualizerBase` for a type with none. */
  function VisualizersByType(registry: Registry, typeName: string): seq<VisualizerConstructor> {
    if typeName in registry then registry[typeName] else [VisualizerBase]
  }

  /** One call of `registerVisualizer`. */
  datatype Registration = Registration(typeName: string, visualizer: VisualizerConstructor)

  /** The registry a run of registrations builds from the empty one. */
  function Replay(registrations: seq<Registration>): Registry {
    if registrations == [] then map[]
    else
      var last := registrations[|registrations| - 1];
      WithVisualizer(Replay(registrations[..|registrations| - 1]), last.typeName, last.visualizer)
  }

  /** The constructors registered for `typeName`, in registration order, duplicates kept. */
  function RegisteredFor(registrations: seq<Registration>, typeName: string): seq<VisualizerConstructor> {
    if registrations == [] then []
    else
      var last := registrations[|registrations| - 1];
      RegisteredFor(registrations[..|registrations| - 1], typeName)
      + (if last.typeName == typeName then [last.visualizer] else [])
  }

  /** After any run of registrations, a type's list is exactly what was registered for it, in order,
      and a type never registered falls back to `VisualizerBase`. */
  lemma {:induction false} ReplayLookup(registrations: seq<Registration>, typeName: string)
    ensures typeName in Replay(registrations) <==> RegisteredFor(registrations, typeName) != []
    ensures VisualizersByType(Replay(registrations), typeName) ==
      if RegisteredFor(registrations, typeName) == [] then [VisualizerBase] else RegisteredFor(registrations, typeName)
  {
    if registrations != [] {
      ReplayLookup(registrations[..|registrations| - 1], typeName);
    }
  }

  class VisualizationManager {
    var visualizers: Registry
    var alternativesVisualizer: Option<VisualizerConstructor>

    /** Lists are created on first registration and only grow. */
    ghost predicate Valid()
      reads this
    {
      forall t :: t in visualizers ==> visualizers[t] != []
    }

    constructor ()
      ensures Valid() && visualizers == map[] && alternativesVisualizer == None
    {
      visualizers := map[];
      alternativesVisualizer := None;
    }

    /** `registerVisualizer`: appends to the type's list, creating it when absent. */
    method RegisterVisualizer(typeName: string, visualizer: VisualizerConstructor)
      requires Valid()
      modifies this
      ensures Valid()
      ensures visualizers == WithVisualizer(old(visualizers), typeName, visualizer)
      ensures alternativesVisualizer == old(alternativesVisualizer)
    {
      var list := [];
      if typeName in visualizers {
        list := visualizers[typeName];
      }
      visualizers := visualizers[typeName := list + [visualizer]];
    }

    function GetVisualizersByType(typeName: string): (r: seq<VisualizerConstructor>)
      requires Valid()
      reads this
      ensures r != []
      ensures typeName !in visualizers ==> r == [VisualizerBase]
      ensures typeName in visualizers ==> r == visualizers[typeName]
    {
      VisualizersByType(visualizers, typeName)
    }

    /** `registerAlternativesVisualizer`; `None` stands for an undefined constructor. */
    method RegisterAlternativesVisualizer(visualizer: Option<VisualizerConstructor>)
      modifies this
      ensures alternativesVisualizer == visualizer && visualizers == old(visualizers)
      ensures GetAlternativesVisualizer() == visualizer.GetOr(VisualizerBase)
    {
      alternativesVisualizer := visualizer;
    }

    /** `getAlternativesVisualizer`: the last registered constructor, or `VisualizerBase` when none is set. */
    function GetAlternativesVisualizer(): VisualizerConstructor
      reads this
    {
      alternativesVisualizer.GetOr(VisualizerBase)
    }
  }

  /** Registration order and duplicates are kept, and other types are untouched. */
  method RegistryScenario() {
    var manager := new VisualizationManager();
    assert manager.GetVisualizersByType("radiogroup") == [VisualizerBase];
    manager.RegisterVisualizer("radiogroup", Registered(1));
    manager.RegisterVisualizer("text", Registered(2));
    manager.RegisterVisualizer("radiogroup", Registered(1));
    assert manager.GetVisualizersByType("radiogroup") == [Registered(1), Registered(1)];
    assert manager.GetVisualizersByType("text") == [Registered(2)];
    assert manager.GetAlternativesVisualizer() == VisualizerBase;
    manager.RegisterAlternativesVisualizer(Some(Registered(3)));
    manager.RegisterAlternativesVisualizer(Some(Registered(4)));
    assert manager.GetAlternativesVisualizer() == Registered(4);
  }
}
