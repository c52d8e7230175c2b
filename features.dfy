/**
 * The parsed features as the orchestrator sees them. The parser and the yUML
 * layer are not modelled: a feature is its name, its use-case diagram and its
 * scenarios, and a diagram is known only by its MD5 digest, an opaque string.
 */
module Features {
  import opened Wrappers

  /** A yUML diagram, known by the digest that names its PNG file. */
  datatype Diagram = Diagram(md5: string)

  /** A scenario: its display name and its activity diagram. */
  datatype Scenario = Scenario(name: string, activity: Diagram)

  /** A feature: its name, its use-case diagram and its scenarios in file order. */
  datatype Feature = Feature(name: string, useCase: Diagram, scenarios: seq<Scenario>)

  /**
   * One place where the run uses a diagram: a feature's use case or a
   * scenario's activity, with the name the report shows beside it.
   */
  datatype Slot = UseCase(name: string, diagram: Diagram) | Activity(name: string, diagram: Diagram)

  /** The slots of a list of scenarios, in order. */
  function ScenarioSlots(scenarios: seq<Scenario>): (r: seq<Slot>)
    ensures |r| == |scenarios|
    ensures forall i :: 0 <= i < |r| ==> r[i] == Activity(scenarios[i].name, scenarios[i].activity)
  {
    if scenarios == [] then []
    else
      var n := |scenarios| - 1;
      ScenarioSlots(scenarios[..n]) + [Activity(scenarios[n].name, scenarios[n].activity)]
  }

  /** A feature's slots: the use case first, then each scenario's activity. */
  function FeatureSlots(f: Feature): (r: seq<Slot>)
    ensures |r| == 1 + |f.scenarios|
    ensures r[0] == UseCase(f.name, f.useCase)
  {
    [UseCase(f.name, f.useCase)] + ScenarioSlots(f.scenarios)
  }

  /** The slots of all features, feature after feature. */
  function Slots(features: seq<Feature>): seq<Slot>
  {
    if features == [] then []
    else
      var n := |features| - 1;
      Slots(features[..n]) + FeatureSlots(features[n])
  }

  /** The number of slots: one per feature plus one per scenario. */
  function SlotCount(features: seq<Feature>): nat
  {
    if features == [] then 0
    else
      var n := |features| - 1;
      SlotCount(features[..n]) + 1 + |features[n].scenarios|
  }

  /** The diagrams behind a list of slots, in the same order. */
  function SlotDiagrams(slots: seq<Slot>): seq<Diagram>
  {
    seq(|slots|, i requires 0 <= i < |slots| => slots[i].diagram)
  }

  /**
   * Every diagram a run needs, in the order the source visits them: per
   * feature the use case and then the scenarios' activities, and last the
   * merged UI-elements diagram when there is one.
   */
  function Diagrams(features: seq<Feature>, ui: Option<Diagram>): seq<Diagram>
  {
    SlotDiagrams(Slots(features)) + (if ui.Some? then [ui.value] else [])
  }

  lemma {:induction false} SlotsLength(features: seq<Feature>)
    ensures |Slots(features)| == SlotCount(features)
  {
    if features != [] {
      SlotsLength(features[..|features| - 1]);
    }
  }

  /** The first diagram of a run is the first feature's use case; the last is the UI diagram when present. */
  lemma DiagramsEnds(features: seq<Feature>, ui: Option<Diagram>)
    ensures features != [] ==> Diagrams(features, ui)[0] == features[0].useCase
    ensures ui.Some? ==> Diagrams(features, ui)[|Diagrams(features, ui)| - 1] == ui.value
    ensures |Diagrams(features, ui)| == SlotCount(features) + (if ui.Some? then 1 else 0)
  {
  }

  /** The t-th diagram of a run is the t-th slot's. */
  lemma DiagramsAt(features: seq<Feature>, ui: Option<Diagram>, t: nat)
    requires t < |Slots(features)|
    ensures t < |Diagrams(features, ui)| && Diagrams(features, ui)[t] == Slots(features)[t].diagram
  {
  }
}
