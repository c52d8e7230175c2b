/**
 * The diagram cache gate. A diagram's PNG is named after its MD5 digest; the
 * image directory is listed once per run and a diagram is fetched from the
 * rendering service only when its file was not in that listing. The fetch
 * itself (a network call) is recorded as the target path in a ghost log.
 */
module DiagramCache {
  import opened Wrappers
  import opened Options
  import opened Features

  /** The file name of a diagram's image, `"<md5>.png"`. */
  function PngName(md5: string): string
  {
    md5 + ".png"
  }

  /** Where a fetched diagram is written, `"<dir>/<md5>.png"`. */
  function Target(dir: string, md5: string): (r: string)
    ensures |r| == |dir| + 1 + |PngName(md5)|
    ensures r[..|dir|] == dir && r[|dir|] == '/'
    ensures r[|dir| + 1..] == PngName(md5)
  {
    dir + "/" + PngName(md5)
  }

  /** A cache hit: the diagram's file was in the directory listing. */
  predicate Cached(d: Diagram, pngs: set<string>)
  {
    PngName(d.md5) in pngs
  }

  /** The fetches `check_and_fetch_diagram` makes for one diagram. */
  function Fetches(d: Diagram, pngs: set<string>, dir: string): (r: seq<string>)
    ensures Cached(d, pngs) ==> r == []
    ensures !Cached(d, pngs) ==> r == [Target(dir, d.md5)]
  {
    if Cached(d, pngs) then [] else [Target(dir, d.md5)]
  }

  /** The fetches for a list of diagrams checked in order against one listing. */
  function FetchPlan(ds: seq<Diagram>, pngs: set<string>, dir: string): (r: seq<string>)
    ensures |r| <= |ds|
  {
    if ds == [] then []
    else
      var n := |ds| - 1;
      FetchPlan(ds[..n], pngs, dir) + Fetches(ds[n], pngs, dir)
  }

  /** The number of occurrences of `x` in `s`. */
  function Count<T(==)>(s: seq<T>, x: T): nat
  {
    if s == [] then 0
    else
      var n := |s| - 1;
      Count(s[..n], x) + (if s[n] == x then 1 else 0)
  }

  /** Distinct digests give distinct targets in one directory. */
  lemma TargetInjective(dir: string, m1: string, m2: string)
    requires Target(dir, m1) == Target(dir, m2)
    ensures m1 == m2
  {
    var t := Target(dir, m1);
    assert |m1| == |m2|;
    var lo := |dir| + 1;
    assert m1 == t[lo..lo + |m1|];
    assert m2 == Target(dir, m2)[lo..lo + |m2|];
  }

  lemma {:induction false} FetchPlanAppend(a: seq<Diagram>, b: seq<Diagram>, pngs: set<string>, dir: string)
    ensures FetchPlan(a + b, pngs, dir) == FetchPlan(a, pngs, dir) + FetchPlan(b, pngs, dir)
    decreases |b|
  {
    if b == [] {
      assert a + b == a;
    } else {
      var n := |b| - 1;
      assert (a + b)[..|a + b| - 1] == a + b[..n];
      FetchPlanAppend(a, b[..n], pngs, dir);
    }
  }

  /** Nothing is fetched exactly when every diagram is a cache hit. */
  lemma {:induction false} FetchPlanEmptyIffAllCached(ds: seq<Diagram>, pngs: set<string>, dir: string)
    ensures FetchPlan(ds, pngs, dir) == [] <==> forall i :: 0 <= i < |ds| ==> Cached(ds[i], pngs)
  {
    if ds != [] {
      var n := |ds| - 1;
      FetchPlanEmptyIffAllCached(ds[..n], pngs, dir);
      assert forall i :: 0 <= i < n ==> ds[..n][i] == ds[i];
    }
  }

  /** Every fetch is the target of a missed diagram, and every missed diagram is fetched. */
  lemma {:induction false} FetchPlanTargets(ds: seq<Diagram>, pngs: set<string>, dir: string, p: string)
    ensures p in FetchPlan(ds, pngs, dir) <==>
      exists i :: 0 <= i < |ds| && !Cached(ds[i], pngs) && p == Target(dir, ds[i].md5)
  {
    if ds != [] {
      var n := |ds| - 1;
      FetchPlanTargets(ds[..n], pngs, dir, p);
      assert forall i :: 0 <= i < n ==> ds[..n][i] == ds[i];
    }
  }

  /**
   * The listing is never refreshed: a missed digest is fetched once per
   * occurrence in the run, and a cached digest never.
   */
  lemma {:induction false} FetchCount(ds: seq<Diagram>, pngs: set<string>, dir: string, md5: string)
    ensures Count(FetchPlan(ds, pngs, dir), Target(dir, md5)) ==
      if PngName(md5) in pngs then 0 else Count(ds, Diagram(md5))
  {
    if ds != [] {
      var n := |ds| - 1;
      FetchCount(ds[..n], pngs, dir, md5);
      var front := FetchPlan(ds[..n], pngs, dir);
      var step := Fetches(ds[n], pngs, dir);
      CountAppend(front, step, Target(dir, md5));
      if step != [] {
        assert step[..0] == [];
        if Target(dir, ds[n].md5) == Target(dir, md5) {
          TargetInjective(dir, ds[n].md5, md5);
        }
      }
    }
  }

  lemma {:induction false} CountAppend<T>(a: seq<T>, b: seq<T>, x: T)
    ensures Count(a + b, x) == Count(a, x) + Count(b, x)
    decreases |b|
  {
    if b == [] {
      assert a + b == a;
    } else {
      var n := |b| - 1;
      assert (a + b)[..|a + b| - 1] == a + b[..n];
      CountAppend(a, b[..n], x);
    }
  }

  /** Appending one slot's diagram appends that diagram's fetches. */
  lemma PlanStep(slots: seq<Slot>, slot: Slot, pngs: set<string>, dir: string)
    ensures FetchPlan(SlotDiagrams(slots + [slot]), pngs, dir) ==
      FetchPlan(SlotDiagrams(slots), pngs, dir) + Fetches(slot.diagram, pngs, dir)
  {
    var ds := SlotDiagrams(slots + [slot]);
    assert ds[..|ds| - 1] == SlotDiagrams(slots);
  }

  /** The run's view of the rendering service: the targets it was asked to write, in order. */
  class Fetcher {
    ghost var log: seq<string>

    constructor ()
      ensures log == []
    {
      log := [];
    }

    /** `check_and_fetch_diagram(diagram, pngs, dir)`: fetch to the target on a miss only. */
    method CheckAndFetchDiagram(d: Diagram, pngs: set<string>, dir: string)
      modifies this
      ensures log == old(log) + Fetches(d, pngs, dir)
    {
      if PngName(d.md5) !in pngs {
        log := log + [Target(dir, d.md5)];
      }
    }

    /**
     * One pass of the outer loop of `fetch_diagram_images`: the feature's
     * use case, then each scenario's activity, in order.
     */
    method FetchFeatureDiagrams(f: Feature, pngs: set<string>, dir: string)
      modifies this
      ensures log == old(log) + FetchPlan(SlotDiagrams(FeatureSlots(f)), pngs, dir)
    {
      CheckAndFetchDiagram(f.useCase, pngs, dir);
      PlanStep([], UseCase(f.name, f.useCase), pngs, dir);
      assert f.scenarios[..0] == [];
      assert [UseCase(f.name, f.useCase)] + ScenarioSlots(f.scenarios[..0]) == [] + [UseCase(f.name, f.useCase)];
      var j := 0;
      while j < |f.scenarios|
        invariant 0 <= j <= |f.scenarios|
        invariant log == old(log) + FetchPlan(SlotDiagrams([UseCase(f.name, f.useCase)] + ScenarioSlots(f.scenarios[..j])), pngs, dir)
      {
        var sc := f.scenarios[j];
        ghost var slots := [UseCase(f.name, f.useCase)] + ScenarioSlots(f.scenarios[..j]);
        ghost var done := FetchPlan(SlotDiagrams(slots), pngs, dir);
        CheckAndFetchDiagram(sc.activity, pngs, dir);
        assert log == old(log) + (done + Fetches(sc.activity, pngs, dir));
        assert f.scenarios[..j + 1][..j] == f.scenarios[..j];
        assert slots + [Activity(sc.name, sc.activity)] == [UseCase(f.name, f.useCase)] + ScenarioSlots(f.scenarios[..j + 1]);
        PlanStep(slots, Activity(sc.name, sc.activity), pngs, dir);
        j := j + 1;
      }
      assert f.scenarios[..j] == f.scenarios;
    }

    /** The loop of `fetch_diagram_images` over the features, against one listing. */
    method FetchFeaturesDiagrams(features: seq<Feature>, pngs: set<string>, dir: string)
      modifies this
      ensures log == old(log) + FetchPlan(SlotDiagrams(Slots(features)), pngs, dir)
    {
      assert features[..0] == [] && SlotDiagrams([]) == [];
      var i := 0;
      while i < |features|
        invariant 0 <= i <= |features|
        invariant log == old(log) + FetchPlan(SlotDiagrams(Slots(features[..i])), pngs, dir)
      {
        ghost var done := FetchPlan(SlotDiagrams(Slots(features[..i])), pngs, dir);
        ghost var next := FetchPlan(SlotDiagrams(FeatureSlots(features[i])), pngs, dir);
        FetchFeatureDiagrams(features[i], pngs, dir);
        assert log == old(log) + (done + next);
        PlanFeatureStep(features, i, pngs, dir);
        i := i + 1;
      }
      assert features[..i] == features;
    }

    /**
     * `fetch_diagram_images`: the image directory comes from the image_path
     * option (without a string there Dir.chdir raises before any fetch); its
     * listing `pngs` is taken once, then every diagram of the run is checked
     * in order against that same listing.
     */
    method FetchDiagramImages(opts: OptionMap, features: seq<Feature>, ui: Option<Diagram>, pngs: set<string>)
      returns (ok: bool)
      modifies this
      ensures ok <==> ImagePath(opts).Some?
      ensures log == old(log) + if ok then FetchPlan(Diagrams(features, ui), pngs, ImagePath(opts).value) else []
    {
      var imagePath := ImagePath(opts);
      if imagePath.None? {
        return false;
      }
      var dir := imagePath.value;
      ghost var listed := SlotDiagrams(Slots(features));
      ghost var last: seq<Diagram> := if ui.Some? then [ui.value] else [];
      FetchFeaturesDiagrams(features, pngs, dir);
      ghost var done := FetchPlan(listed, pngs, dir);
      if ui.Some? {
        assert [ui.value][..0] == [];
        assert FetchPlan(last, pngs, dir) == Fetches(ui.value, pngs, dir);
        CheckAndFetchDiagram(ui.value, pngs, dir);
      }
      assert log == old(log) + (done + FetchPlan(last, pngs, dir));
      FetchPlanAppend(listed, last, pngs, dir);
      assert Diagrams(features, ui) == listed + last;
      ok := true;
    }
  }

  /** The fetches of the first i + 1 features extend those of the first i by the (i+1)-th feature's. */
  lemma PlanFeatureStep(features: seq<Feature>, i: nat, pngs: set<string>, dir: string)
    requires i < |features|
    ensures FetchPlan(SlotDiagrams(Slots(features[..i + 1])), pngs, dir) ==
      FetchPlan(SlotDiagrams(Slots(features[..i])), pngs, dir) + FetchPlan(SlotDiagrams(FeatureSlots(features[i])), pngs, dir)
  {
    assert features[..i + 1][..i] == features[..i];
    SlotDiagramsAppend(Slots(features[..i]), FeatureSlots(features[i]));
    FetchPlanAppend(SlotDiagrams(Slots(features[..i])), SlotDiagrams(FeatureSlots(features[i])), pngs, dir);
  }

  lemma SlotDiagramsAppend(a: seq<Slot>, b: seq<Slot>)
    ensures SlotDiagrams(a + b) == SlotDiagrams(a) + SlotDiagrams(b)
  {
  }

  /** One feature with use case "H1" and one scenario with activity "H2". */
  function SampleRun(): seq<Feature>
  {
    [Feature("Sign in", Diagram("H1"), [Scenario("Good password", Diagram("H2"))])]
  }

  lemma SampleRunDiagrams()
    ensures Diagrams(SampleRun(), None) == [Diagram("H1"), Diagram("H2")]
  {
  }

  lemma FetchPlanPair(d1: Diagram, d2: Diagram, pngs: set<string>, dir: string)
    ensures FetchPlan([d1, d2], pngs, dir) == Fetches(d1, pngs, dir) + Fetches(d2, pngs, dir)
  {
    assert [d1, d2][..1] == [d1];
    assert [d1][..0] == [];
    assert FetchPlan([d1], pngs, dir) == [] + Fetches(d1, pngs, dir);
  }

  /** With an empty image directory the sample run fetches H1 and then H2. */
  lemma SampleRunColdCache(dir: string)
    ensures FetchPlan(Diagrams(SampleRun(), None), {}, dir) == [dir + "/H1.png", dir + "/H2.png"]
  {
    SampleRunDiagrams();
    FetchPlanPair(Diagram("H1"), Diagram("H2"), {}, dir);
    assert Target(dir, "H1") == dir + "/H1.png";
    assert Target(dir, "H2") == dir + "/H2.png";
  }

  /** With H1.png already listed the sample run fetches H2 only. */
  lemma SampleRunWarmCache(dir: string)
    ensures FetchPlan(Diagrams(SampleRun(), None), {"H1.png"}, dir) == [dir + "/H2.png"]
  {
    SampleRunDiagrams();
    FetchPlanPair(Diagram("H1"), Diagram("H2"), {"H1.png"}, dir);
    assert PngName("H1") == "H1.png";
    assert PngName("H2")[1] == '2';
    assert Target(dir, "H2") == dir + "/H2.png";
  }
}
