/**
 * The Markdown report of `to_md`: a list of lines built in a fixed order and
 * joined with newlines. Image references point to `<image_path>/<md5>.png`.
 */
module Markdown {
  import opened Wrappers
  import opened Options
  import opened Features
  import DiagramCache

  /** `img_path(name)` with the image_path option (File.join is modelled as a plain "/" join). */
  function ImgPath(imagePath: string, name: string): (r: string)
    ensures |r| == |imagePath| + 1 + |name| + 4
    ensures r[..|imagePath|] == imagePath && r[|imagePath|] == '/'
    ensures r[|imagePath| + 1..] == name + ".png"
  {
    imagePath + "/" + name + ".png"
  }

  /** An image reference `![alt](<image_path>/<md5>.png)`. */
  function ImageLine(alt: string, imagePath: string, md5: string): string
  {
    "![" + alt + "](" + ImgPath(imagePath, md5) + ")"
  }

  /** The three lines of a scenario: list item, activity diagram, blank. */
  function ScenarioLines(sc: Scenario, dir: string): seq<string>
  {
    ["- **" + sc.name + "**", ImageLine(sc.name, dir, sc.activity.md5), ""]
  }

  function ScenariosLines(scenarios: seq<Scenario>, dir: string): (r: seq<string>)
    ensures |r| == 3 * |scenarios|
  {
    if scenarios == [] then []
    else
      var n := |scenarios| - 1;
      ScenariosLines(scenarios[..n], dir) + ScenarioLines(scenarios[n], dir)
  }

  /** The three lines that open a feature: heading, use-case diagram, blank. */
  function FeatureHead(f: Feature, dir: string): seq<string>
  {
    ["### " + f.name, ImageLine(f.name, dir, f.useCase.md5), ""]
  }

  /** A feature's section: its head, then its scenarios in order. */
  function FeatureLines(f: Feature, dir: string): (r: seq<string>)
    ensures |r| == 3 + 3 * |f.scenarios|
    ensures r[..3] == FeatureHead(f, dir)
  {
    FeatureHead(f, dir) + ScenariosLines(f.scenarios, dir)
  }

  function FeaturesLines(features: seq<Feature>, dir: string): seq<string>
  {
    if features == [] then []
    else
      var n := |features| - 1;
      FeaturesLines(features[..n], dir) + FeatureLines(features[n], dir)
  }

  /** The UI Elements section, present only when there is a UI diagram. */
  function UiLines(ui: Option<Diagram>, dir: string): seq<string>
  {
    if ui.Some? then
      ["## UI Elements", "*Screens and actions*", ImageLine("UI Screens and actions", dir, ui.value.md5), ""]
    else []
  }

  /** One source file of the appendix, verbatim inside a gherkin fence. */
  function SourceLines(contents: string): seq<string>
  {
    ["", "``` gherkin", contents, "```", ""]
  }

  function ListingLines(sources: seq<string>): (r: seq<string>)
    ensures |r| == 5 * |sources|
  {
    if sources == [] then []
    else
      var n := |sources| - 1;
      ListingLines(sources[..n]) + SourceLines(sources[n])
  }

  /** The raw-source appendix, present only when add_features is set. */
  function AppendixLines(addFeatures: bool, sources: seq<string>): seq<string>
  {
    if addFeatures then ["", "## Use cases listing"] + ListingLines(sources) else []
  }

  /** All lines of the report, in the order `to_md` appends them. */
  function ReportLines(dir: string, features: seq<Feature>, ui: Option<Diagram>, addFeatures: bool, sources: seq<string>): (r: seq<string>)
    ensures |r| >= 1 && r[0] == "## Features"
  {
    ["## Features"] + FeaturesLines(features, dir) + UiLines(ui, dir) + AppendixLines(addFeatures, sources)
  }

  /** `lines * "\n"`: the lines with one newline between neighbours. */
  function Join(lines: seq<string>): (r: string)
    ensures lines != [] ==> |lines[0]| <= |r| && r[..|lines[0]|] == lines[0]
    ensures |lines| > 1 ==> |lines[0]| < |r| && r[|lines[0]|] == '\n'
  {
    if lines == [] then ""
    else if |lines| == 1 then lines[0]
    else lines[0] + "\n" + Join(lines[1..])
  }

  /** Why `to_md` raises: File.join with a missing or boolean image_path. */
  datatype Error = MissingImagePath

  /** Some line of the report references an image. */
  predicate NeedsImages(features: seq<Feature>, ui: Option<Diagram>)
  {
    features != [] || ui.Some?
  }

  /** The image directory, or "" when there is none (then no line uses it). */
  function ImageDir(opts: OptionMap): string
  {
    if ImagePath(opts).Some? then ImagePath(opts).value else ""
  }

  /** The string `to_md` returns (when given no file), or the error it raises. */
  function Report(opts: OptionMap, features: seq<Feature>, ui: Option<Diagram>, sources: seq<string>): (r: Result<string, Error>)
    ensures r.Err? <==> NeedsImages(features, ui) && ImagePath(opts).None?
    ensures r.Ok? ==> |r.value| >= 11 && r.value[..11] == "## Features"
  {
    if NeedsImages(features, ui) && ImagePath(opts).None? then Err(MissingImagePath)
    else Ok(Join(ReportLines(ImageDir(opts), features, ui, Truthy(opts, "add_features"), sources)))
  }

  /** The inner loop of `to_md`: append each scenario's three lines, in order. */
  method AppendScenarios(s: seq<string>, scenarios: seq<Scenario>, dir: string) returns (t: seq<string>)
    ensures t == s + ScenariosLines(scenarios, dir)
  {
    t := s;
    assert scenarios[..0] == [];
    var j := 0;
    while j < |scenarios|
      invariant 0 <= j <= |scenarios|
      invariant t == s + ScenariosLines(scenarios[..j], dir)
    {
      var sc := scenarios[j];
      ghost var done := ScenariosLines(scenarios[..j], dir);
      t := t + ["- **" + sc.name + "**", ImageLine(sc.name, dir, sc.activity.md5), ""];
      assert scenarios[..j + 1][..j] == scenarios[..j];
      assert ScenariosLines(scenarios[..j + 1], dir) == done + ScenarioLines(sc, dir);
      assert t == s + (done + ScenarioLines(sc, dir));
      j := j + 1;
    }
    assert scenarios[..j] == scenarios;
  }

  /** The outer loop of `to_md`: each feature's heading and use case, then its scenarios. */
  method AppendFeatures(s: seq<string>, features: seq<Feature>, dir: string) returns (t: seq<string>)
    ensures t == s + FeaturesLines(features, dir)
  {
    t := s;
    assert features[..0] == [];
    var i := 0;
    while i < |features|
      invariant 0 <= i <= |features|
      invariant t == s + FeaturesLines(features[..i], dir)
    {
      var f := features[i];
      ghost var done := FeaturesLines(features[..i], dir);
      t := t + ["### " + f.name, ImageLine(f.name, dir, f.useCase.md5), ""];
      t := AppendScenarios(t, f.scenarios, dir);
      assert features[..i + 1][..i] == features[..i];
      assert FeaturesLines(features[..i + 1], dir) == done + FeatureLines(f, dir);
      assert t == s + (done + FeatureLines(f, dir));
      i := i + 1;
    }
    assert features[..i] == features;
  }

  /** The appendix loop of `to_md`: each source file fenced, in file order. */
  method AppendListing(s: seq<string>, sources: seq<string>) returns (t: seq<string>)
    ensures t == s + ListingLines(sources)
  {
    t := s;
    assert sources[..0] == [];
    var k := 0;
    while k < |sources|
      invariant 0 <= k <= |sources|
      invariant t == s + ListingLines(sources[..k])
    {
      ghost var done := ListingLines(sources[..k]);
      t := t + ["", "``` gherkin", sources[k], "```", ""];
      assert sources[..k + 1][..k] == sources[..k];
      assert ListingLines(sources[..k + 1]) == done + SourceLines(sources[k]);
      assert t == s + (done + SourceLines(sources[k]));
      k := k + 1;
    }
    assert sources[..k] == sources;
  }

  /**
   * `to_md(nil)`: the line array is built by appending, feature by feature
   * and scenario by scenario, then the UI section and the appendix, and
   * joined with "\n". The raw sources are the already read contents of the
   * input files, in file order.
   */
  method ToMd(opts: OptionMap, features: seq<Feature>, ui: Option<Diagram>, sources: seq<string>)
    returns (r: Result<string, Error>)
    ensures r == Report(opts, features, ui, sources)
  {
    var imagePath := ImagePath(opts);
    if (|features| > 0 || ui.Some?) && imagePath.None? {
      return Err(MissingImagePath);
    }
    var dir := if imagePath.Some? then imagePath.value else "";
    var s := AppendFeatures(["## Features"], features, dir);
    ghost var body := s;
    if ui.Some? {
      s := s + ["## UI Elements", "*Screens and actions*", ImageLine("UI Screens and actions", dir, ui.value.md5), ""];
    }
    assert s == body + UiLines(ui, dir);
    ghost var withUi := s;
    var addFeatures := Truthy(opts, "add_features");
    if addFeatures {
      s := s + ["", "## Use cases listing"];
      s := AppendListing(s, sources);
      assert s == withUi + (["", "## Use cases listing"] + ListingLines(sources));
    }
    assert s == withUi + AppendixLines(addFeatures, sources);
    assert s == ReportLines(dir, features, ui, addFeatures, sources);
    r := Ok(Join(s));
  }

  /** The index of the first newline of `s`. */
  function NewlineAt(s: string): (i: nat)
    requires '\n' in s
    ensures i < |s| && s[i] == '\n' && '\n' !in s[..i]
  {
    if s[0] == '\n' then 0 else 1 + NewlineAt(s[1..])
  }

  /** Cut a string at every newline; the inverse of Join. */
  function Split(s: string): (r: seq<string>)
    ensures |r| >= 1
    ensures forall i :: 0 <= i < |r| ==> '\n' !in r[i]
    decreases |s|
  {
    if '\n' !in s then [s]
    else
      var i := NewlineAt(s);
      [s[..i]] + Split(s[i + 1..])
  }

  /** Joining the pieces of a split gives the string back. */
  lemma {:induction false} JoinSplit(s: string)
    ensures Join(Split(s)) == s
    decreases |s|
  {
    if '\n' in s {
      var i := NewlineAt(s);
      JoinSplit(s[i + 1..]);
      var r := Split(s);
      assert r[1..] == Split(s[i + 1..]);
      assert s == s[..i] + "\n" + s[i + 1..];
    }
  }

  /** Lines without newlines are recovered from their join. */
  lemma {:induction false} SplitJoin(lines: seq<string>)
    requires |lines| >= 1
    requires forall i :: 0 <= i < |lines| ==> '\n' !in lines[i]
    ensures Split(Join(lines)) == lines
  {
    if |lines| > 1 {
      var x := lines[0];
      var rest := Join(lines[1..]);
      var s := x + "\n" + rest;
      assert s[|x|] == '\n';
      var i := NewlineAt(s);
      assert s[..i] == x;
      assert s[i + 1..] == rest;
      SplitJoin(lines[1..]);
    }
  }

  /** The heading line of a slot: `### name` for a use case, `- **name**` for an activity. */
  function SlotTitle(slot: Slot): string
  {
    match slot
    case UseCase(name, _) => "### " + name
    case Activity(name, _) => "- **" + name + "**"
  }

  /** The three lines every diagram slot contributes to the Features section. */
  function SlotBlock(slot: Slot, dir: string): seq<string>
  {
    [SlotTitle(slot), ImageLine(slot.name, dir, slot.diagram.md5), ""]
  }

  function SlotsLines(slots: seq<Slot>, dir: string): (r: seq<string>)
    ensures |r| == 3 * |slots|
  {
    if slots == [] then []
    else
      var n := |slots| - 1;
      SlotsLines(slots[..n], dir) + SlotBlock(slots[n], dir)
  }

  lemma {:induction false} SlotsLinesAppend(a: seq<Slot>, b: seq<Slot>, dir: string)
    ensures SlotsLines(a + b, dir) == SlotsLines(a, dir) + SlotsLines(b, dir)
    decreases |b|
  {
    if b == [] {
      assert a + b == a;
    } else {
      var n := |b| - 1;
      assert (a + b)[..|a + b| - 1] == a + b[..n];
      SlotsLinesAppend(a, b[..n], dir);
    }
  }

  lemma {:induction false} ScenariosLinesBySlots(scenarios: seq<Scenario>, dir: string)
    ensures ScenariosLines(scenarios, dir) == SlotsLines(ScenarioSlots(scenarios), dir)
  {
    if scenarios != [] {
      var n := |scenarios| - 1;
      ScenariosLinesBySlots(scenarios[..n], dir);
      var slots := ScenarioSlots(scenarios);
      assert slots[..n] == ScenarioSlots(scenarios[..n]);
    }
  }

  /**
   * The Features section is one three-line block per diagram slot, in the
   * order of Slots: the order in which the diagrams are fetched.
   */
  lemma {:induction false} FeaturesLinesBySlots(features: seq<Feature>, dir: string)
    ensures FeaturesLines(features, dir) == SlotsLines(Slots(features), dir)
  {
    if features != [] {
      var n := |features| - 1;
      var f := features[n];
      FeaturesLinesBySlots(features[..n], dir);
      ScenariosLinesBySlots(f.scenarios, dir);
      var head := [UseCase(f.name, f.useCase)];
      assert SlotsLines(head, dir) == FeatureHead(f, dir) by {
        assert head[..0] == [];
      }
      SlotsLinesAppend(head, ScenarioSlots(f.scenarios), dir);
      SlotsLinesAppend(Slots(features[..n]), FeatureSlots(f), dir);
    }
  }

  lemma {:induction false} SlotsLinesAt(slots: seq<Slot>, dir: string, t: nat)
    requires t < |slots|
    ensures SlotsLines(slots, dir)[3 * t..3 * t + 3] == SlotBlock(slots[t], dir)
  {
    var n := |slots| - 1;
    var front := SlotsLines(slots[..n], dir);
    assert SlotsLines(slots, dir) == front + SlotBlock(slots[n], dir);
    if t < n {
      SlotsLinesAt(slots[..n], dir, t);
      assert SlotsLines(slots, dir)[3 * t..3 * t + 3] == front[3 * t..3 * t + 3];
    } else {
      assert SlotsLines(slots, dir)[3 * t..3 * t + 3] == SlotBlock(slots[n], dir);
    }
  }

  /**
   * The t-th image of the Features section references the t-th diagram of
   * the run, the same diagram `fetch_diagram_images` checks t-th.
   */
  lemma ReportImagesFollowDiagrams(dir: string, features: seq<Feature>, ui: Option<Diagram>, addFeatures: bool, sources: seq<string>, t: nat)
    requires t < |Slots(features)|
    ensures var lines := ReportLines(dir, features, ui, addFeatures, sources);
      var slot := Slots(features)[t];
      3 + 3 * t < |lines| &&
      lines[1 + 3 * t] == SlotTitle(slot) &&
      lines[2 + 3 * t] == ImageLine(slot.name, dir, Diagrams(features, ui)[t].md5) &&
      lines[3 + 3 * t] == ""
  {
    var lines := ReportLines(dir, features, ui, addFeatures, sources);
    var block := SlotBlock(Slots(features)[t], dir);
    FeaturesBlockAt(features, dir, t);
    ReportFeatureLinesAt(dir, features, ui, addFeatures, sources, 3 * t);
    assert lines[1 + 3 * t..4 + 3 * t] == block;
    assert lines[1 + 3 * t] == block[0] && lines[2 + 3 * t] == block[1] && lines[3 + 3 * t] == block[2];
    DiagramsAt(features, ui, t);
  }

  lemma FeaturesBlockAt(features: seq<Feature>, dir: string, t: nat)
    requires t < |Slots(features)|
    ensures 3 * t + 3 <= |FeaturesLines(features, dir)|
    ensures FeaturesLines(features, dir)[3 * t..3 * t + 3] == SlotBlock(Slots(features)[t], dir)
  {
    FeaturesLinesBySlots(features, dir);
    SlotsLinesAt(Slots(features), dir, t);
  }

  /** Line k of the Features section is line 1 + k of the report. */
  lemma ReportFeatureLinesAt(dir: string, features: seq<Feature>, ui: Option<Diagram>, addFeatures: bool, sources: seq<string>, k: nat)
    requires k + 3 <= |FeaturesLines(features, dir)|
    ensures var lines := ReportLines(dir, features, ui, addFeatures, sources);
      k + 4 <= |lines| && lines[1 + k..4 + k] == FeaturesLines(features, dir)[k..k + 3]
  {
  }

  /**
   * The report's overall shape: the Features heading, three lines per
   * diagram slot, the four UI lines iff there is a UI diagram, and the
   * appendix heading plus five lines per source iff add_features is set.
   */
  lemma ReportShape(dir: string, features: seq<Feature>, ui: Option<Diagram>, addFeatures: bool, sources: seq<string>)
    ensures var lines := ReportLines(dir, features, ui, addFeatures, sources);
      var n := 1 + 3 * SlotCount(features);
      var u := if ui.Some? then 4 else 0;
      && lines[0] == "## Features"
      && |lines| == n + u + (if addFeatures then 2 + 5 * |sources| else 0)
      && (ui.Some? ==> lines[n..n + 4] == ["## UI Elements", "*Screens and actions*",
                                          ImageLine("UI Screens and actions", dir, ui.value.md5), ""])
      && (addFeatures ==> lines[n + u..] == ["", "## Use cases listing"] + ListingLines(sources))
  {
    SlotsLength(features);
    FeaturesLinesBySlots(features, dir);
    var lines := ReportLines(dir, features, ui, addFeatures, sources);
    var n := 1 + 3 * SlotCount(features);
    var u := if ui.Some? then 4 else 0;
    var head := ["## Features"] + FeaturesLines(features, dir);
    assert |head| == n;
    assert lines == head + UiLines(ui, dir) + AppendixLines(addFeatures, sources);
    assert lines[n..n + u] == UiLines(ui, dir);
    assert lines[n + u..] == AppendixLines(addFeatures, sources);
  }

  /** The i-th source file sits verbatim, fenced, at lines 5i .. 5i+4 of the listing. */
  lemma {:induction false} ListingAt(sources: seq<string>, i: nat)
    requires i < |sources|
    ensures ListingLines(sources)[5 * i..5 * i + 5] == SourceLines(sources[i])
    ensures ListingLines(sources)[5 * i + 2] == sources[i]
  {
    var n := |sources| - 1;
    var front := ListingLines(sources[..n]);
    assert ListingLines(sources) == front + SourceLines(sources[n]);
    if i < n {
      ListingAt(sources[..n], i);
      assert ListingLines(sources)[5 * i..5 * i + 5] == front[5 * i..5 * i + 5];
    } else {
      assert ListingLines(sources)[5 * i..5 * i + 5] == SourceLines(sources[n]);
    }
  }

  /** No features, no UI diagram and no appendix: the report is the Features heading alone. */
  lemma EmptyReport(opts: OptionMap, sources: seq<string>)
    requires !Truthy(opts, "add_features")
    ensures Report(opts, [], None, sources) == Ok("## Features")
  {
    assert ReportLines(ImageDir(opts), [], None, false, sources) == ["## Features"];
  }

  /**
   * The defaults supply no image_path: unless the caller gives one as a
   * string, a report with any image raises.
   */
  lemma ReportNeedsImagePath(given: OptionMap, features: seq<Feature>, ui: Option<Diagram>, sources: seq<string>)
    requires NeedsImages(features, ui)
    ensures Report(WithDefaults(given), features, ui, sources).Err? <==>
      !("image_path" in given && given["image_path"].Text?)
  {
  }

  /**
   * An image reference in the report names the very file the fetcher
   * writes for that digest when both use the image_path directory. The two
   * strings are equal only because `ImgPath` models File.join as a plain "/"
   * join: for an image_path ending in "/", File.join collapses the slash
   * while the fetcher's interpolated path keeps it, so the source produces
   * two different spellings of the same file.
   */
  lemma ImagesAreFetchTargets(dir: string, md5: string)
    ensures ImgPath(dir, md5) == DiagramCache.Target(dir, md5)
  {
  }
}
