/**
 * The per-provider pipeline, the report builder and the sequential model of the
 * fan-out (visagoapi/runner.go).
 */
module Runner {
  import opened Wrappers
  import opened StringOrder
  import opened Plugins
  import opened Assets

  /** The report key of the cross-provider view. */
  const AllKey := "all"

  type TagData = map<string, map<string, TagResult>>
  type ColorData = map<string, map<string, ColorResult>>
  type FaceData = map<string, seq<FaceResult>>

  /**
   * A plugin as the runner sees it: what each of its calls returns. `perform` yields
   * the request id; the extractors take that id (and the tag threshold).
   */
  datatype Provider = Provider(
    setup: Option<string>,
    perform: Outcome<string>,
    tags: (string, real) -> Outcome<TagData>,
    colors: string -> Outcome<ColorData>,
    faces: string -> Outcome<FaceData>)

  /** The calls a run makes into its plugin. */
  datatype Step = SetupStep | PerformStep | TagsStep | ColorsStep | FacesStep

  /** The calls of a run in which nothing fails: set-up, perform, then each wanted extractor. */
  function Plan(c: PluginConfig): seq<Step>
  {
    [SetupStep, PerformStep] + TagPlan(c)
  }

  /** The extractor calls planned from the tag stage on. */
  function TagPlan(c: PluginConfig): seq<Step>
  {
    (if FeatureWanted(c, TagsFeature) then [TagsStep] else []) + ColorPlan(c)
  }

  /** The extractor calls planned from the colour stage on. */
  function ColorPlan(c: PluginConfig): seq<Step>
  {
    (if FeatureWanted(c, ColorsFeature) then [ColorsStep] else []) + FacePlan(c)
  }

  /** The extractor call planned at the face stage. */
  function FacePlan(c: PluginConfig): seq<Step>
  {
    if FeatureWanted(c, FacesFeature) then [FacesStep] else []
  }

  /** The request id the extractors are called with. */
  function RequestId(p: Provider): string
  {
    if p.perform.Ok? then p.perform.value else ""
  }

  /** The error one call returns, if any. */
  function StepError(p: Provider, c: PluginConfig, s: Step): Option<string>
  {
    match s
    case SetupStep => p.setup
    case PerformStep => if p.perform.Err? then Some(p.perform.error) else None
    case TagsStep =>
      var t := p.tags(RequestId(p), c.tagScore);
      if t.Err? then Some(t.error) else None
    case ColorsStep =>
      var r := p.colors(RequestId(p));
      if r.Err? then Some(r.error) else None
    case FacesStep =>
      var r := p.faces(RequestId(p));
      if r.Err? then Some(r.error) else None
  }

  /** What one run leaves behind: the calls it made, the data it stored and its error. */
  datatype RunOutcome = RunOutcome(
    steps: seq<Step>,
    tagData: Option<TagData>,
    colorData: Option<ColorData>,
    faceData: Option<FaceData>,
    error: Option<string>)

  /** The pipeline: each call in turn, the first error ending the run. */
  function Execute(p: Provider, c: PluginConfig): RunOutcome
  {
    if p.setup.Some? then RunOutcome([SetupStep], None, None, None, p.setup)
    else if p.perform.Err? then RunOutcome([SetupStep, PerformStep], None, None, None, Some(p.perform.error))
    else TagStage(p, c, [SetupStep, PerformStep])
  }

  /** The tag extractor, when wanted, after a successful perform. */
  function TagStage(p: Provider, c: PluginConfig, steps: seq<Step>): RunOutcome
  {
    if !FeatureWanted(c, TagsFeature) then ColorStage(p, c, steps, None)
    else
      var t := p.tags(RequestId(p), c.tagScore);
      if t.Err? then RunOutcome(steps + [TagsStep], None, None, None, Some(t.error))
      else ColorStage(p, c, steps + [TagsStep], Some(t.value))
  }

  /** The colour extractor, when wanted, after the tag stage succeeded. */
  function ColorStage(p: Provider, c: PluginConfig, steps: seq<Step>, td: Option<TagData>): RunOutcome
  {
    if !FeatureWanted(c, ColorsFeature) then FaceStage(p, c, steps, td, None)
    else
      var r := p.colors(RequestId(p));
      if r.Err? then RunOutcome(steps + [ColorsStep], td, None, None, Some(r.error))
      else FaceStage(p, c, steps + [ColorsStep], td, Some(r.value))
  }

  /** The face extractor, when wanted, after the colour stage succeeded. */
  function FaceStage(p: Provider, c: PluginConfig, steps: seq<Step>, td: Option<TagData>, cd: Option<ColorData>): RunOutcome
  {
    if !FeatureWanted(c, FacesFeature) then RunOutcome(steps, td, cd, None, None)
    else
      var r := p.faces(RequestId(p));
      if r.Err? then RunOutcome(steps + [FacesStep], td, cd, None, Some(r.error))
      else RunOutcome(steps + [FacesStep], td, cd, Some(r.value), None)
  }

  /**
   * `o` followed `plan` and the first error ended it: its calls are a non-empty prefix
   * of the plan, every call before the last succeeded, its error is the last call's,
   * and without an error it made every planned call.
   */
  ghost predicate StopsAtFirstError(p: Provider, c: PluginConfig, o: RunOutcome, plan: seq<Step>)
  {
    && 1 <= |o.steps| <= |plan|
    && o.steps == plan[..|o.steps|]
    && (forall i :: 0 <= i < |o.steps| - 1 ==> StepError(p, c, o.steps[i]).None?)
    && o.error == StepError(p, c, o.steps[|o.steps| - 1])
    && (o.error.None? ==> o.steps == plan)
  }

  /** The calls of a run follow `Plan` in order and the first error ends the run. */
  lemma RunStopsAtFirstError(p: Provider, c: PluginConfig)
    ensures StopsAtFirstError(p, c, Execute(p, c), Plan(c))
  {
    if p.setup.None? && p.perform.Ok? {
      TagStageStops(p, c, [SetupStep, PerformStep]);
    }
  }

  lemma TagStageStops(p: Provider, c: PluginConfig, steps: seq<Step>)
    requires |steps| >= 1 && forall i :: 0 <= i < |steps| ==> StepError(p, c, steps[i]).None?
    ensures StopsAtFirstError(p, c, TagStage(p, c, steps), steps + TagPlan(c))
  {
    if !FeatureWanted(c, TagsFeature) {
      ColorStageStops(p, c, steps, None);
      assert steps + TagPlan(c) == steps + ColorPlan(c);
    } else if p.tags(RequestId(p), c.tagScore).Ok? {
      var steps' := steps + [TagsStep];
      ColorStageStops(p, c, steps', Some(p.tags(RequestId(p), c.tagScore).value));
      assert steps' + ColorPlan(c) == steps + TagPlan(c);
    } else {
      assert (steps + TagPlan(c))[..|steps| + 1] == steps + [TagsStep];
    }
  }

  lemma ColorStageStops(p: Provider, c: PluginConfig, steps: seq<Step>, td: Option<TagData>)
    requires |steps| >= 1 && forall i :: 0 <= i < |steps| ==> StepError(p, c, steps[i]).None?
    ensures StopsAtFirstError(p, c, ColorStage(p, c, steps, td), steps + ColorPlan(c))
  {
    if !FeatureWanted(c, ColorsFeature) {
      FaceStageStops(p, c, steps, td, None);
      assert steps + ColorPlan(c) == steps + FacePlan(c);
    } else if p.colors(RequestId(p)).Ok? {
      var steps' := steps + [ColorsStep];
      FaceStageStops(p, c, steps', td, Some(p.colors(RequestId(p)).value));
      assert steps' + FacePlan(c) == steps + ColorPlan(c);
    } else {
      assert (steps + ColorPlan(c))[..|steps| + 1] == steps + [ColorsStep];
    }
  }

  lemma FaceStageStops(p: Provider, c: PluginConfig, steps: seq<Step>, td: Option<TagData>, cd: Option<ColorData>)
    requires |steps| >= 1 && forall i :: 0 <= i < |steps| ==> StepError(p, c, steps[i]).None?
    ensures StopsAtFirstError(p, c, FaceStage(p, c, steps, td, cd), steps + FacePlan(c))
  {
    if FeatureWanted(c, FacesFeature) {
      assert (steps + FacePlan(c))[..|steps| + 1] == steps + [FacesStep];
    } else {
      assert steps + FacePlan(c) == steps;
    }
  }

  /** A failed set-up: one error, no further call, no data. */
  lemma SetupFailureStopsRun(p: Provider, c: PluginConfig)
    requires p.setup.Some?
    ensures var o := Execute(p, c);
      o.steps == [SetupStep] && o.error == p.setup &&
      o.tagData.None? && o.colorData.None? && o.faceData.None?
  {
  }

  /** Tag data is stored exactly when the tag extractor was called and succeeded, and is what it returned. */
  lemma TagDataOnlyOnSuccess(p: Provider, c: PluginConfig)
    ensures var o := Execute(p, c);
      && (o.tagData.Some? <==> TagsStep in o.steps && StepError(p, c, TagsStep).None?)
      && (o.tagData.Some? ==> o.tagData.value == p.tags(RequestId(p), c.tagScore).value)
  {
    if p.setup.None? && p.perform.Ok? {
      var s0 := [SetupStep, PerformStep];
      var tagsOn := FeatureWanted(c, TagsFeature);
      var t := p.tags(RequestId(p), c.tagScore);
      if tagsOn && t.Err? {
        assert Execute(p, c).steps == s0 + [TagsStep];
      } else {
        var s1 := if tagsOn then s0 + [TagsStep] else s0;
        var td := if tagsOn then Some(t.value) else None;
        assert Execute(p, c) == ColorStage(p, c, s1, td);
        LaterStagesKeep(p, c, s1, td);
      }
    }
  }

  /** The colour and face stages keep the tag data and add no tag call. */
  lemma LaterStagesKeep(p: Provider, c: PluginConfig, steps: seq<Step>, td: Option<TagData>)
    ensures ColorStage(p, c, steps, td).tagData == td
    ensures TagsStep in ColorStage(p, c, steps, td).steps <==> TagsStep in steps
  {
    var r := p.colors(RequestId(p));
    if !FeatureWanted(c, ColorsFeature) || r.Ok? {
      var s1 := if FeatureWanted(c, ColorsFeature) then steps + [ColorsStep] else steps;
      assert TagsStep in s1 <==> TagsStep in steps;
      var o := ColorStage(p, c, steps, td);
      assert o.steps == s1 || o.steps == s1 + [FacesStep];
    }
  }

  /** Colour data is stored exactly when the colour extractor was called and succeeded, and is what it returned. */
  lemma ColorDataOnlyOnSuccess(p: Provider, c: PluginConfig)
    ensures var o := Execute(p, c);
      && (o.colorData.Some? <==> ColorsStep in o.steps && StepError(p, c, ColorsStep).None?)
      && (o.colorData.Some? ==> o.colorData.value == p.colors(RequestId(p)).value)
  {
    if p.setup.None? && p.perform.Ok? {
      var s0 := [SetupStep, PerformStep];
      var tagsOn := FeatureWanted(c, TagsFeature);
      var t := p.tags(RequestId(p), c.tagScore);
      if tagsOn && t.Err? {
        assert Execute(p, c).steps == s0 + [TagsStep];
      } else {
        var s1 := if tagsOn then s0 + [TagsStep] else s0;
        var td := if tagsOn then Some(t.value) else None;
        assert Execute(p, c) == ColorStage(p, c, s1, td);
        assert ColorsStep !in s1;
        var colorsOn := FeatureWanted(c, ColorsFeature);
        var r := p.colors(RequestId(p));
        if colorsOn && r.Err? {
          assert Execute(p, c).steps == s1 + [ColorsStep];
        } else {
          var s2 := if colorsOn then s1 + [ColorsStep] else s1;
          var cd := if colorsOn then Some(r.value) else None;
          assert Execute(p, c) == FaceStage(p, c, s2, td, cd);
          assert ColorsStep in s2 <==> colorsOn;
          var o := Execute(p, c);
          assert o.steps == s2 || o.steps == s2 + [FacesStep];
        }
      }
    }
  }

  /** Face data is stored exactly when the face extractor was called and succeeded, and is what it returned. */
  lemma FaceDataOnlyOnSuccess(p: Provider, c: PluginConfig)
    ensures var o := Execute(p, c);
      && (o.faceData.Some? <==> FacesStep in o.steps && StepError(p, c, FacesStep).None?)
      && (o.faceData.Some? ==> o.faceData.value == p.faces(RequestId(p)).value)
  {
    if p.setup.None? && p.perform.Ok? {
      var s0 := [SetupStep, PerformStep];
      var tagsOn := FeatureWanted(c, TagsFeature);
      var t := p.tags(RequestId(p), c.tagScore);
      if tagsOn && t.Err? {
        assert Execute(p, c).steps == s0 + [TagsStep];
      } else {
        var s1 := if tagsOn then s0 + [TagsStep] else s0;
        var td := if tagsOn then Some(t.value) else None;
        assert Execute(p, c) == ColorStage(p, c, s1, td);
        var colorsOn := FeatureWanted(c, ColorsFeature);
        var r := p.colors(RequestId(p));
        if colorsOn && r.Err? {
          assert Execute(p, c).steps == s1 + [ColorsStep];
        } else {
          var s2 := if colorsOn then s1 + [ColorsStep] else s1;
          var cd := if colorsOn then Some(r.value) else None;
          assert Execute(p, c) == FaceStage(p, c, s2, td, cd);
          assert FacesStep !in s2;
        }
      }
    }
  }

  /** An extractor is only ever called for a wanted feature. */
  lemma OnlyWantedFeaturesExtracted(p: Provider, c: PluginConfig)
    ensures var o := Execute(p, c);
      && (TagsStep in o.steps ==> FeatureWanted(c, TagsFeature))
      && (ColorsStep in o.steps ==> FeatureWanted(c, ColorsFeature))
      && (FacesStep in o.steps ==> FeatureWanted(c, FacesFeature))
  {
  }

  /** A runner's record as handed to the collector. */
  datatype RunnerState = RunnerState(
    name: string,
    tagData: Option<TagData>,
    faceData: Option<FaceData>,
    colorData: Option<ColorData>,
    errors: seq<string>,
    items: seq<string>)

  /** The record a fresh runner for `name` holds after running plugin `p`. */
  function Finished(p: Provider, c: PluginConfig, name: string, items: seq<string>): RunnerState
  {
    var o := Execute(p, c);
    RunnerState(name, o.tagData, o.faceData, o.colorData, ErrorList(o.error), items)
  }

  /** One provider's work on one request. */
  class Runner {
    var name: string
    var tagData: Option<TagData>
    var faceData: Option<FaceData>
    var colorData: Option<ColorData>
    var errors: seq<string>
    var items: seq<string>
    /** The calls made into the plugin, in order. */
    ghost var calls: seq<Step>

    constructor (name: string, items: seq<string>)
      ensures State() == RunnerState(name, None, None, None, [], items)
      ensures calls == []
    {
      this.name := name;
      this.items := items;
      tagData, faceData, colorData := None, None, None;
      errors := [];
      calls := [];
    }

    function State(): RunnerState
      reads this
    {
      RunnerState(name, tagData, faceData, colorData, errors, items)
    }

    /**
     * The record holds what the outcome `o` adds to the record `r0` and the calls
     * `calls0` the run started from: its calls, its error, and the data it produced.
     */
    ghost predicate Reflects(r0: RunnerState, calls0: seq<Step>, o: RunOutcome)
      reads this
    {
      && name == r0.name && items == r0.items
      && calls == calls0 + o.steps
      && errors == r0.errors + ErrorList(o.error)
      && tagData == (if o.tagData.Some? then o.tagData else r0.tagData)
      && colorData == (if o.colorData.Some? then o.colorData else r0.colorData)
      && faceData == (if o.faceData.Some? then o.faceData else r0.faceData)
    }

    /** Set-up, perform, then the wanted extractors; the first error is recorded and ends the run. */
    method Run(p: Provider, c: PluginConfig)
      modifies this
      ensures name == old(name) && items == old(items)
      ensures var o := Execute(p, c);
        && calls == old(calls) + o.steps
        && errors == old(errors) + ErrorList(o.error)
        && tagData == (if o.tagData.Some? then o.tagData else old(tagData))
        && colorData == (if o.colorData.Some? then o.colorData else old(colorData))
        && faceData == (if o.faceData.Some? then o.faceData else old(faceData))
    {
      ghost var r0, calls0 := State(), calls;
      calls := calls + [SetupStep];
      if p.setup.Some? {
        errors := errors + [p.setup.value];
        assert Reflects(r0, calls0, Execute(p, c));
        return;
      }
      calls := calls + [PerformStep];
      if p.perform.Err? {
        errors := errors + [p.perform.error];
        assert Reflects(r0, calls0, Execute(p, c));
        return;
      }
      var requestId := p.perform.value;
      ghost var steps := [SetupStep, PerformStep];
      assert Execute(p, c) == TagStage(p, c, steps);
      assert Reflects(r0, calls0, RunOutcome(steps, None, None, None, None));
      var ok;
      ghost var td, cd;
      ok, steps, td := RunTags(p, c, requestId, r0, calls0, steps);
      if !ok {
        return;
      }
      ok, steps, cd := RunColors(p, c, requestId, r0, calls0, steps, td);
      if !ok {
        return;
      }
      RunFaces(p, c, requestId, r0, calls0, steps, td, cd);
    }

    /** The tag extractor, when wanted; `ok` says the run goes on. */
    method RunTags(p: Provider, c: PluginConfig, requestId: string,
                   ghost r0: RunnerState, ghost calls0: seq<Step>, ghost steps: seq<Step>)
      returns (ok: bool, ghost steps': seq<Step>, ghost td: Option<TagData>)
      requires requestId == RequestId(p)
      requires Reflects(r0, calls0, RunOutcome(steps, None, None, None, None))
      modifies this
      ensures ok ==> Reflects(r0, calls0, RunOutcome(steps', td, None, None, None))
      ensures ok ==> TagStage(p, c, steps) == ColorStage(p, c, steps', td)
      ensures !ok ==> Reflects(r0, calls0, TagStage(p, c, steps))
    {
      ok, steps', td := true, steps, None;
      var wanted := EnabledFeature(c, TagsFeature);
      if wanted {
        calls := calls + [TagsStep];
        var t := p.tags(requestId, c.tagScore);
        if t.Err? {
          errors := errors + [t.error];
          return false, steps', td;
        }
        tagData := Some(t.value);
        steps', td := steps + [TagsStep], tagData;
      }
    }

    /** The colour extractor, when wanted; `ok` says the run goes on. */
    method RunColors(p: Provider, c: PluginConfig, requestId: string,
                     ghost r0: RunnerState, ghost calls0: seq<Step>, ghost steps: seq<Step>, ghost td: Option<TagData>)
      returns (ok: bool, ghost steps': seq<Step>, ghost cd: Option<ColorData>)
      requires requestId == RequestId(p)
      requires Reflects(r0, calls0, RunOutcome(steps, td, None, None, None))
      modifies this
      ensures ok ==> Reflects(r0, calls0, RunOutcome(steps', td, cd, None, None))
      ensures ok ==> ColorStage(p, c, steps, td) == FaceStage(p, c, steps', td, cd)
      ensures !ok ==> Reflects(r0, calls0, ColorStage(p, c, steps, td))
    {
      ok, steps', cd := true, steps, None;
      var wanted := EnabledFeature(c, ColorsFeature);
      if wanted {
        calls := calls + [ColorsStep];
        var r := p.colors(requestId);
        if r.Err? {
          errors := errors + [r.error];
          return false, steps', cd;
        }
        colorData := Some(r.value);
        steps', cd := steps + [ColorsStep], colorData;
      }
    }

    /** The face extractor, when wanted. */
    method RunFaces(p: Provider, c: PluginConfig, requestId: string, ghost r0: RunnerState, ghost calls0: seq<Step>,
                    ghost steps: seq<Step>, ghost td: Option<TagData>, ghost cd: Option<ColorData>)
      requires requestId == RequestId(p)
      requires Reflects(r0, calls0, RunOutcome(steps, td, cd, None, None))
      modifies this
      ensures Reflects(r0, calls0, FaceStage(p, c, steps, td, cd))
    {
      var wanted := EnabledFeature(c, FacesFeature);
      if wanted {
        calls := calls + [FacesStep];
        var r := p.faces(requestId);
        if r.Err? {
          errors := errors + [r.error];
          return;
        }
        faceData := Some(r.value);
      }
    }
  }

  function TagsAt(r: RunnerState, item: string): map<string, TagResult>
  {
    if r.tagData.Some? then Lookup(r.tagData.value, item, map[]) else map[]
  }

  function ColorsAt(r: RunnerState, item: string): map<string, ColorResult>
  {
    if r.colorData.Some? then Lookup(r.colorData.value, item, map[]) else map[]
  }

  function FacesAt(r: RunnerState, item: string): seq<FaceResult>
  {
    if r.faceData.Some? then Lookup(r.faceData.value, item, []) else []
  }

  predicate HasData(r: RunnerState, item: string)
  {
    |TagsAt(r, item)| > 0 || |ColorsAt(r, item)| > 0 || |FacesAt(r, item)| > 0
  }

  /** The first `n` of the runner's items that carry at least one tag, colour or face, in order. */
  function Emitted(r: RunnerState, n: nat): seq<string>
    requires n <= |r.items|
  {
    if n == 0 then []
    else Emitted(r, n - 1) + (if HasData(r, r.items[n - 1]) then [r.items[n - 1]] else [])
  }

  function TagName(t: TagResult): string { t.name }

  function ColorHex(c: ColorResult): string { c.hex }

  /** The keys of `m` whose entry is `t`, leaving out those still `pending`. */
  function KeysTo<T(==)>(m: map<string, T>, pending: set<string>, t: T): set<string>
  {
    set k | k in m && k !in pending && m[k] == t
  }

  /**
   * `g` regroups the entries of `m` by `key`: its keys are the entries' keys, and each
   * list holds every entry with that key exactly as often as `m` holds it, in some order.
   */
  ghost predicate GroupedBy<T(!new)>(m: map<string, T>, key: T -> string, g: map<string, seq<T>>)
  {
    && g.Keys == (set k | k in m :: key(m[k]))
    && forall n, t :: multiset(Lookup(g, n, []))[t] == if key(t) == n then |KeysTo(m, {}, t)| else 0
  }

  lemma KeysToStep<T>(m: map<string, T>, pending: set<string>, x: string, t: T)
    requires x in pending && x in m
    ensures KeysTo(m, pending - {x}, t) == KeysTo(m, pending, t) + (if m[x] == t then {x} else {})
    ensures x !in KeysTo(m, pending, t)
  {
  }

  /** Adding entry `x` to its group keeps the counts in step with the entries visited. */
  lemma GroupByStep<T(!new)>(m: map<string, T>, key: T -> string, pending: set<string>, x: string,
                             g0: map<string, seq<T>>, g: map<string, seq<T>>)
    requires x in pending && x in m
    requires forall n, t :: multiset(Lookup(g0, n, []))[t] == if key(t) == n then |KeysTo(m, pending, t)| else 0
    requires g == g0[key(m[x]) := Lookup(g0, key(m[x]), []) + [m[x]]]
    ensures forall n, t :: multiset(Lookup(g, n, []))[t] == if key(t) == n then |KeysTo(m, pending - {x}, t)| else 0
  {
    forall n, t ensures multiset(Lookup(g, n, []))[t] == if key(t) == n then |KeysTo(m, pending - {x}, t)| else 0 {
      KeysToStep(m, pending, x, t);
      if n == key(m[x]) {
        assert Lookup(g, n, []) == Lookup(g0, n, []) + [m[x]];
      } else {
        assert Lookup(g, n, []) == Lookup(g0, n, []);
      }
    }
  }

  /**
   * Regroups one item's entries by name (tags) or hex (colours). The map is walked in
   * Go's iteration order, so the order within a group is left open.
   */
  method GroupBy<T(==,!new)>(m: map<string, T>, key: T -> string) returns (g: map<string, seq<T>>)
    ensures GroupedBy(m, key, g)
  {
    g := map[];
    var pending := m.Keys;
    while pending != {}
      invariant pending <= m.Keys
      invariant g.Keys == (set k | k in m && k !in pending :: key(m[k]))
      invariant forall n, t :: multiset(Lookup(g, n, []))[t] == if key(t) == n then |KeysTo(m, pending, t)| else 0
      decreases pending
    {
      var x :| x in pending;
      var v := m[x];
      ghost var g0, pending0 := g, pending;
      pending := pending - {x};
      g := g[key(v) := Lookup(g, key(v), []) + [v]];
      GroupByStep(m, key, pending0, x, g0, g);
      assert (set k | k in m && k !in pending :: key(m[k])) == (set k | k in m && k !in pending0 :: key(m[k])) + {key(v)};
    }
  }

  /** `a` is the asset a runner emits for its item `a.name`. */
  ghost predicate EmittedAsset(r: RunnerState, a: Asset)
  {
    && a.source == r.name
    && GroupedBy(TagsAt(r, a.name), TagName, a.tags)
    && GroupedBy(ColorsAt(r, a.name), ColorHex, a.colors)
    && a.faces == FacesAt(r, a.name)
  }

  /** `assets` are the runner's emitted assets: one per item with data, in item order. */
  ghost predicate ProviderAssets(r: RunnerState, assets: seq<Asset>)
  {
    && Names(assets) == Emitted(r, |r.items|)
    && forall a :: a in assets ==> EmittedAsset(r, a)
  }

  lemma GroupedByEmpty<T(!new)>(m: map<string, T>, key: T -> string, g: map<string, seq<T>>)
    requires GroupedBy(m, key, g)
    ensures |g| > 0 <==> |m| > 0
  {
    if |m| > 0 {
      var k :| k in m;
      assert key(m[k]) in g.Keys;
    }
    if |g| > 0 {
      var n :| n in g.Keys;
    }
  }

  /** The assets of one runner, one per item that has a tag, a colour or a face. */
  method ItemAssets(r: RunnerState) returns (assets: seq<Asset>)
    ensures ProviderAssets(r, assets)
  {
    assets := [];
    var i := 0;
    while i < |r.items|
      invariant 0 <= i <= |r.items|
      invariant Names(assets) == Emitted(r, i)
      invariant forall a :: a in assets ==> EmittedAsset(r, a)
    {
      var item := r.items[i];
      var has, asset := ItemAsset(r, item);
      if has {
        assert Names(assets + [asset]) == Names(assets) + [item];
        assets := assets + [asset];
      }
      i := i + 1;
    }
  }

  /** The asset for one item: its tags regrouped by name, its colours by hex, and its faces, when it has any. */
  method ItemAsset(r: RunnerState, item: string) returns (has: bool, asset: Asset)
    ensures has <==> HasData(r, item)
    ensures has ==> asset.name == item && EmittedAsset(r, asset)
  {
    var tagMap := GroupBy(TagsAt(r, item), TagName);
    var colorMap := GroupBy(ColorsAt(r, item), ColorHex);
    GroupedByEmpty(TagsAt(r, item), TagName, tagMap);
    GroupedByEmpty(ColorsAt(r, item), ColorHex, colorMap);
    has := |tagMap| > 0 || |colorMap| > 0 || |FacesAt(r, item)| > 0;
    asset := Asset(item, tagMap, colorMap, FacesAt(r, item), r.name);
  }

  /** The asset lists joined in order. */
  function Flatten(parts: seq<seq<Asset>>): seq<Asset>
  {
    if |parts| == 0 then [] else Flatten(parts[..|parts| - 1]) + parts[|parts| - 1]
  }

  /** The joined list holds every asset of every part and nothing else. */
  lemma {:induction false} FlattenMembers(parts: seq<seq<Asset>>, a: Asset)
    ensures a in Flatten(parts) <==> exists j :: 0 <= j < |parts| && a in parts[j]
  {
    if |parts| > 0 {
      var init := parts[..|parts| - 1];
      FlattenMembers(init, a);
      if exists j :: 0 <= j < |init| && a in init[j] {
        var j :| 0 <= j < |init| && a in init[j];
        assert parts[j] == init[j];
      }
      if exists j :: 0 <= j < |parts| && a in parts[j] {
        var j :| 0 <= j < |parts| && a in parts[j];
        if j < |init| {
          assert init[j] == parts[j];
        }
      }
    }
  }

  /** Every runner's errors, in runner order. */
  function AllErrors(runners: seq<RunnerState>): seq<string>
  {
    if |runners| == 0 then [] else AllErrors(runners[..|runners| - 1]) + runners[|runners| - 1].errors
  }

  /** Each message twice in a row: what a runner named like the cross-provider key leaves there. */
  function Doubled(s: seq<string>): seq<string>
  {
    if |s| == 0 then [] else Doubled(s[..|s| - 1]) + [s[|s| - 1], s[|s| - 1]]
  }

  function RunnerNames(runners: seq<RunnerState>): set<string>
  {
    set r | r in runners :: r.name
  }

  /** No two runners share a name and none is named like the cross-provider key. */
  predicate WellNamed(runners: seq<RunnerState>)
  {
    && (forall i, j :: 0 <= i < j < |runners| ==> runners[i].name != runners[j].name)
    && (forall i :: 0 <= i < |runners| ==> runners[i].name != AllKey)
  }

  /**
   * One runner's turn in the report builder: its entry is created if missing, its
   * errors (when it has any) replace the entry's and are appended to the
   * cross-provider list, and its assets are appended to its entry and to `all`.
   * Entries are shared, so a runner named like the cross-provider key writes each
   * error twice into that one entry.
   */
  ghost predicate RunnerAdded(output: map<string, Result>, r: RunnerState, out: map<string, Result>, assets: seq<Asset>)
    requires AllKey in output
  {
    && out.Keys == output.Keys + {r.name}
    && (forall k :: k in output && k != r.name && k != AllKey ==> out[k] == output[k])
    && (var base := if r.name in output then output[r.name] else Result([], []);
        && out[r.name].assets == base.assets + assets
        && out[r.name].errors ==
             (if |r.errors| == 0 then base.errors else if r.name == AllKey then Doubled(r.errors) else r.errors))
    && (r.name != AllKey ==> out[AllKey] == output[AllKey].(errors := output[AllKey].errors + r.errors))
  }

  method AddRunner(output: map<string, Result>, allAssets: seq<Asset>, r: RunnerState)
    returns (out: map<string, Result>, all: seq<Asset>, assets: seq<Asset>)
    requires AllKey in output
    ensures RunnerAdded(output, r, out, assets)
    ensures ProviderAssets(r, assets) && all == allAssets + assets
  {
    out := AddErrors(output, r);
    assets := ItemAssets(r);
    out := out[r.name := out[r.name].(assets := out[r.name].assets + assets)];
    all := allAssets + assets;
  }

  /** The first half of a runner's turn: its entry is created if missing and its errors are copied. */
  method AddErrors(output: map<string, Result>, r: RunnerState) returns (out: map<string, Result>)
    requires AllKey in output
    ensures RunnerAdded(output, r, out, [])
  {
    ghost var base := if r.name in output then output[r.name] else Result([], []);
    out := output;
    if r.name !in out {
      out := out[r.name := Result([], [])];
    }
    if |r.errors| > 0 {
      out := out[r.name := out[r.name].(errors := [])];
      var e := 0;
      while e < |r.errors|
        invariant 0 <= e <= |r.errors|
        invariant out.Keys == output.Keys + {r.name}
        invariant forall k :: k in output && k != r.name && k != AllKey ==> out[k] == output[k]
        invariant out[r.name].assets == base.assets
        invariant r.name == AllKey ==> out[AllKey].errors == Doubled(r.errors[..e])
        invariant r.name != AllKey ==> out[r.name].errors == r.errors[..e]
        invariant r.name != AllKey ==> out[AllKey] == output[AllKey].(errors := output[AllKey].errors + r.errors[..e])
      {
        var message := r.errors[e];
        out := out[r.name := out[r.name].(errors := out[r.name].errors + [message])];
        out := out[AllKey := out[AllKey].(errors := out[AllKey].errors + [message])];
        assert r.errors[..e + 1] == r.errors[..e] + [message];
        e := e + 1;
      }
      assert r.errors[..e] == r.errors;
    }
    assert base.assets + [] == base.assets;
  }

  /** The report entries after the first `i` runners, with `emitted` their asset lists. */
  ghost predicate Built(output: map<string, Result>, runners: seq<RunnerState>, i: nat, emitted: seq<seq<Asset>>)
  {
    && i <= |runners| && |emitted| == i
    && AllKey in output
    && output.Keys == {AllKey} + RunnerNames(runners[..i])
    && (WellNamed(runners) ==>
          && (forall j :: 0 <= j < i ==> output[runners[j].name] == Result(emitted[j], runners[j].errors))
          && output[AllKey].errors == AllErrors(runners[..i])
          && output[AllKey].assets == [])
  }

  lemma BuildStep(output: map<string, Result>, runners: seq<RunnerState>, i: nat, emitted: seq<seq<Asset>>,
                  out: map<string, Result>, assets: seq<Asset>)
    requires i < |runners| && Built(output, runners, i, emitted)
    requires RunnerAdded(output, runners[i], out, assets)
    ensures Built(out, runners, i + 1, emitted + [assets])
  {
    var r := runners[i];
    assert runners[..i + 1] == runners[..i] + [r];
    assert RunnerNames(runners[..i + 1]) == RunnerNames(runners[..i]) + {r.name};
    if WellNamed(runners) {
      WellNamedStep(output, runners, i, emitted, out, assets);
    }
  }

  lemma WellNamedStep(output: map<string, Result>, runners: seq<RunnerState>, i: nat, emitted: seq<seq<Asset>>,
                      out: map<string, Result>, assets: seq<Asset>)
    requires i < |runners| && Built(output, runners, i, emitted)
    requires RunnerAdded(output, runners[i], out, assets)
    requires WellNamed(runners)
    ensures forall j :: 0 <= j < i + 1 ==> out[runners[j].name] == Result((emitted + [assets])[j], runners[j].errors)
    ensures out[AllKey].errors == AllErrors(runners[..i + 1])
    ensures out[AllKey].assets == []
  {
    var r := runners[i];
    assert runners[..i + 1][..i] == runners[..i];
    forall q | q in runners[..i]
      ensures q.name != r.name
    {
      var j :| 0 <= j < i && runners[..i][j] == q;
    }
    assert r.name !in output;
    forall j | 0 <= j < i + 1
      ensures out[runners[j].name] == Result((emitted + [assets])[j], runners[j].errors)
    {
      if j < i {
        assert runners[j] in runners[..i];
      }
    }
  }

  /**
   * The report: one entry per runner name plus the cross-provider entry, whose assets
   * merge every runner's assets. With distinct names other than the cross-provider
   * key, each runner's entry holds exactly its own errors and assets, and the
   * cross-provider errors are every runner's errors in runner order.
   */
  method BuildOutput(runners: seq<RunnerState>) returns (output: map<string, Result>, ghost emitted: seq<seq<Asset>>)
    ensures output.Keys == {AllKey} + RunnerNames(runners)
    ensures |emitted| == |runners| && forall i :: 0 <= i < |runners| ==> ProviderAssets(runners[i], emitted[i])
    ensures IsMergeResult(Flatten(emitted), output[AllKey].assets)
    ensures WellNamed(runners) ==>
      && (forall i :: 0 <= i < |runners| ==> output[runners[i].name] == Result(emitted[i], runners[i].errors))
      && output[AllKey].errors == AllErrors(runners)
  {
    output := map[AllKey := Result([], [])];
    var allAssets: seq<Asset> := [];
    emitted := [];
    var i := 0;
    while i < |runners|
      invariant Built(output, runners, i, emitted)
      invariant forall j :: 0 <= j < i ==> ProviderAssets(runners[j], emitted[j])
      invariant allAssets == Flatten(emitted)
    {
      var out, all, assets := AddRunner(output, allAssets, runners[i]);
      BuildStep(output, runners, i, emitted, out, assets);
      ghost var emitted0 := emitted;
      output, allAssets, emitted := out, all, emitted + [assets];
      assert emitted[..i] == emitted0;
      assert Flatten(emitted) == Flatten(emitted0) + assets;
      forall j | 0 <= j < i + 1
        ensures ProviderAssets(runners[j], emitted[j])
      {
        if j < i {
          assert emitted[j] == emitted0[j];
        }
      }
      i := i + 1;
    }
    assert runners[..i] == runners;
    ghost var built := output;
    var merged := MergeAssets(allAssets);
    output := output[AllKey := output[AllKey].(assets := merged)];
    if WellNamed(runners) {
      forall j | 0 <= j < |runners|
        ensures output[runners[j].name] == Result(emitted[j], runners[j].errors)
      {
        assert runners[j].name != AllKey;
        assert built[runners[j].name] == Result(emitted[j], runners[j].errors);
      }
    }
  }

  /** The records of fresh runners for `names`, each run against its registered plugin. */
  function RunnersFor(plugins: map<string, Provider>, c: PluginConfig, items: seq<string>, names: seq<string>): seq<RunnerState>
    requires forall n :: n in names ==> n in plugins
  {
    seq(|names|, i requires 0 <= i < |names| => Finished(plugins[names[i]], c, names[i], items))
  }

  /** The report entries' asset lists for `names`, in that order. */
  function AssetsOf(output: map<string, Result>, names: seq<string>): seq<seq<Asset>>
    requires forall n :: n in names ==> n in output
  {
    seq(|names|, i requires 0 <= i < |names| => output[names[i]].assets)
  }

  /** Every listed plugin's runner, run to completion, by plugin name. */
  method LaunchRunners(plugins: map<string, Provider>, c: PluginConfig, names: seq<string>, items: seq<string>)
    returns (running: map<string, RunnerState>)
    requires forall n :: n in names ==> n in plugins
    ensures forall k :: k in running <==> k in names
    ensures forall k :: k in running ==> k in plugins && running[k] == Finished(plugins[k], c, k, items)
  {
    running := map[];
    var i := 0;
    while i < |names|
      invariant 0 <= i <= |names|
      invariant forall k :: k in running <==> k in names[..i]
      invariant forall k :: k in running ==> k in plugins && running[k] == Finished(plugins[k], c, k, items)
    {
      var r := new Runner(names[i], items);
      r.Run(plugins[names[i]], c);
      running := running[names[i] := r.State()];
      assert names[..i + 1] == names[..i] + [names[i]];
      i := i + 1;
    }
    assert names[..i] == names;
  }

  /** The collector: it receives each finished runner once, in an order left open. */
  method Collect(running: map<string, RunnerState>) returns (collected: seq<RunnerState>, ghost arrival: seq<string>)
    ensures forall k :: multiset(arrival)[k] == if k in running then 1 else 0
    ensures |collected| == |arrival|
    ensures forall j :: 0 <= j < |arrival| ==> arrival[j] in running && collected[j] == running[arrival[j]]
  {
    collected := [];
    arrival := [];
    var pending := running.Keys;
    while pending != {}
      invariant pending <= running.Keys
      invariant forall k :: multiset(arrival)[k] == if k in running && k !in pending then 1 else 0
      invariant |collected| == |arrival|
      invariant forall j :: 0 <= j < |arrival| ==> arrival[j] in running && collected[j] == running[arrival[j]]
      decreases pending
    {
      var name :| name in pending;
      collected := collected + [running[name]];
      arrival := arrival + [name];
      pending := pending - {name};
    }
  }

  /**
   * One runner per listed plugin, each over the request's URLs then files, run to
   * completion; the collector receives them in an order left open (`arrival`) and
   * builds the report from them. With no plugin listed under the cross-provider key,
   * each listed plugin's entry holds the error and assets of its own run, the
   * cross-provider errors follow arrival order, and the cross-provider assets merge
   * every runner's assets.
   */
  method RunPlugins(registry: Registry<Provider>, c: PluginConfig)
    returns (output: map<string, Result>, ghost arrival: seq<string>)
    ensures forall k :: multiset(arrival)[k] == if registry.Eligible(k) then 1 else 0
    ensures forall k :: k in arrival ==> k in registry.plugins
    ensures forall k :: k in output <==> k == AllKey || registry.Eligible(k)
    ensures !registry.Eligible(AllKey) ==>
      && (forall k :: registry.Eligible(k) ==>
            && output[k].errors == ErrorList(Execute(registry.plugins[k], c).error)
            && ProviderAssets(Finished(registry.plugins[k], c, k, c.urls + c.files), output[k].assets))
      && output[AllKey].errors == AllErrors(RunnersFor(registry.plugins, c, c.urls + c.files, arrival))
      && IsMergeResult(Flatten(AssetsOf(output, arrival)), output[AllKey].assets)
  {
    var names := registry.PluginNames();
    assert forall k :: k in names <==> registry.Eligible(k) by {
      forall k
        ensures k in names <==> registry.Eligible(k)
      {
        assert multiset(names)[k] > 0 <==> k in names;
      }
    }
    output, arrival := RunNamed(registry.plugins, c, names);
  }

  /** The fan-out over the plugins `names` of `plugins`, as `RunPlugins` describes it. */
  method RunNamed(plugins: map<string, Provider>, c: PluginConfig, names: seq<string>)
    returns (output: map<string, Result>, ghost arrival: seq<string>)
    requires forall k :: k in names ==> k in plugins
    ensures forall k :: multiset(arrival)[k] == if k in names then 1 else 0
    ensures forall k :: k in arrival ==> k in plugins
    ensures forall k :: k in output <==> k == AllKey || k in names
    ensures AllKey !in names ==>
      && (forall k :: k in names ==>
            && output[k].errors == ErrorList(Execute(plugins[k], c).error)
            && ProviderAssets(Finished(plugins[k], c, k, c.urls + c.files), output[k].assets))
      && output[AllKey].errors == AllErrors(RunnersFor(plugins, c, c.urls + c.files, arrival))
      && IsMergeResult(Flatten(AssetsOf(output, arrival)), output[AllKey].assets)
  {
    var collected;
    collected, arrival := RunAndCollect(plugins, c, names);
    ghost var emitted;
    output, emitted := BuildOutput(collected);
    if AllKey !in names {
      CollectedWellNamed(collected, arrival);
      EntriesPerPlugin(plugins, c, names, output, collected, arrival, emitted);
      EntriesInArrivalOrder(output, collected, arrival, emitted);
    }
  }

  /** The runners of the plugins `names`, each over the URLs then the files, as the collector receives them. */
  method RunAndCollect(plugins: map<string, Provider>, c: PluginConfig, names: seq<string>)
    returns (collected: seq<RunnerState>, ghost arrival: seq<string>)
    requires forall k :: k in names ==> k in plugins
    ensures forall k :: multiset(arrival)[k] == if k in names then 1 else 0
    ensures forall k :: k in arrival ==> k in plugins
    ensures collected == RunnersFor(plugins, c, c.urls + c.files, arrival)
    ensures RunnerNames(collected) == set k | k in names
    ensures forall j :: 0 <= j < |arrival| ==> collected[j].name == arrival[j]
  {
    var items := c.urls + c.files;
    var running := LaunchRunners(plugins, c, names, items);
    collected, arrival := Collect(running);
    assert forall k :: k in arrival ==> k in running by {
      forall k | k in arrival
        ensures k in running
      {
        assert multiset(arrival)[k] > 0;
      }
    }
    CollectedNames(running, collected, arrival);
  }

  /** Each collected plugin's entry holds its own run's error and assets. */
  lemma EntriesPerPlugin(plugins: map<string, Provider>, c: PluginConfig, names: seq<string>,
                         output: map<string, Result>,
                         collected: seq<RunnerState>, arrival: seq<string>, emitted: seq<seq<Asset>>)
    requires forall k :: multiset(arrival)[k] == if k in names then 1 else 0
    requires forall k :: k in arrival ==> k in plugins
    requires collected == RunnersFor(plugins, c, c.urls + c.files, arrival)
    requires |emitted| == |arrival|
    requires forall j :: 0 <= j < |arrival| ==> ProviderAssets(collected[j], emitted[j])
    requires forall j :: 0 <= j < |arrival| ==>
               collected[j].name in output && output[collected[j].name] == Result(emitted[j], collected[j].errors)
    ensures forall k :: k in names ==>
      && k in plugins
      && k in output
      && output[k].errors == ErrorList(Execute(plugins[k], c).error)
      && ProviderAssets(Finished(plugins[k], c, k, c.urls + c.files), output[k].assets)
  {
    forall k | k in names
      ensures k in plugins
      ensures k in output
      ensures output[k].errors == ErrorList(Execute(plugins[k], c).error)
      ensures ProviderAssets(Finished(plugins[k], c, k, c.urls + c.files), output[k].assets)
    {
      assert multiset(arrival)[k] > 0;
      var j :| 0 <= j < |arrival| && arrival[j] == k;
      assert collected[j] == Finished(plugins[k], c, k, c.urls + c.files);
    }
  }

  lemma CollectedNames(running: map<string, RunnerState>, collected: seq<RunnerState>, arrival: seq<string>)
    requires forall k :: k in running ==> running[k].name == k
    requires forall k :: multiset(arrival)[k] == if k in running then 1 else 0
    requires |collected| == |arrival|
    requires forall j :: 0 <= j < |arrival| ==> arrival[j] in running && collected[j] == running[arrival[j]]
    ensures RunnerNames(collected) == running.Keys
    ensures forall j :: 0 <= j < |arrival| ==> collected[j].name == arrival[j]
  {
    forall k | k in running
      ensures k in RunnerNames(collected)
    {
      assert multiset(arrival)[k] > 0;
      var j :| 0 <= j < |arrival| && arrival[j] == k;
      assert collected[j] in collected;
    }
  }

  lemma EntriesInArrivalOrder(output: map<string, Result>, collected: seq<RunnerState>, arrival: seq<string>, emitted: seq<seq<Asset>>)
    requires |collected| == |arrival| == |emitted|
    requires forall j :: 0 <= j < |arrival| ==> collected[j].name == arrival[j]
    requires output.Keys == {AllKey} + RunnerNames(collected)
    requires forall i :: 0 <= i < |collected| ==> output[collected[i].name] == Result(emitted[i], collected[i].errors)
    ensures forall n :: n in arrival ==> n in output
    ensures emitted == AssetsOf(output, arrival)
  {
    forall n | n in arrival
      ensures n in output
    {
      var j :| 0 <= j < |arrival| && arrival[j] == n;
      assert collected[j] in collected;
    }
  }

  /** Runners collected under distinct names other than the cross-provider key are well named. */
  lemma CollectedWellNamed(collected: seq<RunnerState>, arrival: seq<string>)
    requires |collected| == |arrival| && forall j :: 0 <= j < |arrival| ==> collected[j].name == arrival[j]
    requires forall k :: multiset(arrival)[k] <= 1
    requires AllKey !in arrival
    ensures WellNamed(collected)
  {
    DistinctFromCounts(arrival);
  }
}
