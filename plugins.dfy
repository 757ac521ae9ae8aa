/**
 * The plugin registry and the shared plugin vocabulary (visagoapi/plugins.go; the older
 * package plugins/plugins.go holds the same registry code and is modelled by the same class).
 */
module Plugins {
  import opened Wrappers
  import opened StringOrder

  const ColorsFeature := "colors"
  const FacesFeature := "faces"
  const TagsFeature := "tags"

  /** The features a request gets when it names none. */
  const DefaultFeatures := [ColorsFeature, FacesFeature, TagsFeature]

  /** One tag of one item; `source` is filled in by the merge, never by a provider. */
  datatype TagResult = TagResult(name: string, score: real, source: string)

  /** One colour of one item. */
  datatype ColorResult = ColorResult(
    hex: string, score: real, pixelFraction: real,
    red: real, green: real, blue: real, alpha: real,
    source: string)

  datatype Vertex = Vertex(x: int, y: int)

  datatype BoundingPoly = BoundingPoly(vertices: seq<Vertex>)

  /** One detected face; the bounding polygon is a pointer in the source and may be nil. */
  datatype FaceResult = FaceResult(
    boundingPoly: Option<BoundingPoly>,
    detectionScore: real,
    joyLikelihood: string,
    sorrowLikelihood: string,
    angerLikelihood: string,
    surpriseLikelihood: string,
    underExposedLikelihood: string,
    blurredLikelihood: string,
    headwearLikelihood: string,
    source: string)

  /** What a request asks of every plugin. */
  datatype PluginConfig = PluginConfig(
    urls: seq<string>,
    files: seq<string>,
    verbose: bool,
    tagScore: real,
    features: seq<string>)

  /** The feature list a request is served with: its own, or the defaults when it names none. */
  function ActiveFeatures(c: PluginConfig): seq<string>
  {
    if |c.features| == 0 then DefaultFeatures else c.features
  }

  predicate FeatureWanted(c: PluginConfig, f: string)
  {
    f in ActiveFeatures(c)
  }

  /** Linear search of the active feature list. */
  method EnabledFeature(c: PluginConfig, f: string) returns (enabled: bool)
    ensures enabled <==> FeatureWanted(c, f)
  {
    var features := c.features;
    if |c.features| == 0 {
      features := DefaultFeatures;
    }
    var i := 0;
    while i < |features|
      invariant 0 <= i <= |features|
      invariant features == ActiveFeatures(c)
      invariant f !in features[..i]
    {
      if features[i] == f {
        return true;
      }
      assert features[..i + 1] == features[..i] + [features[i]];
      i := i + 1;
    }
    assert features[..i] == features;
    return false;
  }

  /** A request naming no feature gets exactly colours, faces and tags. */
  lemma DefaultFeaturesExact(c: PluginConfig, f: string)
    requires |c.features| == 0
    ensures FeatureWanted(c, f) <==> (f == "colors" || f == "faces" || f == "tags")
  {
  }

  /** A request naming features gets exactly those; the defaults play no part. */
  lemma ExplicitFeaturesExact(c: PluginConfig, f: string)
    requires |c.features| > 0
    ensures FeatureWanted(c, f) <==> f in c.features
  {
  }

  /**
   * The tags a provider keeps from the first `n` of its scored names: name i survives
   * when its score is strictly above `min`, and tags are keyed by name, so a later
   * entry replaces an earlier one with the same name.
   */
  function Kept(names: seq<string>, scores: seq<real>, min: real, n: nat): map<string, TagResult>
    requires n <= |names| && n <= |scores|
  {
    if n == 0 then map[]
    else
      var m := Kept(names, scores, min, n - 1);
      if scores[n - 1] > min then m[names[n - 1] := TagResult(names[n - 1], scores[n - 1], "")] else m
  }

  /** A name is kept exactly when one of its entries scores strictly above the threshold. */
  lemma {:induction false} KeptIff(names: seq<string>, scores: seq<real>, min: real, n: nat, d: string)
    requires n <= |names| && n <= |scores|
    ensures d in Kept(names, scores, min, n) <==>
            exists i :: 0 <= i < n && names[i] == d && scores[i] > min
  {
    if n > 0 {
      KeptIff(names, scores, min, n - 1, d);
      if d in Kept(names, scores, min, n) && !(names[n - 1] == d && scores[n - 1] > min) {
        assert d in Kept(names, scores, min, n - 1);
      }
    }
  }

  /** Every kept tag carries its own key as name, a score above the threshold and no source. */
  lemma {:induction false} KeptEntries(names: seq<string>, scores: seq<real>, min: real, n: nat)
    requires n <= |names| && n <= |scores|
    ensures forall d :: d in Kept(names, scores, min, n) ==>
              Kept(names, scores, min, n)[d].name == d &&
              Kept(names, scores, min, n)[d].score > min &&
              Kept(names, scores, min, n)[d].source == ""
  {
    if n > 0 {
      KeptEntries(names, scores, min, n - 1);
    }
  }

  /** The tag kept for a name carries the score of the LAST of its entries above the threshold. */
  lemma {:induction false} KeptLastWins(names: seq<string>, scores: seq<real>, min: real, n: nat, i: nat)
    requires n <= |names| && n <= |scores| && i < n
    requires scores[i] > min
    requires forall j :: i < j < n && names[j] == names[i] ==> scores[j] <= min
    ensures names[i] in Kept(names, scores, min, n)
    ensures Kept(names, scores, min, n)[names[i]] == TagResult(names[i], scores[i], "")
  {
    if i < n - 1 {
      KeptLastWins(names, scores, min, n - 1, i);
    }
  }

  /**
   * The process-wide registry: registered plugins by name, and the whitelist and
   * blacklist with their enable flags.
   */
  class Registry<P> {
    var plugins: map<string, P>
    var whitelist: set<string>
    var blacklist: set<string>
    var enableWhitelist: bool
    var enableBlacklist: bool

    /** A filter is enabled exactly when its list holds a name. */
    ghost predicate Valid()
      reads this
    {
      && (enableWhitelist <==> whitelist != {})
      && (enableBlacklist <==> blacklist != {})
    }

    constructor ()
      ensures Valid()
      ensures plugins == map[] && whitelist == {} && blacklist == {}
    {
      plugins := map[];
      whitelist := {};
      blacklist := {};
      enableWhitelist := false;
      enableBlacklist := false;
    }

    /** A registered name that passes the whitelist (when enabled) and then the blacklist (when enabled). */
    predicate Eligible(name: string)
      reads this
    {
      && name in plugins
      && (enableWhitelist ==> name in whitelist)
      && (enableBlacklist ==> name !in blacklist)
    }

    /** Registering a name replaces any plugin already registered under it. */
    method AddPlugin(name: string, plugin: P)
      modifies this`plugins
      ensures plugins == old(plugins)[name := plugin]
    {
      plugins := plugins[name := plugin];
    }

    /** Adds names to the blacklist; nothing is ever removed from it. */
    method SetBlacklist(b: seq<string>)
      requires Valid()
      modifies this`blacklist, this`enableBlacklist
      ensures Valid()
      ensures forall v :: v in blacklist <==> v in old(blacklist) || v in b
      ensures old(enableBlacklist) ==> enableBlacklist
    {
      var i := 0;
      while i < |b|
        invariant 0 <= i <= |b|
        invariant forall v :: v in blacklist <==> v in old(blacklist) || v in b[..i]
        invariant enableBlacklist == old(enableBlacklist)
      {
        assert b[..i + 1] == b[..i] + [b[i]];
        blacklist := blacklist + {b[i]};
        i := i + 1;
      }
      assert b[..i] == b;
      if |blacklist| > 0 {
        enableBlacklist := true;
      }
    }

    /** Adds names to the whitelist; nothing is ever removed from it. */
    method SetWhitelist(w: seq<string>)
      requires Valid()
      modifies this`whitelist, this`enableWhitelist
      ensures Valid()
      ensures forall v :: v in whitelist <==> v in old(whitelist) || v in w
      ensures old(enableWhitelist) ==> enableWhitelist
    {
      var i := 0;
      while i < |w|
        invariant 0 <= i <= |w|
        invariant forall v :: v in whitelist <==> v in old(whitelist) || v in w[..i]
        invariant enableWhitelist == old(enableWhitelist)
      {
        assert w[..i + 1] == w[..i] + [w[i]];
        whitelist := whitelist + {w[i]};
        i := i + 1;
      }
      assert w[..i] == w;
      if |whitelist| > 0 {
        enableWhitelist := true;
      }
    }

    /**
     * The eligible names in ascending order, each exactly once. The map is walked in
     * an arbitrary order, as Go's map iteration is.
     */
    method PluginNames() returns (names: seq<string>)
      ensures Sorted(names)
      ensures forall k :: multiset(names)[k] == if Eligible(k) then 1 else 0
      ensures !enableWhitelist && !enableBlacklist ==> forall k :: k in names <==> k in plugins
    {
      var found: seq<string> := [];
      var pending := plugins.Keys;
      while pending != {}
        invariant pending <= plugins.Keys
        invariant forall k :: multiset(found)[k] == if k !in pending && Eligible(k) then 1 else 0
        decreases pending
      {
        var key :| key in pending;
        pending := pending - {key};
        if enableWhitelist && key !in whitelist {
          continue;
        }
        if enableBlacklist && key in blacklist {
          continue;
        }
        found := found + [key];
      }
      names := SortStrings(found);
      forall k ensures k in names <==> multiset(names)[k] > 0 { }
    }

    /** The eligible names, one per line, each line ending in a newline. */
    method DisplayPlugins() returns (s: string, ghost names: seq<string>)
      ensures Sorted(names)
      ensures forall k :: multiset(names)[k] == if Eligible(k) then 1 else 0
      ensures s == Join(names, '\n') + "\n"
    {
      var listed := PluginNames();
      names := listed;
      s := Join(listed, '\n') + "\n";
    }
  }

  /**
   * `PluginNames` is deterministic although the map is walked in an arbitrary order:
   * any two lists meeting its contract are the same list.
   */
  lemma PluginNamesDetermined<P>(registry: Registry<P>, a: seq<string>, b: seq<string>)
    requires Sorted(a) && forall k :: multiset(a)[k] == if registry.Eligible(k) then 1 else 0
    requires Sorted(b) && forall k :: multiset(b)[k] == if registry.Eligible(k) then 1 else 0
    ensures a == b
  {
    assert multiset(a) == multiset(b) by {
      forall k ensures multiset(a)[k] == multiset(b)[k] { }
    }
    SortedUnique(a, b);
  }

  /** The listing `DisplayPlugins` prints gives back the names, when no name contains a newline. */
  lemma DisplayListsNames(names: seq<string>)
    requires |names| >= 1
    requires forall i :: 0 <= i < |names| ==> '\n' !in names[i]
    ensures Split((Join(names, '\n') + "\n")[..|Join(names, '\n')|], '\n') == names
  {
    var j := Join(names, '\n');
    assert (j + "\n")[..|j|] == j;
    SplitJoin(names, '\n');
  }
}
