/**
 * The Clarifai provider (visagoapi/clarifai/clarifai.go): tag and colour response
 * caches and the file lists keyed by request id, and the tag extractor that reads them.
 */
module Clarifai {
  import opened Wrappers
  import opened Plugins
  import opened TagMaps

  const NotConfigured := "not configured"
  const NoInput := "must supply files/URLs"
  const NoTagRequest := "tag request has not been made to clarifai"
  const NoCredentials := "credentials not found"

  /** One image's classification: its URL (empty for an uploaded file), classes and their probabilities. */
  datatype Classification = Classification(url: string, classes: seq<string>, probs: seq<real>)

  /** A tag response: one classification per image of the request. */
  datatype TagResp = TagResp(results: seq<Classification>)

  /** A colour response; only the colour extractor reads it, and that is not part of this model. */
  type ColorResp

  /**
   * What the service answers: the account check, then a tag and a colour call for the
   * URLs and a tag and a colour call for the files.
   */
  datatype ServiceCalls = ServiceCalls(
    info: Option<string>,
    tagUrls: Outcome<TagResp>,
    colorUrls: Outcome<ColorResp>,
    tagFiles: Outcome<TagResp>,
    colorFiles: Outcome<ColorResp>)

  /** The calls one request makes after the account check. */
  datatype Call = TagUrls | ColorUrls | TagFiles | ColorFiles

  /** One input kind's calls: tags, then colours, as wanted. */
  function Stage(tagCall: Call, colorCall: Call, tags: bool, colors: bool): seq<Call>
  {
    (if tags then [tagCall] else []) + (if colors then [colorCall] else [])
  }

  /** URLs and files go in separate requests, the URLs first. */
  function Plan(hasUrls: bool, hasFiles: bool, tags: bool, colors: bool): seq<Call>
  {
    (if hasUrls then Stage(TagUrls, ColorUrls, tags, colors) else [])
    + (if hasFiles then Stage(TagFiles, ColorFiles, tags, colors) else [])
  }

  function CallPlan(c: PluginConfig): seq<Call>
  {
    Plan(|c.urls| > 0, |c.files| > 0, FeatureWanted(c, TagsFeature), FeatureWanted(c, ColorsFeature))
  }

  /** The number of calls made for the URLs. */
  function UrlCallCount(c: PluginConfig): nat
  {
    if |c.urls| > 0 then |Stage(TagUrls, ColorUrls, FeatureWanted(c, TagsFeature), FeatureWanted(c, ColorsFeature))| else 0
  }

  function CallError(s: ServiceCalls, k: Call): Option<string>
  {
    match k
    case TagUrls => if s.tagUrls.Err? then Some(s.tagUrls.error) else None
    case ColorUrls => if s.colorUrls.Err? then Some(s.colorUrls.error) else None
    case TagFiles => if s.tagFiles.Err? then Some(s.tagFiles.error) else None
    case ColorFiles => if s.colorFiles.Err? then Some(s.colorFiles.error) else None
  }

  function Count(b: bool): nat { if b then 1 else 0 }

  /** Where the URL calls sit in the plan: the tag call first, then the colour call. */
  lemma UrlPlanShape(c: PluginConfig)
    ensures UrlCallCount(c) <= |CallPlan(c)|
    ensures UrlCallCount(c) == if |c.urls| > 0 then Count(FeatureWanted(c, TagsFeature)) + Count(FeatureWanted(c, ColorsFeature)) else 0
    ensures |c.urls| > 0 && FeatureWanted(c, TagsFeature) ==> CallPlan(c)[0] == TagUrls
    ensures |c.urls| > 0 && FeatureWanted(c, ColorsFeature) ==>
              CallPlan(c)[Count(FeatureWanted(c, TagsFeature))] == ColorUrls
  {
  }

  /** Where the file calls sit in the plan: after the URL calls, the tag call first, then the colour call. */
  lemma FilePlanShape(c: PluginConfig)
    ensures |CallPlan(c)| == UrlCallCount(c) +
              if |c.files| > 0 then Count(FeatureWanted(c, TagsFeature)) + Count(FeatureWanted(c, ColorsFeature)) else 0
    ensures |c.files| > 0 && FeatureWanted(c, TagsFeature) ==> CallPlan(c)[UrlCallCount(c)] == TagFiles
    ensures |c.files| > 0 && FeatureWanted(c, ColorsFeature) ==>
              CallPlan(c)[UrlCallCount(c) + Count(FeatureWanted(c, TagsFeature))] == ColorFiles
  {
  }

  /** Every call of `ks` was answered. */
  predicate AllAnswered(s: ServiceCalls, ks: seq<Call>)
  {
    forall j :: 0 <= j < |ks| ==> CallError(s, ks[j]).None?
  }

  /** The provider's caches. */
  datatype Cache = Cache(
    tagResponses: map<string, seq<TagResp>>,
    colorResponses: map<string, seq<ColorResp>>,
    files: map<string, seq<string>>)

  /** The cache after an answered call appends its response to the request's list. */
  function Record(cache: Cache, id: string, s: ServiceCalls, k: Call): Cache
    requires CallError(s, k).None?
  {
    match k
    case TagUrls => cache.(tagResponses := cache.tagResponses[id := Lookup(cache.tagResponses, id, []) + [s.tagUrls.value]])
    case TagFiles => cache.(tagResponses := cache.tagResponses[id := Lookup(cache.tagResponses, id, []) + [s.tagFiles.value]])
    case ColorUrls => cache.(colorResponses := cache.colorResponses[id := Lookup(cache.colorResponses, id, []) + [s.colorUrls.value]])
    case ColorFiles => cache.(colorResponses := cache.colorResponses[id := Lookup(cache.colorResponses, id, []) + [s.colorFiles.value]])
  }

  function RecordAll(cache: Cache, id: string, s: ServiceCalls, ks: seq<Call>): Cache
    requires AllAnswered(s, ks)
  {
    if |ks| == 0 then cache
    else Record(RecordAll(cache, id, s, ks[..|ks| - 1]), id, s, ks[|ks| - 1])
  }

  /**
   * The cache after the first `n` planned calls were answered: their responses are
   * appended, and the file list is stored once the URL calls are behind.
   */
  function Stored(cache: Cache, id: string, c: PluginConfig, s: ServiceCalls, n: nat): Cache
    requires n <= |CallPlan(c)| && AllAnswered(s, CallPlan(c)[..n])
  {
    var recorded := RecordAll(cache, id, s, CallPlan(c)[..n]);
    if |c.files| > 0 && n >= UrlCallCount(c) then recorded.(files := recorded.files[id := c.files]) else recorded
  }

  /** Answering the next planned call appends its response to the recorded ones. */
  lemma RecordedStep(cache: Cache, id: string, c: PluginConfig, s: ServiceCalls, n: nat)
    requires n < |CallPlan(c)| && AllAnswered(s, CallPlan(c)[..n]) && CallError(s, CallPlan(c)[n]).None?
    ensures AllAnswered(s, CallPlan(c)[..n + 1])
    ensures RecordAll(cache, id, s, CallPlan(c)[..n + 1]) == Record(RecordAll(cache, id, s, CallPlan(c)[..n]), id, s, CallPlan(c)[n])
  {
    var plan := CallPlan(c);
    assert plan[..n + 1] == plan[..n] + [plan[n]];
    assert plan[..n + 1][..n] == plan[..n];
  }

  /** Once the file list is stored, answering the next planned call only appends its response. */
  lemma StoredFileStep(cache: Cache, id: string, c: PluginConfig, s: ServiceCalls, n: nat)
    requires |c.files| > 0 && UrlCallCount(c) <= n < |CallPlan(c)|
    requires AllAnswered(s, CallPlan(c)[..n]) && CallError(s, CallPlan(c)[n]).None?
    ensures AllAnswered(s, CallPlan(c)[..n + 1])
    ensures Stored(cache, id, c, s, n + 1) == Record(Stored(cache, id, c, s, n), id, s, CallPlan(c)[n])
  {
    RecordedStep(cache, id, c, s, n);
    RecordAppends(RecordAll(cache, id, s, CallPlan(c)[..n]), id, s, CallPlan(c)[n]);
    RecordAppends(Stored(cache, id, c, s, n), id, s, CallPlan(c)[n]);
  }

  /** The tag response a call brings, if it is an answered tag call. */
  function TagOf(s: ServiceCalls, k: Call): seq<TagResp>
  {
    match k
    case TagUrls => if s.tagUrls.Ok? then [s.tagUrls.value] else []
    case TagFiles => if s.tagFiles.Ok? then [s.tagFiles.value] else []
    case _ => []
  }

  /** The colour response a call brings, if it is an answered colour call. */
  function ColorOf(s: ServiceCalls, k: Call): seq<ColorResp>
  {
    match k
    case ColorUrls => if s.colorUrls.Ok? then [s.colorUrls.value] else []
    case ColorFiles => if s.colorFiles.Ok? then [s.colorFiles.value] else []
    case _ => []
  }

  /** The tag responses the calls `ks` bring, in call order. */
  function TagAnswers(s: ServiceCalls, ks: seq<Call>): seq<TagResp>
  {
    if |ks| == 0 then [] else TagAnswers(s, ks[..|ks| - 1]) + TagOf(s, ks[|ks| - 1])
  }

  /** The colour responses the calls `ks` bring, in call order. */
  function ColorAnswers(s: ServiceCalls, ks: seq<Call>): seq<ColorResp>
  {
    if |ks| == 0 then [] else ColorAnswers(s, ks[..|ks| - 1]) + ColorOf(s, ks[|ks| - 1])
  }

  /** `m` with `extra` appended to the list under `id`; nothing changes when there is nothing to append. */
  function Appended<T>(m: map<string, seq<T>>, id: string, extra: seq<T>): map<string, seq<T>>
  {
    if extra == [] then m else m[id := Lookup(m, id, []) + extra]
  }

  lemma AppendedTwice<T>(m: map<string, seq<T>>, id: string, a: seq<T>, b: seq<T>)
    ensures Appended(Appended(m, id, a), id, b) == Appended(m, id, a + b)
  {
    if a != [] && b != [] {
      assert Lookup(Appended(m, id, a), id, []) == Lookup(m, id, []) + a;
      assert Lookup(m, id, []) + a + b == Lookup(m, id, []) + (a + b);
    } else if a == [] {
      assert a + b == b;
    } else {
      assert a + b == a;
    }
  }

  /** One answered call appends what it brings and touches nothing else. */
  lemma RecordAppends(cache: Cache, id: string, s: ServiceCalls, k: Call)
    requires CallError(s, k).None?
    ensures Record(cache, id, s, k) ==
      Cache(Appended(cache.tagResponses, id, TagOf(s, k)), Appended(cache.colorResponses, id, ColorOf(s, k)), cache.files)
  {
  }

  /**
   * Answered calls append their tag responses to the request's list and their colour
   * responses to its colour list; a list with nothing to append is left as it was,
   * and the file lists are untouched.
   */
  lemma {:induction false} RecordAllAppends(cache: Cache, id: string, s: ServiceCalls, ks: seq<Call>)
    requires AllAnswered(s, ks)
    ensures RecordAll(cache, id, s, ks) ==
      Cache(Appended(cache.tagResponses, id, TagAnswers(s, ks)),
            Appended(cache.colorResponses, id, ColorAnswers(s, ks)),
            cache.files)
  {
    if |ks| > 0 {
      var init := ks[..|ks| - 1];
      var k := ks[|ks| - 1];
      assert AllAnswered(s, init) by {
        assert forall j :: 0 <= j < |init| ==> init[j] == ks[j];
      }
      RecordAllAppends(cache, id, s, init);
      RecordAppends(RecordAll(cache, id, s, init), id, s, k);
      AppendedTwice(cache.tagResponses, id, TagAnswers(s, init), TagOf(s, k));
      AppendedTwice(cache.colorResponses, id, ColorAnswers(s, init), ColorOf(s, k));
    }
  }

  lemma {:induction false} AnswersSplit(s: ServiceCalls, a: seq<Call>, b: seq<Call>)
    ensures TagAnswers(s, a + b) == TagAnswers(s, a) + TagAnswers(s, b)
    ensures ColorAnswers(s, a + b) == ColorAnswers(s, a) + ColorAnswers(s, b)
  {
    if |b| == 0 {
      assert a + b == a;
    } else {
      var b', k := b[..|b| - 1], b[|b| - 1];
      assert (a + b)[..|a + b| - 1] == a + b';
      assert (a + b)[|a + b| - 1] == k;
      AnswersSplit(s, a, b');
      assert TagAnswers(s, a + b) == TagAnswers(s, a + b') + TagOf(s, k);
      assert ColorAnswers(s, a + b) == ColorAnswers(s, a + b') + ColorOf(s, k);
    }
  }

  /** The tag and colour responses of one input kind's calls. */
  lemma StageAnswers(s: ServiceCalls, tagCall: Call, colorCall: Call, tags: bool, colors: bool)
    requires tagCall.TagUrls? || tagCall.TagFiles?
    requires colorCall.ColorUrls? || colorCall.ColorFiles?
    ensures TagAnswers(s, Stage(tagCall, colorCall, tags, colors)) == if tags then TagOf(s, tagCall) else []
    ensures ColorAnswers(s, Stage(tagCall, colorCall, tags, colors)) == if colors then ColorOf(s, colorCall) else []
  {
    var st := Stage(tagCall, colorCall, tags, colors);
    assert ColorOf(s, tagCall) == [] && TagOf(s, colorCall) == [];
    if tags && colors {
      assert st == [tagCall, colorCall] && st[..1] == [tagCall] && [tagCall][..0] == [];
      assert TagAnswers(s, [tagCall]) == TagOf(s, tagCall);
      assert ColorAnswers(s, [tagCall]) == [];
      assert TagAnswers(s, st) == TagAnswers(s, [tagCall]) + TagOf(s, colorCall);
      assert ColorAnswers(s, st) == ColorAnswers(s, [tagCall]) + ColorOf(s, colorCall);
    } else if tags {
      assert st == [tagCall] && st[..0] == [];
    } else if colors {
      assert st == [colorCall] && st[..0] == [];
    }
  }

  /**
   * A request's calls bring, when tags are wanted, the URL tag response then the file
   * tag response, each only when the request has URLs (files), and nothing when tags
   * are not wanted; the same holds for colours.
   */
  lemma PlanAnswers(s: ServiceCalls, hasUrls: bool, hasFiles: bool, tags: bool, colors: bool)
    ensures TagAnswers(s, Plan(hasUrls, hasFiles, tags, colors)) ==
      (if tags && hasUrls then TagOf(s, TagUrls) else []) + (if tags && hasFiles then TagOf(s, TagFiles) else [])
    ensures ColorAnswers(s, Plan(hasUrls, hasFiles, tags, colors)) ==
      (if colors && hasUrls then ColorOf(s, ColorUrls) else []) + (if colors && hasFiles then ColorOf(s, ColorFiles) else [])
  {
    var u := if hasUrls then Stage(TagUrls, ColorUrls, tags, colors) else [];
    var f := if hasFiles then Stage(TagFiles, ColorFiles, tags, colors) else [];
    AnswersSplit(s, u, f);
    StageAnswers(s, TagUrls, ColorUrls, tags, colors);
    StageAnswers(s, TagFiles, ColorFiles, tags, colors);
  }

  /** A call the plan makes is one its features ask for. */
  lemma PlanCallsWanted(c: PluginConfig, k: Call)
    requires k in CallPlan(c)
    ensures (k.TagUrls? || k.TagFiles?) ==> FeatureWanted(c, TagsFeature)
    ensures (k.ColorUrls? || k.ColorFiles?) ==> FeatureWanted(c, ColorsFeature)
    ensures (k.TagUrls? || k.ColorUrls?) ==> |c.urls| > 0
    ensures (k.TagFiles? || k.ColorFiles?) ==> |c.files| > 0
  {
  }

  lemma {:induction false} NoTagCallsNoAnswers(s: ServiceCalls, ks: seq<Call>)
    requires forall j :: 0 <= j < |ks| ==> !ks[j].TagUrls? && !ks[j].TagFiles?
    ensures TagAnswers(s, ks) == []
  {
    if |ks| > 0 {
      var init := ks[..|ks| - 1];
      assert forall j :: 0 <= j < |init| ==> init[j] == ks[j];
      NoTagCallsNoAnswers(s, init);
    }
  }

  lemma {:induction false} NoColorCallsNoAnswers(s: ServiceCalls, ks: seq<Call>)
    requires forall j :: 0 <= j < |ks| ==> !ks[j].ColorUrls? && !ks[j].ColorFiles?
    ensures ColorAnswers(s, ks) == []
  {
    if |ks| > 0 {
      var init := ks[..|ks| - 1];
      assert forall j :: 0 <= j < |init| ==> init[j] == ks[j];
      NoColorCallsNoAnswers(s, init);
    }
  }

  /**
   * Whatever point a request stops at, tag responses are cached only when tags are
   * wanted, colour responses only when colours are wanted, and a file list only when
   * the request has files.
   */
  lemma CachingFollowsFeatures(cache: Cache, id: string, c: PluginConfig, s: ServiceCalls, n: nat)
    requires n <= |CallPlan(c)| && AllAnswered(s, CallPlan(c)[..n])
    ensures !FeatureWanted(c, TagsFeature) ==> Stored(cache, id, c, s, n).tagResponses == cache.tagResponses
    ensures !FeatureWanted(c, ColorsFeature) ==> Stored(cache, id, c, s, n).colorResponses == cache.colorResponses
    ensures Stored(cache, id, c, s, n).files ==
      if |c.files| > 0 && n >= UrlCallCount(c) then cache.files[id := c.files] else cache.files
  {
    var ks := CallPlan(c)[..n];
    RecordAllAppends(cache, id, s, ks);
    forall j | 0 <= j < |ks|
      ensures (ks[j].TagUrls? || ks[j].TagFiles?) ==> FeatureWanted(c, TagsFeature)
      ensures (ks[j].ColorUrls? || ks[j].ColorFiles?) ==> FeatureWanted(c, ColorsFeature)
    {
      assert ks[j] in CallPlan(c);
      PlanCallsWanted(c, ks[j]);
    }
    if !FeatureWanted(c, TagsFeature) {
      NoTagCallsNoAnswers(s, ks);
    }
    if !FeatureWanted(c, ColorsFeature) {
      NoColorCallsNoAnswers(s, ks);
    }
  }

  /** The key of result `i` of a response: its URL, or else the i-th file of the request. */
  function ResultKey(r: Classification, i: nat, files: seq<string>): string
    requires r.url != "" || i < |files|
  {
    if r.url != "" then r.url else files[i]
  }

  /** Every result of the response can be keyed and every class has a probability. */
  ghost predicate ResponseReadable(r: TagResp, files: seq<string>)
  {
    forall i :: 0 <= i < |r.results| ==>
      (r.results[i].url != "" || i < |files|) && |r.results[i].classes| <= |r.results[i].probs|
  }

  ghost predicate Readable(reqs: seq<TagResp>, files: seq<string>)
  {
    forall q :: 0 <= q < |reqs| ==> ResponseReadable(reqs[q], files)
  }

  lemma ReadablePrefix(reqs: seq<TagResp>, files: seq<string>, n: nat)
    requires Readable(reqs, files) && n <= |reqs|
    ensures Readable(reqs[..n], files)
  {
    forall q | 0 <= q < n
      ensures ResponseReadable(reqs[..n][q], files)
    {
      assert reqs[..n][q] == reqs[q];
    }
  }

  function ResultEntry(r: Classification, i: nat, files: seq<string>, min: real): Entry
    requires r.url != "" || i < |files|
    requires |r.classes| <= |r.probs|
  {
    Entry(ResultKey(r, i, files), Kept(r.classes, r.probs, min, |r.classes|))
  }

  /** One response's entries, result by result. */
  function ResponseEntries(r: TagResp, files: seq<string>, min: real): seq<Entry>
    requires ResponseReadable(r, files)
  {
    seq(|r.results|, i requires 0 <= i < |r.results| => ResultEntry(r.results[i], i, files, min))
  }

  /** The tag entries of a request's responses, response by response. */
  function ClassEntries(reqs: seq<TagResp>, files: seq<string>, min: real): seq<Entry>
    requires Readable(reqs, files)
  {
    if |reqs| == 0 then []
    else ClassEntries(reqs[..|reqs| - 1], files, min) + ResponseEntries(reqs[|reqs| - 1], files, min)
  }

  /** Every entry comes from a result of some response. */
  lemma {:induction false} ClassEntryHasResult(reqs: seq<TagResp>, files: seq<string>, min: real, e: Entry)
    requires Readable(reqs, files)
    requires e in ClassEntries(reqs, files, min)
    ensures exists q, i :: 0 <= q < |reqs| && 0 <= i < |reqs[q].results| &&
                           e == ResultEntry(reqs[q].results[i], i, files, min)
  {
    var q := |reqs| - 1;
    var init := reqs[..q];
    assert forall q' :: 0 <= q' < q ==> init[q'] == reqs[q'];
    var mine := ResponseEntries(reqs[q], files, min);
    if e in ClassEntries(init, files, min) {
      ClassEntryHasResult(init, files, min, e);
      var q', i :| 0 <= q' < q && 0 <= i < |init[q'].results| &&
                   e == ResultEntry(init[q'].results[i], i, files, min);
      assert e == ResultEntry(reqs[q'].results[i], i, files, min);
    } else {
      assert e in mine;
      var i :| 0 <= i < |mine| && mine[i] == e;
      assert e == ResultEntry(reqs[q].results[i], i, files, min);
    }
  }

  /** Every result of every response gives an entry. */
  lemma {:induction false} ResultHasClassEntry(reqs: seq<TagResp>, files: seq<string>, min: real, q: nat, i: nat)
    requires Readable(reqs, files)
    requires q < |reqs| && i < |reqs[q].results|
    ensures ResponseReadable(reqs[q], files)
    ensures ResultEntry(reqs[q].results[i], i, files, min) in ClassEntries(reqs, files, min)
  {
    var last := |reqs| - 1;
    var init := reqs[..last];
    assert forall q' :: 0 <= q' < last ==> init[q'] == reqs[q'];
    if q < last {
      ResultHasClassEntry(init, files, min, q, i);
    } else {
      assert ResponseEntries(reqs[q], files, min)[i] == ResultEntry(reqs[q].results[i], i, files, min);
    }
  }

  /** The entries are exactly one per result of every response. */
  lemma ClassEntriesFromResults(reqs: seq<TagResp>, files: seq<string>, min: real, e: Entry)
    requires Readable(reqs, files)
    ensures e in ClassEntries(reqs, files, min) <==>
            exists q, i :: 0 <= q < |reqs| && 0 <= i < |reqs[q].results| &&
                           e == ResultEntry(reqs[q].results[i], i, files, min)
  {
    if e in ClassEntries(reqs, files, min) {
      ClassEntryHasResult(reqs, files, min, e);
    }
    if exists q, i :: 0 <= q < |reqs| && 0 <= i < |reqs[q].results| &&
                      e == ResultEntry(reqs[q].results[i], i, files, min) {
      var q, i :| 0 <= q < |reqs| && 0 <= i < |reqs[q].results| &&
                  e == ResultEntry(reqs[q].results[i], i, files, min);
      ResultHasClassEntry(reqs, files, min, q, i);
    }
  }

  class Plugin {
    var configured: bool
    var clientId: string
    var secret: string
    var tagResponses: map<string, seq<TagResp>>
    var colorResponses: map<string, seq<ColorResp>>
    var files: map<string, seq<string>>

    constructor ()
      ensures !configured && clientId == "" && secret == ""
      ensures State() == Cache(map[], map[], map[])
    {
      configured := false;
      clientId, secret := "", "";
      tagResponses, colorResponses, files := map[], map[], map[];
    }

    function State(): Cache
      reads this
    {
      Cache(tagResponses, colorResponses, files)
    }

    /**
     * Set-up with the client id and secret found in the environment: both are needed;
     * without them the plugin is unconfigured and its caches stay as they were,
     * otherwise they start empty.
     */
    method Setup(id: string, sec: string) returns (err: Option<string>)
      modifies this
      ensures id == "" || sec == "" ==>
        err == Some(NoCredentials) && !configured && clientId == old(clientId) && secret == old(secret) &&
        State() == old(State())
      ensures id != "" && sec != "" ==>
        err.None? && configured && clientId == id && secret == sec && State() == Cache(map[], map[], map[])
    {
      if id == "" || sec == "" {
        configured := false;
        return Some(NoCredentials);
      }
      tagResponses, colorResponses, files := map[], map[], map[];
      clientId, secret := id, sec;
      configured := true;
      err := None;
    }

    /** After `n` answered calls of the request that started from `start`, the caches are as `Stored` says. */
    ghost predicate Progress(start: Cache, id: string, c: PluginConfig, s: ServiceCalls, n: nat)
      reads this
    {
      n <= |CallPlan(c)| && AllAnswered(s, CallPlan(c)[..n]) && State() == Stored(start, id, c, s, n)
    }

    /** The first `n` planned calls were answered and their responses appended; the file list is not yet stored. */
    ghost predicate Recorded(start: Cache, id: string, c: PluginConfig, s: ServiceCalls, n: nat)
      reads this
    {
      n <= |CallPlan(c)| && AllAnswered(s, CallPlan(c)[..n]) && State() == RecordAll(start, id, s, CallPlan(c)[..n])
    }

    /**
     * One request under the fresh id `requestId`. The guards fail first and change
     * nothing; then the planned calls run in order, each answer appended to its
     * cache, the file list stored when the file calls begin, and the first failing
     * call ends the request with its error, the answers before it staying cached.
     * `answered` counts the planned calls that were answered.
     */
    method Perform(c: PluginConfig, requestId: string, s: ServiceCalls) returns (r: Outcome<string>, ghost answered: nat)
      modifies this`tagResponses, this`colorResponses, this`files
      ensures !configured ==> r == Err(NotConfigured) && unchanged(this)
      ensures configured && |c.urls| == 0 && |c.files| == 0 ==> r == Err(NoInput) && unchanged(this)
      ensures configured && (|c.urls| > 0 || |c.files| > 0) && s.info.Some? ==> r == Err(s.info.value) && unchanged(this)
      ensures configured && (|c.urls| > 0 || |c.files| > 0) && s.info.None? ==>
        && Progress(old(State()), requestId, c, s, answered)
        && (answered == |CallPlan(c)| ==> r == Ok(requestId))
        && (answered < |CallPlan(c)| ==> r.Err? && CallError(s, CallPlan(c)[answered]) == Some(r.error))
    {
      answered := 0;
      if !configured {
        return Err(NotConfigured), answered;
      }
      if |c.urls| == 0 && |c.files| == 0 {
        return Err(NoInput), answered;
      }
      if s.info.Some? {
        return Err(s.info.value), answered;
      }
      ghost var start := State();
      var failure;
      failure, answered := UrlCalls(c, requestId, s, start);
      if failure.Some? {
        return Err(failure.value), answered;
      }
      if |c.files| > 0 {
        files := files[requestId := c.files];
        failure, answered := FileCalls(c, requestId, s, start);
        if failure.Some? {
          return Err(failure.value), answered;
        }
      }
      r := Ok(requestId);
    }

    /**
     * The URL calls of a request (clarifai.go:48-71): tags then colours, each when its
     * feature is wanted; the first failing call stops the request.
     */
    method UrlCalls(c: PluginConfig, requestId: string, s: ServiceCalls, ghost start: Cache)
      returns (failure: Option<string>, ghost answered: nat)
      requires State() == start
      modifies this`tagResponses, this`colorResponses
      ensures answered <= UrlCallCount(c)
      ensures Recorded(start, requestId, c, s, answered)
      ensures failure.None? <==> answered == UrlCallCount(c)
      ensures failure.Some? ==> CallError(s, CallPlan(c)[answered]) == failure
    {
      answered := 0;
      failure := None;
      assert CallPlan(c)[..0] == [];
      UrlPlanShape(c);
      if |c.urls| == 0 {
        return;
      }
      var wanted := EnabledFeature(c, TagsFeature);
      if wanted {
        failure := UrlCall(c, requestId, s, start, 0, TagUrls);
        if failure.Some? {
          return;
        }
        answered := 1;
      }
      wanted := EnabledFeature(c, ColorsFeature);
      if wanted {
        failure := UrlCall(c, requestId, s, start, answered, ColorUrls);
        if failure.Some? {
          return;
        }
        answered := answered + 1;
      }
    }

    /** The `n`th planned call, a URL call: on success the first `n + 1` calls are recorded. */
    method UrlCall(c: PluginConfig, requestId: string, s: ServiceCalls, ghost start: Cache, ghost n: nat, k: Call)
      returns (failure: Option<string>)
      requires Recorded(start, requestId, c, s, n) && n < |CallPlan(c)| && CallPlan(c)[n] == k
      modifies this`tagResponses, this`colorResponses
      ensures failure == CallError(s, CallPlan(c)[n])
      ensures failure.None? ==> Recorded(start, requestId, c, s, n + 1)
      ensures failure.Some? ==> Recorded(start, requestId, c, s, n)
    {
      failure := Answer(requestId, s, k);
      if failure.None? {
        RecordedStep(start, requestId, c, s, n);
      }
    }

    /** The `n`th planned call, a file call: on success the first `n + 1` calls are stored. */
    method FileCall(c: PluginConfig, requestId: string, s: ServiceCalls, ghost start: Cache, ghost n: nat, k: Call)
      returns (failure: Option<string>)
      requires |c.files| > 0 && UrlCallCount(c) <= n
      requires Progress(start, requestId, c, s, n) && n < |CallPlan(c)| && CallPlan(c)[n] == k
      modifies this`tagResponses, this`colorResponses
      ensures failure == CallError(s, CallPlan(c)[n])
      ensures failure.None? ==> Progress(start, requestId, c, s, n + 1)
      ensures failure.Some? ==> Progress(start, requestId, c, s, n)
    {
      failure := Answer(requestId, s, k);
      if failure.None? {
        StoredFileStep(start, requestId, c, s, n);
      }
    }

    /** One planned call: its answer is appended to its cache, or its error is returned and nothing changes. */
    method Answer(requestId: string, s: ServiceCalls, k: Call) returns (failure: Option<string>)
      modifies this`tagResponses, this`colorResponses
      ensures failure == CallError(s, k)
      ensures failure.None? ==> State() == Record(old(State()), requestId, s, k)
      ensures failure.Some? ==> unchanged(this)
    {
      failure := CallError(s, k);
      if failure.Some? {
        return;
      }
      match k
      case TagUrls =>
        tagResponses := tagResponses[requestId := Lookup(tagResponses, requestId, []) + [s.tagUrls.value]];
      case TagFiles =>
        tagResponses := tagResponses[requestId := Lookup(tagResponses, requestId, []) + [s.tagFiles.value]];
      case ColorUrls =>
        colorResponses := colorResponses[requestId := Lookup(colorResponses, requestId, []) + [s.colorUrls.value]];
      case ColorFiles =>
        colorResponses := colorResponses[requestId := Lookup(colorResponses, requestId, []) + [s.colorFiles.value]];
    }

    /**
     * The file calls of a request (clarifai.go:73-97), made once the URL calls are all
     * answered and the file list is stored: tags then colours, each when its feature
     * is wanted; the first failing call stops the request.
     */
    method FileCalls(c: PluginConfig, requestId: string, s: ServiceCalls, ghost start: Cache)
      returns (failure: Option<string>, ghost answered: nat)
      requires |c.files| > 0
      requires UrlCallCount(c) <= |CallPlan(c)| && AllAnswered(s, CallPlan(c)[..UrlCallCount(c)])
      requires State() == Stored(start, requestId, c, s, UrlCallCount(c))
      modifies this`tagResponses, this`colorResponses
      ensures UrlCallCount(c) <= answered <= |CallPlan(c)|
      ensures Progress(start, requestId, c, s, answered)
      ensures failure.None? <==> answered == |CallPlan(c)|
      ensures failure.Some? ==> CallError(s, CallPlan(c)[answered]) == failure
    {
      failure := None;
      answered := UrlCallCount(c);
      UrlPlanShape(c);
      FilePlanShape(c);
      ghost var tagsOn := FeatureWanted(c, TagsFeature);
      var wanted := EnabledFeature(c, TagsFeature);
      if wanted {
        failure := FileCall(c, requestId, s, start, answered, TagFiles);
        if failure.Some? {
          return;
        }
        answered := answered + 1;
      }
      assert answered == UrlCallCount(c) + Count(tagsOn);
      wanted := EnabledFeature(c, ColorsFeature);
      if wanted {
        failure := FileCall(c, requestId, s, start, answered, ColorFiles);
        if failure.Some? {
          return;
        }
        answered := answered + 1;
      }
    }

    /** Writes the entries of one response's results, result by result, over `tags`. */
    static method TagResponse(tags: ItemTags, ghost done: seq<Entry>, r: TagResp, fs: seq<string>, score: real)
      returns (t: ItemTags)
      requires ResponseReadable(r, fs)
      requires tags == Written(done)
      ensures t == Written(done + ResponseEntries(r, fs, score))
    {
      t := tags;
      var results := r.results;
      ghost var mine := ResponseEntries(r, fs, score);
      assert done + mine[..0] == done;
      var i := 0;
      while i < |results|
        invariant 0 <= i <= |results|
        invariant t == Written(done + mine[..i])
      {
        var k;
        if results[i].url != "" {
          k := results[i].url;
        } else {
          k := fs[i];
        }
        var kept := KeepScored(results[i].classes, results[i].probs, score);
        assert mine[i] == Entry(k, kept);
        WrittenSnoc(done + mine[..i], mine[i]);
        assert done + mine[..i + 1] == (done + mine[..i]) + [mine[i]];
        t := t[k := kept];
        i := i + 1;
      }
      assert mine[..i] == mine;
    }

    /**
     * The tags of the cached tag responses: one entry per result under its key, holding
     * the classes whose probability is strictly above `score`; without cached tag
     * responses, an error.
     */
    method Tags(requestId: string, score: real) returns (tags: ItemTags, err: Option<string>)
      requires requestId in tagResponses ==> Readable(tagResponses[requestId], Lookup(files, requestId, []))
      ensures requestId !in tagResponses ==> tags == map[] && err == Some(NoTagRequest)
      ensures requestId in tagResponses ==>
        err.None? && tags == Written(ClassEntries(tagResponses[requestId], Lookup(files, requestId, []), score))
    {
      tags := map[];
      if requestId !in tagResponses {
        return tags, Some(NoTagRequest);
      }
      var reqs := tagResponses[requestId];
      var fs := Lookup(files, requestId, []);
      var q := 0;
      ReadablePrefix(reqs, fs, 0);
      while q < |reqs|
        invariant 0 <= q <= |reqs|
        invariant Readable(reqs[..q], fs)
        invariant tags == Written(ClassEntries(reqs[..q], fs, score))
      {
        ghost var done := ClassEntries(reqs[..q], fs, score);
        tags := TagResponse(tags, done, reqs[q], fs, score);
        ReadablePrefix(reqs, fs, q + 1);
        ghost var next := reqs[..q + 1];
        assert next[..q] == reqs[..q] && next[q] == reqs[q];
        assert ClassEntries(next, fs, score) == done + ResponseEntries(reqs[q], fs, score);
        q := q + 1;
      }
      assert reqs[..q] == reqs;
      err := None;
    }

    /** The provider finds no faces: always an empty map and no error. */
    method Faces(requestId: string) returns (faces: map<string, seq<FaceResult>>, err: Option<string>)
      ensures faces == map[] && err.None?
    {
      faces := map[];
      err := None;
    }

    /** Forgets every cached response and file list. */
    method Reset()
      modifies this`tagResponses, this`colorResponses, this`files
      ensures State() == Cache(map[], map[], map[])
    {
      tagResponses, colorResponses, files := map[], map[], map[];
    }

    /** The ids with cached tag responses, each once, in map order; an error when not configured. */
    method RequestIDs() returns (ids: seq<string>, err: Option<string>)
      ensures !configured ==> ids == [] && err == Some(NotConfigured)
      ensures configured ==> err.None? && forall k :: multiset(ids)[k] == if k in tagResponses then 1 else 0
    {
      if !configured {
        return [], Some(NotConfigured);
      }
      ids := [];
      var pending := tagResponses.Keys;
      while pending != {}
        invariant pending <= tagResponses.Keys
        invariant forall k :: multiset(ids)[k] == if k in tagResponses && k !in pending then 1 else 0
        decreases pending
      {
        var k :| k in pending;
        ids := ids + [k];
        pending := pending - {k};
      }
      err := None;
    }
  }
}
