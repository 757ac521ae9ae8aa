/**
 * The Google Vision provider (visagoapi/googlevision/googlevision.go): a response
 * cache keyed by request id, and the tag and face extractors that read it.
 */
module GoogleVision {
  import opened Wrappers
  import opened StringOrder
  import opened Plugins
  import opened TagMaps

  const NotConfigured := "not configured"
  const NoInput := "must supply files/URLs"
  const NoRequest := "request has not been made to google"
  const NoCredentials := "credentials not found"

  /** One label annotation of an image. */
  datatype Label = Label(description: string, score: real)

  datatype VisionVertex = VisionVertex(x: int, y: int)

  /** One face annotation of an image, with its bounding polygon's vertices. */
  datatype FaceAnnotation = FaceAnnotation(
    vertices: seq<VisionVertex>,
    detectionConfidence: real,
    joy: string,
    sorrow: string,
    anger: string,
    surprise: string,
    underExposed: string,
    blurred: string,
    headwear: string)

  /** The service's answer for one image. */
  datatype ImageResponse = ImageResponse(labels: seq<Label>, faces: seq<FaceAnnotation>)

  /**
   * What the service does with one request: the client can fail to build, the batch
   * request can fail to build, and the annotation call answers or fails.
   */
  datatype VisionCall = VisionCall(
    clientError: Option<string>,
    batchError: Option<string>,
    annotate: Outcome<seq<ImageResponse>>)

  function Descriptions(labels: seq<Label>): seq<string>
  {
    seq(|labels|, i requires 0 <= i < |labels| => labels[i].description)
  }

  function Scores(labels: seq<Label>): seq<real>
  {
    seq(|labels|, i requires 0 <= i < |labels| => labels[i].score)
  }

  /** The labels of one image kept above `min`, keyed by description. */
  function KeptLabels(labels: seq<Label>, min: real): map<string, TagResult>
  {
    Kept(Descriptions(labels), Scores(labels), min, |labels|)
  }

  /** The tag entries of a batch: response i describes item i. */
  function LabelEntries(rs: seq<ImageResponse>, items: seq<string>, min: real): seq<Entry>
    requires |rs| <= |items|
  {
    seq(|rs|, i requires 0 <= i < |rs| => Entry(items[i], KeptLabels(rs[i].labels, min)))
  }

  /** A label survives exactly when one of the image's labels with that description scores above `min`. */
  lemma KeptLabelsIff(labels: seq<Label>, min: real, d: string)
    ensures d in KeptLabels(labels, min) <==>
            exists i :: 0 <= i < |labels| && labels[i].description == d && labels[i].score > min
  {
    KeptIff(Descriptions(labels), Scores(labels), min, |labels|, d);
    if d in KeptLabels(labels, min) {
      var i :| 0 <= i < |labels| && Descriptions(labels)[i] == d && Scores(labels)[i] > min;
      assert labels[i].description == d && labels[i].score > min;
    }
    if exists i :: 0 <= i < |labels| && labels[i].description == d && labels[i].score > min {
      var i :| 0 <= i < |labels| && labels[i].description == d && labels[i].score > min;
      assert Descriptions(labels)[i] == d && Scores(labels)[i] > min;
    }
  }

  /** Every response makes an entry for its item, even when no label survives, and no other item appears. */
  lemma LabelTagsKeys(rs: seq<ImageResponse>, items: seq<string>, min: real, k: string)
    requires |rs| <= |items|
    ensures k in Written(LabelEntries(rs, items, min)) <==> exists i :: 0 <= i < |rs| && items[i] == k
  {
    var entries := LabelEntries(rs, items, min);
    WrittenKeys(entries, k);
    if exists i :: 0 <= i < |rs| && items[i] == k {
      var i :| 0 <= i < |rs| && items[i] == k;
      assert entries[i].key == k;
    }
  }

  /** An item holds the labels of the last response that describes it. */
  lemma LabelTagsOfItem(rs: seq<ImageResponse>, items: seq<string>, min: real, i: nat)
    requires i < |rs| <= |items|
    requires forall j :: i < j < |rs| ==> items[j] != items[i]
    ensures items[i] in Written(LabelEntries(rs, items, min))
    ensures Written(LabelEntries(rs, items, min))[items[i]] == KeptLabels(rs[i].labels, min)
  {
    WrittenLastWins(LabelEntries(rs, items, min), i);
  }

  function ConvertVertices(vs: seq<VisionVertex>): seq<Vertex>
  {
    seq(|vs|, i requires 0 <= i < |vs| => Vertex(vs[i].x, vs[i].y))
  }

  /** A face annotation as a face result; the source is left for the merge to fill in. */
  function ConvertFace(f: FaceAnnotation): FaceResult
  {
    FaceResult(Some(BoundingPoly(ConvertVertices(f.vertices))), f.detectionConfidence,
               f.joy, f.sorrow, f.anger, f.surprise, f.underExposed, f.blurred, f.headwear, "")
  }

  function ConvertFaces(fs: seq<FaceAnnotation>): seq<FaceResult>
  {
    seq(|fs|, i requires 0 <= i < |fs| => ConvertFace(fs[i]))
  }

  /** The faces of the first `n` responses, appended under their items. */
  function FacesOf(rs: seq<ImageResponse>, items: seq<string>, n: nat): map<string, seq<FaceResult>>
    requires n <= |rs| && n <= |items|
  {
    if n == 0 then map[]
    else
      var m := FacesOf(rs, items, n - 1);
      if |rs[n - 1].faces| == 0 then m
      else m[items[n - 1] := Lookup(m, items[n - 1], []) + ConvertFaces(rs[n - 1].faces)]
  }

  /** An item has a face entry exactly when one of its responses found a face. */
  lemma {:induction false} FacesKeys(rs: seq<ImageResponse>, items: seq<string>, n: nat, k: string)
    requires n <= |rs| && n <= |items|
    ensures k in FacesOf(rs, items, n) <==> exists i :: 0 <= i < n && items[i] == k && |rs[i].faces| > 0
  {
    if n > 0 {
      FacesKeys(rs, items, n - 1, k);
    }
  }

  /** Responses for other items leave an item's faces alone. */
  lemma {:induction false} FacesOtherItems(rs: seq<ImageResponse>, items: seq<string>, n: nat, i: nat)
    requires 0 < i <= n <= |rs| && n <= |items|
    requires forall j :: i <= j < n ==> items[j] != items[i - 1]
    ensures Lookup(FacesOf(rs, items, n), items[i - 1], []) == Lookup(FacesOf(rs, items, i), items[i - 1], [])
  {
    if n > i {
      FacesOtherItems(rs, items, n - 1, i);
    }
  }

  /** When no other response describes item i, its faces are response i's faces, in order. */
  lemma FacesOfItem(rs: seq<ImageResponse>, items: seq<string>, n: nat, i: nat)
    requires i < n <= |rs| && n <= |items|
    requires forall j :: 0 <= j < n && j != i ==> items[j] != items[i]
    ensures Lookup(FacesOf(rs, items, n), items[i], []) == ConvertFaces(rs[i].faces)
  {
    FacesOtherItems(rs, items, n, i + 1);
    FacesKeys(rs, items, i, items[i]);
  }

  /** The number of faces recorded for `k` is the number its responses found. */
  function FaceCount(rs: seq<ImageResponse>, items: seq<string>, k: string, n: nat): nat
    requires n <= |rs| && n <= |items|
  {
    if n == 0 then 0
    else FaceCount(rs, items, k, n - 1) + (if items[n - 1] == k then |rs[n - 1].faces| else 0)
  }

  lemma {:induction false} FacesCounted(rs: seq<ImageResponse>, items: seq<string>, k: string, n: nat)
    requires n <= |rs| && n <= |items|
    ensures |Lookup(FacesOf(rs, items, n), k, [])| == FaceCount(rs, items, k, n)
  {
    if n > 0 {
      FacesCounted(rs, items, k, n - 1);
    }
  }

  /** The provider's state: whether it is configured, its credentials and its caches. */
  class Plugin {
    var configured: bool
    var creds: string
    var responses: map<string, Option<seq<ImageResponse>>>
    var items: map<string, seq<string>>

    /** Every cached batch has an item list with an item for each response. */
    ghost predicate Valid()
      reads this
    {
      forall id :: id in responses && responses[id].Some? ==> id in items && |responses[id].value| <= |items[id]|
    }

    constructor ()
      ensures Valid()
      ensures !configured && creds == "" && responses == map[] && items == map[]
    {
      configured := false;
      creds := "";
      responses := map[];
      items := map[];
    }

    /** A batch is cached for `requestId`. */
    predicate Answered(requestId: string)
      reads this
    {
      requestId in responses && responses[requestId].Some?
    }

    /**
     * Set-up with the credentials found in the environment: none leaves the plugin
     * unconfigured with its caches as they were; otherwise the caches start empty.
     */
    method Setup(env: string) returns (err: Option<string>)
      modifies this
      ensures env == "" ==> err == Some(NoCredentials) && !configured && creds == old(creds) &&
                            responses == old(responses) && items == old(items)
      ensures env != "" ==> err.None? && configured && creds == env && responses == map[] && items == map[]
      ensures old(Valid()) ==> Valid()
    {
      if env == "" {
        configured := false;
        return Some(NoCredentials);
      }
      responses := map[];
      items := map[];
      creds := env;
      configured := true;
      err := None;
    }

    /**
     * One batch request under the fresh id `requestId`. The guards fail first and
     * change nothing; once the batch is built the item list (URLs then files) is
     * cached, and so is the answer, a failed call leaving no batch behind.
     */
    method Perform(c: PluginConfig, requestId: string, call: VisionCall) returns (r: Outcome<string>)
      requires Valid()
      requires call.annotate.Ok? ==> |call.annotate.value| <= |c.urls + c.files|
      modifies this`responses, this`items
      ensures Valid()
      ensures !old(configured) ==> r == Err(NotConfigured) && unchanged(this)
      ensures old(configured) && |c.urls| == 0 && |c.files| == 0 ==> r == Err(NoInput) && unchanged(this)
      ensures old(configured) && (|c.urls| > 0 || |c.files| > 0) ==>
        if call.clientError.Some? then r == Err(call.clientError.value) && unchanged(this)
        else if call.batchError.Some? then r == Err(call.batchError.value) && unchanged(this)
        else
          && items == old(items)[requestId := c.urls + c.files]
          && responses == old(responses)[requestId := if call.annotate.Ok? then Some(call.annotate.value) else None]
          && r == (if call.annotate.Ok? then Ok(requestId) else Err(call.annotate.error))
    {
      if !configured {
        return Err(NotConfigured);
      }
      if |c.urls| == 0 && |c.files| == 0 {
        return Err(NoInput);
      }
      if call.clientError.Some? {
        return Err(call.clientError.value);
      }
      var batchItems := c.urls + c.files;
      if call.batchError.Some? {
        return Err(call.batchError.value);
      }
      items := items[requestId := batchItems];
      if call.annotate.Err? {
        responses := responses[requestId := None];
        return Err(call.annotate.error);
      }
      responses := responses[requestId := Some(call.annotate.value)];
      r := Ok(requestId);
    }

    /**
     * The tags of a cached batch: one entry per response, under its item, holding the
     * labels scoring strictly above `score`; without a cached batch, an error.
     */
    method Tags(requestId: string, score: real) returns (tags: ItemTags, err: Option<string>)
      requires Valid()
      ensures !Answered(requestId) ==> tags == map[] && err == Some(NoRequest)
      ensures Answered(requestId) ==>
        err.None? && tags == Written(LabelEntries(responses[requestId].value, items[requestId], score))
    {
      tags := map[];
      if requestId !in responses || responses[requestId].None? {
        return tags, Some(NoRequest);
      }
      var rs := responses[requestId].value;
      var its := items[requestId];
      ghost var entries := LabelEntries(rs, its, score);
      var i := 0;
      while i < |rs|
        invariant 0 <= i <= |rs|
        invariant tags == Written(entries[..i])
      {
        var kept := KeepScored(Descriptions(rs[i].labels), Scores(rs[i].labels), score);
        WrittenSnoc(entries[..i], entries[i]);
        assert entries[..i + 1] == entries[..i] + [entries[i]];
        tags := tags[its[i] := kept];
        i := i + 1;
      }
      assert entries[..i] == entries;
      err := None;
    }

    /** A bounding polygon's vertices, copied one by one. */
    static method CopyVertices(vs: seq<VisionVertex>) returns (out: seq<Vertex>)
      ensures |out| == |vs|
      ensures forall i :: 0 <= i < |vs| ==> out[i].x == vs[i].x && out[i].y == vs[i].y
    {
      out := [];
      var i := 0;
      while i < |vs|
        invariant 0 <= i <= |vs|
        invariant |out| == i
        invariant forall j :: 0 <= j < i ==> out[j].x == vs[j].x && out[j].y == vs[j].y
      {
        out := out + [Vertex(vs[i].x, vs[i].y)];
        i := i + 1;
      }
    }

    /**
     * The faces of a cached batch, appended in response order under their items; an
     * item without faces gets no entry. Without a cached batch, an error.
     */
    method Faces(requestId: string) returns (faces: map<string, seq<FaceResult>>, err: Option<string>)
      requires Valid()
      ensures !Answered(requestId) ==> faces == map[] && err == Some(NoRequest)
      ensures Answered(requestId) ==>
        err.None? && faces == FacesOf(responses[requestId].value, items[requestId], |responses[requestId].value|)
    {
      faces := map[];
      if requestId !in responses || responses[requestId].None? {
        return faces, Some(NoRequest);
      }
      var rs := responses[requestId].value;
      var its := items[requestId];
      var i := 0;
      while i < |rs|
        invariant 0 <= i <= |rs|
        invariant faces == FacesOf(rs, its, i)
      {
        var fs := rs[i].faces;
        var j := 0;
        ghost var before := faces;
        while j < |fs|
          invariant 0 <= j <= |fs|
          invariant faces == if j == 0 then before else before[its[i] := Lookup(before, its[i], []) + ConvertFaces(fs[..j])]
        {
          var vertices := CopyVertices(fs[j].vertices);
          assert vertices == ConvertVertices(fs[j].vertices);
          var face := FaceResult(Some(BoundingPoly(vertices)), fs[j].detectionConfidence,
                                 fs[j].joy, fs[j].sorrow, fs[j].anger, fs[j].surprise,
                                 fs[j].underExposed, fs[j].blurred, fs[j].headwear, "");
          assert face == ConvertFace(fs[j]);
          assert ConvertFaces(fs[..j + 1]) == ConvertFaces(fs[..j]) + [face];
          assert ConvertFaces(fs[..0]) == [];
          assert Lookup(faces, its[i], []) == Lookup(before, its[i], []) + ConvertFaces(fs[..j]);
          assert Lookup(faces, its[i], []) + [face] == Lookup(before, its[i], []) + ConvertFaces(fs[..j + 1]);
          ghost var prev := faces;
          faces := faces[its[i] := Lookup(faces, its[i], []) + [face]];
          assert prev == before || prev == before[its[i] := Lookup(before, its[i], []) + ConvertFaces(fs[..j])];
          assert faces == before[its[i] := Lookup(before, its[i], []) + ConvertFaces(fs[..j + 1])];
          j := j + 1;
        }
        assert fs[..j] == fs;
        i := i + 1;
      }
      err := None;
    }

    /** Forgets every cached batch. */
    method Reset()
      modifies this`responses, this`items
      ensures responses == map[] && items == map[]
      ensures Valid()
      ensures forall id :: !Answered(id)
    {
      responses := map[];
      items := map[];
    }

    /** The cached request ids, each once, in map order; an error when not configured. */
    method RequestIDs() returns (ids: seq<string>, err: Option<string>)
      ensures !configured ==> ids == [] && err == Some(NotConfigured)
      ensures configured ==> err.None? && forall k :: multiset(ids)[k] == if k in responses then 1 else 0
    {
      if !configured {
        return [], Some(NotConfigured);
      }
      ids := [];
      var pending := responses.Keys;
      while pending != {}
        invariant pending <= responses.Keys
        invariant forall k :: multiset(ids)[k] == if k in responses && k !in pending then 1 else 0
        decreases pending
      {
        var k :| k in pending;
        ids := ids + [k];
        pending := pending - {k};
      }
      err := None;
    }
  }
}
