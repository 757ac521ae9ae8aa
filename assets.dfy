/**
 * Per-item results and the cross-provider merge (visagoapi/result.go).
 */
module Assets {
  import opened Wrappers
  import opened Plugins

  /** Everything reported for one item; `source` names the provider (empty on a merged asset). */
  datatype Asset = Asset(
    name: string,
    tags: map<string, seq<TagResult>>,
    colors: map<string, seq<ColorResult>>,
    faces: seq<FaceResult>,
    source: string)

  /** What the caller gets back for one provider, or for all of them. */
  datatype Result = Result(assets: seq<Asset>, errors: seq<string>)

  /** The merge's fresh copy of a tag: name and score copied, provider stamped. */
  function StampTag(t: TagResult, src: string): (r: TagResult)
    ensures r == t.(source := src)
  {
    TagResult(t.name, t.score, src)
  }

  /** The merge's fresh copy of a colour: all seven attributes copied, provider stamped. */
  function StampColor(c: ColorResult, src: string): (r: ColorResult)
    ensures r == c.(source := src)
  {
    ColorResult(c.hex, c.score, c.pixelFraction, c.red, c.green, c.blue, c.alpha, src)
  }

  /** The merge's fresh copy of a face: every field copied, provider stamped. */
  function StampFace(f: FaceResult, src: string): (r: FaceResult)
    ensures r == f.(source := src)
  {
    FaceResult(f.boundingPoly, f.detectionScore, f.joyLikelihood, f.sorrowLikelihood,
               f.angerLikelihood, f.surpriseLikelihood, f.underExposedLikelihood,
               f.blurredLikelihood, f.headwearLikelihood, src)
  }

  function TagsOf(a: Asset): map<string, seq<TagResult>> { a.tags }

  function ColorsOf(a: Asset): map<string, seq<ColorResult>> { a.colors }

  function Stamped<T>(l: seq<T>, src: string, stamp: (T, string) -> T): seq<T>
  {
    seq(|l|, i requires 0 <= i < |l| => stamp(l[i], src))
  }

  function Names(assets: seq<Asset>): seq<string>
  {
    seq(|assets|, i requires 0 <= i < |assets| => assets[i].name)
  }

  function InputNames(assets: seq<Asset>): set<string>
  {
    set a | a in assets :: a.name
  }

  /** The inputs carrying `name`, in input order. */
  function Group(assets: seq<Asset>, name: string): seq<Asset>
  {
    if assets == [] then []
    else
      var last := assets[|assets| - 1];
      Group(assets[..|assets| - 1], name) + (if last.name == name then [last] else [])
  }

  /**
   * What a merged asset lists under key `k`: each input's list for `k`, in input order,
   * every entry stamped with that input's provider.
   */
  function Column<T>(group: seq<Asset>, k: string, field: Asset -> map<string, seq<T>>,
                     stamp: (T, string) -> T): seq<T>
  {
    if group == [] then []
    else
      var last := group[|group| - 1];
      Column(group[..|group| - 1], k, field, stamp) + Stamped(Lookup(field(last), k, []), last.source, stamp)
  }

  /** The faces of all inputs, in input order, each stamped with its provider. */
  function FaceColumn(group: seq<Asset>): seq<FaceResult>
  {
    if group == [] then []
    else
      var last := group[|group| - 1];
      FaceColumn(group[..|group| - 1]) + Stamped(last.faces, last.source, StampFace)
  }

  /** The number of entries the inputs list under key `k`. */
  function EntryCount<T>(group: seq<Asset>, k: string, field: Asset -> map<string, seq<T>>): nat
  {
    if group == [] then 0
    else EntryCount(group[..|group| - 1], k, field) + |Lookup(field(group[|group| - 1]), k, [])|
  }

  function FaceCount(group: seq<Asset>): nat
  {
    if group == [] then 0 else FaceCount(group[..|group| - 1]) + |group[|group| - 1].faces|
  }

  /** `merged` holds, under each key, exactly the key's column, and no empty list. */
  ghost predicate Concatenates<T>(merged: map<string, seq<T>>, group: seq<Asset>,
                                  field: Asset -> map<string, seq<T>>, stamp: (T, string) -> T)
  {
    forall k :: (k in merged ==> merged[k] != []) && Lookup(merged, k, []) == Column(group, k, field, stamp)
  }

  /** `m` is the merge of `group`: tags by key, colours by hex, faces concatenated, all stamped. */
  ghost predicate IsMerge(m: Asset, group: seq<Asset>)
  {
    && m.source == ""
    && Concatenates(m.tags, group, TagsOf, StampTag)
    && Concatenates(m.colors, group, ColorsOf, StampColor)
    && m.faces == FaceColumn(group)
  }

  /**
   * `merged` is a merge of `assets`: one merged asset per distinct input name and no
   * other, each the merge of the inputs with its name. The order is left open.
   */
  ghost predicate IsMergeResult(assets: seq<Asset>, merged: seq<Asset>)
  {
    && (forall n :: multiset(Names(merged))[n] == if n in InputNames(assets) then 1 else 0)
    && (forall m :: m in merged ==> IsMerge(m, Group(assets, m.name)))
  }

  /** Appends the entries of `list`, stamped with `src`, one by one to the list under `key`. */
  method AppendList<T>(acc: map<string, seq<T>>, key: string, list: seq<T>, src: string,
                       stamp: (T, string) -> T)
    returns (r: map<string, seq<T>>)
    ensures Lookup(r, key, []) == Lookup(acc, key, []) + Stamped(list, src, stamp)
    ensures key in r <==> key in acc || list != []
    ensures forall k :: k != key ==> Lookup(r, k, []) == Lookup(acc, k, []) && (k in r <==> k in acc)
  {
    r := acc;
    var j := 0;
    while j < |list|
      invariant 0 <= j <= |list|
      invariant forall k :: k != key ==> Lookup(r, k, []) == Lookup(acc, k, []) && (k in r <==> k in acc)
      invariant Lookup(r, key, []) == Lookup(acc, key, []) + Stamped(list[..j], src, stamp)
      invariant key in r <==> key in acc || j > 0
    {
      assert Stamped(list[..j + 1], src, stamp) == Stamped(list[..j], src, stamp) + [stamp(list[j], src)];
      r := r[key := Lookup(r, key, []) + [stamp(list[j], src)]];
      j := j + 1;
    }
    assert list[..j] == list;
  }

  /** Appends `add`'s lists, stamped with `src`, to the lists of `acc`, key by key. */
  method AppendStamped<T>(acc: map<string, seq<T>>, add: map<string, seq<T>>, src: string,
                          stamp: (T, string) -> T)
    returns (r: map<string, seq<T>>)
    ensures forall k :: Lookup(r, k, []) == Lookup(acc, k, []) + Stamped(Lookup(add, k, []), src, stamp)
    ensures forall k :: k in r <==> k in acc || Lookup(add, k, []) != []
  {
    r := acc;
    var pending := add.Keys;
    while pending != {}
      invariant pending <= add.Keys
      invariant forall k :: Lookup(r, k, []) ==
                  Lookup(acc, k, []) + (if k in pending then [] else Stamped(Lookup(add, k, []), src, stamp))
      invariant forall k :: k in r <==> k in acc || (k !in pending && Lookup(add, k, []) != [])
      decreases pending
    {
      var key :| key in pending;
      pending := pending - {key};
      r := AppendList(r, key, add[key], src, stamp);
    }
  }

  /** Appending one more input's stamped lists to a merge of `group` gives a merge of `group + [a]`. */
  lemma ConcatenatesStep<T>(acc: map<string, seq<T>>, r: map<string, seq<T>>, group: seq<Asset>, a: Asset,
                            field: Asset -> map<string, seq<T>>, stamp: (T, string) -> T)
    requires Concatenates(acc, group, field, stamp)
    requires forall k :: Lookup(r, k, []) == Lookup(acc, k, []) + Stamped(Lookup(field(a), k, []), a.source, stamp)
    requires forall k :: k in r <==> k in acc || Lookup(field(a), k, []) != []
    ensures Concatenates(r, group + [a], field, stamp)
  {
    var g := group + [a];
    assert g[..|g| - 1] == group && g[|g| - 1] == a;
    forall k ensures (k in r ==> r[k] != []) && Lookup(r, k, []) == Column(g, k, field, stamp) {
      assert |Stamped(Lookup(field(a), k, []), a.source, stamp)| == |Lookup(field(a), k, [])|;
    }
  }

  /** Appends the faces of `list`, stamped with `src`, one by one. */
  method AppendFaces(faces: seq<FaceResult>, list: seq<FaceResult>, src: string) returns (r: seq<FaceResult>)
    ensures r == faces + Stamped(list, src, StampFace)
  {
    r := faces;
    var j := 0;
    while j < |list|
      invariant 0 <= j <= |list|
      invariant r == faces + Stamped(list[..j], src, StampFace)
    {
      assert Stamped(list[..j + 1], src, StampFace) == Stamped(list[..j], src, StampFace) + [StampFace(list[j], src)];
      r := r + [StampFace(list[j], src)];
      j := j + 1;
    }
    assert list[..j] == list;
  }

  /** Builds the merged asset for one name from its inputs, in input order. */
  method MergeGroup(name: string, group: seq<Asset>) returns (m: Asset)
    ensures m.name == name && IsMerge(m, group)
  {
    var tags: map<string, seq<TagResult>> := map[];
    var colors: map<string, seq<ColorResult>> := map[];
    var faces: seq<FaceResult> := [];
    var i := 0;
    while i < |group|
      invariant 0 <= i <= |group|
      invariant Concatenates(tags, group[..i], TagsOf, StampTag)
      invariant Concatenates(colors, group[..i], ColorsOf, StampColor)
      invariant faces == FaceColumn(group[..i])
    {
      var a := group[i];
      assert group[..i + 1] == group[..i] + [a];
      var tags0, colors0 := tags, colors;
      tags := AppendStamped(tags, a.tags, a.source, StampTag);
      ConcatenatesStep(tags0, tags, group[..i], a, TagsOf, StampTag);
      colors := AppendStamped(colors, a.colors, a.source, StampColor);
      ConcatenatesStep(colors0, colors, group[..i], a, ColorsOf, StampColor);
      faces := AppendFaces(faces, a.faces, a.source);
      assert FaceColumn(group[..i + 1]) == FaceColumn(group[..i]) + Stamped(a.faces, a.source, StampFace);
      i := i + 1;
    }
    assert group[..i] == group;
    m := Asset(name, tags, colors, faces, "");
  }

  /** Adding an input extends its name's group and no other. */
  lemma GroupSnoc(assets: seq<Asset>, a: Asset, n: string)
    ensures Group(assets + [a], n) == Group(assets, n) + (if a.name == n then [a] else [])
  {
    assert (assets + [a])[..|assets|] == assets;
  }

  /** The inputs grouped by name, each group in input order (result.go's first loop). */
  method GroupByName(assets: seq<Asset>) returns (assetMap: map<string, seq<Asset>>)
    ensures assetMap.Keys == InputNames(assets)
    ensures forall n :: Lookup(assetMap, n, []) == Group(assets, n)
  {
    assetMap := map[];
    var i := 0;
    while i < |assets|
      invariant 0 <= i <= |assets|
      invariant assetMap.Keys == InputNames(assets[..i])
      invariant forall n :: Lookup(assetMap, n, []) == Group(assets[..i], n)
    {
      var a := assets[i];
      assert assets[..i + 1] == assets[..i] + [a];
      assert InputNames(assets[..i + 1]) == InputNames(assets[..i]) + {a.name};
      forall n ensures Group(assets[..i + 1], n) == Group(assets[..i], n) + (if a.name == n then [a] else []) {
        GroupSnoc(assets[..i], a, n);
      }
      if a.name !in assetMap {
        assetMap := assetMap[a.name := []];
      }
      assetMap := assetMap[a.name := assetMap[a.name] + [a]];
      i := i + 1;
    }
    assert assets[..i] == assets;
  }

  /**
   * Groups the assets by name and merges each group. The groups are visited in
   * Go's map iteration order, so the order of the result is left open.
   */
  method MergeAssets(assets: seq<Asset>) returns (merged: seq<Asset>)
    ensures IsMergeResult(assets, merged)
  {
    var assetMap := GroupByName(assets);
    merged := [];
    var pending := assetMap.Keys;
    while pending != {}
      invariant pending <= assetMap.Keys
      invariant forall n :: multiset(Names(merged))[n] == if n in assetMap && n !in pending then 1 else 0
      invariant forall m :: m in merged ==> IsMerge(m, Group(assets, m.name))
      decreases pending
    {
      var key :| key in pending;
      pending := pending - {key};
      var m := MergeGroup(key, assetMap[key]);
      assert Names(merged + [m]) == Names(merged) + [key];
      merged := merged + [m];
    }
  }

  /** Every member of a name's group is an input with that name. */
  lemma {:induction false} GroupMembers(assets: seq<Asset>, name: string)
    ensures forall a :: a in Group(assets, name) ==> a in assets && a.name == name
  {
    if assets != [] {
      GroupMembers(assets[..|assets| - 1], name);
    }
  }

  /** Count preservation: a merged column holds as many entries as its inputs list under that key. */
  lemma {:induction false} ColumnCount<T>(group: seq<Asset>, k: string, field: Asset -> map<string, seq<T>>,
                                          stamp: (T, string) -> T)
    ensures |Column(group, k, field, stamp)| == EntryCount(group, k, field)
  {
    if group != [] {
      ColumnCount(group[..|group| - 1], k, field, stamp);
    }
  }

  /** Count preservation for faces. */
  lemma {:induction false} FaceColumnCount(group: seq<Asset>)
    ensures |FaceColumn(group)| == FaceCount(group)
  {
    if group != [] {
      FaceColumnCount(group[..|group| - 1]);
    }
  }

  /**
   * Provenance: every merged entry is the stamped copy of an entry some input listed
   * under the same key, stamped with that input's provider.
   */
  lemma {:induction false} ColumnProvenance<T>(group: seq<Asset>, k: string, field: Asset -> map<string, seq<T>>,
                                               stamp: (T, string) -> T, i: nat)
    requires i < |Column(group, k, field, stamp)|
    ensures exists j, p :: 0 <= j < |group| && 0 <= p < |Lookup(field(group[j]), k, [])| &&
              Column(group, k, field, stamp)[i] == stamp(Lookup(field(group[j]), k, [])[p], group[j].source)
  {
    var prefix := group[..|group| - 1];
    var last := group[|group| - 1];
    var head := Column(prefix, k, field, stamp);
    if i < |head| {
      ColumnProvenance(prefix, k, field, stamp, i);
      var j, p :| 0 <= j < |prefix| && 0 <= p < |Lookup(field(prefix[j]), k, [])| &&
                  head[i] == stamp(Lookup(field(prefix[j]), k, [])[p], prefix[j].source);
      assert prefix[j] == group[j];
    } else {
      var p := i - |head|;
      assert Column(group, k, field, stamp)[i] == stamp(Lookup(field(last), k, [])[p], last.source);
    }
  }

  /** Provenance of a merged tag: its name and score come from an input's tag, its source is that input's provider. */
  lemma MergedTagProvenance(group: seq<Asset>, k: string, i: nat)
    requires i < |Column(group, k, TagsOf, StampTag)|
    ensures exists j, p :: 0 <= j < |group| && 0 <= p < |Lookup(group[j].tags, k, [])| &&
              var t := Lookup(group[j].tags, k, [])[p];
              Column(group, k, TagsOf, StampTag)[i] == TagResult(t.name, t.score, group[j].source)
  {
    ColumnProvenance(group, k, TagsOf, StampTag, i);
  }
}
