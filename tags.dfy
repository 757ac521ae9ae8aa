/**
 * The tag maps both providers build: one entry per item key, each holding the
 * labels kept above the threshold; a later entry for the same key replaces the
 * earlier one.
 */
module TagMaps {
  import opened Plugins

  type ItemTags = map<string, map<string, TagResult>>

  /** One item's kept labels under the key of the item they describe. */
  datatype Entry = Entry(key: string, kept: map<string, TagResult>)

  /** The map written entry by entry, in order. */
  function Written(entries: seq<Entry>): ItemTags
  {
    if |entries| == 0 then map[]
    else
      var e := entries[|entries| - 1];
      Written(entries[..|entries| - 1])[e.key := e.kept]
  }

  lemma WrittenSnoc(entries: seq<Entry>, e: Entry)
    ensures Written(entries + [e]) == Written(entries)[e.key := e.kept]
  {
    assert (entries + [e])[..|entries|] == entries;
  }

  /** Every entry creates its key, even when it keeps nothing, and no other key appears. */
  lemma {:induction false} WrittenKeys(entries: seq<Entry>, k: string)
    ensures k in Written(entries) <==> exists i :: 0 <= i < |entries| && entries[i].key == k
  {
    if |entries| > 0 {
      var n := |entries| - 1;
      WrittenKeys(entries[..n], k);
      if k in Written(entries[..n]) {
        var i :| 0 <= i < n && entries[..n][i].key == k;
        assert entries[i].key == k;
      }
      if exists i :: 0 <= i < |entries| && entries[i].key == k {
        var i :| 0 <= i < |entries| && entries[i].key == k;
        if i < n {
          assert entries[..n][i].key == k;
        }
      }
    }
  }

  /** A key holds what its last entry kept. */
  lemma {:induction false} WrittenLastWins(entries: seq<Entry>, i: nat)
    requires i < |entries|
    requires forall j :: i < j < |entries| ==> entries[j].key != entries[i].key
    ensures entries[i].key in Written(entries)
    ensures Written(entries)[entries[i].key] == entries[i].kept
  {
    var n := |entries| - 1;
    if i < n {
      assert entries[..n][i] == entries[i];
      WrittenLastWins(entries[..n], i);
    }
  }

  /** The labels scoring strictly above `min`, keyed by label name (the inner loop of both extractors). */
  method KeepScored(names: seq<string>, scores: seq<real>, min: real) returns (kept: map<string, TagResult>)
    requires |names| <= |scores|
    ensures kept == Kept(names, scores, min, |names|)
  {
    kept := map[];
    var i := 0;
    while i < |names|
      invariant 0 <= i <= |names|
      invariant kept == Kept(names, scores, min, i)
    {
      if scores[i] > min {
        kept := kept[names[i] := TagResult(names[i], scores[i], "")];
      }
      i := i + 1;
    }
  }
}
