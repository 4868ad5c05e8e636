/**
 * The shard label and the attribute map of a report.  A shard selection is an
 * ordered list of tag names; the label is `name:value` for each selected name,
 * in list order, joined by commas.  The attribute map holds every tag of the
 * identity plus `metric_type`, whatever the shard selection.
 */
module ShardCodec {
  import opened MetricIds

  /** The selection a registry uses when the caller gives none. */
  const DefaultShard: seq<string> := ["what"]

  const MetricTypeAttribute: string := "metric_type"

  /** Every selected name is a tag of the identity. */
  predicate ShardNamesPresent(id: MetricId, shard: seq<string>)
  {
    forall i :: 0 <= i < |shard| ==> shard[i] in id.tags
  }

  /** The `name:value` segment of each selected tag, in selection order. */
  function Segments(id: MetricId, shard: seq<string>): (segs: seq<string>)
    requires ShardNamesPresent(id, shard)
    ensures |segs| == |shard|
  {
    seq(|shard|, i requires 0 <= i < |shard| => Segment(id, shard[i]))
  }

  /** The segments separated by `sep`, with no separator before the first or after the last. */
  function Join(segs: seq<string>, sep: char): string
  {
    if |segs| == 0 then ""
    else if |segs| == 1 then segs[0]
    else segs[0] + [sep] + Join(segs[1..], sep)
  }

  /** The name of one selected tag and its value, separated by a colon. */
  function Segment(id: MetricId, name: string): string
    requires name in id.tags
  {
    name + ":" + id.tags[name]
  }

  function ShardLabel(id: MetricId, shard: seq<string>): (r: string)
    requires ShardNamesPresent(id, shard)
    ensures r == "" <==> shard == []
    ensures |shard| == 1 ==> r == Segment(id, shard[0])
  {
    var segs := Segments(id, shard);
    assert |shard| > 0 ==> Join(segs, ',') != "" by {
      if |shard| > 0 {
        assert segs[0] == Segment(id, shard[0]);
        JoinNonEmpty(segs, ',');
      }
    }
    Join(segs, ',')
  }

  /**
   * With no shard list, the label is the `what` tag alone, whatever other
   * tags the identity carries.
   */
  lemma DefaultShardLabel(id: MetricId)
    requires "what" in id.tags
    ensures ShardLabel(id, DefaultShard) == "what:" + id.tags["what"]
  {
  }

  /** Cuts a string at every `sep`; there is always at least one piece. */
  function Split(s: string, sep: char): (pieces: seq<string>)
    ensures |pieces| >= 1
    decreases |s|
  {
    if |s| == 0 then [""]
    else
      var rest := Split(s[1..], sep);
      if s[0] == sep then [""] + rest else [[s[0]] + rest[0]] + rest[1..]
  }

  /** Cuts a string at its first `sep` into the part before and the part after. */
  function SplitFirst(s: string, sep: char): (string, string)
    decreases |s|
  {
    if |s| == 0 then ("", "")
    else if s[0] == sep then ("", s[1..])
    else
      var (before, after) := SplitFirst(s[1..], sep);
      ([s[0]] + before, after)
  }

  /** Reads a shard label back into its (name, value) pairs. */
  function ParseShardLabel(shardKey: string): seq<(string, string)>
  {
    if shardKey == "" then []
    else
      var pieces := Split(shardKey, ',');
      seq(|pieces|, i requires 0 <= i < |pieces| => SplitFirst(pieces[i], ':'))
  }

  /** The (name, value) pairs a shard selection picks out of an identity. */
  function SelectedTags(id: MetricId, shard: seq<string>): (pairs: seq<(string, string)>)
    requires ShardNamesPresent(id, shard)
    ensures |pairs| == |shard|
  {
    seq(|shard|, i requires 0 <= i < |shard| => (shard[i], id.tags[shard[i]]))
  }

  /** No selected name holds `,` or `:` and no selected value holds `,`. */
  predicate NoSeparators(id: MetricId, shard: seq<string>)
    requires ShardNamesPresent(id, shard)
  {
    forall i :: 0 <= i < |shard| ==>
      ',' !in shard[i] && ':' !in shard[i] && ',' !in id.tags[shard[i]]
  }

  lemma {:induction false} SplitNoSeparator(s: string, sep: char)
    requires sep !in s
    ensures Split(s, sep) == [s]
    decreases |s|
  {
    if |s| > 0 {
      SplitNoSeparator(s[1..], sep);
      assert [s[0]] + s[1..] == s;
    }
  }

  lemma {:induction false} SplitAfterSeparator(a: string, sep: char, b: string)
    requires sep !in a
    ensures Split(a + [sep] + b, sep) == [a] + Split(b, sep)
    decreases |a|
  {
    var s := a + [sep] + b;
    if |a| == 0 {
      assert s[0] == sep && s[1..] == b;
    } else {
      assert s[0] == a[0] && s[1..] == a[1..] + [sep] + b;
      SplitAfterSeparator(a[1..], sep, b);
      assert [a[0]] + a[1..] == a;
    }
  }

  /** Splitting a joined list gives the list back, when no segment holds the separator. */
  lemma {:induction false} SplitJoin(segs: seq<string>, sep: char)
    requires |segs| >= 1
    requires forall i :: 0 <= i < |segs| ==> sep !in segs[i]
    ensures Split(Join(segs, sep), sep) == segs
    decreases |segs|
  {
    if |segs| == 1 {
      SplitNoSeparator(segs[0], sep);
    } else {
      SplitJoin(segs[1..], sep);
      SplitAfterSeparator(segs[0], sep, Join(segs[1..], sep));
      assert [segs[0]] + segs[1..] == segs;
    }
  }

  lemma {:induction false} SplitFirstAt(before: string, sep: char, after: string)
    requires sep !in before
    ensures SplitFirst(before + [sep] + after, sep) == (before, after)
    decreases |before|
  {
    var s := before + [sep] + after;
    if |before| == 0 {
      assert s[0] == sep && s[1..] == after;
    } else {
      assert s[0] == before[0] && s[1..] == before[1..] + [sep] + after;
      SplitFirstAt(before[1..], sep, after);
      assert [before[0]] + before[1..] == before;
    }
  }

  /**
   * When no selected name holds `,` or `:` and no selected value holds `,`,
   * the label can be read back: parsing it yields exactly the selected
   * (name, value) pairs, in selection order, one per selected name.
   */
  lemma ParseShardLabelRoundTrip(id: MetricId, shard: seq<string>)
    requires ShardNamesPresent(id, shard)
    requires NoSeparators(id, shard)
    ensures ParseShardLabel(ShardLabel(id, shard)) == SelectedTags(id, shard)
  {
    var segs := Segments(id, shard);
    if |shard| > 0 {
      forall i | 0 <= i < |segs| ensures ',' !in segs[i] {
        assert segs[i] == shard[i] + [':'] + id.tags[shard[i]];
      }
      SplitJoin(segs, ',');
      var shardKey := ShardLabel(id, shard);
      assert shardKey != "" by {
        JoinNonEmpty(segs, ',');
      }
      forall i | 0 <= i < |shard|
        ensures SplitFirst(segs[i], ':') == (shard[i], id.tags[shard[i]])
      {
        SplitFirstAt(shard[i], ':', id.tags[shard[i]]);
      }
    }
  }

  lemma {:induction false} JoinNonEmpty(segs: seq<string>, sep: char)
    requires |segs| >= 1 && segs[0] != ""
    ensures Join(segs, sep) != ""
  {
    if |segs| > 1 {
      assert |Join(segs, sep)| >= |segs[0]|;
    }
  }

  /**
   * The label depends only on the selected tags: two identities that agree on
   * them have the same label, whatever other tags they carry.
   */
  lemma ShardLabelOnlySelected(id: MetricId, id': MetricId, shard: seq<string>)
    requires ShardNamesPresent(id, shard) && ShardNamesPresent(id', shard)
    requires forall i :: 0 <= i < |shard| ==> id.tags[shard[i]] == id'.tags[shard[i]]
    ensures ShardLabel(id, shard) == ShardLabel(id', shard)
  {
    assert Segments(id, shard) == Segments(id', shard);
  }

  /**
   * The reported attributes: every tag of the identity, plus `metric_type`
   * set to `metricType` (which takes precedence over a tag of that name).
   */
  function Attributes(id: MetricId, metricType: string): (attrs: map<string, string>)
    ensures attrs.Keys == id.tags.Keys + {MetricTypeAttribute}
    ensures attrs[MetricTypeAttribute] == metricType
    ensures forall name :: name in id.tags && name != MetricTypeAttribute ==> attrs[name] == id.tags[name]
  {
    id.tags[MetricTypeAttribute := metricType]
  }
}
