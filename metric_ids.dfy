/**
 * `MetricId`: the identity of a metric, a key plus a map from tag name to tag
 * value.  Identities are immutable values; equality is equality of the key and
 * of the tag map, so the order in which tags were attached does not matter.
 */
module MetricIds {
  import opened Options

  datatype MetricId = MetricId(key: string, tags: map<string, string>)

  /** `MetricId.build(key)`: an identity with no tags. */
  function Build(key: string): (id: MetricId)
    ensures id.key == key && |id.tags| == 0
  {
    MetricId(key, map[])
  }

  /**
   * `id.tagged(n1, v1, n2, v2, ...)`: a new identity with the (name, value)
   * pairs attached left to right; a later pair overrides an earlier one with
   * the same name.  The receiver is a value and is left as it was.
   */
  function Tagged(id: MetricId, pairs: seq<string>): (r: MetricId)
    requires |pairs| % 2 == 0
    ensures r.key == id.key
    ensures id.tags.Keys <= r.tags.Keys
    ensures forall i :: 0 <= i < |pairs| && i % 2 == 0 ==> pairs[i] in r.tags
    ensures pairs != [] ==> r.tags[pairs[|pairs| - 2]] == pairs[|pairs| - 1]
    decreases |pairs|
  {
    if pairs == [] then id
    else Tagged(MetricId(id.key, id.tags[pairs[0] := pairs[1]]), pairs[2..])
  }

  /** The reference reading of a pair list: the value of the last pair naming `name`. */
  function LastValue(pairs: seq<string>, name: string): Option<string>
    requires |pairs| % 2 == 0
    decreases |pairs|
  {
    if pairs == [] then None
    else if pairs[|pairs| - 2] == name then Some(pairs[|pairs| - 1])
    else LastValue(pairs[..|pairs| - 2], name)
  }

  /** Whether a pair list names `name` at all. */
  predicate Names(pairs: seq<string>, name: string)
    requires |pairs| % 2 == 0
  {
    LastValue(pairs, name).Some?
  }

  /** Tagging in two calls is the same as tagging once with all the pairs. */
  lemma {:induction false} TaggedConcat(id: MetricId, p: seq<string>, q: seq<string>)
    requires |p| % 2 == 0 && |q| % 2 == 0
    ensures Tagged(Tagged(id, p), q) == Tagged(id, p + q)
    decreases |p|
  {
    if p != [] {
      var next := MetricId(id.key, id.tags[p[0] := p[1]]);
      assert (p + q)[0] == p[0] && (p + q)[1] == p[1] && (p + q)[2..] == p[2..] + q;
      assert Tagged(id, p + q) == Tagged(next, p[2..] + q);
      assert Tagged(id, p) == Tagged(next, p[2..]);
      TaggedConcat(next, p[2..], q);
    } else {
      assert p + q == q;
    }
  }

  /**
   * What a tagged identity holds: the key is unchanged, and each tag has the
   * value of the last pair naming it, or else the value it had before.
   */
  lemma {:induction false} TaggedLookup(id: MetricId, pairs: seq<string>, name: string)
    requires |pairs| % 2 == 0
    ensures Tagged(id, pairs).key == id.key
    ensures Lookup(Tagged(id, pairs).tags, name)
         == if Names(pairs, name) then LastValue(pairs, name) else Lookup(id.tags, name)
    decreases |pairs|
  {
    if pairs != [] {
      var n := |pairs|;
      var init, last := pairs[..n - 2], pairs[n - 2..];
      assert pairs == init + last;
      TaggedConcat(id, init, last);
      TaggedLookup(id, init, name);
      var mid := Tagged(id, init);
      assert last[2..] == [];
      assert Tagged(mid, last) == MetricId(mid.key, mid.tags[last[0] := last[1]]);
    }
  }

  /**
   * Attaching two groups of tags that name different tags gives equal
   * identities in either order.
   */
  lemma TaggedCommute(id: MetricId, p: seq<string>, q: seq<string>)
    requires |p| % 2 == 0 && |q| % 2 == 0
    requires forall name :: Names(p, name) ==> !Names(q, name)
    ensures Tagged(Tagged(id, p), q) == Tagged(Tagged(id, q), p)
  {
    var a, b := Tagged(Tagged(id, p), q), Tagged(Tagged(id, q), p);
    forall name
      ensures Lookup(a.tags, name) == Lookup(b.tags, name)
    {
      TaggedLookup(Tagged(id, p), q, name);
      TaggedLookup(id, p, name);
      TaggedLookup(Tagged(id, q), p, name);
      TaggedLookup(id, q, name);
    }
    LookupExtensional(a.tags, b.tags);
    TaggedLookup(Tagged(id, p), q, "");
    TaggedLookup(id, p, "");
    TaggedLookup(Tagged(id, q), p, "");
    TaggedLookup(id, q, "");
  }

  lemma LookupExtensional(m: map<string, string>, m': map<string, string>)
    requires forall k :: Lookup(m, k) == Lookup(m', k)
    ensures m == m'
  {
    forall k ensures k in m <==> k in m' {
      assert Lookup(m, k) == Lookup(m', k);
    }
    forall k | k in m ensures m[k] == m'[k] {
      assert Lookup(m, k) == Lookup(m', k);
    }
  }
}
