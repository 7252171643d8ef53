/** The transform registry of a trading algorithm: `add_transform` stores a
    descriptor under a tag, and building a simulator materialises one
    stateful transform per registered tag. */
module Registry {
  import opened Types

  /** `registered_transforms`: tag to descriptor. */
  type Registry = map<string, Descriptor>

  /** The registry after registering `d` under `tag`: the last write wins,
      every other tag keeps its entry and at most one key is added. */
  function Register(m: Registry, tag: string, d: Descriptor): (m': Registry)
    ensures tag in m' && m'[tag] == d
    ensures forall t :: t in m && t != tag ==> t in m' && m'[t] == m[t]
    ensures m'.Keys == m.Keys + {tag}
    ensures |m'| == if tag in m then |m| else |m| + 1
  {
    m[tag := d]
  }

  /** Registering twice under one tag is the same as registering only the second time. */
  lemma RegisterLastWins(m: Registry, tag: string, d1: Descriptor, d2: Descriptor)
    ensures Register(Register(m, tag, d1), tag, d2) == Register(m, tag, d2)
  {
  }

  /** The transform built from `d` (class, positional and keyword arguments)
      and stamped with `tag` as its `namestring`. */
  function Instantiate(tag: string, d: Descriptor): (t: StatefulTransform)
    ensures t.namestring == tag
    ensures Descriptor(t.transformClass, t.args, t.kwargs) == d
  {
    StatefulTransform(d.transformClass, d.args, d.kwargs, tag)
  }

  /** The tags carried by a list of transforms. */
  function Tags(ts: seq<StatefulTransform>): set<string>
  {
    set i | 0 <= i < |ts| :: ts[i].namestring
  }

  lemma TagsAppend(ts: seq<StatefulTransform>, t: StatefulTransform)
    ensures Tags(ts + [t]) == Tags(ts) + {t.namestring}
  {
    var ts' := ts + [t];
    assert forall i :: 0 <= i < |ts| ==> ts'[i] == ts[i];
    assert ts'[|ts|] == t;
  }

  ghost predicate DistinctTags(ts: seq<StatefulTransform>)
  {
    forall i, j :: 0 <= i < j < |ts| ==> ts[i].namestring != ts[j].namestring
  }

  /** `ts` is a materialisation of registry `m`, in some order: one transform
      per key, no tag twice, and each transform built from its own tag's
      descriptor. */
  ghost predicate Materialises(ts: seq<StatefulTransform>, m: Registry)
  {
    && |ts| == |m|
    && DistinctTags(ts)
    && forall i :: 0 <= i < |ts| ==>
         ts[i].namestring in m && ts[i] == Instantiate(ts[i].namestring, m[ts[i].namestring])
  }

  lemma {:induction false} DistinctTagsCard(ts: seq<StatefulTransform>)
    requires DistinctTags(ts)
    ensures |Tags(ts)| == |ts|
  {
    if ts != [] {
      var init, last := ts[..|ts| - 1], ts[|ts| - 1];
      assert DistinctTags(init);
      DistinctTagsCard(init);
      assert Tags(ts) == Tags(init) + {last.namestring};
      assert last.namestring !in Tags(init);
    }
  }

  /** A materialisation covers the registry: its tags are exactly the
      registry's keys, and every key's descriptor is built. */
  lemma MaterialisedCovers(ts: seq<StatefulTransform>, m: Registry)
    requires Materialises(ts, m)
    ensures Tags(ts) == m.Keys
    ensures forall tag :: tag in m ==> exists i :: 0 <= i < |ts| && ts[i] == Instantiate(tag, m[tag])
  {
    DistinctTagsCard(ts);
    var rest := m.Keys - Tags(ts);
    assert m.Keys == Tags(ts) + rest;
    assert Tags(ts) !! rest;
    assert |m.Keys| == |Tags(ts)| + |rest|;
    assert rest == {};
    forall tag | tag in m
      ensures exists i :: 0 <= i < |ts| && ts[i] == Instantiate(tag, m[tag])
    {
      assert tag in Tags(ts);
      var i :| 0 <= i < |ts| && ts[i].namestring == tag;
      assert ts[i] == Instantiate(tag, m[tag]);
    }
  }

  lemma {:induction false} DistinctCount(ts: seq<StatefulTransform>, t: StatefulTransform)
    requires DistinctTags(ts)
    ensures multiset(ts)[t] == if t in ts then 1 else 0
  {
    if ts != [] {
      var init, last := ts[..|ts| - 1], ts[|ts| - 1];
      assert ts == init + [last];
      assert DistinctTags(init);
      DistinctCount(init, t);
    }
  }

  /** `registered_transforms.iteritems()` has no fixed order, but any two
      materialisations of one registry hold the same transforms. */
  lemma MaterialisationsPermute(ts1: seq<StatefulTransform>, ts2: seq<StatefulTransform>, m: Registry)
    requires Materialises(ts1, m) && Materialises(ts2, m)
    ensures multiset(ts1) == multiset(ts2)
  {
    MaterialisedCovers(ts1, m);
    MaterialisedCovers(ts2, m);
    forall t ensures multiset(ts1)[t] == multiset(ts2)[t] {
      DistinctCount(ts1, t);
      DistinctCount(ts2, t);
      if t in ts1 {
        var i :| 0 <= i < |ts1| && ts1[i] == t;
        var j :| 0 <= j < |ts2| && ts2[j] == Instantiate(t.namestring, m[t.namestring]);
      }
      if t in ts2 {
        var j :| 0 <= j < |ts2| && ts2[j] == t;
        var i :| 0 <= i < |ts1| && ts1[i] == Instantiate(t.namestring, m[t.namestring]);
      }
    }
  }

  /** After registering `d1` then `d2` under one tag, a materialisation holds
      exactly one transform with that tag, and it is built from `d2`. */
  lemma OverwriteMaterialisesLast(m: Registry, tag: string, d1: Descriptor, d2: Descriptor, ts: seq<StatefulTransform>)
    requires Materialises(ts, Register(Register(m, tag, d1), tag, d2))
    ensures exists i :: 0 <= i < |ts| && ts[i] == Instantiate(tag, d2)
    ensures forall i, j :: 0 <= i < |ts| && 0 <= j < |ts| && ts[i].namestring == tag && ts[j].namestring == tag ==> i == j
    ensures forall i :: 0 <= i < |ts| && ts[i].namestring == tag ==> ts[i].transformClass == d2.transformClass
  {
    var m' := Register(Register(m, tag, d1), tag, d2);
    MaterialisedCovers(ts, m');
    assert m'[tag] == d2;
  }
}
