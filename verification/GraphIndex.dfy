/** The patch index: what it holds, and how it follows the patches and the configs. */
module GraphIndex {
  import opened GraphModel
  import opened GraphOperations

  // ----- what the index holds -----

  predicate Names(p: Patch, config: int) {
    config in p.sources || config in p.sinks
  }

  /** The key stands for the config: it is its id or its port's. */
  predicate KeyOf(configs: seq<Config>, config: int, key: int) {
    config in ConfigIds(configs) && (key == config || key == PortOf(configs, config))
  }

  lemma {:induction false} AllPairsHold(configs: seq<Config>, ids: seq<int>, patch: int, key: int, q: int)
    ensures (key, q) in AllPairs(configs, ids, patch) <==> q == patch && exists i | 0 <= i < |ids| ::
        KeyOf(configs, ids[i], key)
  {
    if ids != [] {
      var n := |ids| - 1;
      AllPairsHold(configs, ids[..n], patch, key, q);
      assert (key, q) in PairsOf(configs, ids[n], patch) <==> q == patch && KeyOf(configs, ids[n], key);
      if i :| 0 <= i < |ids| && KeyOf(configs, ids[i], key) {
        assert i < n ==> KeyOf(configs, ids[..n][i], key);
      }
      if i :| 0 <= i < n && KeyOf(configs, ids[..n][i], key) {
        assert KeyOf(configs, ids[i], key);
      }
    }
  }

  lemma RegisteredHold(configs: seq<Config>, p: Patch, key: int, q: int)
    ensures (key, q) in Registered(configs, p) <==> q == p.id && exists config ::
        Names(p, config) && KeyOf(configs, config, key)
  {
    AllPairsHold(configs, p.sources, p.id, key, q);
    AllPairsHold(configs, p.sinks, p.id, key, q);
    if config :| Names(p, config) && KeyOf(configs, config, key) {
      if config in p.sources {
        var i :| 0 <= i < |p.sources| && p.sources[i] == config;
        assert KeyOf(configs, p.sources[i], key);
      } else {
        var i :| 0 <= i < |p.sinks| && p.sinks[i] == config;
        assert KeyOf(configs, p.sinks[i], key);
      }
    }
    if i :| 0 <= i < |p.sources| && KeyOf(configs, p.sources[i], key) {
      assert Names(p, p.sources[i]);
    }
    if i :| 0 <= i < |p.sinks| && KeyOf(configs, p.sinks[i], key) {
      assert Names(p, p.sinks[i]);
    }
  }

  /** Patch `i` puts the entry into the index. */
  predicate Registers(configs: seq<Config>, patches: seq<Patch>, i: nat, key: int, q: int)
    requires i < |patches|
  {
    (key, q) in Registered(configs, patches[i])
  }

  lemma {:induction false} IndexEntry(configs: seq<Config>, patches: seq<Patch>, key: int, q: int) returns (i: nat)
    requires (key, q) in IndexOf(configs, patches)
    ensures i < |patches| && Registers(configs, patches, i, key, q)
    decreases |patches|
  {
    i := |patches| - 1;
    if (key, q) !in Registered(configs, patches[i]) {
      i := IndexEntry(configs, patches[..i], key, q);
    }
  }

  lemma EntryIsIndexed(configs: seq<Config>, patches: seq<Patch>, key: int, q: int, i: nat)
    requires i < |patches| && Registers(configs, patches, i, key, q)
    ensures (key, q) in IndexOf(configs, patches)
  {
    IndexAround(configs, patches, i);
    InSum(IndexOf(configs, Without(patches, i)), Registered(configs, patches[i]), (key, q));
  }

  lemma InSum(a: Index, b: Index, pair: (int, int))
    ensures pair in a + b <==> pair in a || pair in b
  {
  }

  /** The index the patches imply has an entry exactly for each patch and each key of a config it names. */
  lemma IndexIsExact(configs: seq<Config>, patches: seq<Patch>, key: int, q: int)
    ensures (key, q) in IndexOf(configs, patches) <==>
      exists i: nat, config | i < |patches| ::
          patches[i].id == q && Names(patches[i], config) && KeyOf(configs, config, key)
  {
    if (key, q) in IndexOf(configs, patches) {
      var i := IndexEntry(configs, patches, key, q);
      RegisteredHold(configs, patches[i], key, q);
    }
    if i: nat, config :|
         && i < |patches| && patches[i].id == q
         && Names(patches[i], config) && KeyOf(configs, config, key) {
      RegisteredHold(configs, patches[i], key, q);
      EntryIsIndexed(configs, patches, key, q, i);
    }
  }

  // ----- adding, replacing and removing patches -----

  lemma {:induction false} IndexSplit(configs: seq<Config>, a: seq<Patch>, b: seq<Patch>)
    ensures IndexOf(configs, a + b) == IndexOf(configs, a) + IndexOf(configs, b)
  {
    if b == [] {
      assert a + b == a;
    } else {
      var n := |b| - 1;
      assert (a + b)[..|a + b| - 1] == a + b[..n];
      IndexSplit(configs, a, b[..n]);
    }
  }

  lemma IndexOne(configs: seq<Config>, p: Patch)
    ensures IndexOf(configs, [p]) == Registered(configs, p)
  {
    assert [p][..0] == [];
  }

  lemma IndexAround(configs: seq<Config>, patches: seq<Patch>, k: nat)
    requires k < |patches|
    ensures IndexOf(configs, patches) == IndexOf(configs, Without(patches, k)) + Registered(configs, patches[k])
  {
    var (a, b) := (patches[..k], patches[k + 1..]);
    assert patches == (a + [patches[k]]) + b;
    IndexSplit(configs, a + [patches[k]], b);
    IndexSplit(configs, a, [patches[k]]);
    IndexSplit(configs, a, b);
    IndexOne(configs, patches[k]);
  }

  /** All entries are of other patches than `q`, or all are of `q`. */
  ghost predicate Free(index: Index, q: int) {
    forall pair | pair in index :: pair.1 != q
  }

  ghost predicate Only(index: Index, q: int) {
    forall pair | pair in index :: pair.1 == q
  }

  lemma CleanedSum(a: Index, b: Index, q: int)
    requires Free(a, q) && Only(b, q)
    ensures CleanedUp(a + b, q) == a
  {
    forall pair: (int, int)
      ensures CleanedUp(a + b, q)[pair] == a[pair]
    {
      assert pair in a ==> pair.1 != q;
      assert pair in b ==> pair.1 == q;
    }
  }

  lemma RegisteredOnly(configs: seq<Config>, p: Patch)
    ensures Only(Registered(configs, p), p.id)
  {
    forall pair | pair in Registered(configs, p)
      ensures pair.1 == p.id
    {
      RegisteredHold(configs, p, pair.0, pair.1);
    }
  }

  lemma IndexFree(configs: seq<Config>, patches: seq<Patch>, q: int)
    requires q !in PatchIds(patches)
    ensures Free(IndexOf(configs, patches), q)
  {
    forall pair | pair in IndexOf(configs, patches)
      ensures pair.1 != q
    {
      IndexIsExact(configs, patches, pair.0, pair.1);
      var i: nat, config :| i < |patches| && patches[i].id == pair.1 && Names(patches[i], config) &&
          KeyOf(configs, config, pair.0);
      assert PatchIds(patches)[i] == pair.1;
    }
  }

  lemma WithoutIds(patches: seq<Patch>, k: nat)
    requires k < |patches| && Unique(PatchIds(patches))
    ensures PatchIds(Without(patches, k)) == Without(PatchIds(patches), k)
    ensures patches[k].id !in PatchIds(Without(patches, k)) && Unique(PatchIds(Without(patches, k)))
  {
    var ids := PatchIds(patches);
    var rest := Without(ids, k);
    assert PatchIds(Without(patches, k)) == rest;
    assert forall i | 0 <= i < |rest| :: rest[i] == ids[if i < k then i else i + 1];
  }

  /** Cleaning up a patch leaves the index of the others. */
  lemma CleaningRemovesOne(configs: seq<Config>, patches: seq<Patch>, k: nat)
    requires k < |patches| && Unique(PatchIds(patches))
    ensures CleanedUp(IndexOf(configs, patches), patches[k].id) == IndexOf(configs, Without(patches, k))
  {
    WithoutIds(patches, k);
    IndexAround(configs, patches, k);
    IndexFree(configs, Without(patches, k), patches[k].id);
    RegisteredOnly(configs, patches[k]);
    CleanedSum(IndexOf(configs, Without(patches, k)), Registered(configs, patches[k]), patches[k].id);
  }

  lemma ReplacingOne(configs: seq<Config>, patches: seq<Patch>, k: nat, p: Patch)
    requires k < |patches| && Unique(PatchIds(patches))
    ensures CleanedUp(IndexOf(configs, patches), patches[k].id) + Registered(configs, p) ==
        IndexOf(configs, patches[k := p])
  {
    CleaningRemovesOne(configs, patches, k);
    IndexAround(configs, patches[k := p], k);
    assert Without(patches[k := p], k) == Without(patches, k);
  }

  lemma AddingOne(configs: seq<Config>, patches: seq<Patch>, p: Patch)
    ensures IndexOf(configs, patches) + Registered(configs, p) == IndexOf(configs, patches + [p])
  {
    IndexSplit(configs, patches, [p]);
    IndexOne(configs, p);
  }

  // ----- changing configs -----

  /** The configs that patches name keep their ports. */
  ghost predicate SamePorts(configs: seq<Config>, configs': seq<Config>, ids: seq<int>) {
    forall i | 0 <= i < |ids| ::
      ids[i] in ConfigIds(configs) && ids[i] in ConfigIds(configs') &&
          PortOf(configs', ids[i]) == PortOf(configs, ids[i])
  }

  lemma {:induction false} SamePairs(configs: seq<Config>, configs': seq<Config>, ids: seq<int>, patch: int)
    requires SamePorts(configs, configs', ids)
    ensures AllPairs(configs', ids, patch) == AllPairs(configs, ids, patch)
  {
    if ids != [] {
      SamePairs(configs, configs', ids[..|ids| - 1], patch);
    }
  }

  lemma {:induction false} SameIndex(configs: seq<Config>, configs': seq<Config>, patches: seq<Patch>)
    requires forall i | 0 <= i < |patches| ::
        SamePorts(configs, configs', patches[i].sources) && SamePorts(configs, configs', patches[i].sinks)
    ensures IndexOf(configs', patches) == IndexOf(configs, patches)
  {
    if patches != [] {
      var n := |patches| - 1;
      SameIndex(configs, configs', patches[..n]);
      SamePairs(configs, configs', patches[n].sources, patches[n].id);
      SamePairs(configs, configs', patches[n].sinks, patches[n].id);
    }
  }
}
