/**
 * What __write_metadata's flat names "<namespace>__<key>" promise: they split
 * back at their first "__", so distinct entries get distinct names and the
 * dict of dicts can be rebuilt from the file, provided each namespace is
 * free of "__" and does not end in '_'.
 */
module MetadataLemmas {
  import opened Hdf5Store
  import opened StoreLayout

  /** Splitting a flat name at its first "__" recovers namespace and key; the
      key itself may contain "__". */
  lemma {:induction false} SplitFlatName(ns: string, key: string)
    requires NamespaceSafe(ns)
    ensures SplitName(FlatName(ns, key)) == Some((ns, key))
    decreases |ns|
  {
    var n := FlatName(ns, key);
    if ns == [] {
      assert n == "__" + key && n[2..] == key;
    } else {
      var rest := ns[1..];
      assert n[1..] == FlatName(rest, key);
      assert NamespaceSafe(rest) by {
        forall i | 0 <= i < |rest| - 1 ensures !(rest[i] == '_' && rest[i + 1] == '_') {
          assert rest[i] == ns[i + 1] && rest[i + 1] == ns[i + 2];
        }
        if rest != [] { assert rest[|rest| - 1] == ns[|ns| - 1]; }
      }
      assert !(n[0] == '_' && n[1] == '_') by {
        if rest == [] {
          assert n[0] == ns[|ns| - 1];
        } else {
          assert n[1] == ns[1];
          assert !(ns[0] == '_' && ns[1] == '_');
        }
      }
      SplitFlatName(rest, key);
      assert [n[0]] + rest == ns;
    }
  }

  /** Without '/' in namespace and key, the flat name is one child of the root. */
  lemma {:induction false} FlatNamePlain(ns: string, key: string)
    requires '/' !in ns && '/' !in key
    ensures PlainName(FlatName(ns, key))
  {
    assert '/' !in Delimiter by {
      assert Delimiter == ['_', '_'];
    }
    assert FlatName(ns, key) == ns + (Delimiter + key);
  }

  /** Distinct entries with safe namespaces get distinct flat names. */
  lemma {:induction false} FlatNameInjective(ns1: string, key1: string, ns2: string, key2: string)
    requires NamespaceSafe(ns1) && NamespaceSafe(ns2)
    requires FlatName(ns1, key1) == FlatName(ns2, key2)
    ensures ns1 == ns2 && key1 == key2
  {
    SplitFlatName(ns1, key1);
    SplitFlatName(ns2, key2);
  }

  /** Within one namespace the flat name determines the key, whatever the key. */
  lemma {:induction false} SameNamespaceInjective(ns: string, key1: string, key2: string)
    requires FlatName(ns, key1) == FlatName(ns, key2)
    ensures key1 == key2
  {
    assert key1 == FlatName(ns, key1)[|ns| + 2..];
    assert key2 == FlatName(ns, key2)[|ns| + 2..];
  }

  /** Excluding "__" from namespaces and keys is not enough: a namespace
      ending in '_' merges into the delimiter, and two distinct entries of
      a dict of dicts collide, so the second creation fails. */
  lemma {:induction false} DelimiterFreeCollision(v: Item, u: Item)
    ensures !ContainsDelimiter("a") && !ContainsDelimiter("_x")
    ensures !ContainsDelimiter("a_") && !ContainsDelimiter("x")
    ensures FlatName("a", "_x") == FlatName("a_", "x") == "a___x"
    ensures Apply(map[], MetadataWrites([("a", [("_x", v)]), ("a_", [("x", u)])])).1
         == Fail(NameExists("a___x"))
  {
    var md := [("a", [("_x", v)]), ("a_", [("x", u)])];
    assert FlatName("a", "_x") == "a___x" && FlatName("a_", "x") == "a___x";
    var h1, h2 := NamespaceWrites("a", [("_x", v)]), NamespaceWrites("a_", [("x", u)]);
    assert |h1| == 1 && h1[0] == Write("a___x", Scalar(v));
    assert |h2| == 1 && h2[0] == Write("a___x", Scalar(u));
    assert h1 == [Write("a___x", Scalar(v))] && h2 == [Write("a___x", Scalar(u))];
    assert md[1..] == [("a_", [("x", u)])] && md[1..][1..] == [];
    assert MetadataWrites(md[1..]) == h2 + MetadataWrites(md[1..][1..]) == h2;
    assert MetadataWrites(md) == h1 + MetadataWrites(md[1..]);
    var ws := MetadataWrites(md);
    assert ws == [Write("a___x", Scalar(v)), Write("a___x", Scalar(u))];
    assert ws[1..] == [Write("a___x", Scalar(u))];
    assert !ContainsDelimiter("_x") by {
      assert "_x"[1] == 'x';
    }
    assert !ContainsDelimiter("a_") by {
      assert "a_"[0] == 'a';
    }
  }

  // ---------------------------------------------------------------- where entries go

  /** Entry j of namespace i is one of the requests. */
  lemma {:induction false} EntryInWrites(md: Metadata, i: nat, j: nat)
    requires i < |md| && j < |md[i].1|
    ensures Write(FlatName(md[i].0, md[i].1[j].0), Scalar(md[i].1[j].1)) in MetadataWrites(md)
    decreases i
  {
    var w := Write(FlatName(md[i].0, md[i].1[j].0), Scalar(md[i].1[j].1));
    var head := NamespaceWrites(md[0].0, md[0].1);
    assert MetadataWrites(md) == head + MetadataWrites(md[1..]);
    if i == 0 {
      assert head[j] == w;
    } else {
      EntryInWrites(md[1..], i - 1, j);
    }
  }

  /** Every request is for some entry of the dict of dicts. */
  lemma {:induction false} WritesFromEntries(md: Metadata, w: Write)
    requires w in MetadataWrites(md)
    ensures exists i, j :: (0 <= i < |md| && 0 <= j < |md[i].1|
      && w == Write(FlatName(md[i].0, md[i].1[j].0), Scalar(md[i].1[j].1)))
    decreases |md|
  {
    var head := NamespaceWrites(md[0].0, md[0].1);
    assert MetadataWrites(md) == head + MetadataWrites(md[1..]);
    if w in head {
      var j :| 0 <= j < |head| && head[j] == w;
      assert w == Write(FlatName(md[0].0, md[0].1[j].0), Scalar(md[0].1[j].1));
    } else {
      WritesFromEntries(md[1..], w);
      var i, j :| 0 <= i < |md[1..]| && 0 <= j < |md[1..][i].1|
        && w == Write(FlatName(md[1..][i].0, md[1..][i].1[j].0), Scalar(md[1..][i].1[j].1));
      assert md[1..][i] == md[i + 1];
    }
  }

  lemma {:induction false} NamespaceDistinct(ns: string, es: seq<(string, Item)>)
    requires DistinctNames(es)
    ensures Distinct(NamespaceWrites(ns, es))
  {
    var ws := NamespaceWrites(ns, es);
    forall a, b | 0 <= a < b < |ws| ensures ws[a].path != ws[b].path {
      if ws[a].path == ws[b].path { SameNamespaceInjective(ns, es[a].0, es[b].0); }
    }
  }

  /** With distinct, safe namespaces and distinct keys in each, the flat
      names of a whole dict of dicts are pairwise distinct. */
  lemma {:induction false} MetadataWritesDistinct(md: Metadata)
    requires ValidMetadata(md)
    ensures Distinct(MetadataWrites(md))
    decreases |md|
  {
    if md != [] {
      var ns, es, rest := md[0].0, md[0].1, md[1..];
      assert ValidMetadata(rest) by {
        forall a, b | 0 <= a < b < |rest| ensures rest[a].0 != rest[b].0 {
          assert rest[a] == md[a + 1] && rest[b] == md[b + 1];
        }
        forall a | 0 <= a < |rest| ensures ValidNamespace(rest[a].0, rest[a].1) {
          assert rest[a] == md[a + 1];
        }
      }
      MetadataWritesDistinct(rest);
      NamespaceDistinct(ns, es);
      var head := NamespaceWrites(ns, es);
      forall p | p in Paths(head) ensures p !in Paths(MetadataWrites(rest)) {
        var j :| 0 <= j < |head| && head[j].path == p;
        if p in Paths(MetadataWrites(rest)) {
          var k :| 0 <= k < |MetadataWrites(rest)| && MetadataWrites(rest)[k].path == p;
          WritesFromEntries(rest, MetadataWrites(rest)[k]);
          var a, b :| 0 <= a < |rest| && 0 <= b < |rest[a].1|
            && MetadataWrites(rest)[k] == Write(FlatName(rest[a].0, rest[a].1[b].0), Scalar(rest[a].1[b].1));
          assert rest[a] == md[a + 1];
          FlatNameInjective(ns, es[j].0, rest[a].0, rest[a].1[b].0);
        }
      }
      DistinctAppend(head, MetadataWrites(rest));
      assert MetadataWrites(md) == head + MetadataWrites(rest);
    }
  }

  /** __write_metadata on a valid dict of dicts completes exactly when none
      of the flat names exists in the file yet. */
  lemma {:induction false} WriteMetadataPassIff(s: Store, md: Metadata)
    requires ValidMetadata(md)
    ensures Apply(s, MetadataWrites(md)).1 == Pass <==> Paths(MetadataWrites(md)) !! s.Keys
  {
    MetadataWritesDistinct(md);
    ApplyPassIff(s, MetadataWrites(md));
  }

  /** After a completed write, entry j of namespace i sits at its flat name,
      a single top-level name that splits back to the namespace and key it
      came from. */
  lemma {:induction false} MetadataRoundTrip(s: Store, md: Metadata, i: nat, j: nat)
    requires ValidMetadata(md) && i < |md| && j < |md[i].1|
    requires Apply(s, MetadataWrites(md)).1 == Pass
    ensures var f, p := Apply(s, MetadataWrites(md)).0, FlatName(md[i].0, md[i].1[j].0);
      && p in f && f[p] == Scalar(md[i].1[j].1)
      && PlainName(p)
      && SplitName(p) == Some((md[i].0, md[i].1[j].0))
  {
    assert ValidNamespace(md[i].0, md[i].1);
    FlatNamePlain(md[i].0, md[i].1[j].0);
    EntryInWrites(md, i, j);
    WrittenValue(s, MetadataWrites(md), Write(FlatName(md[i].0, md[i].1[j].0), Scalar(md[i].1[j].1)));
    SplitFlatName(md[i].0, md[i].1[j].0);
  }
}
