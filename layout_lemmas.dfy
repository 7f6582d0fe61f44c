/**
 * What a successful __write_channel_data leaves in the file: the channel
 * metadata, one dataset per block holding that block's row, the overrange
 * subgroup exactly for flagged channels, and nothing else.
 */
module LayoutLemmas {
  import opened Hdf5Store
  import opened Decimal
  import opened StoreLayout

  // ---------------------------------------------------------------- membership

  lemma {:induction false} BlockInRows(ch: Channel, k: nat, num: nat, w: Write)
    requires WellShaped(ch) && k <= num < |ch.samples| && w in BlockEntries(ch, num)
    ensures w in RowEntries(ch, k)
    decreases num - k
  {
    if k < num {
      BlockInRows(ch, k + 1, num, w);
    }
  }

  lemma {:induction false} InUnder(name: string, es: seq<Write>, w: Write)
    requires w in es
    ensures Write(Child(name, w.path), w.value) in Under(name, es)
  {
    var i :| 0 <= i < |es| && es[i] == w;
    assert Under(name, es)[i] == Write(Child(name, w.path), w.value);
  }

  lemma {:induction false} ChannelInWrites(chs: ChannelData, i: nat, w: Write)
    requires forall j :: 0 <= j < |chs| ==> WellShaped(chs[j].1)
    requires i < |chs| && w in ChannelWrites(chs[i].0, chs[i].1)
    ensures w in Writes(chs)
    decreases i
  {
    if i > 0 {
      assert chs[1..][i - 1] == chs[i];
      ChannelInWrites(chs[1..], i - 1, w);
    }
  }

  /** A request of channel i's header is among the requests of the whole write. */
  lemma {:induction false} HeaderInWrites(chs: ChannelData, i: nat, w: Write)
    requires forall j :: 0 <= j < |chs| ==> WellShaped(chs[j].1)
    requires i < |chs| && w in HeaderEntries(chs[i].1)
    ensures Write(Child(chs[i].0, w.path), w.value) in Writes(chs)
  {
    var name, ch := chs[i].0, chs[i].1;
    InUnder(name, HeaderEntries(ch) + RowEntries(ch, 0), w);
    ChannelInWrites(chs, i, Write(Child(name, w.path), w.value));
  }

  lemma {:induction false} BlockInWrites(chs: ChannelData, i: nat, num: nat, w: Write)
    requires forall j :: 0 <= j < |chs| ==> WellShaped(chs[j].1)
    requires i < |chs| && num < |chs[i].1.samples| && w in BlockEntries(chs[i].1, num)
    ensures Write(Child(chs[i].0, w.path), w.value) in Writes(chs)
  {
    var name, ch := chs[i].0, chs[i].1;
    BlockInRows(ch, 0, num, w);
    InUnder(name, HeaderEntries(ch) + RowEntries(ch, 0), w);
    ChannelInWrites(chs, i, Write(Child(name, w.path), w.value));
  }

  // ---------------------------------------------------------------- contents

  /** The channel group exists and holds the channel's unit, scale factor and ID. */
  lemma {:induction false} ChannelHeaderStored(s: Store, chs: ChannelData, i: nat)
    requires forall j :: 0 <= j < |chs| ==> WellShaped(chs[j].1)
    requires i < |chs| && Apply(s, Writes(chs)).1 == Pass
    ensures var f, name, ch := Apply(s, Writes(chs)).0, chs[i].0, chs[i].1;
      && name in f && f[name] == Group
      && Child(name, "unit") in f && f[Child(name, "unit")] == Scalar(Text(ch.unit))
      && Child(name, "scalefactor") in f && f[Child(name, "scalefactor")] == Scalar(ch.scaleFactor)
      && Child(name, "ID") in f && f[Child(name, "ID")] == Scalar(ch.id)
  {
    var name, ch := chs[i].0, chs[i].1;
    var ws := Writes(chs);
    ChannelInWrites(chs, i, Write(name, Group));
    WrittenValue(s, ws, Write(name, Group));
    var h := HeaderEntries(ch);
    HeaderInWrites(chs, i, Write("unit", Scalar(Text(ch.unit))));
    WrittenValue(s, ws, Write(Child(name, "unit"), Scalar(Text(ch.unit))));
    HeaderInWrites(chs, i, Write("scalefactor", Scalar(ch.scaleFactor)));
    WrittenValue(s, ws, Write(Child(name, "scalefactor"), Scalar(ch.scaleFactor)));
    HeaderInWrites(chs, i, Write("ID", Scalar(ch.id)));
    WrittenValue(s, ws, Write(Child(name, "ID"), Scalar(ch.id)));
  }

  /** Dataset `<name>/<num>` holds row num of Samples, num_samples long, as
      "b" exactly when the unit is "bool" and as "i" otherwise. */
  lemma {:induction false} BlockStored(s: Store, chs: ChannelData, i: nat, num: nat)
    requires forall j :: 0 <= j < |chs| ==> WellShaped(chs[j].1)
    requires i < |chs| && num < |chs[i].1.samples| && Apply(s, Writes(chs)).1 == Pass
    ensures var f, name, ch := Apply(s, Writes(chs)).0, chs[i].0, chs[i].1;
      var p := Child(name, NatToString(num));
      && p in f && f[p].Dataset?
      && (f[p].dtype == Int8 <==> ch.unit == "bool")
      && (f[p].dtype == Int32 <==> ch.unit != "bool")
      && |f[p].data| == |ch.samples[0]|
      && f[p].data == StoredRow(f[p].dtype, ch.samples[num])
  {
    var name, ch := chs[i].0, chs[i].1;
    var t := SampleType(ch.unit);
    var w := Write(NatToString(num), Dataset(t, StoredRow(t, ch.samples[num])));
    BlockInWrites(chs, i, num, w);
    WrittenValue(s, Writes(chs), Write(Child(name, w.path), w.value));
  }

  /** A flagged channel has the overrange subgroup, and dataset
      `<name>/overrange/<num>` holds row num of Overrange as "b". */
  lemma {:induction false} OverrangeStored(s: Store, chs: ChannelData, i: nat, num: nat)
    requires forall j :: 0 <= j < |chs| ==> WellShaped(chs[j].1)
    requires i < |chs| && num < |chs[i].1.samples| && Apply(s, Writes(chs)).1 == Pass
    requires chs[i].1.overrange.Some?
    ensures var f, name, ch := Apply(s, Writes(chs)).0, chs[i].0, chs[i].1;
      var p := Child(name, "overrange/" + NatToString(num));
      && Child(name, "overrange") in f && f[Child(name, "overrange")] == Group
      && p in f && f[p] == Dataset(Int8, FlagRow(ch.overrange.value[num]))
  {
    var name, ch := chs[i].0, chs[i].1;
    HeaderInWrites(chs, i, Write("overrange", Group));
    WrittenValue(s, Writes(chs), Write(Child(name, "overrange"), Group));
    var w := Write("overrange/" + NatToString(num), Dataset(Int8, FlagRow(ch.overrange.value[num])));
    BlockInWrites(chs, i, num, w);
    WrittenValue(s, Writes(chs), Write(Child(name, w.path), w.value));
  }

  // ---------------------------------------------------------------- distinct names

  /** `p` is the group `name` or lies inside it. */
  predicate InGroup(p: string, name: string) {
    p == name || (|p| > |name| && p[..|name| + 1] == name + "/")
  }

  lemma {:induction false} GroupPrefix(p: string, name: string)
    requires InGroup(p, name)
    ensures |name| <= |p| && forall i :: 0 <= i < |name| ==> p[i] == name[i]
    ensures |name| < |p| ==> p[|name|] == '/'
  {
    if p != name {
      assert p[..|name| + 1] == name + "/";
      assert p[|name|] == p[..|name| + 1][|name|];
    }
  }

  /** A path lies inside at most one of two plain-named groups. */
  lemma {:induction false} GroupsDisjoint(p: string, a: string, b: string)
    requires PlainName(a) && PlainName(b) && InGroup(p, a) && InGroup(p, b)
    ensures a == b
  {
    GroupPrefix(p, a);
    GroupPrefix(p, b);
  }

  lemma {:induction false} ChildInjective(name: string, x: string, y: string)
    requires Child(name, x) == Child(name, y)
    ensures x == y
  {
    assert x == Child(name, x)[|name| + 1..];
    assert y == Child(name, y)[|name| + 1..];
  }

  lemma {:induction false} ChildInGroup(name: string, x: string)
    ensures InGroup(Child(name, x), name) && Child(name, x) != name
  {
    assert Child(name, x)[..|name| + 1] == name + "/";
  }

  lemma {:induction false} OverrangeChildInjective(j: nat, k: nat)
    requires "overrange/" + NatToString(j) == "overrange/" + NatToString(k)
    ensures j == k
  {
    assert NatToString(j) == ("overrange/" + NatToString(j))[10..];
    assert NatToString(k) == ("overrange/" + NatToString(k))[10..];
    NatToStringInjective(j, k);
  }

  /** Block datasets are named by digits only; every other name inside a
      channel group starts with a letter. */
  lemma {:induction false} SuffixKindsDiffer(j: nat, k: nat)
    ensures NatToString(j) != "overrange/" + NatToString(k)
    ensures NatToString(j) !in {"unit", "scalefactor", "ID", "overrange"}
    ensures "overrange/" + NatToString(k) !in {"unit", "scalefactor", "ID", "overrange"}
  {
    var d, o := NatToString(j), "overrange/" + NatToString(k);
    assert '0' <= d[0] <= '9' && o[0] == 'o';
    assert "unit"[0] == 'u' && "scalefactor"[0] == 's' && "ID"[0] == 'I' && "overrange"[0] == 'o';
    assert |o| > |"overrange"|;
  }

  lemma {:induction false} NamesStep(lo: nat, hi: nat)
    requires lo < hi
    ensures BlockNames(lo, hi) == {NatToString(lo)} + BlockNames(lo + 1, hi)
    ensures FlagNames(lo, hi) == {"overrange/" + NatToString(lo)} + FlagNames(lo + 1, hi)
  {
    forall x | x in BlockNames(lo, hi) ensures x in {NatToString(lo)} + BlockNames(lo + 1, hi) {
      var k :| lo <= k < hi && x == NatToString(k);
      if k > lo { assert x in BlockNames(lo + 1, hi); }
    }
    forall x | x in FlagNames(lo, hi) ensures x in {"overrange/" + NatToString(lo)} + FlagNames(lo + 1, hi) {
      var k :| lo <= k < hi && x == "overrange/" + NatToString(k);
      if k > lo { assert x in FlagNames(lo + 1, hi); }
    }
  }

  /** Block k's names differ from those of every later block. */
  lemma {:induction false} NamesAbove(k: nat, lo: nat, hi: nat)
    requires k < lo
    ensures NatToString(k) !in BlockNames(lo, hi) && NatToString(k) !in FlagNames(lo, hi)
    ensures "overrange/" + NatToString(k) !in BlockNames(lo, hi)
    ensures "overrange/" + NatToString(k) !in FlagNames(lo, hi)
  {
    forall j | lo <= j < hi
      ensures NatToString(k) != NatToString(j) && NatToString(k) != "overrange/" + NatToString(j)
      ensures "overrange/" + NatToString(k) != NatToString(j)
      ensures "overrange/" + NatToString(k) != "overrange/" + NatToString(j)
    {
      SuffixKindsDiffer(k, j);
      SuffixKindsDiffer(j, k);
      if NatToString(k) == NatToString(j) { NatToStringInjective(k, j); }
      if "overrange/" + NatToString(k) == "overrange/" + NatToString(j) { OverrangeChildInjective(k, j); }
    }
  }

  /** No block name is one of the header names. */
  lemma {:induction false} NamesApart(ch: Channel, lo: nat)
    ensures RowNames(ch, lo) !! HeaderNames(ch)
  {
    forall x | x in RowNames(ch, lo) ensures x !in HeaderNames(ch) {
      if x in BlockNames(lo, |ch.samples|) {
        var j :| lo <= j < |ch.samples| && x == NatToString(j);
        SuffixKindsDiffer(j, j);
      } else {
        var j :| lo <= j < |ch.samples| && x == "overrange/" + NatToString(j);
        SuffixKindsDiffer(j, j);
      }
    }
  }

  lemma {:induction false} BlockPaths(ch: Channel, k: nat)
    requires WellShaped(ch) && k < |ch.samples|
    ensures Distinct(BlockEntries(ch, k))
    ensures Paths(BlockEntries(ch, k)) == BlockNamesAt(ch, k)
  {
    SuffixKindsDiffer(k, k);
    var b := BlockEntries(ch, k);
    assert b[0].path == NatToString(k);
    if ch.overrange.Some? {
      assert |b| == 2 && b[1].path == "overrange/" + NatToString(k);
    } else {
      assert |b| == 1;
    }
  }

  /** The names of one block, as BlockPaths lists them. */
  ghost function BlockNamesAt(ch: Channel, k: nat): set<string> {
    {NatToString(k)} + (if ch.overrange.Some? then {"overrange/" + NatToString(k)} else {})
  }

  lemma {:induction false} RowNamesStep(ch: Channel, k: nat)
    requires k < |ch.samples|
    ensures RowNames(ch, k) == BlockNamesAt(ch, k) + RowNames(ch, k + 1)
    ensures BlockNamesAt(ch, k) !! RowNames(ch, k + 1)
  {
    NamesStep(k, |ch.samples|);
    NamesAbove(k, k + 1, |ch.samples|);
  }

  lemma {:induction false} RowPaths(ch: Channel, k: nat)
    requires WellShaped(ch) && k <= |ch.samples|
    ensures Distinct(RowEntries(ch, k))
    ensures Paths(RowEntries(ch, k)) == RowNames(ch, k)
    decreases |ch.samples| - k
  {
    var n := |ch.samples|;
    if k == n {
      assert BlockNames(k, n) == {} && FlagNames(k, n) == {};
    } else {
      var b, r := BlockEntries(ch, k), RowEntries(ch, k + 1);
      assert RowEntries(ch, k) == b + r;
      RowPaths(ch, k + 1);
      BlockPaths(ch, k);
      RowNamesStep(ch, k);
      DistinctAppend(b, r);
    }
  }

  lemma {:induction false} EntriesPaths(ch: Channel)
    requires WellShaped(ch)
    ensures Distinct(HeaderEntries(ch) + RowEntries(ch, 0))
    ensures Paths(HeaderEntries(ch) + RowEntries(ch, 0)) == Suffixes(ch)
  {
    var h := HeaderEntries(ch);
    assert Distinct(h) && Paths(h) == HeaderNames(ch) by {
      if ch.overrange.Some? {
        assert h[0].path == "overrange" && h[1].path == "unit" && h[2].path == "scalefactor" && h[3].path == "ID";
        assert |h| == 4;
      } else {
        assert h[0].path == "unit" && h[1].path == "scalefactor" && h[2].path == "ID";
        assert |h| == 3;
      }
    }
    RowPaths(ch, 0);
    NamesApart(ch, 0);
    DistinctAppend(h, RowEntries(ch, 0));
  }

  /** The paths of the given names inside group `name`. */
  ghost function Children(name: string, xs: set<string>): set<string> {
    set x | x in xs :: Child(name, x)
  }

  lemma {:induction false} UnderPaths(name: string, es: seq<Write>)
    requires Distinct(es)
    ensures Distinct(Under(name, es))
    ensures Paths(Under(name, es)) == Children(name, Paths(es))
  {
    var u := Under(name, es);
    forall i, j | 0 <= i < j < |u| ensures u[i].path != u[j].path {
      if u[i].path == u[j].path { ChildInjective(name, es[i].path, es[j].path); }
    }
    forall p | p in Paths(u) ensures p in Children(name, Paths(es)) {
      var i :| 0 <= i < |u| && u[i].path == p;
      assert es[i].path in Paths(es);
    }
    forall p | p in Children(name, Paths(es)) ensures p in Paths(u) {
      var x :| x in Paths(es) && p == Child(name, x);
      var i :| 0 <= i < |es| && es[i].path == x;
      assert u[i].path == p;
    }
  }

  /** A group followed by requests made relative to it. */
  lemma {:induction false} GroupPaths(name: string, es: seq<Write>)
    requires Distinct(es)
    ensures Distinct([Write(name, Group)] + Under(name, es))
    ensures Paths([Write(name, Group)] + Under(name, es)) == {name} + Children(name, Paths(es))
  {
    var g, u := [Write(name, Group)], Under(name, es);
    UnderPaths(name, es);
    ChildrenInGroup(name, Paths(es));
    assert Paths(g) == {name};
    DistinctAppend(g, u);
  }

  /** One channel's requests name distinct paths: the group and, inside it,
      exactly the names of Suffixes. */
  lemma {:induction false} ChannelPaths(name: string, ch: Channel)
    requires WellShaped(ch)
    ensures Distinct(ChannelWrites(name, ch))
    ensures Paths(ChannelWrites(name, ch)) == {name} + Children(name, Suffixes(ch))
    ensures forall p :: p in Paths(ChannelWrites(name, ch)) ==> InGroup(p, name)
  {
    var es := HeaderEntries(ch) + RowEntries(ch, 0);
    EntriesPaths(ch);
    GroupPaths(name, es);
    ChildrenInGroup(name, Suffixes(ch));
  }

  lemma {:induction false} ChildrenInGroup(name: string, xs: set<string>)
    ensures forall p :: p in Children(name, xs) ==> p != name && InGroup(p, name)
  {
    forall p | p in Children(name, xs) ensures p != name && InGroup(p, name) {
      var x :| x in xs && p == Child(name, x);
      ChildInGroup(name, x);
    }
  }

  lemma {:induction false} WritesPaths(chs: ChannelData)
    requires ValidChannelData(chs)
    ensures Distinct(Writes(chs))
    ensures forall p :: p in Paths(Writes(chs)) ==>
      exists j :: 0 <= j < |chs| && p in Paths(ChannelWrites(chs[j].0, chs[j].1))
    decreases |chs|
  {
    if chs != [] {
      var name, ch, rest := chs[0].0, chs[0].1, chs[1..];
      ValidTail(chs);
      WritesPaths(rest);
      ChannelPaths(name, ch);
      FirstChannelApart(chs);
      DistinctAppend(ChannelWrites(name, ch), Writes(rest));
      PathsOwned(chs);
    }
  }

  /** Every path of a buffer's requests belongs to its first channel or, as
      known for the rest, to a later one. */
  lemma {:induction false} PathsOwned(chs: ChannelData)
    requires forall j :: 0 <= j < |chs| ==> WellShaped(chs[j].1)
    requires chs != []
    requires forall p :: p in Paths(Writes(chs[1..])) ==>
      exists j :: 0 <= j < |chs[1..]| && p in Paths(ChannelWrites(chs[1..][j].0, chs[1..][j].1))
    ensures forall p :: p in Paths(Writes(chs)) ==>
      exists j :: 0 <= j < |chs| && p in Paths(ChannelWrites(chs[j].0, chs[j].1))
  {
    var name, ch, rest := chs[0].0, chs[0].1, chs[1..];
    assert Writes(chs) == ChannelWrites(name, ch) + Writes(rest);
    forall p | p in Paths(Writes(chs))
      ensures exists j :: 0 <= j < |chs| && p in Paths(ChannelWrites(chs[j].0, chs[j].1))
    {
      var w :| w in Writes(chs) && w.path == p;
      if w in Writes(rest) {
        assert p in Paths(Writes(rest));
        var j :| 0 <= j < |rest| && p in Paths(ChannelWrites(rest[j].0, rest[j].1));
        assert rest[j] == chs[j + 1];
      } else {
        assert w in ChannelWrites(name, ch);
        assert p in Paths(ChannelWrites(chs[0].0, chs[0].1));
      }
    }
  }

  lemma {:induction false} ValidTail(chs: ChannelData)
    requires ValidChannelData(chs) && chs != []
    ensures ValidChannelData(chs[1..])
  {
    var rest := chs[1..];
    forall a, b | 0 <= a < b < |rest| ensures rest[a].0 != rest[b].0 {
      assert rest[a] == chs[a + 1] && rest[b] == chs[b + 1];
    }
    forall a | 0 <= a < |rest| ensures PlainName(rest[a].0) && WellShaped(rest[a].1) {
      assert rest[a] == chs[a + 1];
    }
  }

  /** The first channel's paths are apart from those of every later channel. */
  lemma {:induction false} FirstChannelApart(chs: ChannelData)
    requires ValidChannelData(chs) && chs != []
    requires forall p :: p in Paths(Writes(chs[1..])) ==>
      exists j :: 0 <= j < |chs[1..]| && p in Paths(ChannelWrites(chs[1..][j].0, chs[1..][j].1))
    ensures Paths(ChannelWrites(chs[0].0, chs[0].1)) !! Paths(Writes(chs[1..]))
  {
    var name, ch, rest := chs[0].0, chs[0].1, chs[1..];
    ChannelPaths(name, ch);
    forall p | p in Paths(Writes(rest)) ensures p !in Paths(ChannelWrites(name, ch)) {
      var j :| 0 <= j < |rest| && p in Paths(ChannelWrites(rest[j].0, rest[j].1));
      assert rest[j] == chs[j + 1];
      ChannelPaths(rest[j].0, rest[j].1);
      if p in Paths(ChannelWrites(name, ch)) {
        GroupsDisjoint(p, name, rest[j].0);
        assert false;
      }
    }
  }

  /** For a well-formed buffer, __write_channel_data completes exactly when
      none of the names it creates exists in the file yet. */
  lemma {:induction false} WriteChannelDataPassIff(s: Store, chs: ChannelData)
    requires ValidChannelData(chs)
    ensures Apply(s, Writes(chs)).1 == Pass <==> Paths(Writes(chs)) !! s.Keys
  {
    WritesPaths(chs);
    ApplyPassIff(s, Writes(chs));
  }

  /** The channel group is created, and a path inside it is created
      only by that channel's own requests. */
  lemma {:induction false} OwnRequests(chs: ChannelData, i: nat, x: string)
    requires ValidChannelData(chs) && i < |chs|
    ensures chs[i].0 in Paths(Writes(chs))
    ensures Child(chs[i].0, x) in Paths(Writes(chs)) <==>
            Child(chs[i].0, x) in Paths(ChannelWrites(chs[i].0, chs[i].1))
  {
    var name, ch := chs[i].0, chs[i].1;
    var p := Child(name, x);
    ChannelInWrites(chs, i, Write(name, Group));
    if p in Paths(ChannelWrites(name, ch)) {
      var k :| 0 <= k < |ChannelWrites(name, ch)| && ChannelWrites(name, ch)[k].path == p;
      ChannelInWrites(chs, i, ChannelWrites(name, ch)[k]);
    }
    if p in Paths(Writes(chs)) {
      WritesPaths(chs);
      var j :| 0 <= j < |chs| && p in Paths(ChannelWrites(chs[j].0, chs[j].1));
      ChannelPaths(chs[j].0, chs[j].1);
      ChildInGroup(name, x);
      GroupsDisjoint(p, name, chs[j].0);
      assert j == i;
    }
  }

  /** Inside the group of channel i the write creates exactly the names of
      Suffixes: unit, scalefactor, ID, one dataset per block and, only for
      a channel with overrange flags, the overrange subgroup and its datasets. */
  lemma {:induction false} ChannelGroupExact(chs: ChannelData, i: nat, x: string)
    requires ValidChannelData(chs) && i < |chs|
    ensures chs[i].0 in Paths(Writes(chs))
    ensures Child(chs[i].0, x) in Paths(Writes(chs)) <==> x in Suffixes(chs[i].1)
  {
    var name, ch := chs[i].0, chs[i].1;
    OwnRequests(chs, i, x);
    ChannelPaths(name, ch);
    ChildInGroup(name, x);
    if Child(name, x) in Children(name, Suffixes(ch)) {
      var y :| y in Suffixes(ch) && Child(name, x) == Child(name, y);
      ChildInjective(name, x, y);
    }
  }

  /** Where the overrange names sit among a channel's names. */
  lemma {:induction false} OverrangeSuffixes(ch: Channel, num: nat)
    ensures "overrange" in Suffixes(ch) <==> ch.overrange.Some?
    ensures "overrange/" + NatToString(num) in Suffixes(ch)
        <==> ch.overrange.Some? && num < |ch.samples|
  {
    var n, o := |ch.samples|, "overrange/" + NatToString(num);
    SuffixKindsDiffer(num, num);
    forall j | 0 <= j < n
      ensures NatToString(j) != "overrange" && "overrange/" + NatToString(j) != "overrange"
      ensures NatToString(j) != o
      ensures "overrange/" + NatToString(j) == o ==> j == num
    {
      SuffixKindsDiffer(j, j);
      SuffixKindsDiffer(j, num);
      if "overrange/" + NatToString(j) == o { OverrangeChildInjective(j, num); }
    }
    assert "overrange" !in BlockNames(0, n) && "overrange" !in FlagNames(0, n);
    assert o !in BlockNames(0, n);
    assert o in FlagNames(0, n) <==> num < n by {
      if num < n { assert o in FlagNames(0, n); }
    }
  }

  /** The overrange subgroup, and the overrange dataset of a block, are
      created exactly for a channel whose Overrange is not None. */
  lemma {:induction false} OverrangeOnlyWhenFlagged(chs: ChannelData, i: nat, num: nat)
    requires ValidChannelData(chs) && i < |chs|
    ensures Child(chs[i].0, "overrange") in Paths(Writes(chs)) <==> chs[i].1.overrange.Some?
    ensures Child(chs[i].0, "overrange/" + NatToString(num)) in Paths(Writes(chs))
        <==> chs[i].1.overrange.Some? && num < |chs[i].1.samples|
  {
    ChannelGroupExact(chs, i, "overrange");
    ChannelGroupExact(chs, i, "overrange/" + NatToString(num));
    OverrangeSuffixes(chs[i].1, num);
  }

  // ---------------------------------------------------------------- reading back

  /** Conversion changes nothing exactly when every sample is representable. */
  lemma {:induction false} StoredRowsExact(t: DType, rows: seq<seq<int>>)
    ensures StoredRows(t, rows) == rows <==> Representable(t, rows)
  {
    if Representable(t, rows) {
      forall k | 0 <= k < |rows| ensures StoredRows(t, rows)[k] == rows[k] {
        assert StoredRow(t, rows[k]) == rows[k];
      }
    }
    if StoredRows(t, rows) == rows {
      forall k, j | 0 <= k < |rows| && 0 <= j < |rows[k]| ensures InRange(t, rows[k][j]) {
        assert StoredRows(t, rows)[k][j] == Convert(t, rows[k][j]);
      }
    }
  }

  lemma {:induction false} ReadBlocksOf(f: Store, name: string, rows: seq<seq<int>>, n: nat)
    requires n <= |rows|
    requires forall k :: 0 <= k < n ==> ReadBlock(f, name, k) == Some(rows[k])
    ensures ReadBlocks(f, name, n) == Some(rows[..n])
    decreases n
  {
    if n > 0 {
      ReadBlocksOf(f, name, rows, n - 1);
      assert rows[..n] == rows[..n - 1] + [rows[n - 1]];
    }
  }

  /** Reading datasets `<name>/0` .. `<name>/<n-1>` back and stacking them
      yields the channel's Samples after conversion to the dataset type, and
      exactly Samples when every value fits that type. */
  lemma {:induction false} RoundTrip(s: Store, chs: ChannelData, i: nat)
    requires forall j :: 0 <= j < |chs| ==> WellShaped(chs[j].1)
    requires i < |chs| && Apply(s, Writes(chs)).1 == Pass
    ensures var f, name, ch := Apply(s, Writes(chs)).0, chs[i].0, chs[i].1;
      && ReadBlocks(f, name, |ch.samples|) == Some(StoredRows(SampleType(ch.unit), ch.samples))
      && (ReadBlocks(f, name, |ch.samples|) == Some(ch.samples)
          <==> Representable(SampleType(ch.unit), ch.samples))
  {
    var f, name, ch := Apply(s, Writes(chs)).0, chs[i].0, chs[i].1;
    var rows := StoredRows(SampleType(ch.unit), ch.samples);
    forall k | 0 <= k < |ch.samples| ensures ReadBlock(f, name, k) == Some(rows[k]) {
      BlockStored(s, chs, i, k);
    }
    ReadBlocksOf(f, name, rows, |rows|);
    assert rows[..|rows|] == rows;
    StoredRowsExact(SampleType(ch.unit), ch.samples);
  }
}
