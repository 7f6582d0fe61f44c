/**
 * The hierarchy HDF5Writer.__write_channel_data lays a channel buffer out as,
 * and the flat names HDF5Writer.__write_metadata gives a dict of dicts, each
 * as the ordered list of h5py creation requests the loops issue.
 */
module StoreLayout {
  import opened Hdf5Store
  import opened Decimal

  datatype Option<T> = None | Some(value: T)

  /** One entry of the buffer dict: `Samples` is a 2-D array, one row per
      block; `Overrange`, when present, is a boolean array of the same shape. */
  datatype Channel = Channel(
    unit: string,
    scaleFactor: Item,
    id: Item,
    samples: seq<seq<int>>,
    overrange: Option<seq<seq<bool>>>)

  /** The buffer dict, in its iteration order. */
  type ChannelData = seq<(string, Channel)>

  predicate Rectangular<T>(rows: seq<seq<T>>) {
    forall i, j :: 0 <= i < |rows| && 0 <= j < |rows| ==> |rows[i]| == |rows[j]|
  }

  /** A 2-D `Samples` array, and an `Overrange` array of the same shape. */
  predicate WellShaped(ch: Channel) {
    && Rectangular(ch.samples)
    && (ch.overrange.Some? ==>
          && |ch.overrange.value| == |ch.samples|
          && forall i :: 0 <= i < |ch.samples| ==> |ch.overrange.value[i]| == |ch.samples[i]|)
  }

  /** A name h5py creates as one child of the root group. */
  predicate PlainName(n: string) {
    n != "" && '/' !in n
  }

  predicate DistinctNames<T>(d: seq<(string, T)>) {
    forall i, j :: 0 <= i < j < |d| ==> d[i].0 != d[j].0
  }

  /** What the buffer dict of Vibrometer.generate_buffers looks like. */
  predicate ValidChannelData(chs: ChannelData) {
    && DistinctNames(chs)
    && forall i :: 0 <= i < |chs| ==> PlainName(chs[i].0) && WellShaped(chs[i].1)
  }

  // ---------------------------------------------------------------- dtypes

  /** "b" for boolean channels, "i" for every other unit. */
  function SampleType(unit: string): (t: DType)
    ensures t == Int8 <==> unit == "bool"
  {
    if unit == "bool" then Int8 else Int32
  }

  function MinOf(t: DType): int {
    if t == Int8 then -0x80 else -0x8000_0000
  }

  function MaxOf(t: DType): int {
    if t == Int8 then 0x7F else 0x7FFF_FFFF
  }

  predicate InRange(t: DType, x: int) {
    MinOf(t) <= x <= MaxOf(t)
  }

  /** HDF5's integer conversion into a narrower type: out-of-range values
      are clipped to the nearest representable one. */
  function Convert(t: DType, x: int): (y: int)
    ensures InRange(t, y)
    ensures y == x <==> InRange(t, x)
  {
    if x < MinOf(t) then MinOf(t) else if x > MaxOf(t) then MaxOf(t) else x
  }

  function StoredRow(t: DType, row: seq<int>): (r: seq<int>)
    ensures |r| == |row|
  {
    seq(|row|, i requires 0 <= i < |row| => Convert(t, row[i]))
  }

  /** A 2-D Samples array after conversion, row by row. */
  function StoredRows(t: DType, rows: seq<seq<int>>): (r: seq<seq<int>>)
    ensures |r| == |rows|
  {
    seq(|rows|, k requires 0 <= k < |rows| => StoredRow(t, rows[k]))
  }

  /** Every sample fits the dataset type without clipping. */
  predicate Representable(t: DType, rows: seq<seq<int>>) {
    forall k, j :: 0 <= k < |rows| && 0 <= j < |rows[k]| ==> InRange(t, rows[k][j])
  }

  /** A boolean row as it sits in a "b" dataset. */
  function FlagRow(row: seq<bool>): (r: seq<int>)
    ensures |r| == |row|
  {
    seq(|row|, i requires 0 <= i < |row| => if row[i] then 1 else 0)
  }

  // ---------------------------------------------------------------- channel layout

  function Child(name: string, x: string): string {
    name + "/" + x
  }

  /** Requests relative to a group, made absolute. */
  function Under(name: string, es: seq<Write>): seq<Write> {
    seq(|es|, i requires 0 <= i < |es| => Write(Child(name, es[i].path), es[i].value))
  }

  /** The overrange subgroup (when the channel has flags), then unit,
      scalefactor and ID, in the order the loop body creates them. */
  function HeaderEntries(ch: Channel): seq<Write> {
    (if ch.overrange.Some? then [Write("overrange", Group)] else [])
    + [ Write("unit", Scalar(Text(ch.unit))),
        Write("scalefactor", Scalar(ch.scaleFactor)),
        Write("ID", Scalar(ch.id)) ]
  }

  /** Block `num`: its samples, then its overrange flags when present. */
  function BlockEntries(ch: Channel, num: nat): seq<Write>
    requires WellShaped(ch) && num < |ch.samples|
  {
    var t := SampleType(ch.unit);
    [Write(NatToString(num), Dataset(t, StoredRow(t, ch.samples[num])))]
    + (if ch.overrange.Some?
       then [Write("overrange/" + NatToString(num), Dataset(Int8, FlagRow(ch.overrange.value[num])))]
       else [])
  }

  /** Blocks num .. n-1. */
  function RowEntries(ch: Channel, num: nat): seq<Write>
    requires WellShaped(ch) && num <= |ch.samples|
    decreases |ch.samples| - num
  {
    if num == |ch.samples| then [] else BlockEntries(ch, num) + RowEntries(ch, num + 1)
  }

  function ChannelWrites(name: string, ch: Channel): seq<Write>
    requires WellShaped(ch)
  {
    [Write(name, Group)] + Under(name, HeaderEntries(ch) + RowEntries(ch, 0))
  }

  /** Everything __write_channel_data asks h5py to create, in order. */
  function Writes(chs: ChannelData): seq<Write>
    requires forall i :: 0 <= i < |chs| ==> WellShaped(chs[i].1)
    decreases |chs|
  {
    if chs == [] then [] else ChannelWrites(chs[0].0, chs[0].1) + Writes(chs[1..])
  }

  /** The dataset names "lo" .. "hi-1" of a range of blocks. */
  ghost function BlockNames(lo: nat, hi: nat): set<string> {
    set k | lo <= k < hi :: NatToString(k)
  }

  /** The overrange dataset names "overrange/lo" .. "overrange/hi-1". */
  ghost function FlagNames(lo: nat, hi: nat): set<string> {
    set k | lo <= k < hi :: "overrange/" + NatToString(k)
  }

  /** The names blocks lo .. n-1 create inside a channel's group. */
  ghost function RowNames(ch: Channel, lo: nat): set<string> {
    BlockNames(lo, |ch.samples|) + (if ch.overrange.Some? then FlagNames(lo, |ch.samples|) else {})
  }

  /** The names created directly by the loop body, before the blocks. */
  ghost function HeaderNames(ch: Channel): set<string> {
    {"unit", "scalefactor", "ID"} + (if ch.overrange.Some? then {"overrange"} else {})
  }

  /** The names inside a channel's group. */
  ghost function Suffixes(ch: Channel): set<string> {
    HeaderNames(ch) + RowNames(ch, 0)
  }

  // ---------------------------------------------------------------- reading back

  /** Dataset `<name>/<num>` as h5py would read it back. */
  function ReadBlock(s: Store, name: string, num: nat): Option<seq<int>> {
    var p := Child(name, NatToString(num));
    if p in s && s[p].Dataset? then Some(s[p].data) else None
  }

  /** Datasets `<name>/0` .. `<name>/<n-1>` stacked back into a 2-D array. */
  function ReadBlocks(s: Store, name: string, n: nat): Option<seq<seq<int>>>
    decreases n
  {
    if n == 0 then Some([])
    else match (ReadBlocks(s, name, n - 1), ReadBlock(s, name, n - 1))
      case (Some(rows), Some(row)) => Some(rows + [row])
      case _ => None
  }

  // ---------------------------------------------------------------- metadata

  /** The dict of dicts, in its iteration order. */
  type Metadata = seq<(string, seq<(string, Item)>)>

  const Delimiter := "__"

  function FlatName(ns: string, key: string): string {
    ns + Delimiter + key
  }

  /** One request per entry of namespace ns, in the entries' order. */
  function NamespaceWrites(ns: string, es: seq<(string, Item)>): seq<Write> {
    seq(|es|, i requires 0 <= i < |es| => Write(FlatName(ns, es[i].0), Scalar(es[i].1)))
  }

  /** Everything __write_metadata asks h5py to create, in order. */
  function MetadataWrites(md: Metadata): seq<Write>
    decreases |md|
  {
    if md == [] then [] else NamespaceWrites(md[0].0, md[0].1) + MetadataWrites(md[1..])
  }

  predicate ContainsDelimiter(s: string) {
    exists i :: 0 <= i < |s| - 1 && s[i] == '_' && s[i + 1] == '_'
  }

  /** Splits a flat name at its first "__", as the reader reconstructs the mapping. */
  function SplitName(n: string): Option<(string, string)>
    decreases |n|
  {
    if |n| < 2 then None
    else if n[0] == '_' && n[1] == '_' then Some(("", n[2..]))
    else match SplitName(n[1..])
      case Some((a, b)) => Some(([n[0]] + a, b))
      case None => None
  }

  /** A namespace whose flat names split back to it: no "__" inside, and no
      trailing '_', which would merge into the delimiter. */
  predicate NamespaceSafe(ns: string) {
    !ContainsDelimiter(ns) && (ns == "" || ns[|ns| - 1] != '_')
  }

  /** A namespace whose entries get distinct flat names that split back, each
      a single top-level name: no '/' in the namespace or in any key. */
  predicate ValidNamespace(ns: string, es: seq<(string, Item)>) {
    && NamespaceSafe(ns) && '/' !in ns
    && DistinctNames(es)
    && forall j :: 0 <= j < |es| ==> '/' !in es[j].0
  }

  predicate ValidMetadata(md: Metadata) {
    && DistinctNames(md)
    && forall i :: 0 <= i < |md| ==> ValidNamespace(md[i].0, md[i].1)
  }
}
