/**
 * HDF5Writer: keeps at most one HDF5 file open and writes a channel buffer
 * and a dict of dicts of metadata into it. The file system is a map from
 * file names to file contents (see Hdf5Store); every successful h5py
 * creation call adds one path to the open file.
 */
module DataManagement {
  import opened Hdf5Store
  import opened Decimal
  import opened StoreLayout

  /** The files on disk, by name. */
  class FileSystem {
    var files: map<string, Store>

    constructor (files: map<string, Store>)
      ensures this.files == files
    {
      this.files := files;
    }

    /** One h5py creation call on an open file: `create_group`,
        `create_dataset` followed by filling it, or `f[path] = value`. */
    method Create(file: string, w: Write) returns (r: Outcome)
      requires file in files
      modifies this
      ensures r == if w.path in old(files[file]) then Fail(NameExists(w.path)) else Pass
      ensures files == if r.Pass? then old(files)[file := old(files[file])[w.path := w.value]] else old(files)
    {
      if w.path in files[file] {
        r := Fail(NameExists(w.path));
      } else {
        files := files[file := files[file][w.path := w.value]];
        r := Pass;
      }
    }
  }

  /** The IOError message open_file returns for an existing file. */
  function ExistsMessage(filename: string): string {
    "File " + filename + " exists. Turn on overwrite or choose another file."
  }

  class HDF5Writer {
    const fs: FileSystem
    /** The name of the open file, None when no file is open. */
    var active: Option<string>

    ghost predicate Valid()
      reads this, fs
    {
      active.Some? ==> active.value in fs.files
    }

    constructor (fs: FileSystem)
      ensures Valid() && this.fs == fs && active == None
    {
      this.fs := fs;
      active := None;
    }

    /** The name of the open file, or ValueError when there is none. */
    function ActiveFile(): (r: Result<string>)
      reads this
      ensures r.Ok? <==> active.Some?
      ensures r.Ok? ==> r.value == active.value
      ensures r.Err? ==> r.error == ValueError("No active file.")
    {
      if active.Some? then Ok(active.value) else Err(ValueError("No active file."))
    }

    /** Opens `filename` for writing, creating it empty or truncating it.
        An existing file without `overwrite` gives back an IOError and
        changes nothing. Truncating the file that is itself open raises
        h5py's OSError and changes nothing either. */
    method OpenFile(filename: string, overwrite: bool) returns (r: Outcome)
      requires Valid()
      modifies this, fs
      ensures Valid()
      ensures !overwrite && filename in old(fs.files) ==>
        && r == Fail(IOError(ExistsMessage(filename)))
        && fs.files == old(fs.files) && active == old(active)
      ensures overwrite && old(active) == Some(filename) ==>
        && r == Fail(AlreadyOpen(filename))
        && fs.files == old(fs.files) && active == old(active)
      ensures (overwrite || filename !in old(fs.files)) && old(active) != Some(filename) ==>
        && r == Pass
        && fs.files == old(fs.files)[filename := map[]] && active == Some(filename)
    {
      if !overwrite && filename in fs.files {
        return Fail(IOError(ExistsMessage(filename)));
      }
      if active == Some(filename) {
        return Fail(AlreadyOpen(filename));
      }
      fs.files := fs.files[filename := map[]];
      active := Some(filename);
      r := Pass;
    }

    /** Closes the open file, which keeps its contents. Without an open file
        the call on None fails with AttributeError. */
    method CloseFile() returns (r: Outcome)
      requires Valid()
      modifies this
      ensures Valid() && fs.files == old(fs.files)
      ensures old(active).None? ==> r == Fail(AttributeError) && active == None
      ensures old(active).Some? ==> r == Pass && active == None
    {
      if active.None? {
        return Fail(AttributeError);
      }
      active := None;
      r := Pass;
    }

    /** Issues the next pending creation request on the open file: `w`,
        followed by the requests `tail`. */
    method CreateNext(file: string, w: Write, ghost tail: seq<Write>,
                      ghost goal: (Store, Outcome), ghost others: map<string, Store>)
      returns (r: Outcome)
      requires file in fs.files && fs.files == others[file := fs.files[file]]
      requires goal == Apply(fs.files[file], [w] + tail)
      modifies fs
      ensures file in fs.files && fs.files == others[file := fs.files[file]]
      ensures r.Pass? ==> goal == Apply(fs.files[file], tail)
      ensures r.Fail? ==> fs.files[file] == goal.0 && r == goal.1
    {
      ghost var cur := fs.files[file];
      assert ([w] + tail)[0] == w && ([w] + tail)[1..] == tail;
      r := fs.Create(file, w);
      if r.Pass? {
        assert fs.files == others[file := cur[w.path := w.value]];
      }
    }

    /** __write_channel_data: for each channel, its group, the overrange
        subgroup when the channel has flags, unit, scalefactor and ID, then
        one dataset per block ("b" for a "bool" unit, "i" otherwise) and its
        overrange dataset. The file ends up as Apply says: everything
        created before the first name that already exists. */
    method WriteChannelData(chs: ChannelData) returns (r: Outcome)
      requires Valid() && forall i :: 0 <= i < |chs| ==> WellShaped(chs[i].1)
      modifies fs
      ensures Valid() && active == old(active)
      ensures old(active).None? ==>
        fs.files == old(fs.files) && r == (if chs == [] then Pass else Fail(AttributeError))
      ensures old(active).Some? ==>
        var file := old(active).value;
        && fs.files == old(fs.files)[file := Apply(old(fs.files[file]), Writes(chs)).0]
        && r == Apply(old(fs.files[file]), Writes(chs)).1
    {
      if active.None? {
        return if chs == [] then Pass else Fail(AttributeError);
      }
      var file := active.value;
      ghost var others := fs.files;
      ghost var goal := Apply(fs.files[file], Writes(chs));
      var i := 0;
      while i < |chs|
        invariant i <= |chs| && file in fs.files && fs.files == others[file := fs.files[file]]
        invariant goal == Apply(fs.files[file], Writes(chs[i..]))
      {
        var name, channel := chs[i].0, chs[i].1;
        ChannelPending(chs, i);
        r := WriteChannel(file, name, channel, Writes(chs[i + 1..]), goal, others);
        if r.Fail? { return; }
        i := i + 1;
      }
      assert chs[i..] == [];
      r := Pass;
    }

    /** The body of __write_channel_data's loop for one channel, followed by
        the requests `rest` of the channels after it. */
    method WriteChannel(file: string, name: string, channel: Channel, ghost rest: seq<Write>,
                        ghost goal: (Store, Outcome), ghost others: map<string, Store>)
      returns (r: Outcome)
      requires WellShaped(channel)
      requires file in fs.files && fs.files == others[file := fs.files[file]]
      requires goal == Apply(fs.files[file], ChannelWrites(name, channel) + rest)
      modifies fs
      ensures file in fs.files && fs.files == others[file := fs.files[file]]
      ensures r.Pass? ==> goal == Apply(fs.files[file], rest)
      ensures r.Fail? ==> fs.files[file] == goal.0 && r == goal.1
    {
      var hasOverrange := channel.overrange.Some?;
      ghost var blocks := Under(name, RowEntries(channel, 0)) + rest;
      ghost var afterUnit := [Write(Child(name, "scalefactor"), Scalar(channel.scaleFactor))]
                             + ([Write(Child(name, "ID"), Scalar(channel.id))] + blocks);
      ghost var unitOn := [Write(Child(name, "unit"), Scalar(Text(channel.unit)))] + afterUnit;
      HeaderPending(name, channel, rest);
      r := CreateNext(file, Write(name, Group),
                      if hasOverrange then [Write(Child(name, "overrange"), Group)] + unitOn else unitOn,
                      goal, others);
      if r.Fail? { return; }
      if hasOverrange {
        r := CreateNext(file, Write(Child(name, "overrange"), Group), unitOn, goal, others);
        if r.Fail? { return; }
      }
      r := CreateNext(file, Write(Child(name, "unit"), Scalar(Text(channel.unit))), afterUnit, goal, others);
      if r.Fail? { return; }
      r := CreateNext(file, Write(Child(name, "scalefactor"), Scalar(channel.scaleFactor)),
                      [Write(Child(name, "ID"), Scalar(channel.id))] + blocks, goal, others);
      if r.Fail? { return; }
      r := CreateNext(file, Write(Child(name, "ID"), Scalar(channel.id)), blocks, goal, others);
      if r.Fail? { return; }
      var dataType := SampleType(channel.unit);
      r := WriteBlocks(file, name, channel, dataType, hasOverrange, rest, goal, others);
    }

    /** The inner loop of __write_channel_data: block datasets and their
        overrange datasets, block by block. */
    method WriteBlocks(file: string, name: string, channel: Channel, dataType: DType, hasOverrange: bool,
                       ghost rest: seq<Write>, ghost goal: (Store, Outcome), ghost others: map<string, Store>)
      returns (r: Outcome)
      requires WellShaped(channel) && dataType == SampleType(channel.unit)
      requires hasOverrange == channel.overrange.Some?
      requires file in fs.files && fs.files == others[file := fs.files[file]]
      requires goal == Apply(fs.files[file], Under(name, RowEntries(channel, 0)) + rest)
      modifies fs
      ensures file in fs.files && fs.files == others[file := fs.files[file]]
      ensures r.Pass? ==> goal == Apply(fs.files[file], rest)
      ensures r.Fail? ==> fs.files[file] == goal.0 && r == goal.1
    {
      var numRuns := |channel.samples|;
      var num := 0;
      while num < numRuns
        invariant num <= numRuns && file in fs.files && fs.files == others[file := fs.files[file]]
        invariant goal == Apply(fs.files[file], Under(name, RowEntries(channel, num)) + rest)
      {
        ghost var next := Under(name, RowEntries(channel, num + 1)) + rest;
        ghost var flagged := Write(Child(name, "overrange/" + NatToString(num)),
                                   Dataset(Int8, FlagRow(if hasOverrange then channel.overrange.value[num] else [])));
        BlockPending(name, channel, num, rest);
        var data := StoredRow(dataType, channel.samples[num]);
        r := CreateNext(file, Write(Child(name, NatToString(num)), Dataset(dataType, data)),
                        if hasOverrange then [flagged] + next else next, goal, others);
        if r.Fail? { return; }
        if hasOverrange {
          var flags := FlagRow(channel.overrange.value[num]);
          r := CreateNext(file, Write(Child(name, "overrange/" + NatToString(num)), Dataset(Int8, flags)),
                          next, goal, others);
          if r.Fail? { return; }
        }
        num := num + 1;
      }
      assert Under(name, RowEntries(channel, numRuns)) + rest == rest;
      r := Pass;
    }

    /** __write_metadata: entry (key, value) of namespace ns goes to the
        top-level name ns + "__" + key, namespace by namespace. */
    method WriteMetadata(md: Metadata) returns (r: Outcome)
      requires Valid()
      modifies fs
      ensures Valid() && active == old(active)
      ensures old(active).None? ==>
        fs.files == old(fs.files) && r == (if MetadataWrites(md) == [] then Pass else Fail(TypeError))
      ensures old(active).Some? ==>
        var file := old(active).value;
        && fs.files == old(fs.files)[file := Apply(old(fs.files[file]), MetadataWrites(md)).0]
        && r == Apply(old(fs.files[file]), MetadataWrites(md)).1
    {
      if active.None? {
        return if MetadataWrites(md) == [] then Pass else Fail(TypeError);
      }
      var file := active.value;
      ghost var others := fs.files;
      ghost var goal := Apply(fs.files[file], MetadataWrites(md));
      var i := 0;
      while i < |md|
        invariant i <= |md| && file in fs.files && fs.files == others[file := fs.files[file]]
        invariant goal == Apply(fs.files[file], MetadataWrites(md[i..]))
      {
        var key, dict := md[i].0, md[i].1;
        ghost var rest := MetadataWrites(md[i + 1..]);
        assert md[i..][0] == md[i] && md[i..][1..] == md[i + 1..];
        assert dict[0..] == dict;
        var j := 0;
        while j < |dict|
          invariant j <= |dict| && file in fs.files && fs.files == others[file := fs.files[file]]
          invariant goal == Apply(fs.files[file], NamespaceWrites(key, dict[j..]) + rest)
        {
          var skey, item := dict[j].0, dict[j].1;
          NamespacePending(key, dict, j, rest);
          r := CreateNext(file, Write(key + "__" + skey, Scalar(item)),
                          NamespaceWrites(key, dict[j + 1..]) + rest, goal, others);
          if r.Fail? { return; }
          j := j + 1;
        }
        assert NamespaceWrites(key, dict[j..]) + rest == rest;
        i := i + 1;
      }
      assert md[i..] == [];
      r := Pass;
    }
  }

  // ---------------------------------------------------------------- request bookkeeping

  lemma {:induction false} UnderAppend(name: string, a: seq<Write>, b: seq<Write>)
    ensures Under(name, a + b) == Under(name, a) + Under(name, b)
  {
  }

  /** The requests of channel i, then those of the channels after it. */
  lemma {:induction false} ChannelPending(chs: ChannelData, i: nat)
    requires forall j :: 0 <= j < |chs| ==> WellShaped(chs[j].1)
    requires i < |chs|
    ensures Writes(chs[i..]) == ChannelWrites(chs[i].0, chs[i].1) + Writes(chs[i + 1..])
  {
    assert chs[i..][0] == chs[i] && chs[i..][1..] == chs[i + 1..];
  }

  /** One channel's requests in the order the loop body issues them. */
  lemma {:induction false} HeaderPending(name: string, ch: Channel, rest: seq<Write>)
    requires WellShaped(ch)
    ensures var blocks := Under(name, RowEntries(ch, 0)) + rest;
      var unitOn := [Write(Child(name, "unit"), Scalar(Text(ch.unit)))]
        + ([Write(Child(name, "scalefactor"), Scalar(ch.scaleFactor))]
        + ([Write(Child(name, "ID"), Scalar(ch.id))] + blocks));
      ChannelWrites(name, ch) + rest ==
        [Write(name, Group)]
        + (if ch.overrange.Some? then [Write(Child(name, "overrange"), Group)] + unitOn else unitOn)
  {
    var h, rows := HeaderEntries(ch), RowEntries(ch, 0);
    UnderAppend(name, h, rows);
    var blocks := Under(name, rows) + rest;
    var u := Write(Child(name, "unit"), Scalar(Text(ch.unit)));
    var s := Write(Child(name, "scalefactor"), Scalar(ch.scaleFactor));
    var i := Write(Child(name, "ID"), Scalar(ch.id));
    var unitOn := [u] + ([s] + ([i] + blocks));
    if ch.overrange.Some? {
      var o := Write(Child(name, "overrange"), Group);
      assert |h| == 4 && Under(name, h) == [o, u, s, i];
      assert [o, u, s, i] + blocks == [o] + unitOn;
    } else {
      assert |h| == 3 && Under(name, h) == [u, s, i];
      assert [u, s, i] + blocks == unitOn;
    }
    assert ChannelWrites(name, ch) + rest == [Write(name, Group)] + (Under(name, h) + blocks);
  }

  /** The requests of block num, then those of the later blocks. */
  lemma {:induction false} BlockPending(name: string, ch: Channel, num: nat, rest: seq<Write>)
    requires WellShaped(ch) && num < |ch.samples|
    ensures var t, next := SampleType(ch.unit), Under(name, RowEntries(ch, num + 1)) + rest;
      var flagged := Write(Child(name, "overrange/" + NatToString(num)),
                           Dataset(Int8, FlagRow(if ch.overrange.Some? then ch.overrange.value[num] else [])));
      Under(name, RowEntries(ch, num)) + rest ==
        [Write(Child(name, NatToString(num)), Dataset(t, StoredRow(t, ch.samples[num])))]
        + (if ch.overrange.Some? then [flagged] + next else next)
  {
    UnderAppend(name, BlockEntries(ch, num), RowEntries(ch, num + 1));
  }

  lemma {:induction false} NamespacePending(ns: string, es: seq<(string, Item)>, j: nat, rest: seq<Write>)
    requires j < |es|
    ensures NamespaceWrites(ns, es[j..]) + rest ==
      [Write(ns + "__" + es[j].0, Scalar(es[j].1))] + (NamespaceWrites(ns, es[j + 1..]) + rest)
  {
    assert es[j..][1..] == es[j + 1..];
  }
}
