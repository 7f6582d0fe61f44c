# polytec_acquisition_control: persistence, accessor generator and misc settings

A Dafny model of three parts of the acquisition-control package for a
Polytec VibroFlex vibrometer:

- **HDF5Writer** (`DataManagement.py`) keeps at most one HDF5 file open. It
  writes the channel buffer built by the vibrometer into it: one group per
  channel holding `unit`, `scalefactor` and `ID`, one dataset per block, and
  an `overrange` subgroup with one flag dataset per block. It also writes a
  dict of dicts of settings, flattened to top-level names
  `<namespace>__<key>`.
  - An HDF5 file is a map from paths to values (module `Hdf5Store`). The file
    system is a class holding a map from file names to files.
  - Every h5py creation call is one request. A request fails on a name that
    already exists and leaves what came before in place (`Apply`).
  - The writer's loops are methods whose postconditions tie the new file to
    `Apply` of the exact list of requests (`StoreLayout.Writes`,
    `StoreLayout.MetadataWrites`). What that list stores, where it stores it,
    and when it succeeds is proved as lemmas (`LayoutLemmas`,
    `MetadataLemmas`).
- **output_functions_string**
  (`function_writer/getter_setter_available_writer.py`) turns one device
  property (name, human-readable name, device type, device command) into
  two pieces of Python source:
  - the `ItemList` line for a config class's `__init__`;
  - the getter / setter / `all_<name>` block.

  Each f-string is modelled as Python compiles it, a list of literal runs and
  replacement fields (`AccessorWriter.Template`). The lemmas prove that the
  generated text is, line by line, the intended code. They also prove that
  the doubled braces put a literal `{new_value}` and `{self.all_<name>()}`
  into it (`AccessorLemmas`).
- **MiscConfig** (`MiscConfig.py`) holds the sensor-head settings that are
  single device registers.
  - The device communication is a class holding a register map keyed by
    (device type, device command), plus a log of the `set_int16` /
    `set_int32` calls.
  - The `qtec` and `focus_position` setters check their argument and then
    make exactly one register write.
  - The getters read one register each.
  - `autofocus` writes 1 to the autofocus register.

The writer's source cannot run as written. It refers to an undefined `f`,
assigns `self.__active_file` at class level, loops over the dicts without
`.items()`, and never resets `has_overrange`. The model follows the evident
intent of each of these lines:
- `f` is the active file;
- the active file is initially None;
- the loops go over the items;
- `has_overrange` holds exactly when the channel's `Overrange` is not None.

The model follows the code on three points where a more defensive writer would differ:
- `close_file` with no open file fails (AttributeError on None). It is not
  idempotent.
- `__write_metadata` does not reject names containing `"__"`. Such names
  surface as h5py name clashes or as unsplittable names.
- `open_file` *returns* the IOError instead of raising it.

## Model

| member | source | states |
|---|---|---|
| Hdf5Store.Apply | DataManagement.py:42-49 | h5py creation calls in order: the first name that already exists stops with NameExists; the outcome is Pass or NameExists |
| Hdf5Store.ApplyKeeps | DataManagement.py:42-76 | creation never overwrites or removes anything already in the file and adds only requested paths |
| Hdf5Store.ApplyPassIff | DataManagement.py:42-76 | a request list completes exactly when its paths are pairwise distinct and none exists in the file yet |
| Hdf5Store.ApplyPassContents | DataManagement.py:42-76 | a completed request list leaves the old file plus exactly the requested paths and values |
| Hdf5Store.WrittenValue | DataManagement.py:47-49 | after a completed list, each requested path holds the requested value |
| Decimal.NatToString | DataManagement.py:64 | the decimal text f"{num}" of a block index: non-empty, digits only, one digit exactly below 10 |
| Decimal.ParseNatToString | DataManagement.py:64 | the decimal text of a block index parses back to the index |
| Decimal.NatToStringInjective | DataManagement.py:64 | distinct block indices get distinct dataset names |
| StoreLayout.SampleType | DataManagement.py:54-57 | the dataset type is "b" (8-bit) exactly when the unit is "bool", otherwise "i" (32-bit) |
| StoreLayout.Convert | DataManagement.py:67 | HDF5's integer conversion: the stored value is in the dataset type's range, and it equals the sample exactly when the sample is in range |
| StoreLayout.Writes | DataManagement.py:38-70 | definition: the creation requests of the whole buffer, channel after channel in the dict's order; what they store and when they succeed is stated by the LayoutLemmas rows below |
| StoreLayout.ChannelWrites | DataManagement.py:42-70 | definition: one channel's group `/<channel>`, then its header and block requests made inside that group; its paths are pinned down by LayoutLemmas.ChannelGroupExact |
| StoreLayout.Under | DataManagement.py:42-49 | definition: a request relative to the channel group (`ch_grp[...]`, `ch_grp.create_...`) goes to `<channel>/<name>` with the same value; its effect is stated by LayoutLemmas.ChannelHeaderStored and LayoutLemmas.ChannelGroupExact |
| StoreLayout.HeaderEntries | DataManagement.py:39-49 | definition: the `overrange` subgroup exactly when Overrange is not None, then unit, scalefactor and ID in that order; stated by LayoutLemmas.ChannelHeaderStored and LayoutLemmas.OverrangeOnlyWhenFlagged |
| StoreLayout.BlockEntries | DataManagement.py:63-70 | definition: block num's dataset `<num>` of the channel's sample type holding its converted row, then `overrange/<num>` of type "b" holding its flags when the channel has them; stated by LayoutLemmas.BlockStored and LayoutLemmas.OverrangeStored |
| StoreLayout.RowEntries | DataManagement.py:61-70 | definition: the blocks num .. num_runs-1 in increasing order, as `for num in range(num_runs)` issues them |
| StoreLayout.MetadataWrites | DataManagement.py:74-76 | definition: the requests of the dict of dicts, namespace after namespace in the dict's order; stated by MetadataLemmas.EntryInWrites, MetadataLemmas.WritesFromEntries and MetadataLemmas.MetadataRoundTrip |
| StoreLayout.NamespaceWrites | DataManagement.py:75-76 | definition: one scalar request per entry of a namespace, in the entries' order, each at the entry's flat name |
| StoreLayout.FlatName | DataManagement.py:76 | definition: `_key + "__" + _skey`; that it splits back, and when it is injective, is stated by MetadataLemmas.SplitFlatName and MetadataLemmas.FlatNameInjective |
| DataManagement.FileSystem.Create | DataManagement.py:42-49 | one creation call on a file: NameExists and no change when the path exists, otherwise exactly that path is added |
| DataManagement.HDF5Writer.constructor | DataManagement.py:8-11 | a new writer has no active file |
| DataManagement.HDF5Writer.ActiveFile | DataManagement.py:13-18 | the active file's name when one is open, ValueError("No active file.") exactly when none is |
| DataManagement.HDF5Writer.OpenFile | DataManagement.py:20-24 | an existing file without overwrite gives the IOError "File <name> exists. ..." and changes nothing; truncating the file that is itself active raises h5py's OSError (AlreadyOpen) and changes nothing; otherwise the file becomes active and empty and no other file changes |
| DataManagement.HDF5Writer.CloseFile | DataManagement.py:26-28 | afterwards no file is active and every file keeps its contents; with no open file the call fails with AttributeError |
| DataManagement.HDF5Writer.WriteChannelData | DataManagement.py:35-70 | the active file becomes Apply of the channel requests, with the outcome Apply gives; no other file changes; with no open file any channel fails with AttributeError |
| DataManagement.HDF5Writer.WriteChannel | DataManagement.py:39-61 | one channel's group, optional overrange group, unit, scalefactor and ID, then its blocks, request by request as Apply does them |
| DataManagement.HDF5Writer.WriteBlocks | DataManagement.py:63-70 | the datasets of each block, then its overrange dataset when the channel has flags, as Apply does them |
| DataManagement.HDF5Writer.WriteMetadata | DataManagement.py:72-76 | the active file becomes Apply of the flattened metadata requests, with that outcome; with no open file any entry fails with TypeError |
| LayoutLemmas.ChannelHeaderStored | DataManagement.py:42-49 | after a completed write, each channel's name is a group, and its unit, scalefactor and ID sit under it |
| LayoutLemmas.BlockStored | DataManagement.py:54-67 | after a completed write, `<channel>/<num>` is a dataset of type "b" iff the unit is "bool" (else "i"); it has num_samples elements and holds row num converted to that type |
| LayoutLemmas.OverrangeStored | DataManagement.py:68-70 | for a channel with flags, `<channel>/overrange` is a group and `<channel>/overrange/<num>` is a "b" dataset holding row num of the flags |
| LayoutLemmas.OverrangeOnlyWhenFlagged | DataManagement.py:39-44 | the writer requests `<channel>/overrange` exactly when Overrange is not None, and `overrange/<num>` exactly then and for num below the block count |
| LayoutLemmas.ChannelGroupExact | DataManagement.py:42-70 | the channel group receives exactly unit, scalefactor, ID, the block indices, and the overrange group with its flag datasets when flagged |
| LayoutLemmas.WritesPaths | DataManagement.py:38-70 | for distinct plain channel names, no two requests of the buffer share a path, and every path belongs to one channel |
| LayoutLemmas.WriteChannelDataPassIff | DataManagement.py:38-70 | writing a buffer completes exactly when none of its paths exists in the file yet |
| LayoutLemmas.StoredRowsExact | DataManagement.py:67 | the stored rows equal the samples exactly when every sample fits the dataset type |
| LayoutLemmas.RoundTrip | DataManagement.py:61-67 | reading the datasets `<channel>/0..n-1` back yields the converted sample array, and yields the samples themselves exactly when they fit the type |
| MetadataLemmas.SplitFlatName | DataManagement.py:76 | a flat name splits at its first "__" back into namespace and key when the namespace is safe |
| MetadataLemmas.FlatNameInjective | DataManagement.py:76 | distinct (namespace, key) pairs with safe namespaces get distinct flat names |
| MetadataLemmas.SameNamespaceInjective | DataManagement.py:76 | within one namespace distinct keys get distinct flat names, whatever they contain |
| MetadataLemmas.DelimiterFreeCollision | DataManagement.py:74-76 | namespaces and keys free of "__" can still collide: ("a","_x") and ("a_","x") both become "a___x", and the second creation fails |
| MetadataLemmas.EntryInWrites | DataManagement.py:74-76 | every entry of every namespace is requested at its flat name |
| MetadataLemmas.WritesFromEntries | DataManagement.py:74-76 | every request comes from some entry of the dict of dicts |
| MetadataLemmas.MetadataWritesDistinct | DataManagement.py:74-76 | for distinct safe namespaces with distinct keys, all flat names are pairwise distinct |
| MetadataLemmas.FlatNamePlain | DataManagement.py:76 | a namespace and key without '/' give a flat name without '/', one child of the root group |
| MetadataLemmas.WriteMetadataPassIff | DataManagement.py:74-76 | writing valid metadata completes exactly when none of its flat names exists in the file yet |
| MetadataLemmas.MetadataRoundTrip | DataManagement.py:74-76 | after a completed write each entry sits at its flat name, a single top-level name that splits back into its namespace and key |
| AccessorWriter.Format | function_writer/getter_setter_available_writer.py:32-50 | definition: the value of one compiled f-string, its literal runs and escaped braces as written and each field replaced by its local; agrees with the raw f-string text by AccessorLemmas.RenderSource |
| AccessorWriter.FormatAll | function_writer/getter_setter_available_writer.py:33-50 | definition: adjacent f-string literals, which Python concatenates into one string; its value is stated by AccessorLemmas.BlockText |
| AccessorWriter.OutputFunctionsString | function_writer/getter_setter_available_writer.py:27-32 | a result exactly when name, hname, dtype and dcomm are all present; otherwise KeyError naming the first missing key in that order |
| AccessorLemmas.DependsOnlyOnKeys | function_writer/getter_setter_available_writer.py:27-30 | two dicts that agree on the four keys give the same result; other keys are ignored |
| AccessorLemmas.InitLine | function_writer/getter_setter_available_writer.py:32 | the init template evaluates to `        self.__<name> = ItemList(self.__communication, DeviceType.<dtype>, DeviceCommand.<dcomm>)` |
| AccessorLemmas.GetterText | function_writer/getter_setter_available_writer.py:33-38 | the first six f-strings give the comment, `@property`, `def <name>(self):`, the docstring, `return self.__<name>.current_item()` and a blank line |
| AccessorLemmas.SetterText | function_writer/getter_setter_available_writer.py:39-44 | the next six give `@<name>.setter`, `def <name>(self,new_value):`, the docstring, the `is_item_available` guard, `set_current_item(new_value)` and `else:` |
| AccessorLemmas.SetterHeadText | function_writer/getter_setter_available_writer.py:39-41 | the setter's decorator, def and docstring lines |
| AccessorLemmas.SetterGuardText | function_writer/getter_setter_available_writer.py:42-44 | the setter's availability check, assignment and else lines |
| AccessorLemmas.RaiseLine | function_writer/getter_setter_available_writer.py:45 | the error line raises ConfigurationError with an f-string whose braces are single: `{new_value}` and `{self.all_<name>()}` |
| AccessorLemmas.RaiseText | function_writer/getter_setter_available_writer.py:45 | the error line's f-string, alone, is that line followed by a line break |
| AccessorLemmas.AllItemsText | function_writer/getter_setter_available_writer.py:46-50 | the last five give a blank line, `def all_<name>(self):`, its docstring, `return self.__<name>.available_items()` and a final `    ` line |
| AccessorLemmas.BlockText | function_writer/getter_setter_available_writer.py:33-50 | all eighteen adjacent f-strings together are the intended lines, each followed by "\n" |
| AccessorLemmas.GeneratedText | function_writer/getter_setter_available_writer.py:27-50 | on success the result is the pair (the intended init line, the intended block) for the dict's four values |
| AccessorLemmas.GeneratedLines | function_writer/getter_setter_available_writer.py:33-50 | for names without line breaks, splitting the block at "\n" gives exactly the intended lines and a final empty string |
| AccessorLemmas.BlockLayout | function_writer/getter_setter_available_writer.py:33-50 | the block has 19 lines: getter lines 0-5, setter lines 6-11, the raise at 12, the all_ method at 13-17, and "" last |
| AccessorLemmas.RenderSource | function_writer/getter_setter_available_writer.py:32-50 | rendering an f-string's raw body ("{{" and "}}" as braces, "{x}" as the local x) gives the same text as the compiled template |
| AccessorLemmas.RaiseTemplateWellFormed | function_writer/getter_setter_available_writer.py:45 | the literal runs of the error line's f-string hold no brace, so its "{{" / "}}" are escapes |
| AccessorLemmas.RaiseLineRendered | function_writer/getter_setter_available_writer.py:45 | the raw body of the error line's f-string, rendered with the four locals, is the error line with single braces |
| MiscConfig.QtecCheck | MiscConfig.py:65-68 | accepts exactly the ints 0 and 1 (which fit int32); a non-int gives "Value has to be integer.", any other int "Value has to be 0 or 1." |
| MiscConfig.FocusPositionCheck | MiscConfig.py:82-85 | accepts exactly the ints 0..1835 (which fit int16); a non-int gives "Value has to be integer.", an int outside "Value has to be between 0 and 1835." |
| MiscConfig.DeviceCommunication.SetInt | MiscConfig.py:70 | a set_int16 / set_int32 call: that register takes the value, no other register changes, and the call is logged with its width |
| MiscConfig.MiscConfig.constructor | MiscConfig.py:23-31 | the communication is stored only when init_connection is true; a complete register bank gives a valid config |
| MiscConfig.MiscConfig.Read | MiscConfig.py:45-77 | a register read: the register's value, or AttributeError when the communication was never stored |
| MiscConfig.MiscConfig.AfStatus | MiscConfig.py:45-48 | af_status reads (SensorHead, AutofocusResult), AttributeError without a stored communication |
| MiscConfig.MiscConfig.SignalLevelValue | MiscConfig.py:51-54 | signal_level reads (SensorHead, SignalLevel) |
| MiscConfig.MiscConfig.Qtec | MiscConfig.py:57-60 | qtec reads (QTecModule, QTecOn) |
| MiscConfig.MiscConfig.FocusPositionValue | MiscConfig.py:74-77 | focus_position reads (SensorHead, FocusPosition) |
| MiscConfig.MiscConfig.Write | MiscConfig.py:70 | one register write: AttributeError without a stored communication; otherwise only that register changes, one logged write, and reading it back gives the value |
| MiscConfig.MiscConfig.StartAutofocus | MiscConfig.py:36-38 | autofocus makes exactly one logged int16 write of 1 to (SensorHead, Autofocus) and changes no other register |
| MiscConfig.MiscConfig.SetQtec | MiscConfig.py:62-70 | a rejected value raises its ValueError and leaves the device unchanged; an accepted one is the only write, int32 to (QTecModule, QTecOn), and qtec then reads it back |
| MiscConfig.MiscConfig.SetFocusPosition | MiscConfig.py:79-87 | a rejected value raises its ValueError and leaves the device unchanged; an accepted one is the only write, int16 to (SensorHead, FocusPosition), and focus_position then reads it back |

## Left out

- h5py, HDF5 and the operating system are not modelled as such. A file is a map from paths to values, and `os.path.exists` is membership in the file system's map.
- The HDF5 file format, chunking, and the `File` handle object (only its name is kept) are left out.
- DataManagement.HDF5Writer.WriteChannelData: a channel name that is empty or contains '/' is not modelled as h5py treats it. h5py would create intermediate groups for it, while the model stores each request at one path. The layout lemmas assume plain channel names (`StoreLayout.ValidChannelData`).
- DataManagement.HDF5Writer.WriteMetadata: a namespace or key containing '/' is not modelled as h5py treats it. For key "b/c" h5py makes `<ns>__b` a group, or fails when `<ns>__b` is already a dataset; the model stores the flat name as one path and omits that group. The metadata lemmas assume names without '/' (`StoreLayout.ValidMetadata`), and so does MetadataLemmas.WriteMetadataPassIff.
- Sample and flag arrays are always well shaped (`StoreLayout.WellShaped`), as numpy 2-D arrays are. A ragged array is outside the model.
- HDF5Writer.WriteBlocks: a dataset's creation and the filling `dataset[:] = ...` are one request. The filling itself cannot fail in the model.
- StoreLayout.Convert: writing numpy samples into a narrower dataset type is modelled as clipping to the type's range. The exact numpy/HDF5 conversion of out-of-range values is not modelled.
- ScaleFactor, ID and metadata values are opaque items. Their numpy types are not modelled.
- Reopening a file while another is open simply replaces the handle. The replaced h5py handle, its flushing and its closing at garbage collection are not modelled. Only truncating the active file itself is refused.
- The dicts' iteration order is given as a sequence of pairs.
- The reader of the stored files, SI conversion, gather aggregation, the acquisition state machine, the AcqModule stub and the Vibrometer wiring (from_ip) are not part of this model.
- The generator's `__main__` block (clipboard and printing) is left out.
- Each f-string is a list of runs in which the closing "\n" is a run of its own. Python merges adjacent literal text into one run. The value is the same either way.
- AccessorWriter.Render covers the f-string constructs the generator uses: "{{", "}}" and "{name}" fields. Format specs, conversions and expressions inside fields are not modelled.
- MiscConfig.MiscConfig.StartAutofocus: the blocking variant's polling loop (`while self.af_status != 1: sleep(0.1)`) is left out. It waits on hardware without a bound and cannot be shown to end.
- Python's `bool` is a subclass of `int`, so `qtec = True` passes the int check. Arguments are ints or other values; booleans are not modelled separately.
- MiscConfig.DeviceCommunication.SetInt: the polytec library's own conversion of values to 16 or 32 bits is not visible and is not modelled. Both setters only ever pass values that fit the width (`QtecCheck`, `FocusPositionCheck`).
- The range comments for signal_level (0..512) and af_status (0 or 1) describe the device, and the getters do not check them. The model does not constrain register values.

## Findings

| source | as written | input that shows it | evidently intended | confidence | as-written member | corrected member |
|---|---|---|---|---|---|---|
| DataManagement.py:76 | metadata entries go to namespace + "__" + key. The mapping is rebuilt by splitting at the first "__", which is injective only if namespaces and keys are free of "__" | namespace "a" with key "_x" and namespace "a_" with key "x": both are free of "__", both become "a___x", and the second creation fails | distinct entries keep distinct names that split back into their namespace and key; this needs namespaces that also do not end in '_' | not executed | MetadataLemmas.DelimiterFreeCollision | MetadataLemmas.FlatNameInjective |
