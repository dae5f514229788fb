# Zeiss OLE container readers, modelled in Dafny

This project models the core of three Python tools that read Zeiss X-ray microscopy files. Each file is an OLE compound file that stores every field as its own stream.

- **Batch TXM converter.** It reads a `.txm` reconstruction:
  - the image width, height, data type and pixel size streams;
  - the `ImageData*` plane streams, sorted by the first number in their second path component (`extract_number`).

  It reshapes each plane column-major, optionally rescales the volume to 8 bits, and writes a TIFF stack or one 3-D TIFF. It runs over a folder of files either serially (`SerialWorkerThread`) or through `convert_scans` (`ParallelWorkerThread`). Both routes have a stop flag and report through Qt signals.
- **RCP metadata reader.** It reads `.txrm`/`.txm` Versa files (`Versa_reader`) and `.rcp` recipe files (`Recipe_reader`). Each reader fills an insertion-ordered dictionary of `title:<TAB>value` lines from typed stream reads (`stream_unpacker`, `stream_unpacker_from`). It then writes the lines to a `.txt` file, or to a `.csv` file with commas for tabs.
- **XRM converter.** It reads the width, height and `<{n}h` image of each `.xrm` file (`process_xrm`). It casts the image to uint16, rescales it, and saves it next to the file. A Tk counter and progress bar are updated in a `finally` block (`batch_xrm_convert`).

How the model represents things:

- **The OLE container** (`Ole.Container`) is a value with two parts:
  - a map from each ASCII-lower-cased stream path to its bytes (olefile looks paths up case-insensitively);
  - the listing of entries as `listdir()` returns them, with their original case.
- **Exceptions** become the `Err` case of `Common.Result`, with one `Error` constructor per exception the code can raise. Examples: a missing stream, a struct size mismatch, a `KeyError` on an unknown data type, `IndexError` in `extract_number`, a division by zero.
- **float32 fields** are kept as their four raw bytes.
  - Arithmetic on them is a symbolic expression (`RcpText.FExpr`). Its decimal rendering is the parameter `render`.
  - The numeric value of a sample is the parameter `num`. The 8-bit rescale is computed exactly on reals.
- **The XRM intensity rescale** (percentile and `rescale_intensity`) is the parameter `rescale`.
- **Qt signals** are recorded in order as an event trace. Two things are parameters chosen by the environment: the moment the GUI calls `stop()`, and the order in which parallel jobs complete.
- **Code that updates state in place** is modelled by classes whose fields the methods update:
  - the two worker threads;
  - `param_dict`;
  - the XRM widgets.

  Each method is proved against a specification function or a trace function.

Modules:

- `Common`: results and errors.
- `Text`: the `str`, `zfill`, `replace` and `re.search` behaviour used.
- `Ole`: the container.
- `Fields`: `struct` formats, little-endian and two's complement.
- TXM converter:
  - `TxmStreams`: stream discovery and the stable sort;
  - `TxmPlanes`: `ole_extract`, `_load_slices` and the reshape;
  - `Rescale`: `_convert_to_8bit`;
  - `TxmConvert`: metadata, `process_txm`, `_save_slices`;
  - `TxmBatch`: both worker threads and `convert_scans`.
- RCP reader:
  - `RcpStreams`;
  - `RcpText`: line layout, `strptime`/`strftime` of the date fields, the mode tests;
  - `RcpDict`;
  - `RcpEntries`: the shared field texts and the mode/flag blocks;
  - `RcpVersa` and `RcpVersaFacts`;
  - `RcpRecipe` and `RcpRecipeFacts`;
  - `RcpOutput`;
  - `RcpFiles`: `read_files`.
- `Xrm`: the XRM converter.

Where this README and the code differ in wording, the model follows the code.

## Model

| member | source | states |
|---|---|---|
| Common.CollectSpec | Batch-TXM-Converter/Batch_TXM_converter_UofG.py:366-377 | running the per-stream steps in order succeeds exactly when every step does, then yields every value in order; otherwise the error of the earliest failing step |
| Common.CollectSnoc | Batch-TXM-Converter/Batch_TXM_converter_UofG.py:371-374 | one more loop round extends the slices collected so far, or stops at the first error |
| Common.CollectErrorSticks | Batch-TXM-Converter/Batch_TXM_converter_UofG.py:369-377 | once a prefix of the steps fails, the whole loop fails with that error |
| Ole.JoinPath | Batch-TXM-Converter/Batch_TXM_converter_UofG.py:473 | a one-component listing entry names the stream of that name |
| Ole.OpenStream | RCP-Reader/RCP_Metadata_Reader.py:200 | `openstream(path).read()` succeeds exactly when the path exists (ignoring case), returns that stream's bytes, and fails with "not found" otherwise |
| Ole.OpenStreamIgnoresCase | RCP-Reader/RCP_Metadata_Reader.py:287 | two spellings of a path that differ only in ASCII case read the same stream or both fail ('Imageinfo/ExpTimes') |
| Fields.LeUnsigned | Batch-TXM-Converter/Batch_TXM_converter_UofG.py:474 | the little-endian value of a byte string is below 256 to the power of its length |
| Fields.LeBytes | Batch-TXM-Converter/Batch_TXM_converter_UofG.py:474 | the little-endian encoding of a value has the requested width |
| Fields.LeRoundTrip | Batch-TXM-Converter/Batch_TXM_converter_UofG.py:474 | reading back the little-endian encoding of v < 256^w gives v |
| Fields.ToSignedRange | RCP-Reader/RCP_Metadata_Reader.py:204 | the two's-complement reading of w bytes lies in [-2^(8w-1), 2^(8w-1)) and a negative one is the unsigned value minus 2^(8w) |
| Fields.Decode | RCP-Reader/RCP_Metadata_Reader.py:204 | decoding yields one cell per item of the format |
| Fields.Unpack | Batch-TXM-Converter/Batch_TXM_converter_UofG.py:474 | `struct.unpack` succeeds exactly when the data has the format's size, else raises the size error; one cell per item |
| Fields.UnpackFrom | RCP-Reader/RCP_Metadata_Reader.py:230 | `struct.unpack_from` succeeds exactly when offset + size bytes exist and decodes just those bytes, the rest being ignored |
| Fields.U32RoundTrip | Batch-TXM-Converter/Batch_TXM_converter_UofG.py:336-340 | a 32-bit field unpacks to its value under '<I' and to its two's-complement value under '<i' |
| Fields.Int16Element | XRM-Reader/XRM_converter.py:92 | element k of a '<{n}h' unpack is the signed little-endian pair at bytes 2k and 2k+1, within int16 range |
| Text.NatToString | Batch-TXM-Converter/Batch_TXM_converter_UofG.py:180 | `str(n)` is a non-empty digit string with no leading zero for n > 0 |
| Text.IntToString | RCP-Reader/RCP_Metadata_Reader.py:307 | `str(i)` of a negative integer is a minus sign followed by `str(-i)` |
| Text.NatToStringRoundTrip | Batch-TXM-Converter/Batch_TXM_converter_UofG.py:180 | reading the digits of `str(n)` back gives n |
| Text.NatToStringInjective | Batch-TXM-Converter/Batch_TXM_converter_UofG.py:180 | different naturals print differently |
| Text.ZFill | Batch-TXM-Converter/Batch_TXM_converter_UofG.py:407 | `zfill(w)` leaves a string of width at least w alone and pads a shorter one to exactly w |
| Text.ZFillNatRoundTrip | Batch-TXM-Converter/Batch_TXM_converter_UofG.py:407 | a zero-padded decimal is all digits, reads back as the number and has width max(w, digits) |
| Text.ZFillNatInjective | Batch-TXM-Converter/Batch_TXM_converter_UofG.py:180 | two zero-padded decimals of the same width are equal only for equal numbers |
| Text.DropLast | RCP-Reader/RCP_Metadata_Reader.py:295 | `s[:-k]` for k ≥ 1 has length max(0, len - k) and is a prefix of s |
| Text.Slice | RCP-Reader/RCP_Metadata_Reader.py:258 | `s[a:b]` is the exact slice when in bounds and never longer than b - a |
| Text.ReplaceChar | RCP-Reader/RCP_Metadata_Reader.py:396 | `replace(a, b)` keeps the length and changes exactly the characters equal to a |
| Text.ReplaceCharConcat | RCP-Reader/RCP_Metadata_Reader.py:395-396 | replacing in a concatenation replaces in each part, so a file of replaced lines is the replaced file |
| Text.IndexOf | RCP-Reader/RCP_Metadata_Reader.py:290 | the index found is the first occurrence of the character, or the length when absent |
| Text.ThroughFirstSpec | RCP-Reader/RCP_Metadata_Reader.py:290-291 | `''.join(s.partition('X')[0:2])` is the prefix of s through its first 'X', or all of s when there is no 'X' |
| Text.Lower | RCP-Reader/RCP_Metadata_Reader.py:200 | ASCII lower-casing keeps the length and folds each character |
| Text.NonDigitPrefix | Batch-TXM-Converter/Batch_TXM_converter_UofG.py:450 | the leading run of non-digits ends at the first digit |
| Text.DigitPrefix | Batch-TXM-Converter/Batch_TXM_converter_UofG.py:450 | the leading run of digits ends at the first non-digit |
| Text.FirstDigitRun | Batch-TXM-Converter/Batch_TXM_converter_UofG.py:450 | a match of `\d+` is a non-empty string of digits |
| Text.FirstDigitRunSpec | Batch-TXM-Converter/Batch_TXM_converter_UofG.py:450-451 | `re.search(r'\d+', s)` finds a match exactly when s has a digit; the match is maximal and preceded only by non-digits |
| TxmStreams.ExtractNumber | Batch-TXM-Converter/Batch_TXM_converter_UofG.py:434-451 | `extract_number` raises IndexError exactly on a one-component name; otherwise the key is infinity exactly when the second component has no digit |
| TxmStreams.ImageEntries | Batch-TXM-Converter/Batch_TXM_converter_UofG.py:349 | the filtered listing holds exactly the entries whose first component starts with 'ImageData', as a sub-multiset of the listing |
| TxmStreams.Insert | Batch-TXM-Converter/Batch_TXM_converter_UofG.py:350 | one insertion step of the stable sort adds one element |
| TxmStreams.InsertPerm | Batch-TXM-Converter/Batch_TXM_converter_UofG.py:350 | an insertion step adds exactly the inserted element |
| TxmStreams.SortedSnoc | Batch-TXM-Converter/Batch_TXM_converter_UofG.py:350 | appending an element whose key bounds every key keeps the list sorted |
| TxmStreams.InsertBelowLast | Batch-TXM-Converter/Batch_TXM_converter_UofG.py:350 | insertion below the last element keeps every key at most that last key |
| TxmStreams.InsertSorted | Batch-TXM-Converter/Batch_TXM_converter_UofG.py:350 | inserting into a sorted list keeps it sorted |
| TxmStreams.InsertStable | Batch-TXM-Converter/Batch_TXM_converter_UofG.py:350 | inserting after all elements with a key <= its own puts the new element last among its equal keys |
| TxmStreams.SortByKey | Batch-TXM-Converter/Batch_TXM_converter_UofG.py:350 | the sorted list has the input's length |
| TxmStreams.SortByKeySpec | Batch-TXM-Converter/Batch_TXM_converter_UofG.py:350 | `list.sort(key=extract_number)` returns an ascending, stable permutation of its input |
| TxmStreams.SortedLastMax | Batch-TXM-Converter/Batch_TXM_converter_UofG.py:350 | the last element of a sorted list has the largest key |
| TxmStreams.LastKeyBelow | Batch-TXM-Converter/Batch_TXM_converter_UofG.py:350 | a list holding every key group of another ends with a key at least as large |
| TxmStreams.LastOfGroup | Batch-TXM-Converter/Batch_TXM_converter_UofG.py:350 | the last element of a list ends the group of its own key |
| TxmStreams.SameLast | Batch-TXM-Converter/Batch_TXM_converter_UofG.py:350 | two sorted lists with the same key groups end with the same element |
| TxmStreams.StableSortUnique | Batch-TXM-Converter/Batch_TXM_converter_UofG.py:350 | a sorted, stable rearrangement is unique, so the model's insertion sort is whatever stable sort Python runs |
| TxmStreams.DecorateSpec | Batch-TXM-Converter/Batch_TXM_converter_UofG.py:350 | `list.sort(key=...)` computes each key once: decorating pairs every entry with its own key and undecorating gives the entries back |
| TxmStreams.UndecorateWithKey | Batch-TXM-Converter/Batch_TXM_converter_UofG.py:350 | the entries of one key group survive undecorating in order |
| TxmStreams.UndecorateInsert | Batch-TXM-Converter/Batch_TXM_converter_UofG.py:350 | an insertion step on decorated entries adds exactly the inserted entry |
| TxmStreams.UndecorateSort | Batch-TXM-Converter/Batch_TXM_converter_UofG.py:350 | sorting decorated entries keeps the multiset of entries |
| TxmStreams.SortedImageStreams | Batch-TXM-Converter/Batch_TXM_converter_UofG.py:346-353 | `_get_sorted_image_streams` fails exactly when some image entry has fewer than two components; otherwise it returns the image entries ascending by key, as a permutation, and keeps the listing order within each key |
| TxmStreams.SortedImageStreamsOk | Batch-TXM-Converter/Batch_TXM_converter_UofG.py:349-351 | sorting the decorated image entries by key gives an ascending, stable permutation of them |
| TxmPlanes.OleExtract | Batch-TXM-Converter/Batch_TXM_converter_UofG.py:454-477 | `ole_extract` fails with not-found for a missing stream, succeeds exactly when the stream has the format's size, and gives one value per item |
| TxmPlanes.PlaneFormat | Batch-TXM-Converter/Batch_TXM_converter_UofG.py:368 | `ftype_dic[f_type].format(n)` exists exactly for types 3, 5 and 10, describes n items of 1, 2 or 4 bytes, and raises KeyError otherwise |
| TxmPlanes.ColumnMajorIndex | Batch-TXM-Converter/Batch_TXM_converter_UofG.py:373 | the column-major position of a valid (i, j) lies inside the plane |
| TxmPlanes.Column | Batch-TXM-Converter/Batch_TXM_converter_UofG.py:373 | a column of the reshaped plane has n_rows elements |
| TxmPlanes.Reshape | Batch-TXM-Converter/Batch_TXM_converter_UofG.py:373 | `np.reshape(..., (n_cols, n_rows), order='F')` has n_cols columns of n_rows elements |
| TxmPlanes.ReshapeAt | Batch-TXM-Converter/Batch_TXM_converter_UofG.py:373 | element (i, j) of the plane is element i + j * n_cols of the stream |
| TxmPlanes.DivModUnique | Batch-TXM-Converter/Batch_TXM_converter_UofG.py:373 | a flat position i + j * n splits back into i and j |
| TxmPlanes.FlatIndexBijection | Batch-TXM-Converter/Batch_TXM_converter_UofG.py:373 | flat positions and plane coordinates correspond one to one, in both directions |
| TxmPlanes.FlatSplit | Batch-TXM-Converter/Batch_TXM_converter_UofG.py:373 | a flat position below n_cols * n_rows splits into a valid (i, j) whose flat position is itself |
| TxmPlanes.ReshapeInverse | Batch-TXM-Converter/Batch_TXM_converter_UofG.py:373 | each stream element lands at column k % n_cols, row k / n_cols: the reshape loses nothing |
| TxmPlanes.LoadPlane | Batch-TXM-Converter/Batch_TXM_converter_UofG.py:372-373 | the plane of one stream, when it loads, has shape (n_cols, n_rows) |
| TxmPlanes.LoadPlaneSpec | Batch-TXM-Converter/Batch_TXM_converter_UofG.py:368-373 | one plane loads exactly when the type is known and the stream exists with n_cols * n_rows items of the type's width |
| TxmPlanes.PlaneSteps | Batch-TXM-Converter/Batch_TXM_converter_UofG.py:371 | there is one load step per image stream |
| TxmPlanes.LoadSlicesSpecOk | Batch-TXM-Converter/Batch_TXM_converter_UofG.py:366-377 | `_load_slices` succeeds exactly when every plane loads, giving one (n_cols, n_rows) plane per stream in stream order; no streams give [] even for an unknown type, otherwise an unknown type raises KeyError |
| TxmPlanes.LoadSlices | Batch-TXM-Converter/Batch_TXM_converter_UofG.py:366-377 | the loop over the streams returns the specification's result |
| TxmConvert.ReadU32Spec | Batch-TXM-Converter/Batch_TXM_converter_UofG.py:336-338 | a '<I' field read succeeds exactly when the stream exists with four bytes, reads them little-endian, and fails with not-found for a missing stream |
| TxmConvert.ReadF32Spec | Batch-TXM-Converter/Batch_TXM_converter_UofG.py:339 | a '<f' field read succeeds exactly when the stream exists with four bytes and returns them |
| TxmConvert.ExtractMetadataOk | Batch-TXM-Converter/Batch_TXM_converter_UofG.py:333-343 | `_extract_metadata` succeeds exactly when all five reads do and returns their values |
| TxmConvert.ExtractMetadataFirstError | Batch-TXM-Converter/Batch_TXM_converter_UofG.py:336-340 | the reads happen in order and the first failing one is the error; an unreadable ImagesTaken fails although its value is unused |
| TxmConvert.FormatOf | Batch-TXM-Converter/Batch_TXM_converter_UofG.py:54-64 | `OutputFormat(index)` exists exactly for 0 (TIFF stack) and 1 (3-D TIFF), and raises ValueError otherwise |
| TxmConvert.RoundHalfEven | Batch-TXM-Converter/Batch_TXM_converter_UofG.py:405 | Python's `round(x)` is within 0.5 of x and a tie goes to the even integer |
| TxmConvert.RoundWhole | Batch-TXM-Converter/Batch_TXM_converter_UofG.py:405 | `round` of an integer is that integer |
| TxmConvert.RoundTie | Batch-TXM-Converter/Batch_TXM_converter_UofG.py:405 | `round(q + 0.5)` is whichever of q and q + 1 is even |
| TxmConvert.MiddleIndexSpec | Batch-TXM-Converter/Batch_TXM_converter_UofG.py:405 | `round(len(slices) / 2)` is n/2 for even n, the even neighbour for odd n, and a valid index when n > 0 |
| TxmConvert.StackFileNamesDistinct | Batch-TXM-Converter/Batch_TXM_converter_UofG.py:407 | two stack files of one volume get the same name only for the same slice index |
| TxmConvert.AsReals | Batch-TXM-Converter/Batch_TXM_converter_UofG.py:383 | `np.array(slices)` keeps the shape and holds each sample's value |
| TxmConvert.ToUInt16Int16 | Batch-TXM-Converter/Batch_TXM_converter_UofG.py:409 | `astype(np.uint16)` keeps a non-negative int16 sample and adds 65536 to a negative one |
| TxmConvert.Cast16 | Batch-TXM-Converter/Batch_TXM_converter_UofG.py:320 | the uint16 volume has the input's shape and each sample cast |
| TxmConvert.Keep8 | Batch-TXM-Converter/Batch_TXM_converter_UofG.py:316 | the uint8 volume has the input's shape and each sample cast |
| TxmConvert.AsPixels | Batch-TXM-Converter/Batch_TXM_converter_UofG.py:311 | the rescaled bytes keep their shape and values as pixels |
| TxmConvert.Rescale8 | Batch-TXM-Converter/Batch_TXM_converter_UofG.py:380-394 | `_convert_to_8bit` raises on an empty volume, gives NaN (None) for a constant one, and otherwise yields the Convert8Bit bytes |
| TxmConvert.ChoosePixels | Batch-TXM-Converter/Batch_TXM_converter_UofG.py:306-320 | the result is 8-bit exactly when conversion is asked for; type 3 data is kept as uint8, any other type rescaled, and everything saved as uint16 without the flag |
| TxmConvert.SaveSlices | Batch-TXM-Converter/Batch_TXM_converter_UofG.py:397-418 | a TIFF stack always succeeds; a 3-D TIFF fails exactly when the rounded pixel size is zero (25400 / pixel_size) |
| TxmConvert.SaveSlicesSpec | Batch-TXM-Converter/Batch_TXM_converter_UofG.py:400-416 | a stack writes one distinct file per slice, `{folder}/{stem}_{index:04}.tiff`, with the middle slice as preview when asked for and available; a 3-D TIFF writes `{folder}/{stem}.tif` |
| TxmConvert.ProcessTxmSpec | Batch-TXM-Converter/Batch_TXM_converter_UofG.py:281-330 | a successful `process_txm` has a valid format index, one plane per image stream, folder base/short/ext, the pixels chosen by the branching rule, and one file per plane for a stack or one file for 3-D |
| Rescale.SeqMin | Batch-TXM-Converter/Batch_TXM_converter_UofG.py:384 | `np.min` is at most every sample |
| Rescale.SeqMax | Batch-TXM-Converter/Batch_TXM_converter_UofG.py:385 | `np.max` is at least every sample |
| Rescale.ExtremaAttained | Batch-TXM-Converter/Batch_TXM_converter_UofG.py:384-385 | the minimum and the maximum are samples of the array |
| Rescale.FlatMembers | Batch-TXM-Converter/Batch_TXM_converter_UofG.py:383 | flattening the volume keeps exactly its samples |
| Rescale.FlatMap | Batch-TXM-Converter/Batch_TXM_converter_UofG.py:387-388 | an element-wise operation commutes with flattening |
| Rescale.ValuesMembers | Batch-TXM-Converter/Batch_TXM_converter_UofG.py:383 | every sample of the volume is among its flattened values |
| Rescale.WithinRange | Batch-TXM-Converter/Batch_TXM_converter_UofG.py:384-391 | every sample lies between the global minimum and maximum |
| Rescale.ValuesMap | Batch-TXM-Converter/Batch_TXM_converter_UofG.py:387-391 | the flattened values of a mapped volume are the mapped values |
| Rescale.Trunc255Range | Batch-TXM-Converter/Batch_TXM_converter_UofG.py:391 | truncating 255 * q to uint8 for q in [0, 1] gives 0..255, with 0 for 0 and 255 for 1 |
| Rescale.Trunc255Monotone | Batch-TXM-Converter/Batch_TXM_converter_UofG.py:391 | the truncated byte grows with the numerator |
| Rescale.ReflectRange | Batch-TXM-Converter/Batch_TXM_converter_UofG.py:386-390 | after `arr + abs(min)` and `* -1`, the new minimum is min - max and the new maximum 0 |
| Rescale.ScaleReflected | Batch-TXM-Converter/Batch_TXM_converter_UofG.py:387-391 | a reflected sample v rescaled over the reflected range is trunc(255 * (max - v) / (max - min)) |
| Rescale.ReflectAll | Batch-TXM-Converter/Batch_TXM_converter_UofG.py:387-388 | the reflection keeps the shape and reflects each sample |
| Rescale.ScaleAll | Batch-TXM-Converter/Batch_TXM_converter_UofG.py:391 | the rescale keeps the shape and scales each sample over [lo, hi] |
| Rescale.ReflectAllRange | Batch-TXM-Converter/Batch_TXM_converter_UofG.py:386-390 | the reflected volume is non-empty with minimum min - max and maximum 0 |
| Rescale.Convert8Bit | Batch-TXM-Converter/Batch_TXM_converter_UofG.py:380-394 | `_convert_to_8bit` keeps the volume's shape |
| Rescale.Convert8BitNonNegative | Batch-TXM-Converter/Batch_TXM_converter_UofG.py:391 | with a non-negative minimum each byte is trunc(255 * (v - min) / (max - min)) |
| Rescale.Convert8BitNegative | Batch-TXM-Converter/Batch_TXM_converter_UofG.py:386-391 | with a negative minimum each byte is trunc(255 * (max - v) / (max - min)), reversing the order |
| Rescale.Convert8BitRange | Batch-TXM-Converter/Batch_TXM_converter_UofG.py:391 | every output byte lies in 0..255 |
| Rescale.Convert8BitPixel | Batch-TXM-Converter/Batch_TXM_converter_UofG.py:380-394 | each output byte is the closed form Byte8 of its sample over the global range |
| Rescale.Byte8Range | Batch-TXM-Converter/Batch_TXM_converter_UofG.py:391 | a sample within the range gives a byte in 0..255 |
| Rescale.Byte8Extremes | Batch-TXM-Converter/Batch_TXM_converter_UofG.py:386-391 | the minimum becomes 0 and the maximum 255, or the reverse for a negative minimum |
| Rescale.Byte8Order | Batch-TXM-Converter/Batch_TXM_converter_UofG.py:386-391 | with a non-negative minimum the bytes keep the sample order; with a negative one they reverse it |
| TxmBatch.ScanNamesDistinct | Batch-TXM-Converter/Batch_TXM_converter_UofG.py:180 | the folder names `scan_{i+1:02}` of different files differ, however many files there are |
| TxmBatch.SerialStarted | Batch-TXM-Converter/Batch_TXM_converter_UofG.py:177-179 | the serial loop starts at most all the files |
| TxmBatch.SerialWorker.constructor | Batch-TXM-Converter/Batch_TXM_converter_UofG.py:154-170 | a new worker is not stopped and has emitted nothing |
| TxmBatch.SerialWorker.Stop | Batch-TXM-Converter/Batch_TXM_converter_UofG.py:207-209 | `stop()` sets the flag and emits nothing |
| TxmBatch.SerialWorker.RunFile | Batch-TXM-Converter/Batch_TXM_converter_UofG.py:180-195 | one round runs `process_txm`, then emits progress (i + 1, name) and "Processed", or logs the error and carries on |
| TxmBatch.SerialWorker.Run | Batch-TXM-Converter/Batch_TXM_converter_UofG.py:172-205 | `run()` emits the trace of the started files, the completion line and finished or stopped, ending with the flag as the loop last read it |
| TxmBatch.FileProgress | Batch-TXM-Converter/Batch_TXM_converter_UofG.py:191-194 | a file's events hold a progress update only when it converted, with its 1-based position and its name |
| TxmBatch.SerialProgress | Batch-TXM-Converter/Batch_TXM_converter_UofG.py:177-194 | a serial progress update names one of the first n files that converted, at its 1-based position, and every converted file has one |
| TxmBatch.SerialLogs | Batch-TXM-Converter/Batch_TXM_converter_UofG.py:191-194 | every started file logs "Processed" or its error; one failing file does not hide later ones |
| TxmBatch.SerialStopSpec | Batch-TXM-Converter/Batch_TXM_converter_UofG.py:177-205 | a stop before file k means file k never starts and the run ends "stopped"; without a stop every file starts and the run ends "finished" |
| TxmBatch.Submitted | Batch-TXM-Converter/Batch_TXM_converter_UofG.py:261 | `as_completed` yields only jobs that were submitted, in completion order |
| TxmBatch.SubmittedAll | Batch-TXM-Converter/Batch_TXM_converter_UofG.py:261 | when every job was submitted, all of them complete in the environment's order |
| TxmBatch.Rounds | Batch-TXM-Converter/Batch_TXM_converter_UofG.py:241-256 | a loop that checks the flag runs at most its round count |
| TxmBatch.ParallelWorker.constructor | Batch-TXM-Converter/Batch_TXM_converter_UofG.py:83-102 | the worker holds the files `rglob` found, is not stopped and has emitted nothing |
| TxmBatch.ParallelWorker.Stop | Batch-TXM-Converter/Batch_TXM_converter_UofG.py:137-142 | `stop()` sets the flag and emits nothing |
| TxmBatch.ParallelWorker.ReadFlag | Batch-TXM-Converter/Batch_TXM_converter_UofG.py:243 | a read of `is_stopped` sees a stop requested before it, and changes nothing else |
| TxmBatch.ParallelWorker.SubmitAll | Batch-TXM-Converter/Batch_TXM_converter_UofG.py:239-256 | the submission loop submits files in order until it sees the flag, mapping each submitted job to its file's stem via `output_map` |
| TxmBatch.ParallelWorker.Report | Batch-TXM-Converter/Batch_TXM_converter_UofG.py:264-273 | one completed job emits its count with the stem, or with the error |
| TxmBatch.ParallelWorker.ReportAll | Batch-TXM-Converter/Batch_TXM_converter_UofG.py:261-273 | the `as_completed` loop emits the completions it reaches before it sees the flag |
| TxmBatch.ParallelWorker.ConvertAll | Batch-TXM-Converter/Batch_TXM_converter_UofG.py:212-278 | `convert_scans` emits "Starting", the completions and the completion line |
| TxmBatch.ParallelWorker.Run | Batch-TXM-Converter/Batch_TXM_converter_UofG.py:104-135 | `run()` raises FileNotFoundError on an empty file list (error signal and log line), otherwise emits the `convert_scans` trace, then finished unless the flag is set, then stopped if it is |
| TxmBatch.CompletionProgress | Batch-TXM-Converter/Batch_TXM_converter_UofG.py:264-273 | the k-th completion holds one progress update: count k, with the stem, or the stem and the error when the job failed |
| TxmBatch.CompletionsProgress | Batch-TXM-Converter/Batch_TXM_converter_UofG.py:261-273 | the m-th progress update of the parallel route is the m-th finished job, whatever its outcome |
| TxmBatch.NoStopSchedule | Batch-TXM-Converter/Batch_TXM_converter_UofG.py:241-273 | without a stop every file is submitted, every job collected, and the flag read 2n times |
| TxmBatch.ParallelNoStop | Batch-TXM-Converter/Batch_TXM_converter_UofG.py:104-135 | without a stop the trace is Starting(n), one completion per file in completion order, the completion line and finished |
| TxmBatch.ParallelStopWhileSubmitting | Batch-TXM-Converter/Batch_TXM_converter_UofG.py:241-256 | a stop seen while submitting submits nothing after it, reports no job and ends stopped |
| Xrm.OleExtractSpec | XRM-Reader/XRM_converter.py:52-69 | this `ole_extract` returns None for a missing stream, fails exactly when a present stream is not the format's size, and otherwise unpacks it |
| Xrm.ExtractDimension | XRM-Reader/XRM_converter.py:90-91 | `ole_extract(..., "<I")[0]` succeeds exactly when the stream exists with four bytes and reads it little-endian; a missing stream makes the subscript of None raise TypeError |
| Fields.ToUint16 | XRM-Reader/XRM_converter.py:98 | `astype(np.uint16)` yields a value in 0..65535 |
| Fields.ToUint16Spec | XRM-Reader/XRM_converter.py:98 | the cast keeps a non-negative int16, adds 65536 to a negative one, and turns the signed reading of two bytes back into their unsigned reading |
| Xrm.CastImage | XRM-Reader/XRM_converter.py:98 | the reshaped, cast image has n_cols columns of n_rows pixels |
| Xrm.XrmImage | XRM-Reader/XRM_converter.py:88-98 | a decoded image comes from a compound file with valid dimensions and has shape (width, height) |
| Xrm.XrmImageSpec | XRM-Reader/XRM_converter.py:88-98 | decoding succeeds exactly for a compound file whose width and height streams hold four bytes and whose image stream holds 2 * width * height bytes; a missing width or height fails on the subscript of None before the "Missing data" check, and a missing image fails that check |
| Xrm.XrmPixels | XRM-Reader/XRM_converter.py:92-98 | pixel (i, j) is the unsigned little-endian pair at bytes 2k and 2k+1 of the image stream, where k = i + j * width |
| Xrm.OutputPathInjective | XRM-Reader/XRM_converter.py:107 | two files of one folder share an output path only when they have the same stem |
| Xrm.BatchStep | XRM-Reader/XRM_converter.py:139-142 | one more file adds its saved image, or its error dialog, after those of the files before it |
| Xrm.SavedOrFailed | XRM-Reader/XRM_converter.py:110-115 | every file either saves one image or shows one error dialog |
| Xrm.SavedAll | XRM-Reader/XRM_converter.py:139-142 | when every file decodes, the batch saves one rescaled image per file, in file order, at `parent/stem.format`, and shows no dialog |
| Xrm.Converter.constructor | XRM-Reader/XRM_converter.py:171-175 | the counter starts at 0, the bar's maximum at 100 and its value at 0, with nothing saved or shown |
| Xrm.Converter.ProcessXrm | XRM-Reader/XRM_converter.py:72-119 | `process_xrm` returns True exactly when the file decodes; it saves the image or shows the error, then always adds one to the counter and sets the bar to counter / total * 100 |
| Xrm.Converter.BatchXrmConvert | XRM-Reader/XRM_converter.py:122-144 | the batch saves the images of the files that decode and shows the errors of the others, in file order; the counter counts every file, the maximum is the file count, the value ends at 100 when there are files, and the run finishes |
| RcpStreams.StreamUnpackerSpec | RCP-Reader/RCP_Metadata_Reader.py:181-204 | `stream_unpacker` fails for a missing stream; datatype 0 returns the bytes; a struct format needs exactly its size and decodes it, else it raises the size error |
| RcpStreams.StreamUnpackerFromSpec | RCP-Reader/RCP_Metadata_Reader.py:207-231 | `stream_unpacker_from` needs offset + size bytes, decodes exactly those bytes, and otherwise raises the offset error |
| RcpStreams.UnpackerFromZero | RCP-Reader/RCP_Metadata_Reader.py:229-231 | at offset 0, on a stream of exactly the format's size, the offset read and the exact read agree |
| RcpStreams.TypedReadsSpec | RCP-Reader/RCP_Metadata_Reader.py:200-204 | a '<f' read is the four bytes, '<i' their two's-complement value, '?' true for a non-zero byte, each needing exactly that length; datatype 0 reads the whole stream |
| RcpStreams.ReadFloatAtSpec | RCP-Reader/RCP_Metadata_Reader.py:229-231 | a '<f' read at an offset takes the four bytes from that offset and needs them to exist |
| RcpStreams.AsciiSpec | RCP-Reader/RCP_Metadata_Reader.py:295 | `decode("ascii")` fails exactly on a byte above 127 and otherwise keeps each byte's code |
| RcpStreams.Ibm855 | RCP-Reader/RCP_Metadata_Reader.py:290 | `decode('IBM855')` keeps the length and agrees with ASCII below 128 |
| RcpText.CsvIsTxtWithCommas | RCP-Reader/RCP_Metadata_Reader.py:393-396 | the CSV file is the TXT file with every tab turned into a comma |
| RcpText.CsvLine | RCP-Reader/RCP_Metadata_Reader.py:396 | a line with no tab in its title or value reads `title:,value` in CSV |
| RcpText.MakeDate | RCP-Reader/RCP_Metadata_Reader.py:255 | a date that is built is a valid calendar date |
| RcpText.ParseMdy | RCP-Reader/RCP_Metadata_Reader.py:255 | a date parsed with '%m/%d/%Y' is valid |
| RcpText.ParseYmd | RCP-Reader/RCP_Metadata_Reader.py:447 | a date parsed with '%Y-%m-%d' is valid |
| RcpText.ParseHms | RCP-Reader/RCP_Metadata_Reader.py:450 | a time parsed with '%H%M%S' is valid |
| RcpText.Pad2 | RCP-Reader/RCP_Metadata_Reader.py:256 | a two-digit output field is two digits |
| RcpText.Pad4 | RCP-Reader/RCP_Metadata_Reader.py:256 | a four-digit year field is four digits |
| RcpText.Pad2Digits | RCP-Reader/RCP_Metadata_Reader.py:256 | printing the value of two digits gives them back |
| RcpText.TwoDigitsPad2 | RCP-Reader/RCP_Metadata_Reader.py:451 | reading a printed two-digit field gives the number back |
| RcpText.Digits4 | RCP-Reader/RCP_Metadata_Reader.py:447 | four digits read as two pairs of two |
| RcpText.Pad4Digits | RCP-Reader/RCP_Metadata_Reader.py:256 | printing the value of four digits gives them back |
| RcpText.Year4Pad4 | RCP-Reader/RCP_Metadata_Reader.py:447 | a printed year below 10000 parses back |
| RcpText.Day2Pad2 | RCP-Reader/RCP_Metadata_Reader.py:255-256 | a day read as a blank and a digit, or as two digits, prints with a leading zero |
| RcpText.VersaDateRearranged | RCP-Reader/RCP_Metadata_Reader.py:255-256 | a Versa date MM/DD/YYYY that parses is written DD/MM/YYYY from the same digits, a blank before a one-digit day becoming 0 |
| RcpText.RecipeDateRearranged | RCP-Reader/RCP_Metadata_Reader.py:447-448 | a recipe date YYYY-MM-DD that parses is written DD/MM/YYYY |
| RcpText.RecipeTimeRearranged | RCP-Reader/RCP_Metadata_Reader.py:450-451 | a recipe time HHMMSS that parses is written HH:MM:SS |
| RcpText.ParseMdyComplete | RCP-Reader/RCP_Metadata_Reader.py:255 | every valid date written MM/DD/YYYY parses back to itself |
| RcpText.ParseYmdComplete | RCP-Reader/RCP_Metadata_Reader.py:447 | every valid date written YYYY-MM-DD parses back to itself |
| RcpText.ParseHmsComplete | RCP-Reader/RCP_Metadata_Reader.py:450 | every valid time written HHMMSS parses back to itself |
| RcpText.IsWideStringSpec | RCP-Reader/RCP_Metadata_Reader.py:337 | `s[:-245] == 'Tomography Wide'` holds exactly for 'Tomography Wide' followed by 245 more characters |
| RcpDict.ValuesOf | RCP-Reader/RCP_Metadata_Reader.py:385 | `dict.values()` holds each entry's value in insertion order |
| RcpDict.KeysOf | RCP-Reader/RCP_Metadata_Reader.py:250 | the keys come in insertion order |
| RcpDict.AssignFresh | RCP-Reader/RCP_Metadata_Reader.py:251 | assigning a new key appends it |
| RcpDict.AssignExisting | RCP-Reader/RCP_Metadata_Reader.py:251 | assigning a present key replaces its value in place |
| RcpDict.AssignKeepsDistinct | RCP-Reader/RCP_Metadata_Reader.py:251 | an assignment never duplicates a key |
| RcpDict.ParamDict.constructor | RCP-Reader/RCP_Metadata_Reader.py:250 | `param_dict = {}` is empty |
| RcpDict.ParamDict.Put | RCP-Reader/RCP_Metadata_Reader.py:251 | `d[k] = v` updates by dictionary assignment, keeps the keys distinct, and appends when the key is new |
| RcpDict.ParamDict.Add | RCP-Reader/RCP_Metadata_Reader.py:251 | every assignment the readers make is of a new key, so it appends |
| RcpEntries.ThenSpec | RCP-Reader/RCP_Metadata_Reader.py:249-381 | two blocks in sequence succeed exactly when both do, the first error winning; sequencing is associative |
| RcpEntries.AppendsFirstFails | RCP-Reader/RCP_Metadata_Reader.py:249-381 | a failing first block ends the pair with its error |
| RcpEntries.AppendsBoth | RCP-Reader/RCP_Metadata_Reader.py:249-381 | after a first block that succeeds, the pair ends as the second block does |
| RcpEntries.FieldTextSpec | RCP-Reader/RCP_Metadata_Reader.py:306-313 | an integer line fails exactly when its '<i' read does and prints it in decimal; a rounded float needs exactly four bytes, or four bytes from the offset; a trimmed text fails exactly when the ASCII read does and is a prefix of it, `drop` characters shorter |
| RcpEntries.TurnTextSpec | RCP-Reader/RCP_Metadata_Reader.py:279-281 | `round(abs(End_angle) + abs(Sta_angle))` fails with the first failed read; then with round()'s `ValueError` when either angle is a NaN and its `OverflowError` when either is an infinity (and neither a NaN); it succeeds exactly when both angles are finite |
| RcpEntries.ModeEntries | RCP-Reader/RCP_Metadata_Reader.py:338-351 | the mode block assigns 'Acquisition mode' then 'Segments' |
| RcpEntries.ModeEntriesSpec | RCP-Reader/RCP_Metadata_Reader.py:338-351 | the four outcomes: Wide Stitch or Stitch with the segment count read from the file, Wide or Normal with 1 segment and no count read |
| RcpEntries.PutCountedMode | RCP-Reader/RCP_Metadata_Reader.py:339-341 | assigning a mode name plus the segment count appends exactly those entries, or fails with the count's error |
| RcpEntries.PutSingleMode | RCP-Reader/RCP_Metadata_Reader.py:343-344 | assigning a mode name with 1 segment appends exactly those two entries |
| RcpEntries.PutModeEntries | RCP-Reader/RCP_Metadata_Reader.py:338-351 | the four branches assign exactly the mode block's entries, or fail as it does |
| RcpEntries.StitchModeEntries | RCP-Reader/RCP_Metadata_Reader.py:336-351 | the .txrm and recipe mode block assigns 'Acquisition mode' then 'Segments' |
| RcpEntries.StitchModeSpec | RCP-Reader/RCP_Metadata_Reader.py:336-351 | the mode-string read fails first, then the stitch-flag read; otherwise the block is wide exactly when the mode string is 'Tomography Wide' and 245 more characters |
| RcpEntries.PutStitchMode | RCP-Reader/RCP_Metadata_Reader.py:336-351 | the imperative mode block appends exactly the specified entries or fails with the first error |
| RcpEntries.FlagEntries | RCP-Reader/RCP_Metadata_Reader.py:353-363 | a flag block assigns its one key |
| RcpEntries.FlagEntriesSpec | RCP-Reader/RCP_Metadata_Reader.py:353-363 | the flag fails exactly when its '<i' read does; it is "Enabled" exactly for the value 1 and "Disabled" for any other |
| RcpEntries.PutFlag | RCP-Reader/RCP_Metadata_Reader.py:353-363 | the flag assignment appends exactly the specified entry or fails with the read's error |
| RcpVersa.VersaStamp | RCP-Reader/RCP_Metadata_Reader.py:255-259 | the stamp group assigns 'Date' then 'Time' |
| RcpVersa.PutVersaStamp | RCP-Reader/RCP_Metadata_Reader.py:255-259 | the date and time assignments append exactly the group's entries, or fail with its first error, leaving later keys free |
| RcpVersa.VersaSource | RCP-Reader/RCP_Metadata_Reader.py:261-268 | the source group assigns 'kV', 'uA', 'Power' |
| RcpVersa.PutVersaSource | RCP-Reader/RCP_Metadata_Reader.py:261-268 | the source assignments append exactly the group's entries or fail with its first error |
| RcpVersa.VersaTurn | RCP-Reader/RCP_Metadata_Reader.py:270-282 | the turn group assigns 'imgs' then 'rot'; and a .txrm turn group is printed only when both angles were read and are finite (round() raises otherwise) |
| RcpVersa.PutVersaTurn | RCP-Reader/RCP_Metadata_Reader.py:270-282 | the projection and rotation assignments, by suffix, append exactly the group's entries or fail with its first error |
| RcpVersa.VersaTiming | RCP-Reader/RCP_Metadata_Reader.py:284-288 | the timing group assigns 'exposure' |
| RcpVersa.PutVersaTiming | RCP-Reader/RCP_Metadata_Reader.py:284-288 | the exposure assignment, by suffix, appends exactly the group's entry or fails with its error |
| RcpVersa.VersaOptics | RCP-Reader/RCP_Metadata_Reader.py:290-298 | the optics group assigns 'objlens' then 'XFilt' |
| RcpVersa.PutVersaOptics | RCP-Reader/RCP_Metadata_Reader.py:290-298 | the objective and filter assignments append exactly the group's entries or fail with its first error |
| RcpVersa.VersaPixel | RCP-Reader/RCP_Metadata_Reader.py:300-301 | the pixel group assigns 'Vox_size' |
| RcpVersa.PutVersaPixel | RCP-Reader/RCP_Metadata_Reader.py:300-301 | the voxel-size assignment appends exactly the group's entry or fails with its error |
| RcpVersa.VersaDetector | RCP-Reader/RCP_Metadata_Reader.py:303-307 | the detector group assigns 'cone' then 'D_bin' |
| RcpVersa.PutVersaDetector | RCP-Reader/RCP_Metadata_Reader.py:303-307 | the cone-angle and binning assignments append exactly the group's entries or fail with its first error |
| RcpVersa.VersaFrames | RCP-Reader/RCP_Metadata_Reader.py:309-313 | the frames group assigns 'fr_avg' then 'beam_h' |
| RcpVersa.PutVersaFrames | RCP-Reader/RCP_Metadata_Reader.py:309-313 | the frame-averaging and beam-hardening assignments append exactly the group's entries or fail with its first error |
| RcpVersa.VersaDistances | RCP-Reader/RCP_Metadata_Reader.py:315-325 | the distance group assigns 'Src' then 'Det' |
| RcpVersa.PutVersaDistances | RCP-Reader/RCP_Metadata_Reader.py:315-325 | the distance assignments, scaled by suffix, append exactly the group's entries or fail with its first error |
| RcpVersa.VersaStage | RCP-Reader/RCP_Metadata_Reader.py:327-334 | the stage group assigns 'x_ax', 'y_ax', 'z_ax' |
| RcpVersa.PutVersaStage | RCP-Reader/RCP_Metadata_Reader.py:327-334 | the three position assignments append exactly the group's entries or fail with its first error |
| RcpVersa.TxmMode | RCP-Reader/RCP_Metadata_Reader.py:365-381 | the .txm mode block needs the acquisition-mode code and assigns the two mode keys exactly for codes 10 and 17 |
| RcpVersa.PutTxmMode | RCP-Reader/RCP_Metadata_Reader.py:365-381 | the .txm branches append exactly the block's entries or fail with its first error |
| RcpVersa.VersaMode | RCP-Reader/RCP_Metadata_Reader.py:336-381 | for .txrm the mode block assigns 'Acquisition mode', 'Segments', 'HART', 'V_exp' |
| RcpVersa.PutVersaMode | RCP-Reader/RCP_Metadata_Reader.py:336-381 | the suffix tests dispatch to the .txrm or .txm mode block, appending exactly its entries or failing with its first error |
| RcpVersa.PutTxrmMode | RCP-Reader/RCP_Metadata_Reader.py:336-363 | the .txrm mode, HART and variable-exposure assignments append exactly the block's entries or fail with its first error |
| RcpVersa.PutVersaHeader | RCP-Reader/RCP_Metadata_Reader.py:255-268 | date, time, voltage, current and power are appended as specified or fail with the first error |
| RcpVersa.PutVersaTimed | RCP-Reader/RCP_Metadata_Reader.py:270-288 | projections, rotation and exposure are appended as specified or fail with the first error |
| RcpVersa.PutVersaImaging | RCP-Reader/RCP_Metadata_Reader.py:290-301 | objective, filter and voxel size are appended as specified or fail with the first error |
| RcpVersa.PutVersaScan | RCP-Reader/RCP_Metadata_Reader.py:270-301 | the scan settings are appended as specified or fail with the first error |
| RcpVersa.PutVersaPositions | RCP-Reader/RCP_Metadata_Reader.py:315-334 | the distances and positions are appended as specified or fail with the first error |
| RcpVersa.PutVersaFront | RCP-Reader/RCP_Metadata_Reader.py:255-301 | the source and scan settings are appended as specified or fail with the first error |
| RcpVersa.PutVersaSettings | RCP-Reader/RCP_Metadata_Reader.py:303-313 | cone, binning, frame averaging and beam hardening are appended as specified or fail with the first error |
| RcpVersa.PutVersaRig | RCP-Reader/RCP_Metadata_Reader.py:303-334 | the detector settings and positions are appended as specified or fail with the first error |
| RcpVersa.PutVersaBack | RCP-Reader/RCP_Metadata_Reader.py:303-381 | the detector settings, positions and mode block are appended as specified or fail with the first error |
| RcpVersa.PutVersaWhole | RCP-Reader/RCP_Metadata_Reader.py:255-381 | every assignment after the file name is appended as specified or fails with the first error |
| RcpVersa.VersaReader | RCP-Reader/RCP_Metadata_Reader.py:234-398 | `Versa_reader` returns the files its output option writes from the dictionary, or the first error |
| RcpVersaFacts.GroupKeysSpec | RCP-Reader/RCP_Metadata_Reader.py:249-381 | each Versa group that succeeds assigns exactly its keys, in order |
| RcpVersaFacts.BlockKeysSpec | RCP-Reader/RCP_Metadata_Reader.py:249-381 | each Versa block that succeeds assigns exactly its keys, in order |
| RcpVersaFacts.FrontKeys | RCP-Reader/RCP_Metadata_Reader.py:255-301 | the source and scan settings assign 'Date' through 'Vox_size' in source order |
| RcpVersaFacts.BackKeys | RCP-Reader/RCP_Metadata_Reader.py:303-381 | the detector settings, positions and mode assign 'cone' through 'z_ax', then the mode keys |
| RcpVersaFacts.WholeKeys | RCP-Reader/RCP_Metadata_Reader.py:255-381 | the assignments after the file name use the keys 'Date' through 'z_ax', then the mode keys |
| RcpVersaFacts.NamedKeys | RCP-Reader/RCP_Metadata_Reader.py:251 | the file name's key comes before a block's keys |
| RcpVersaFacts.VersaKeys | RCP-Reader/RCP_Metadata_Reader.py:249-381 | a completed Versa dictionary holds its keys in the order of the source's assignments, the mode keys last |
| RcpVersaFacts.NamedWholeKeys | RCP-Reader/RCP_Metadata_Reader.py:251-381 | the file name's key precedes every later key |
| RcpVersaFacts.VersaEntryCount | RCP-Reader/RCP_Metadata_Reader.py:336-381 | a completed .txrm dictionary has 25 entries and a .txm one 21 or 23 |
| RcpVersaFacts.VersaMissingDate | RCP-Reader/RCP_Metadata_Reader.py:255 | without 'ImageInfo/Date' the reader stops at its first read with that stream's error |
| RcpVersaFacts.VersaDateText | RCP-Reader/RCP_Metadata_Reader.py:255-256 | the date line is the stamp's first ten characters MM/DD/YYYY written as DD/MM/YYYY |
| RcpVersaFacts.TxmOtherCode | RCP-Reader/RCP_Metadata_Reader.py:365-381 | a .txm acquisition-mode code other than 17 and 10 adds no entry and reads nothing more |
| RcpVersaFacts.TxmModeCodes | RCP-Reader/RCP_Metadata_Reader.py:366-381 | code 17 is wide and 10 is not; with the stitch flag they fix the mode entries |
| RcpVersaFacts.VersaOutputFile | RCP-Reader/RCP_Metadata_Reader.py:383-398 | option 1 writes one `{stem}_{txrm or txm}.txt` holding the dictionary's values, option 2 the `.csv` with commas for tabs, and other options write nothing |
| RcpRecipe.RecipeTitle | RCP-Reader/RCP_Metadata_Reader.py:444-445 | the title group assigns 'Rcp_name' |
| RcpRecipe.PutRecipeTitle | RCP-Reader/RCP_Metadata_Reader.py:444-445 | the recipe-name assignment appends exactly the group's entry or fails with its error |
| RcpRecipe.RecipeClock | RCP-Reader/RCP_Metadata_Reader.py:447-451 | the clock group assigns 'Date' then 'Time' |
| RcpRecipe.PutRecipeClock | RCP-Reader/RCP_Metadata_Reader.py:447-451 | the date and time assignments append exactly the group's entries or fail with the first error |
| RcpRecipe.RecipeTube | RCP-Reader/RCP_Metadata_Reader.py:453-463 | the tube group assigns 'kV', 'Power', 'uA' |
| RcpRecipe.PutRecipeTube | RCP-Reader/RCP_Metadata_Reader.py:453-463 | voltage, power and the guarded current append exactly the group's entries or fail with the first error |
| RcpRecipe.RecipeTurn | RCP-Reader/RCP_Metadata_Reader.py:465-470 | the turn group assigns 'imgs' then 'rot'; and is printed only when both angles were read and are finite (round() raises otherwise) |
| RcpRecipe.PutRecipeTurn | RCP-Reader/RCP_Metadata_Reader.py:465-470 | the projection and rotation assignments append exactly the group's entries or fail with the first error |
| RcpRecipe.RecipeTiming | RCP-Reader/RCP_Metadata_Reader.py:472-473 | the timing group assigns 'exposure' |
| RcpRecipe.PutRecipeTiming | RCP-Reader/RCP_Metadata_Reader.py:472-473 | the exposure assignment appends exactly the group's entry or fails with its error |
| RcpRecipe.RecipeOptics | RCP-Reader/RCP_Metadata_Reader.py:475-479 | the optics group assigns 'objlens' then 'XFilt' |
| RcpRecipe.PutRecipeOptics | RCP-Reader/RCP_Metadata_Reader.py:475-479 | the magnification and filter assignments append exactly the group's entries or fail with the first error |
| RcpRecipe.RecipeFrames | RCP-Reader/RCP_Metadata_Reader.py:481-485 | the frames group assigns 'D_bin' then 'fr_avg' |
| RcpRecipe.PutRecipeFrames | RCP-Reader/RCP_Metadata_Reader.py:481-485 | the binning and frame-averaging assignments append exactly the group's entries, leaving the 'Vox_size' and 'cone' keys free |
| RcpRecipe.RecipeHardening | RCP-Reader/RCP_Metadata_Reader.py:487-488 | the hardening group assigns 'beam_h' |
| RcpRecipe.PutRecipeHardening | RCP-Reader/RCP_Metadata_Reader.py:487-488 | the beam-hardening assignment appends exactly the group's entry, leaving 'Vox_size' and 'cone' free |
| RcpRecipe.RecipeDistances | RCP-Reader/RCP_Metadata_Reader.py:490-494 | the distance group assigns 'Src' then 'Det' |
| RcpRecipe.PutRecipeDistances | RCP-Reader/RCP_Metadata_Reader.py:490-494 | the distance assignments append exactly the group's entries, leaving 'Vox_size' and 'cone' free |
| RcpRecipe.RecipePixel | RCP-Reader/RCP_Metadata_Reader.py:496-503 | the pixel group assigns 'Vox_size' then 'cone' |
| RcpRecipe.PutRecipePixel | RCP-Reader/RCP_Metadata_Reader.py:496-503 | the voxel-size and cone-angle assignments append exactly the group's entries, or fail with the division by zero or first read error |
| RcpRecipe.RecipeStage | RCP-Reader/RCP_Metadata_Reader.py:505-512 | the stage group assigns 'x_ax', 'y_ax', 'z_ax' |
| RcpRecipe.PutRecipeStage | RCP-Reader/RCP_Metadata_Reader.py:505-512 | the three position assignments append exactly the group's entries or fail with the first error |
| RcpRecipe.RecipeMode | RCP-Reader/RCP_Metadata_Reader.py:514-541 | the mode group assigns 'Acquisition mode', 'Segments', 'HART', 'V_exp' |
| RcpRecipe.PutRecipeMode | RCP-Reader/RCP_Metadata_Reader.py:514-541 | the mode, HART and variable-exposure assignments append exactly the group's entries or fail with the first error |
| RcpRecipe.PutRecipeNamed | RCP-Reader/RCP_Metadata_Reader.py:444-451 | the recipe name, date and time are appended as specified or fail with the first error |
| RcpRecipe.PutRecipeHeader | RCP-Reader/RCP_Metadata_Reader.py:444-463 | the name, clock and tube settings are appended as specified or fail with the first error |
| RcpRecipe.PutRecipeTimed | RCP-Reader/RCP_Metadata_Reader.py:465-473 | projections, rotation and exposure are appended as specified or fail with the first error |
| RcpRecipe.PutRecipeScan | RCP-Reader/RCP_Metadata_Reader.py:465-479 | the scan settings and optics are appended as specified or fail with the first error |
| RcpRecipe.PutRecipeSettings | RCP-Reader/RCP_Metadata_Reader.py:481-488 | binning, frame averaging and beam hardening are appended as specified, leaving 'Vox_size' and 'cone' free |
| RcpRecipe.PutRecipeGeometry | RCP-Reader/RCP_Metadata_Reader.py:490-503 | the distances, voxel size and cone angle are appended as specified or fail with the first error |
| RcpRecipe.PutRecipeDetector | RCP-Reader/RCP_Metadata_Reader.py:481-503 | the detector settings and geometry are appended as specified or fail with the first error |
| RcpRecipe.PutRecipeBack | RCP-Reader/RCP_Metadata_Reader.py:505-541 | the positions and the mode block are appended as specified or fail with the first error |
| RcpRecipe.PutRecipeFront | RCP-Reader/RCP_Metadata_Reader.py:444-479 | every assignment from the recipe name to the filter is appended as specified or fails with the first error |
| RcpRecipe.PutRecipeRear | RCP-Reader/RCP_Metadata_Reader.py:481-541 | every assignment from the binning to variable exposure is appended as specified or fails with the first error |
| RcpRecipe.PutRecipeWhole | RCP-Reader/RCP_Metadata_Reader.py:444-541 | every assignment after the file name is appended as specified or fails with the first error |
| RcpRecipe.ReadRecipe | RCP-Reader/RCP_Metadata_Reader.py:441-561 | one pass of the loop returns the files its output option writes from recipe x's dictionary, or the first error |
| RcpRecipe.PassesSticks | RCP-Reader/RCP_Metadata_Reader.py:439-561 | once a pass has raised, later passes change nothing |
| RcpRecipe.RecipeReader | RCP-Reader/RCP_Metadata_Reader.py:434-562 | `Recipe_reader` reads 'NoOfTomoDataSets', runs one pass per recipe, stops at the first error, and reports the value of `no_out` after the loop |
| RcpRecipeFacts.GroupKeysSpec | RCP-Reader/RCP_Metadata_Reader.py:441-541 | each recipe group that succeeds assigns exactly its keys, in order |
| RcpRecipeFacts.BlockKeysSpec | RCP-Reader/RCP_Metadata_Reader.py:441-541 | each recipe block that succeeds assigns exactly its keys, in order |
| RcpRecipeFacts.FrontKeys | RCP-Reader/RCP_Metadata_Reader.py:444-479 | the name, source and scan settings assign 'Rcp_name' through 'XFilt', with 'Power' before 'uA' |
| RcpRecipeFacts.RearKeys | RCP-Reader/RCP_Metadata_Reader.py:481-541 | the remaining assignments put 'Vox_size' and 'cone' after the distances |
| RcpRecipeFacts.NamedKeys | RCP-Reader/RCP_Metadata_Reader.py:442 | the file name's key comes before a block's keys |
| RcpRecipeFacts.NamedWholeKeys | RCP-Reader/RCP_Metadata_Reader.py:442-541 | the file name's key precedes every later key |
| RcpRecipeFacts.RecipeKeys | RCP-Reader/RCP_Metadata_Reader.py:441-541 | a completed recipe dictionary holds all 26 keys in the order of the source's assignments |
| RcpRecipeFacts.FirstOfPair | RCP-Reader/RCP_Metadata_Reader.py:441-541 | the first entry of a block is the first entry of its first part |
| RcpRecipeFacts.RecipeNameFirst | RCP-Reader/RCP_Metadata_Reader.py:442-445 | the first entry is the file name and the second the recipe name, which also names the output file |
| RcpRecipeFacts.RecipeStagePositions | RCP-Reader/RCP_Metadata_Reader.py:505-512 | the positions are the '<f' fields at offsets 0, 4 and 8 of 'InitialPositions', which needs at least 12 bytes |
| RcpRecipeFacts.RecipeDistanceFields | RCP-Reader/RCP_Metadata_Reader.py:490-494 | the distances are the '<f' fields at offsets 16 and 20, needing at least 24 bytes, with the source distance printed unsigned |
| RcpRecipeFacts.RecipeStampTexts | RCP-Reader/RCP_Metadata_Reader.py:447-451 | the date is 'TimeStamp' bytes 0 to 10 YYYY-MM-DD written DD/MM/YYYY, and the time bytes 11 to 17 HHMMSS written HH:MM:SS |
| RcpRecipeFacts.RecipeCurrentGuard | RCP-Reader/RCP_Metadata_Reader.py:459-463 | the current is "0.0" with no division when the voltage or the power is zero, and round(power * 1000 / voltage, 1) otherwise |
| RcpRecipeFacts.RecipePixelDivisions | RCP-Reader/RCP_Metadata_Reader.py:497-501 | a zero source distance, and otherwise a zero binning, raises ZeroDivisionError after the earlier reads |
| RcpRecipeFacts.RecipeOutputFile | RCP-Reader/RCP_Metadata_Reader.py:546-558 | for option 1 or 2 a recipe that is read writes one file named `{stem}_{recipe name}_rcp` with the option's extension |
| RcpRecipeFacts.PassesFiles | RCP-Reader/RCP_Metadata_Reader.py:439-561 | when no pass fails and each pass writes one file, the files come one per pass, in pass order |
| RcpRecipeFacts.RecipesRunFiles | RCP-Reader/RCP_Metadata_Reader.py:439-561 | with option 1 or 2 and no failure, the reader writes one file per recipe, in recipe order |
| RcpRecipeFacts.RecipeFailureStops | RCP-Reader/RCP_Metadata_Reader.py:439-561 | a failing recipe ends the reader with its error; the files of earlier recipes stay written and no later recipe is read |
| RcpRecipeFacts.NoOutBound | RCP-Reader/RCP_Metadata_Reader.py:547-564 | `no_out` is bound after the loop exactly when some recipe was read and the option is 1, 2 or 3; it is 1 exactly for option 3 |
| RcpOutput.WriteValues | RCP-Reader/RCP_Metadata_Reader.py:388-396 | the write loop produces the values concatenated, with commas for tabs in CSV |
| RcpOutput.OutputFilesSpec | RCP-Reader/RCP_Metadata_Reader.py:388-398 | option 1 writes one .txt of the values in order, option 2 one .csv that is that text with commas for tabs, any other option nothing |
| RcpFiles.ReadFiles | RCP-Reader/RCP_Metadata_Reader.py:164-178 | `read_files` dispatches on the suffix and returns the chosen reader's outcome |
| RcpFiles.ReaderForSpec | RCP-Reader/RCP_Metadata_Reader.py:173-178 | '.txrm' and '.txm' select the Versa reader of their own kind, '.rcp' the recipe reader, and any other suffix none |
| RcpFiles.ReadFilesOutcomes | RCP-Reader/RCP_Metadata_Reader.py:173-178 | a file of any other suffix is skipped, writing and raising nothing; a Versa file writes at most one file, and none when its reader fails |

## Left out

- The GUIs of all three tools are not modelled: the Qt main window, the Tk window, file dialogs, message boxes and the slice preview window. They are user interface code with no logic beyond calling the modelled functions. `TxmConvert.SaveSlices` records which slice would be previewed.
- Dask internals are not modelled: the client, memory per worker, cancelling futures in `stop()`, and `close_dask_client`. What completes, and in what order, is the parameter `order`; only the sequential bookkeeping of the threads is modelled.
- A missing Dask client (`RuntimeError` in `ParallelWorkerThread.run`) is not modelled. The client is an external object.
- `_zip_output` is not modelled, and `process_txm` has no zip option. The call passes four arguments to a three-argument function, so `zip_output=True` would raise `TypeError` after the slices are written; the archive itself is file I/O.
- File writing is not modelled: `imwrite`, `TiffWriter`, `imsave`, `open(...).write` and `mkdir`. The model returns the names and contents that would be written.
- Console output, logging, `os.chdir` and the elapsed-time text of the completion lines are not modelled. The completion line is a fixed `Completed` message.
- Directory traversal (`rglob`) is an input: the list of files in the order found.
- Opening an XRM file that is not a compound file is `content == None`. Opening a TXM or RCP file that cannot be opened is not modelled: those containers are always given.
- TxmStreams.ExtractNumber: only the ASCII digits `0`..`9` are digits. Python's `\d` and `int()` also accept every other Unicode decimal digit, so a name whose only digits are such characters gets a number in the source but the key infinity (sorted last) here. `Text.FirstDigitRun` and `Text.FirstDigitRunSpec` have the same restriction.
- `Ole.OpenStream`: only ASCII case folding is modelled, not olefile's full rules for stream names.
- float32 arithmetic, Python's float repr and the values of `round(x, n)`, `sqrt` and `asin` are not modelled. They are symbolic (`RcpText.FExpr`), and the text is the parameter `render`.
- `RcpRecipe.RecipePixel` models the division by a zero source distance and by a zero binning. It does not model three float-dependent exceptions: the `ValueError` of `float(mag[:-1])` on a non-numeric magnification; a zero magnification; and `(|src| + det) == 0`. Nor does it model the `ValueError` of `asin` outside [-1, 1].
- `RcpVersa.PutVersaSource`: the Versa power `round(volts * (curr / 1000), 1)` is symbolic, as are all printed floats of both readers.
- `TxmConvert.Rescale8`: the sample values are the parameter `num` on exact reals, not float32/float64 arithmetic. NaN and infinite samples are not modelled, nor the wrap of casting an out-of-range float to uint8.
- `TxmConvert.SaveSlices`: "rounds to zero" is decided by `num` on the pixel size. The TIFF resolution metadata is not modelled.
- `Xrm.Converter.ProcessXrm`: `np.percentile` and `rescale_intensity` are the parameter `rescale`. Their own exceptions, such as a constant image, are not modelled.
- `Xrm.Converter.BatchXrmConvert`: the Tk link between the `IntVar` and the bar is not modelled. The bar's value is set to a percentage while its maximum is the file count; the model records both as written.
- `RcpStreams.Ibm855`: a byte above 127 becomes the character with the same code, not code page 855's glyph.
- `RcpText.ParseMdy`: only the fixed-width layouts the readers slice are modelled, not every form `strptime` accepts. The same applies to `RcpText.ParseYmd` and `RcpText.ParseHms`.
- `RcpRecipe.RecipeReader`: the interactive tail after the loop is not modelled. It is console input: the "open another file?" prompt and `GetFile(3)`. The method returns the value `no_out` holds. When no recipe was read, or the option is not 1 to 3, that value is unbound (`None`), and the source then raises `UnboundLocalError` at line 564.
- `RcpVersa.VersaReader`: option 3's prompt loop and the console printing of the values are not modelled.
- The model reads a stream again each time the source does. The reads are pure, so repeated reads agree.
- `TxmConvert.ProcessTxmSpec`: the output path joins with '/', not `pathlib`'s rules (`.` or absolute components).
- `TxmConvert.ExtractMetadataOk`: each exception's text, and the way `except Exception as e: raise Exception(f"...: {e}")` wraps it, is not modelled. The `Err` keeps the original error. The same applies to the other TXM helpers.
