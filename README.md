# Webcam recorder: the export of one recording

This project models, in Dafny, what happens when the recorder's "Start
Recording" button is pressed (`start_recording` in `ui/main_window.py`),
together with the helpers it calls in `core/converter.py` and
`core/metadata.py`:

- **Reading the form.** The ten fields are read as text. `int()` is applied to
  the frame rate, the frame count and the number before the first `" - "` of
  the device label. A blank gain becomes 128 and a blank exposure becomes
  `None`.
- **The checks.** A missing identifier, folder or file name, or a zero rate or
  count, shows "Input Error". Devices from index 2 on are placeholders.
- **The capture loop.** It starts from no frames. It takes the camera's reads
  until the requested count is reached or the `q` key follows a frame. A failed
  open or read raises `RuntimeError` with the camera module's message.
- **The export.** It writes to `output_dir/sub-S/ses-X/task/filename_base`:
  - an XVID video;
  - the HDF5 archive with its single `"video"` dataset;
  - one JPEG per colour of each frame, named `frame_{i:04d}_{red|green|blue}.jpg`
    inside the `_channels` folder;
  - the JSON metadata;
  - one row in the session registry.

Module by module:

- `Text` models `str.strip` and `split(sep)[0]`. Whitespace is every
  character `str.isspace()` accepts, ASCII and Unicode.
- `Decimal` models `int()`, `str()` and `{i:04d}`. `int()` skips the same
  whitespace except the separators U+001C-U+001F, which make it raise.
- `Paths` models `os.path.join` on POSIX, including an absolute component
  replacing what came before.
- `Frames` holds BGR pixels and `cv2.split` / `cv2.merge`.
- `Json` holds the metadata values.
- `FileStore` is the disk. `FileSystem` records the directories `os.makedirs`
  created and every file write in order as (path, logical content). Its
  `VideoWriter` models `cv2.VideoWriter`.
- `Database` holds the registry's rows.
- `Metadata` and `Converter` follow the two core modules.
- `MainWindow` holds the form, the capture and the export. Its class `App`
  holds the variables of `launch_app` that `start_recording` updates: `frames`,
  `frame_count`, `last_output_dir` and the state of the "Open Last Output
  Folder" button.

The camera is a parameter (`Device`: whether it opens, and its n-th read).
So are the `q` key (`stop(i)`: pressed after frame `i`) and the clock (`now`).

## Model

| member | source | states |
|---|---|---|
| Text.TrimLeft | ui/main_window.py:85-86 | the left half of `strip()`: the result is a suffix of the text, everything dropped is whitespace, and the result does not start with whitespace |
| Text.TrimRight | ui/main_window.py:85-86 | the right half of `strip()`: the result is a prefix of the text, everything dropped is whitespace, and the result does not end with whitespace |
| Text.StripEmptyIffBlank | ui/main_window.py:85-86 | `text.strip() == ''` holds exactly when every character of the text is whitespace |
| Text.Strip | ui/main_window.py:85-86 | `strip()` leaves no whitespace at either end, never lengthens the text, and turns an all-whitespace text into "" |
| Text.TrimLeftSurrounded | ui/main_window.py:85-86 | `lstrip()` of whitespace followed by a text that does not start with whitespace is that text |
| Text.TrimRightSurrounded | ui/main_window.py:85-86 | `rstrip()` of a text that does not end with whitespace, followed by whitespace, is that text |
| Text.StripSurrounded | ui/main_window.py:85-86 | `strip()` removes exactly the whitespace around a text whose two ends are not whitespace |
| Text.BeforeFirst | ui/main_window.py:89 | `label.split(" - ")[0]` is a prefix of the label with no separator starting inside it; when it is not the whole label, the separator follows it |
| Text.BeforeFirstAt | ui/main_window.py:89 | when the first separator starts at position j, `split(sep)[0]` is the first j characters |
| Decimal.Digits | core/converter.py:15-17 | `str(n)` of a natural number is a non-empty run of ASCII digits with no leading zero |
| Decimal.ParseInt | ui/main_window.py:78-79 | `int()` of an empty or all-whitespace field raises `ValueError` |
| Decimal.ParseUnsigned | ui/main_window.py:78-79 | `int()` of a non-empty run of at most 4300 digits is its decimal value (the model also reads longer runs; see "## Left out") |
| Decimal.ParseSigned | ui/main_window.py:78-79 | `int()` of a minus sign followed by at most 4300 digits is the negated value |
| Decimal.ParseFormatInt | ui/main_window.py:78-79 | `int(str(n)) == n` for every integer n of at most 4300 digits, where both Python calls succeed (the model proves it for every integer) |
| Decimal.ParsePaddedInt | ui/main_window.py:78-79 | `int()` skips whitespace around the number, other than U+001C-U+001F: `int(w1 + str(n) + w2) == n` for n of at most 4300 digits |
| Decimal.PadDigits | core/converter.py:15-17 | the padded index `{i:04d}` is all digits and at least 4 characters long |
| Decimal.PadDigitsValue | core/converter.py:15-17 | the zero-padded frame index `{i:04d}` reads back as `i` |
| Decimal.PadDigitsInjective | core/converter.py:15-17 | distinct frame indices get distinct padded texts |
| Decimal.PadDigitsLength | core/converter.py:15-17 | the padded index has exactly 4 characters when the index is below 10000 |
| Paths.JoinParts | ui/main_window.py:119-121 | `os.path.join(a, b)` ends with `b`; it starts with `a` when `b` is relative; it is `b` itself when `b` is absolute |
| Paths.JoinRelative | ui/main_window.py:119-121 | joining a relative component appends it after a directory prefix of `a`, so two relative components joined to one directory give equal paths only when they are equal |
| Paths.JoinEndsWithSep | ui/main_window.py:119-121 | a join onto a non-empty directory ends with "/" exactly when the relative last component is empty or ends with "/" |
| Frames.ChannelPlane | core/converter.py:14 | one colour's image of a frame has the frame's height, width and pixel count |
| Frames.Split | core/converter.py:14 | `cv2.split` returns blue first, then green, then red, each equal to that colour's image of the frame |
| Frames.MergeSplit | core/converter.py:14 | splitting loses nothing: merging the three planes gives the frame back |
| FileStore.LatestContents | core/metadata.py:13-15 | the files on disk after a sequence of writes are exactly the paths written to |
| FileStore.LastWriteWins | core/metadata.py:13-15 | opening a file for writing replaces it: a path holds the content of the last write to it |
| FileStore.DistinctWritesHoldContent | ui/main_window.py:127-141 | after a batch of writes to pairwise distinct paths, each of those paths holds what the batch wrote, whatever was there before |
| FileStore.FileSystem.MakeDirs | ui/main_window.py:120 | `os.makedirs(path, exist_ok=True)` adds the directory, writes no file, and changes nothing when the directory exists |
| FileStore.FileSystem.Write | core/metadata.py:13-15 | one write is appended to the log and no directory is made |
| FileStore.VideoWriter.constructor | ui/main_window.py:128 | the writer keeps its path, codec, rate and frame size and holds no frame yet |
| FileStore.VideoWriter.Write | ui/main_window.py:129-130 | each `out.write(f)` appends the frame |
| FileStore.VideoWriter.Release | ui/main_window.py:131 | `out.release()` writes one video file holding every frame written, in order, with the writer's codec, rate and size |
| Database.Registry.constructor | core/database.py:3-17 | a new registry holds no row |
| Database.Registry.InsertSessionMetadata | core/database.py:19-25 | one row with the five given fields is appended and nothing else changes |
| Metadata.GenerateMetadata | core/metadata.py:4-11 | the metadata has exactly the keys subject_id, session_id, timestamp, frame_count and camera_settings |
| Metadata.DecodeGenerated | core/metadata.py:5-11 | the identifiers, the frame count and the camera settings are stored as given, and the timestamp is the one clock reading |
| Metadata.GeneratedFromDecoded | core/metadata.py:5-11 | conversely, every document that reads back as a record is what `generate_metadata` builds from that record: nothing is added or dropped |
| Metadata.SaveMetadataToJson | core/metadata.py:13-15 | one JSON file holding the metadata is written to the given name |
| Converter.Hdf5Content | core/converter.py:7-9 | the archive holds exactly one dataset, "video", and reading `f['video'][:]` back gives every frame in order |
| Converter.ArchiveShape | core/converter.py:9 | for frames of one shape `(h, w, 3)` the dataset's shape is `[len(frames), h, w, 3]` |
| Converter.SaveFramesToHdf5 | core/converter.py:7-9 | one HDF5 file holding that archive is written to the given name |
| Converter.FrameChannelWriteAt | core/converter.py:14-17 | a frame's three images are red, green and blue in that order, and each holds that colour's plane |
| Converter.ChannelFileName | core/converter.py:15-17 | every image name starts with "frame_" and ends with ".jpg" |
| Converter.ChannelWrites | core/converter.py:13-17 | exactly three images are written per frame, none for no frames |
| Converter.ChannelWriteAt | core/converter.py:13-17 | write k goes to `frame_{k/3:04d}_{red, green, blue for k%3 = 0, 1, 2}.jpg` in the folder and holds that colour of frame k/3: red is the third plane of the BGR split and blue the first |
| Converter.ChannelFileNameInjective | core/converter.py:15-17 | two (frame index, colour) pairs get the same file name only when they are the same pair |
| Converter.ChannelPathsDistinct | core/converter.py:13-17 | no two channel images of one call go to the same path |
| Converter.SplitAndSaveChannels | core/converter.py:11-17 | the folder is created even for no frames, and the writes are exactly the ordered per-frame red, green, blue images |
| Converter.BidsPath | core/converter.py:30-31 | the helper's path always ends in "/func", whatever the inputs |
| Converter.BidsLayout | core/converter.py:30-31 | with identifiers that do not end in "/", the helper returns `output_root/sub-S/ses-X/func` |
| Converter.GetBidsPath | core/converter.py:30-33 | the helper creates the directory and returns it; a second call with the same inputs changes nothing |
| MainWindow.GainSetting | ui/main_window.py:85 | a gain of whitespace only (any character `str.isspace()` accepts) becomes 128; any other text is kept as the float it spells |
| MainWindow.ExposureSetting | ui/main_window.py:86 | an exposure of whitespace only becomes None; any other text is kept as the float it spells |
| MainWindow.CameraIndex | ui/main_window.py:88-89 | an empty device label, or one starting with " - ", leaves no number and raises `ValueError` |
| MainWindow.ParseForm | ui/main_window.py:75-89 | reading the form fails only with `ValueError`, and a blank frame rate or frame count always raises it, before the "all fields" check |
| MainWindow.CameraIndexOfLabel | ui/main_window.py:88-89 | the device label "n - name" gives camera index n, whatever the name says |
| MainWindow.ParseFilledForm | ui/main_window.py:75-89 | a form whose numbers are written as `str(n)` reads back to exactly those numbers; all text fields are taken as typed, without trimming |
| MainWindow.FilledFormChecks | ui/main_window.py:90-97 | on such a form the "all fields" check fails exactly when an identifier, the folder or the file name is empty or a number is zero (a field of spaces passes), and the device is a placeholder exactly when its index is 2 or more |
| MainWindow.CaptureFromSpec | ui/main_window.py:109-115 | from any state of the loop: at most `total_frames` frames, each the camera's next read in order, no stop key before the last one; it ends at the count or right after the stop key, and a failed read ends it before either |
| MainWindow.CaptureAll | ui/main_window.py:103-115 | from the loop's start with no frames: at most `total_frames` frames, each the camera's next read in order, no stop key before the last one; it ends at the count or right after the stop key, and a failed read ends it before either, with no stop key after the last frame |
| MainWindow.CaptureNonEmpty | ui/main_window.py:109-127 | a capture that ends normally is empty exactly when `total_frames <= 0`; for `total_frames >= 1`, `frames[0]` exists |
| MainWindow.RecordingDir | ui/main_window.py:119 | the recording folder's last component is the task type |
| MainWindow.FileBase | ui/main_window.py:121 | the stem ends with the file name and, unless that name is absolute, lies inside the recording folder |
| MainWindow.RecordingLayout | ui/main_window.py:119-121 | with plain components the folder is `output_dir/sub-S/ses-X/task` and the stem is that folder, "/" and `filename_base` |
| MainWindow.RecordingDirIsBidsPath | ui/main_window.py:119 | for a "func" task the recorder's folder is the path `get_bids_path` (core/converter.py:30-31) gives for the same folder and identifiers |
| MainWindow.ArtifactsOf | ui/main_window.py:122-125 | the video, archive, metadata and channel names all start with the stem and are four different names |
| MainWindow.MetadataOf | ui/main_window.py:136-140 | the metadata document reads back as the form's identifiers, the one clock reading, the frame count and the gain, exposure and rate |
| MainWindow.RegistryRow | ui/main_window.py:142-143 | the registry row holds the identifiers, timestamp and frame count the metadata document reads back as, and the stem |
| MainWindow.ExportWrites | ui/main_window.py:127-141 | one export writes `3 * len(frames) + 3` files: video, archive, three images per frame, metadata |
| MainWindow.ExportPathAt | ui/main_window.py:121-141 | every path the export writes is the stem followed by ".avi", ".h5", "_channels/frame_…jpg" or "_metadata.json", in that order, with 3·len(frames)+3 writes |
| MainWindow.ChannelExportPath | ui/main_window.py:125-134 | channel image j of the export is written to the stem, "_channels/" and that image's file name |
| MainWindow.ExportTailInjective | ui/main_window.py:122-134 | no two writes of one export have the same suffix after the stem |
| MainWindow.ExportPathsDistinct | ui/main_window.py:127-141 | one export writes 3·len(frames)+3 files, all under the stem and no two to the same path |
| MainWindow.ExportedFilesHoldTheirContent | ui/main_window.py:127-141 | so no artifact overwrites another: after the export each of its files holds exactly what was written to it |
| MainWindow.MetadataMatchesRegistry | ui/main_window.py:136-144 | the metadata file and the registry row carry the same identifiers, the one timestamp, the same frame count and the same stem |
| MainWindow.WriteVideo | ui/main_window.py:127-131 | one XVID file at the form's rate, sized by the first frame and holding every frame in order, is written |
| MainWindow.App.constructor | ui/main_window.py:14-16 | no frames and a zero count; no last output folder (ui/main_window.py:165); the folder button created disabled (ui/main_window.py:226) |
| MainWindow.App.StartRecording | ui/main_window.py:73-148 | the outcome of one press and the state it leaves. An unreadable number raises ValueError and a missing field shows the input error, both changing nothing. The output folder is remembered before the placeholder check. A placeholder or a camera that does not open leaves the frames and the disk as they were. Otherwise the frames are exactly the capture's. A failed read writes nothing; an empty capture raises IndexError after the folder is made; a recording ends with exactly the export's writes and one registry row. The button is enabled only by a saved recording |
| MainWindow.App.Submit | ui/main_window.py:78-148 | from the read numbers on: a number that did not parse raises its error and an incomplete form shows the input error, both changing nothing; an accepted form remembers the output folder, then placeholder, camera and recording as below |
| MainWindow.App.Launch | ui/main_window.py:96-148 | a placeholder shows the notice and a camera that does not open raises `RuntimeError`, both leaving frames, disk and registry as they were; otherwise the capture and export |
| MainWindow.App.Record | ui/main_window.py:103-148 | capture, then export, with the same outcomes from the open camera on |
| MainWindow.App.CaptureFrames | ui/main_window.py:103-115 | the loop keeps `frame_count == len(frames)` and ends with exactly the frames of the capture specification; it reports whether a read failed |
| MainWindow.App.SaveRecording | ui/main_window.py:117-148 | the BIDS folder is made first; with no frames `frames[0]` raises IndexError; otherwise the channel folder is made, the writes are video, archive, channel images and metadata in that order, and one row with the metadata's timestamp, the frame count and the stem is added |

## Left out

- Hardware, timing and the GUI:
  - `cv2.VideoCapture`, `set_camera_settings` and `release_camera` are not modelled. The camera is the `Device` parameter, which only opens or not and supplies reads.
  - The preview window and the `waitKey(int(1000/fps))` wait are not modelled. The key is the `stop` parameter.
  - The message boxes are not modelled; they are reported as the `Outcome` of the press.
- The clock is the `now` parameter. `isoformat()` is not modelled.
- Encoded bytes are not modelled: XVID, JPEG, HDF5/gzip and the JSON text. A file is the logical content written to it.
- `cv2.VideoWriter` accepts frames of another size and silently drops them. The model keeps every frame.
- `np.array` of frames of differing shapes is not modelled. The archive keeps the frames as given.
- Write failures are not modelled: full disks, permissions, and a path component that is a file. Writes always succeed.
- `os.makedirs` also creates the parent folders. The model records only the named folder.
- Floats are not modelled. The gain and exposure texts are kept as `Float(text)`. A non-numeric gain or exposure, which `float()` rejects with `ValueError`, is not modelled as raising.
- Decimal.ParseInt: it accepts ASCII digits only. Python's `int()` also accepts `_` between digits and non-ASCII decimal digits.
- Decimal.ParseInt, Decimal.FormatInt: no digit limit. Since CPython 3.11 (and the 3.7.14, 3.8.14, 3.9.14 and 3.10.7 security releases), `int()` raises `ValueError` on a text of more than 4300 digits, and `str(n)` raises for |n| >= 10^4300. A frame-rate or frame-count field that long therefore raises at ui/main_window.py:78-79 and changes nothing, while the model reads it and goes on. The rows for ParseUnsigned, ParseSigned, ParseFormatInt and ParsePaddedInt hold for Python only up to that length.
- The SQLite layer is not modelled: the connection, the schema, the `id` column and the `recordings.db` path. The registry is the list of rows appended.
- The other functions of `ui/main_window.py` are not modelled: `open_folder`, the three preview viewers, `show_db_sessions`, `open_last_output`, `browse_output_directory` and the widget construction. Nor are `preview_hdf5` (a display thread), `list_available_cameras` and `bidsrec.py`.
- Behaviour the code does not have, which the model does not add:
  - There is no switch for the channel images; they are always written.
  - `get_bids_path` always ends in "func" and takes no task. The recorder does not call it; it builds its own folder with the task type.
  - Identifiers are not trimmed.
  - Frame sizes are not checked against each other.
  - Failures are not tagged with the artifact that failed.
  - An empty capture is not tolerated. With `total_frames < 0`, which passes the "all fields" check, `frames[0]` raises `IndexError` after the recording folder is created (`MainWindow.App.SaveRecording`).
