/**
 * `start_recording` of ui/main_window.py: reading the form, the checks, the
 * capture loop and the export of one recording to its BIDS directory.
 */
module MainWindow {
  import opened Wrappers
  import opened Text
  import opened Decimal
  import opened Paths
  import opened Frames
  import opened Json
  import opened FileStore
  import opened Metadata
  import opened Converter
  import opened Database

  /** The text of the form's fields when "Start Recording" is pressed. */
  datatype Form = Form(
    subjectId: string, sessionId: string, taskType: string,
    fps: string, frames: string, gain: string, exposure: string,
    outputDir: string, filenameBase: string, cameraLabel: string)

  /** The form once its numbers are read and its defaults filled in. */
  datatype Params = Params(
    subjectId: string, sessionId: string, taskType: string,
    fps: int, totalFrames: int, gain: Value, exposure: Value,
    outputDir: string, filenameBase: string, cameraLabel: string, cameraIndex: int)

  /** The Python exceptions that can leave `start_recording`. */
  datatype Exception = ValueError | RuntimeError(message: string) | IndexError

  /** How one press of "Start Recording" ends: the dialog it shows, or the exception that escapes. */
  datatype Outcome =
    | InputError                      // "Please enter all fields."
    | SimulatedDevice(deviceLabel: string)  // the device is a placeholder, not a real camera
    | Saved(fileBase: string)         // "Recording saved to: {file_base}.*"
    | Raised(exception: Exception)

  /**
   * What `cv2.VideoCapture(index)` gives: whether it opens, and the result
   * of its n-th read (`None` when the read fails).
   */
  datatype Device = Device(opens: bool, read: nat -> Option<Frame>)

  const DefaultGain: int := 128
  const LabelSeparator := " - "
  const FirstPlaceholderIndex: int := 2
  const VideoCodec := "XVID"
  const CannotOpenWebcam := "Cannot open webcam"
  const CannotReadFrame := "Failed to read frame from camera"

  /** A blank (all-whitespace) gain field means 128; any other text is read as a float. */
  function GainSetting(text: string): (v: Value)
    ensures v == if IsBlank(text) then Int(128) else Float(text)
  {
    StripEmptyIffBlank(text);
    if Strip(text) != "" then Float(text) else Int(DefaultGain)
  }

  /** A blank exposure field means None (automatic exposure); any other text is read as a float. */
  function ExposureSetting(text: string): (v: Value)
    ensures v == if IsBlank(text) then Null else Float(text)
  {
    StripEmptyIffBlank(text);
    if Strip(text) != "" then Float(text) else Null
  }

  /**
   * `int(label.split(" - ")[0])`: an empty label, or one starting with the
   * separator, leaves no number and raises `ValueError`.
   */
  function CameraIndex(deviceLabel: string): (index: Option<int>)
    ensures deviceLabel == [] || OccursAt(deviceLabel, LabelSeparator, 0) ==> index == None
  {
    ParseInt(BeforeFirst(deviceLabel, LabelSeparator))
  }

  /**
   * Reading the form: every failure is the `ValueError` of an `int()`, and
   * a blank frame rate or frame count raises it before any field is checked.
   */
  function ParseForm(form: Form): (r: Result<Params, Exception>)
    ensures r.Failure? ==> r.error == ValueError
    ensures IsBlank(form.fps) || IsBlank(form.frames) ==> r == Failure(ValueError)
  {
    var fps := ParseInt(form.fps);
    var total := ParseInt(form.frames);
    var index := CameraIndex(form.cameraLabel);
    if fps.None? || total.None? || index.None? then
      Failure(ValueError)
    else
      Success(Params(form.subjectId, form.sessionId, form.taskType, fps.value, total.value,
                     GainSetting(form.gain), ExposureSetting(form.exposure),
                     form.outputDir, form.filenameBase, form.cameraLabel, index.value))
  }

  /** No required field is empty and neither number is zero. */
  predicate AllFieldsPresent(p: Params)
  {
    p.subjectId != "" && p.sessionId != "" && p.fps != 0 && p.totalFrames != 0
    && p.outputDir != "" && p.filenameBase != ""
  }

  /** Device entries from index 2 on are placeholders, not cameras. */
  predicate IsPlaceholder(index: int)
  {
    index >= FirstPlaceholderIndex
  }

  /** The form reads and passes the "all fields" check. */
  predicate Accepted(form: Form)
  {
    ParseForm(form).Success? && AllFieldsPresent(ParseForm(form).value)
  }

  /** An accepted form naming a real device that opens: the capture loop runs. */
  predicate Records(form: Form, cameras: int -> Device)
  {
    Accepted(form) && !IsPlaceholder(ParseForm(form).value.cameraIndex)
    && cameras(ParseForm(form).value.cameraIndex).opens
  }

  // ---------------------------------------------------------------------------
  // The capture loop

  /** How the capture loop ends: normally, or with a failed read, and the frames taken by then. */
  datatype Capture = Captured(frames: seq<Frame>) | ReadFailed(frames: seq<Frame>)

  /**
   * The capture loop from the point where the frames in `taken` are already
   * recorded: read the next frame, record it, stop when the stop key was
   * pressed after it or when `total` frames are recorded.
   */
  function CaptureFrom(read: nat -> Option<Frame>, stop: nat -> bool, total: int, taken: seq<Frame>): Capture
    decreases total - |taken|
  {
    if |taken| >= total then
      Captured(taken)
    else
      match read(|taken|)
      case None => ReadFailed(taken)
      case Some(f) =>
        if stop(|taken|) then Captured(taken + [f])
        else CaptureFrom(read, stop, total, taken + [f])
  }

  /**
   * The capture loop from its start with no frames. It records at most
   * `total` frames, each the camera's next read in order; it ends at `total`
   * frames or right after the first frame followed by the stop key, and a
   * failed read ends it before either, with no stop key after the last frame.
   */
  function CaptureAll(read: nat -> Option<Frame>, stop: nat -> bool, total: int): (c: Capture)
    ensures var n := |c.frames|;
            && n <= Max0(total)
            && (forall i :: 0 <= i < n ==> read(i) == Some(c.frames[i]))
            && (forall i :: 0 <= i < n - 1 ==> !stop(i))
            && (c.Captured? ==> n == Max0(total) || (n >= 1 && stop(n - 1)))
            && (c.ReadFailed? ==> n < total && read(n) == None && (n >= 1 ==> !stop(n - 1)))
  {
    CaptureFromSpec(read, stop, total, []);
    CaptureFrom(read, stop, total, [])
  }

  function Max0(n: int): nat
  {
    if n < 0 then 0 else n
  }

  /** The frames in `taken` are the first reads, in order, and no stop came before the last of them. */
  predicate CaptureSoFar(read: nat -> Option<Frame>, stop: nat -> bool, total: int, taken: seq<Frame>)
  {
    && |taken| <= Max0(total)
    && (forall i :: 0 <= i < |taken| ==> read(i) == Some(taken[i]))
    && (forall i :: 0 <= i < |taken| ==> !stop(i))
  }

  /** What the capture loop promises, proved from any state it passes through. */
  lemma {:induction false} CaptureFromSpec(read: nat -> Option<Frame>, stop: nat -> bool, total: int, taken: seq<Frame>)
    requires CaptureSoFar(read, stop, total, taken)
    ensures var c := CaptureFrom(read, stop, total, taken);
            var n := |c.frames|;
            && |taken| <= n <= Max0(total) && c.frames[..|taken|] == taken
            && (forall i :: 0 <= i < n ==> read(i) == Some(c.frames[i]))
            && (forall i :: 0 <= i < n - 1 ==> !stop(i))
            && (c.Captured? ==> n == Max0(total) || (n >= 1 && stop(n - 1)))
            && (c.ReadFailed? ==> n < total && read(n) == None && (n >= 1 ==> !stop(n - 1)))
    decreases total - |taken|
  {
    if |taken| < total {
      match read(|taken|)
      case None =>
      case Some(f) =>
        var next := taken + [f];
        if !stop(|taken|) {
          assert CaptureSoFar(read, stop, total, next);
          CaptureFromSpec(read, stop, total, next);
          var c := CaptureFrom(read, stop, total, next);
          assert c.frames[..|taken|] == c.frames[..|next|][..|taken|];
        }
    }
  }

  /**
   * A capture that ends normally is empty exactly when the requested count
   * is not positive: with `total_frames >= 1` at least one frame is taken,
   * because the stop key is checked only after a frame is recorded, so
   * `frames[0]` exists.
   */
  lemma CaptureNonEmpty(read: nat -> Option<Frame>, stop: nat -> bool, total: int)
    requires CaptureAll(read, stop, total).Captured?
    ensures CaptureAll(read, stop, total).frames == [] <==> total <= 0
  {
  }

  // ---------------------------------------------------------------------------
  // Reading the form

  /**
   * The camera index is the integer written before the first " - " of the
   * device label: a label "n - name" gives `n`, whatever the name says.
   */
  lemma CameraIndexOfLabel(n: int, name: string)
    ensures CameraIndex(FormatInt(n) + LabelSeparator + name) == Some(n)
  {
    var f := FormatInt(n);
    var s := f + LabelSeparator + name;
    assert OccursAt(s, LabelSeparator, |f|) by {
      assert s[|f|..|f| + 3] == LabelSeparator;
    }
    forall i | 0 <= i < |f|
      ensures !OccursAt(s, LabelSeparator, i)
    {
      assert s[i] == f[i] && s[i] != ' ';
    }
    BeforeFirstAt(s, LabelSeparator, |f|);
    assert s[..|f|] == f;
    ParseFormatInt(n);
  }

  /**
   * A form whose numeric fields hold `str(n)` and whose device entry reads
   * "n - name" reads back to exactly those numbers; the identifiers, task,
   * folder and file name are taken as typed, without trimming.
   */
  lemma ParseFilledForm(form: Form, fps: int, total: int, index: int, name: string)
    requires form.fps == FormatInt(fps) && form.frames == FormatInt(total)
    requires form.cameraLabel == FormatInt(index) + LabelSeparator + name
    ensures ParseForm(form) == Success(Params(form.subjectId, form.sessionId, form.taskType, fps, total,
                                              GainSetting(form.gain), ExposureSetting(form.exposure),
                                              form.outputDir, form.filenameBase, form.cameraLabel, index))
  {
    ParseFormatInt(fps);
    ParseFormatInt(total);
    CameraIndexOfLabel(index, name);
  }

  /**
   * On such a form the "all fields" check fails exactly when an identifier,
   * the folder or the file name is empty or a number is zero (text is not
   * trimmed, so a field of spaces passes), and the device is a placeholder
   * exactly when its index is 2 or more.
   */
  lemma FilledFormChecks(form: Form, fps: int, total: int, index: int, name: string)
    requires form.fps == FormatInt(fps) && form.frames == FormatInt(total)
    requires form.cameraLabel == FormatInt(index) + LabelSeparator + name
    ensures Accepted(form) <==>
              && form.subjectId != "" && form.sessionId != "" && fps != 0 && total != 0
              && form.outputDir != "" && form.filenameBase != ""
    ensures ParseForm(form).Success? && (IsPlaceholder(ParseForm(form).value.cameraIndex) <==> index >= 2)
  {
    ParseFilledForm(form, fps, total, index, name);
  }

  // ---------------------------------------------------------------------------
  // Names of the artifacts

  /**
   * `os.path.join(output_dir, f"sub-{subject_id}", f"ses-{session_id}", task_type)`:
   * a folder whose last component is the task type.
   */
  function RecordingDir(p: Params): (dir: string)
    ensures |p.taskType| <= |dir| && dir[|dir| - |p.taskType|..] == p.taskType
  {
    Join(Join(Join(p.outputDir, "sub-" + p.subjectId), "ses-" + p.sessionId), p.taskType)
  }

  /**
   * `file_base`: the stem shared by every artifact of the recording. It ends
   * with the file name and, unless that name is absolute, lies inside the
   * recording folder.
   */
  function FileBase(p: Params): (b: string)
    ensures |p.filenameBase| <= |b| && b[|b| - |p.filenameBase|..] == p.filenameBase
    ensures !IsAbs(p.filenameBase) ==> |RecordingDir(p)| <= |b| && b[..|RecordingDir(p)|] == RecordingDir(p)
  {
    Join(RecordingDir(p), p.filenameBase)
  }

  /** The four sibling artifact names. */
  datatype Artifacts = Artifacts(video: string, archive: string, metadata: string, channels: string)

  /**
   * The video, archive, metadata and channel folder names: the stem followed
   * by ".avi", ".h5", "_metadata.json" and "_channels". They share the stem
   * and no two of them coincide.
   */
  function ArtifactsOf(fileBase: string): (a: Artifacts)
    ensures && |fileBase| < |a.video| && |fileBase| < |a.archive|
            && |fileBase| < |a.metadata| && |fileBase| < |a.channels|
            && a.video[..|fileBase|] == fileBase && a.archive[..|fileBase|] == fileBase
            && a.metadata[..|fileBase|] == fileBase && a.channels[..|fileBase|] == fileBase
            && |{a.video, a.archive, a.metadata, a.channels}| == 4
  {
    var a := Artifacts(fileBase + ".avi", fileBase + ".h5", fileBase + "_metadata.json", fileBase + "_channels");
    assert a.video[|fileBase|] == '.' && a.metadata[|fileBase|] == '_';
    assert a.archive[|fileBase|] == '.' && a.channels[|fileBase|] == '_';
    a
  }

  /**
   * With plain components (no trailing "/" on the identifiers, a non-empty
   * relative task folder without one, a relative file name) the recording
   * lies at `output_dir/sub-S/ses-X/task/filename_base`.
   */
  lemma RecordingLayout(p: Params)
    requires !EndsWithSep(p.subjectId) && !EndsWithSep(p.sessionId)
    requires p.taskType != [] && !IsAbs(p.taskType) && !EndsWithSep(p.taskType)
    requires !IsAbs(p.filenameBase)
    ensures RecordingDir(p)
            == DirPrefix(p.outputDir) + ("sub-" + p.subjectId) + "/" + ("ses-" + p.sessionId) + "/" + p.taskType
    ensures FileBase(p) == RecordingDir(p) + "/" + p.filenameBase
  {
    var sub, ses := "sub-" + p.subjectId, "ses-" + p.sessionId;
    JoinRelative(p.outputDir, sub, sub);
    var a := Join(p.outputDir, sub);
    assert a[|a| - 1] == sub[|sub| - 1];
    var b := Join(a, ses);
    assert b == a + "/" + ses;
    assert b[|b| - 1] == ses[|ses| - 1];
    var c := Join(b, p.taskType);
    assert c == b + "/" + p.taskType;
    assert c[|c| - 1] == p.taskType[|p.taskType| - 1];
  }

  /**
   * For a "func" task the recorder's folder is the one `get_bids_path`
   * names for the same output folder and identifiers.
   */
  lemma RecordingDirIsBidsPath(p: Params)
    requires p.taskType == "func"
    ensures RecordingDir(p) == BidsPath(p.outputDir, p.subjectId, p.sessionId)
  {
  }

  // ---------------------------------------------------------------------------
  // The export

  /** The `camera_settings` dictionary: gain, exposure and frame rate. */
  function CameraSettings(p: Params): Value
  {
    Object(map["gain" := p.gain, "exposure" := p.exposure, "fps" := Int(p.fps)])
  }

  /**
   * The metadata document of the recording: it reads back as the form's
   * identifiers, the clock reading, the frame count and the camera settings.
   */
  function MetadataOf(p: Params, frameCount: int, now: string): (m: map<string, Value>)
    ensures Decode(m) == Some(Record(p.subjectId, p.sessionId, now, frameCount, CameraSettings(p)))
  {
    DecodeGenerated(p.subjectId, p.sessionId, frameCount, CameraSettings(p), now);
    GenerateMetadata(p.subjectId, p.sessionId, frameCount, CameraSettings(p), now)
  }

  /**
   * The registry row of the recording: the identifiers, timestamp and frame
   * count the metadata document reads back as, and the stem of the artifacts.
   */
  function RegistryRow(p: Params, frameCount: int, now: string): (row: SessionRow)
    ensures Decode(MetadataOf(p, frameCount, now))
            == Some(Record(row.subjectId, row.sessionId, row.timestamp, row.frameCount, CameraSettings(p)))
    ensures row.fileBase == FileBase(p)
  {
    SessionRow(p.subjectId, p.sessionId, now, frameCount, FileBase(p))
  }

  /** The video file: XVID at the form's frame rate, sized by the first frame. */
  function VideoContent(fps: int, frames: seq<Frame>): Content
    requires frames != []
  {
    Video(VideoCodec, fps, frames[0].width, frames[0].height, frames)
  }

  /**
   * Every file write of a recording's export, in order: the video, the
   * archive, three images per frame and the metadata.
   */
  function ExportWrites(fileBase: string, fps: int, frames: seq<Frame>, metadata: map<string, Value>): (ws: seq<FileWrite>)
    requires frames != []
    ensures |ws| == 3 * |frames| + 3
  {
    var a := ArtifactsOf(fileBase);
    [FileWrite(a.video, VideoContent(fps, frames)), FileWrite(a.archive, Hdf5Content(frames))]
    + ChannelWrites(frames, a.channels)
    + [FileWrite(a.metadata, JsonDoc(Object(metadata)))]
  }

  /** What follows the stem in the path of write `k` of an export of `n` frames. */
  function ExportTail(k: nat, n: nat): string
    requires k < 3 * n + 3
  {
    if k == 0 then ".avi"
    else if k == 1 then ".h5"
    else if k < 3 * n + 2 then "_channels/" + ChannelFileName((k - 2) / 3, ChannelOrder((k - 2) % 3))
    else "_metadata.json"
  }

  /** Where the parts of `[x, y] + m + [z]` sit. */
  lemma FramedIndex<T>(x: T, y: T, m: seq<T>, z: T)
    ensures var s := [x, y] + m + [z];
            && |s| == |m| + 3 && s[0] == x && s[1] == y && s[|m| + 2] == z
            && forall j :: 0 <= j < |m| ==> s[j + 2] == m[j]
  {
  }

  /** Appending the parts one by one appends the framed whole. */
  lemma AppendFramed<T>(l: seq<T>, x: T, y: T, m: seq<T>, z: T)
    ensures l + [x] + [y] + m + [z] == l + ([x, y] + m + [z])
  {
  }

  /** Every path the export writes is the stem followed by `ExportTail`. */
  lemma ExportPathAt(b: string, fps: int, frames: seq<Frame>, metadata: map<string, Value>, k: nat)
    requires frames != [] && k < 3 * |frames| + 3
    ensures |ExportWrites(b, fps, frames, metadata)| == 3 * |frames| + 3
    ensures ExportWrites(b, fps, frames, metadata)[k].path == b + ExportTail(k, |frames|)
  {
    var a := ArtifactsOf(b);
    var cw := ChannelWrites(frames, a.channels);
    var video := FileWrite(a.video, VideoContent(fps, frames));
    var archive := FileWrite(a.archive, Hdf5Content(frames));
    var meta := FileWrite(a.metadata, JsonDoc(Object(metadata)));
    var ws := ExportWrites(b, fps, frames, metadata);
    assert ws == [video, archive] + cw + [meta];
    FramedIndex(video, archive, cw, meta);
    if 2 <= k < 3 * |frames| + 2 {
      assert ws[k] == cw[k - 2];
      ChannelExportPath(b, frames, k - 2);
    }
  }

  /** Channel write `j` of an export goes to the stem, "_channels/" and the image's file name. */
  lemma ChannelExportPath(b: string, frames: seq<Frame>, j: nat)
    requires j < 3 * |frames|
    ensures |ChannelWrites(frames, b + "_channels")| == 3 * |frames|
    ensures ChannelWrites(frames, b + "_channels")[j].path
            == b + ("_channels/" + ChannelFileName(j / 3, ChannelOrder(j % 3)))
  {
    ChannelWriteAt(frames, b + "_channels", j);
    var name := ChannelFileName(j / 3, ChannelOrder(j % 3));
    JoinRelative(b + "_channels", name, name);
    ChannelDirJoin(b, name);
  }

  /** A file inside the channel folder is the stem, "_channels/" and its name. */
  lemma ChannelDirJoin(b: string, name: string)
    ensures DirPrefix(b + "_channels") + name == b + ("_channels/" + name)
  {
    assert DirPrefix(b + "_channels") == b + "_channels" + "/";
  }

  /** Two tails of one export coincide only for the same write. */
  lemma ExportTailInjective(n: nat, k1: nat, k2: nat)
    requires k1 < k2 < 3 * n + 3
    ensures ExportTail(k1, n) != ExportTail(k2, n)
  {
    var t1, t2 := ExportTail(k1, n), ExportTail(k2, n);
    if t1 == t2 && 2 <= k1 && k2 < 3 * n + 2 {
      var c1, c2 := ChannelOrder((k1 - 2) % 3), ChannelOrder((k2 - 2) % 3);
      var n1, n2 := ChannelFileName((k1 - 2) / 3, c1), ChannelFileName((k2 - 2) / 3, c2);
      assert n1 == t1[10..] && n2 == t2[10..];
      ChannelFileNameInjective((k1 - 2) / 3, c1, (k2 - 2) / 3, c2);
      assert false;
    }
  }

  /**
   * One export writes `3 * len(frames) + 3` files, all under the stem and no
   * two to the same path, so none of them overwrites another.
   */
  lemma ExportPathsDistinct(b: string, fps: int, frames: seq<Frame>, metadata: map<string, Value>)
    requires frames != []
    ensures var ws := ExportWrites(b, fps, frames, metadata);
            && |ws| == 3 * |frames| + 3
            && (forall k :: 0 <= k < |ws| ==> |b| <= |ws[k].path| && ws[k].path[..|b|] == b)
            && (forall k1, k2 :: 0 <= k1 < k2 < |ws| ==> ws[k1].path != ws[k2].path)
  {
    var ws := ExportWrites(b, fps, frames, metadata);
    ExportPathAt(b, fps, frames, metadata, 0);
    forall k | 0 <= k < |ws|
      ensures |b| <= |ws[k].path| && ws[k].path[..|b|] == b
    {
      ExportPathAt(b, fps, frames, metadata, k);
    }
    forall k1, k2 | 0 <= k1 < k2 < |ws|
      ensures ws[k1].path != ws[k2].path
    {
      ExportPathAt(b, fps, frames, metadata, k1);
      ExportPathAt(b, fps, frames, metadata, k2);
      ExportTailInjective(|frames|, k1, k2);
    }
  }

  /**
   * After the export, whatever was on disk before, each of its files holds
   * exactly what the export wrote to it.
   */
  lemma ExportedFilesHoldTheirContent(before: seq<FileWrite>, b: string, fps: int, frames: seq<Frame>,
                                      metadata: map<string, Value>, k: nat)
    requires frames != [] && k < |ExportWrites(b, fps, frames, metadata)|
    ensures var ws := ExportWrites(b, fps, frames, metadata);
            ws[k].path in LatestContents(before + ws) && LatestContents(before + ws)[ws[k].path] == ws[k].content
  {
    ExportPathsDistinct(b, fps, frames, metadata);
    DistinctWritesHoldContent(before, ExportWrites(b, fps, frames, metadata), k);
  }

  /**
   * The metadata file and the registry row describe the same recording: the
   * same identifiers, the one timestamp, and the frame count as given, which
   * the capture sets to the number of frames actually taken.
   */
  lemma MetadataMatchesRegistry(p: Params, frames: seq<Frame>, frameCount: int, now: string)
    requires frames != []
    ensures var ws := ExportWrites(FileBase(p), p.fps, frames, MetadataOf(p, frameCount, now));
            var last := ws[|ws| - 1];
            var row := RegistryRow(p, frameCount, now);
            && last.path == ArtifactsOf(row.fileBase).metadata
            && last.content.JsonDoc? && last.content.doc.Object?
            && Decode(last.content.doc.fields) == Some(Record(row.subjectId, row.sessionId, row.timestamp, row.frameCount, CameraSettings(p)))
  {
    DecodeGenerated(p.subjectId, p.sessionId, frameCount, CameraSettings(p), now);
  }

  /**
   * Lines 127-131 of `start_recording`: an XVID writer at the form's frame
   * rate, sized by the first frame, fed every frame in order, then released.
   */
  method WriteVideo(fs: FileSystem, frames: seq<Frame>, path: string, fps: int)
    requires frames != []
    modifies fs
    ensures fs.log == old(fs.log) + [FileWrite(path, VideoContent(fps, frames))]
    ensures fs.dirs == old(fs.dirs)
  {
    var out := new VideoWriter(path, VideoCodec, fps, frames[0].width, frames[0].height);
    for i := 0 to |frames|
      invariant out.written == frames[..i]
      invariant unchanged(fs)
    {
      out.Write(frames[i]);
    }
    assert frames[..|frames|] == frames;
    out.Release(fs);
  }

  /**
   * What the capture loop and the export leave behind once the camera is
   * open, given the directories, file writes and registry rows before
   * (`dirs0`, `log0`, `rows0`) and after. The frames are the capture's. A
   * failed read raises `RuntimeError` and changes nothing on disk. An empty
   * capture raises `IndexError` after the recording folder is made. Otherwise
   * the recording is saved: the recording and channel folders, exactly the
   * export's writes, and one registry row.
   */
  ghost predicate RecordEffect(p: Params, read: nat -> Option<Frame>, stop: nat -> bool, now: string,
                               outcome: Outcome, frames: seq<Frame>,
                               dirs0: set<string>, dirs: set<string>, log0: seq<FileWrite>, log: seq<FileWrite>,
                               rows0: seq<SessionRow>, rows: seq<SessionRow>)
  {
    var c := CaptureAll(read, stop, p.totalFrames);
    && frames == c.frames
    && (c.ReadFailed? ==>
          outcome == Raised(RuntimeError(CannotReadFrame)) && dirs == dirs0 && log == log0 && rows == rows0)
    && (c.Captured? && c.frames == [] ==>
          && outcome == Raised(IndexError)
          && dirs == dirs0 + {RecordingDir(p)} && log == log0 && rows == rows0)
    && (c.Captured? && c.frames != [] ==>
          && outcome == Saved(FileBase(p))
          && dirs == dirs0 + {RecordingDir(p), ArtifactsOf(FileBase(p)).channels}
          && log == log0 + ExportWrites(FileBase(p), p.fps, c.frames, MetadataOf(p, |c.frames|, now))
          && rows == rows0 + [RegistryRow(p, |c.frames|, now)])
  }

  // ---------------------------------------------------------------------------
  // The state `start_recording` shares with the rest of the window

  /**
   * The variables of `launch_app` that `start_recording` updates: the
   * captured frames and their count, the last output folder, and whether
   * the "Open Last Output Folder" button is enabled.
   */
  class App {
    var frames: seq<Frame>
    var frameCount: int
    var lastOutputDir: Option<string>
    var openButtonEnabled: bool

    /** `frame_count` is always the number of captured frames. */
    ghost predicate Valid()
      reads this
    {
      frameCount == |frames|
    }

    constructor ()
      ensures Valid() && frames == [] && lastOutputDir == None && !openButtonEnabled
    {
      frames, frameCount := [], 0;
      lastOutputDir := None;
      openButtonEnabled := false;
    }

    /**
     * `start_recording`. `cameras` stands for the capture devices by index,
     * `stop(i)` for "the q key was pressed after frame i", and `now` for the
     * clock reading `generate_metadata` makes.
     */
    method StartRecording(form: Form, cameras: int -> Device, stop: nat -> bool, now: string,
                          fs: FileSystem, registry: Registry) returns (outcome: Outcome)
      requires Valid()
      modifies this, fs, registry
      ensures Valid()
      ensures openButtonEnabled == (old(openButtonEnabled) || outcome.Saved?)
      // A number that does not parse raises before anything changes.
      ensures ParseForm(form).Failure? ==>
                outcome == Raised(ValueError) && unchanged(this) && unchanged(fs) && unchanged(registry)
      // A missing field: the error dialog, and nothing changes.
      ensures ParseForm(form).Success? && !AllFieldsPresent(ParseForm(form).value) ==>
                outcome == InputError && unchanged(this) && unchanged(fs) && unchanged(registry)
      // Past the field check the output folder is remembered, whatever happens next.
      ensures Accepted(form) ==> lastOutputDir == Some(form.outputDir)
      // A placeholder device: the notice, no capture, no output.
      ensures Accepted(form) && IsPlaceholder(ParseForm(form).value.cameraIndex) ==>
                && outcome == SimulatedDevice(form.cameraLabel)
                && frames == old(frames) && frameCount == old(frameCount)
                && unchanged(fs) && unchanged(registry)
      // A device that does not open raises before the frames are cleared.
      ensures Accepted(form) && !IsPlaceholder(ParseForm(form).value.cameraIndex)
              && !cameras(ParseForm(form).value.cameraIndex).opens ==>
                && outcome == Raised(RuntimeError(CannotOpenWebcam))
                && frames == old(frames) && frameCount == old(frameCount)
                && unchanged(fs) && unchanged(registry)
      // Otherwise the capture loop runs and its frames are exported.
      ensures Records(form, cameras) ==>
                var p := ParseForm(form).value;
                RecordEffect(p, cameras(p.cameraIndex).read, stop, now, outcome, frames,
                             old(fs.dirs), fs.dirs, old(fs.log), fs.log, old(registry.rows), registry.rows)
    {
      outcome := Submit(ParseForm(form), cameras, stop, now, fs, registry);
    }

    /**
     * `start_recording` from the point where the numbers of the form have
     * been read (`parsed`): the `ValueError` of a number that does not parse,
     * the "all fields" check, remembering the output folder, then the rest.
     */
    method Submit(parsed: Result<Params, Exception>, cameras: int -> Device, stop: nat -> bool, now: string,
                  fs: FileSystem, registry: Registry) returns (outcome: Outcome)
      requires Valid()
      modifies this, fs, registry
      ensures Valid()
      ensures openButtonEnabled == (old(openButtonEnabled) || outcome.Saved?)
      ensures parsed.Failure? ==>
                outcome == Raised(parsed.error) && unchanged(this) && unchanged(fs) && unchanged(registry)
      ensures parsed.Success? && !AllFieldsPresent(parsed.value) ==>
                outcome == InputError && unchanged(this) && unchanged(fs) && unchanged(registry)
      ensures parsed.Success? && AllFieldsPresent(parsed.value) ==>
                var p := parsed.value;
                var device := cameras(p.cameraIndex);
                && lastOutputDir == Some(p.outputDir)
                && (IsPlaceholder(p.cameraIndex) || !device.opens ==>
                      && outcome == (if IsPlaceholder(p.cameraIndex) then SimulatedDevice(p.cameraLabel)
                                     else Raised(RuntimeError(CannotOpenWebcam)))
                      && frames == old(frames) && frameCount == old(frameCount)
                      && unchanged(fs) && unchanged(registry))
                && (!IsPlaceholder(p.cameraIndex) && device.opens ==>
                      RecordEffect(p, device.read, stop, now, outcome, frames,
                                   old(fs.dirs), fs.dirs, old(fs.log), fs.log, old(registry.rows), registry.rows))
    {
      if parsed.Failure? {
        return Raised(parsed.error);
      }
      var p := parsed.value;
      if !AllFieldsPresent(p) {
        return InputError;
      }
      lastOutputDir := Some(p.outputDir);
      outcome := Launch(p, cameras(p.cameraIndex), stop, now, fs, registry);
    }

    /**
     * Lines 96-148 of `start_recording`, once the form is accepted: the
     * placeholder notice, opening the camera, then the recording.
     */
    method Launch(p: Params, device: Device, stop: nat -> bool, now: string,
                  fs: FileSystem, registry: Registry) returns (outcome: Outcome)
      requires Valid()
      modifies this`frames, this`frameCount, this`openButtonEnabled, fs, registry
      ensures Valid()
      ensures openButtonEnabled == (old(openButtonEnabled) || outcome.Saved?)
      // A placeholder, or a camera that does not open: a notice or an exception, and nothing else.
      ensures IsPlaceholder(p.cameraIndex) || !device.opens ==>
                && outcome == (if IsPlaceholder(p.cameraIndex) then SimulatedDevice(p.cameraLabel)
                               else Raised(RuntimeError(CannotOpenWebcam)))
                && frames == old(frames) && frameCount == old(frameCount)
                && unchanged(fs) && unchanged(registry)
      ensures !IsPlaceholder(p.cameraIndex) && device.opens ==>
                RecordEffect(p, device.read, stop, now, outcome, frames,
                             old(fs.dirs), fs.dirs, old(fs.log), fs.log, old(registry.rows), registry.rows)
    {
      if IsPlaceholder(p.cameraIndex) {
        return SimulatedDevice(p.cameraLabel);
      }
      if !device.opens {
        return Raised(RuntimeError(CannotOpenWebcam));
      }
      outcome := Record(p, device.read, stop, now, fs, registry);
    }

    /**
     * Lines 103-148 of `start_recording`, once the device is open: the
     * capture loop, then the export of what it took.
     */
    method Record(p: Params, read: nat -> Option<Frame>, stop: nat -> bool, now: string,
                  fs: FileSystem, registry: Registry) returns (outcome: Outcome)
      modifies this`frames, this`frameCount, this`openButtonEnabled, fs, registry
      ensures Valid()
      ensures openButtonEnabled == (old(openButtonEnabled) || outcome.Saved?)
      ensures RecordEffect(p, read, stop, now, outcome, frames,
                           old(fs.dirs), fs.dirs, old(fs.log), fs.log, old(registry.rows), registry.rows)
    {
      var failed := CaptureFrames(read, stop, p.totalFrames);
      if failed {
        return Raised(RuntimeError(CannotReadFrame));
      }
      outcome := SaveRecording(p, now, fs, registry);
    }

    /**
     * Lines 103-115 of `start_recording`: clear the frames, then record the
     * camera's reads until `total` frames are taken or the stop key follows
     * a frame. `read_frame` raising on a failed read ends the loop early;
     * `failed` reports it. The frames are then those of `CaptureAll`.
     */
    method CaptureFrames(read: nat -> Option<Frame>, stop: nat -> bool, total: int) returns (failed: bool)
      modifies this`frames, this`frameCount
      ensures Valid()
      ensures frames == CaptureAll(read, stop, total).frames
      ensures failed == CaptureAll(read, stop, total).ReadFailed?
    {
      frames := [];
      frameCount := 0;
      ghost var capture := CaptureAll(read, stop, total);
      while frameCount < total
        invariant Valid()
        invariant CaptureFrom(read, stop, total, frames) == capture
        decreases total - frameCount
      {
        var frame := read(frameCount);
        if frame.None? {
          return true;
        }
        frames := frames + [frame.value];
        frameCount := frameCount + 1;
        if stop(frameCount - 1) {
          break;
        }
      }
      return false;
    }

    /**
     * Lines 117-148 of `start_recording`: the BIDS folder, the four sibling
     * artifacts, the metadata file and the registry row. `frames[0]` raises
     * `IndexError` when nothing was captured, after the folder is created.
     */
    method SaveRecording(p: Params, now: string, fs: FileSystem, registry: Registry) returns (outcome: Outcome)
      requires Valid()
      modifies this`openButtonEnabled, fs, registry
      ensures openButtonEnabled == (old(openButtonEnabled) || outcome.Saved?)
      ensures frames == [] ==>
                && outcome == Raised(IndexError)
                && fs.dirs == old(fs.dirs) + {RecordingDir(p)} && fs.log == old(fs.log)
                && unchanged(registry)
      ensures frames != [] ==>
                && outcome == Saved(FileBase(p))
                && fs.dirs == old(fs.dirs) + {RecordingDir(p), ArtifactsOf(FileBase(p)).channels}
                && fs.log == old(fs.log) + ExportWrites(FileBase(p), p.fps, frames, MetadataOf(p, frameCount, now))
                && registry.rows == old(registry.rows) + [RegistryRow(p, frameCount, now)]
    {
      var bidsPath := RecordingDir(p);
      fs.MakeDirs(bidsPath);
      var fileBase := FileBase(p);
      var names := ArtifactsOf(fileBase);
      if |frames| == 0 {
        return Raised(IndexError);
      }
      ghost var log0 := fs.log;
      WriteVideo(fs, frames, names.video, p.fps);
      ghost var video := FileWrite(names.video, VideoContent(p.fps, frames));
      SaveFramesToHdf5(fs, frames, names.archive);
      ghost var archive := FileWrite(names.archive, Hdf5Content(frames));
      SplitAndSaveChannels(fs, frames, names.channels);
      ghost var channels := ChannelWrites(frames, names.channels);
      var meta := GenerateMetadata(p.subjectId, p.sessionId, frameCount, CameraSettings(p), now);
      SaveMetadataToJson(fs, meta, names.metadata);
      ghost var document := FileWrite(names.metadata, JsonDoc(Object(meta)));
      assert fs.log == log0 + [video] + [archive] + channels + [document];
      AppendFramed(log0, video, archive, channels, document);
      registry.InsertSessionMetadata(p.subjectId, p.sessionId, meta["timestamp"].s, frameCount, fileBase);
      outcome := Saved(fileBase);
      openButtonEnabled := true;
    }
  }
}
