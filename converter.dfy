/**
 * The export helpers of core/converter.py: the HDF5 archive, the per-channel
 * JPEG images and the BIDS directory helper.
 */
module Converter {
  import opened Wrappers
  import opened Decimal
  import opened Paths
  import opened Frames
  import opened FileStore

  /** The one dataset name of the archive. */
  const DatasetName := "video"

  /** The numpy shape of `np.array(frames)` when the frames share one shape. */
  function StackShape(frames: seq<Frame>): seq<nat>
  {
    if frames == [] then [0] else [|frames|] + Shape(frames[0])
  }

  /**
   * The content `save_frames_to_hdf5` writes: one gzip-compressed dataset,
   * "video", from which `f['video'][:]` reads every frame back in order.
   */
  function Hdf5Content(frames: seq<Frame>): (c: Content)
    ensures c.Hdf5? && c.datasets.Keys == {DatasetName}
    ensures LoadVideo(c) == Some(frames)
  {
    Hdf5(map[DatasetName := Dataset(StackShape(frames), "gzip", frames)])
  }

  /** `f['video'][:]`: the frames of the "video" dataset of an HDF5 file. */
  function LoadVideo(c: Content): Option<seq<Frame>>
  {
    if c.Hdf5? && DatasetName in c.datasets then Some(c.datasets[DatasetName].frames) else None
  }

  /**
   * For frames of one shape `(h, w, 3)` the archived dataset's shape is
   * `[len(frames), h, w, 3]`.
   */
  lemma ArchiveShape(frames: seq<Frame>)
    ensures frames != [] && SameShape(frames) ==>
              var ds := Hdf5Content(frames).datasets["video"];
              |ds.shape| == 4 && ds.shape[0] == |frames| && ds.shape[3] == 3
              && forall i :: 0 <= i < |frames| ==> frames[i].height == ds.shape[1] && frames[i].width == ds.shape[2]
  {
  }

  /** `save_frames_to_hdf5(frames, filename)`. */
  method SaveFramesToHdf5(fs: FileSystem, frames: seq<Frame>, filename: string)
    modifies fs
    ensures fs.log == old(fs.log) + [FileWrite(filename, Hdf5Content(frames))]
    ensures fs.dirs == old(fs.dirs)
  {
    fs.Write(filename, Hdf5Content(frames));
  }

  function ChannelName(c: Channel): string
  {
    match c
    case Red => "red"
    case Green => "green"
    case Blue => "blue"
  }

  /** The order in which the images of one frame are written: red, green, blue. */
  function ChannelOrder(j: nat): Channel
    requires j < 3
  {
    [Red, Green, Blue][j]
  }

  /** The text after the frame index: `_red.jpg`, `_green.jpg` or `_blue.jpg`. */
  function ChannelSuffix(c: Channel): (t: string)
    ensures t != [] && t[0] == '_'
  {
    "_" + ChannelName(c) + ".jpg"
  }

  /** `f"frame_{i:04d}_{colour}.jpg"`: a name starting with "frame_" and ending with ".jpg". */
  function ChannelFileName(i: nat, c: Channel): (name: string)
    ensures |name| >= 10 && name[..6] == "frame_" && name[|name| - 4..] == ".jpg"
  {
    var t := ChannelSuffix(c);
    assert t[|t| - 4..] == ".jpg";
    "frame_" + (PadDigits(i, 4) + t)
  }

  /** The image file of colour `c` of frame number `i`, in directory `dir`. */
  function ChannelPath(dir: string, i: nat, c: Channel): string
  {
    Join(dir, ChannelFileName(i, c))
  }

  /** The three writes of one loop iteration, after `b, g, r = cv2.split(frame)`. */
  function FrameChannelWrites(dir: string, i: nat, f: Frame): seq<FileWrite>
  {
    var (b, g, r) := Split(f);
    [FileWrite(ChannelPath(dir, i, Red), Jpeg(r)),
     FileWrite(ChannelPath(dir, i, Green), Jpeg(g)),
     FileWrite(ChannelPath(dir, i, Blue), Jpeg(b))]
  }

  /** The writes of `split_and_save_channels(frames, dir)`, in order: three per frame. */
  function ChannelWrites(frames: seq<Frame>, dir: string): (ws: seq<FileWrite>)
    ensures |ws| == 3 * |frames|
  {
    FirstChannelWriteCount(frames, dir, |frames|);
    FirstChannelWrites(frames, dir, |frames|)
  }

  /** The writes for the first `n` frames. */
  function FirstChannelWrites(frames: seq<Frame>, dir: string, n: nat): seq<FileWrite>
    requires n <= |frames|
  {
    if n == 0 then []
    else FirstChannelWrites(frames, dir, n - 1) + FrameChannelWrites(dir, n - 1, frames[n - 1])
  }

  /** Write `j` of one frame's three holds colour `ChannelOrder(j)` of that frame. */
  lemma FrameChannelWriteAt(dir: string, i: nat, f: Frame, j: nat)
    requires j < 3
    ensures |FrameChannelWrites(dir, i, f)| == 3
    ensures FrameChannelWrites(dir, i, f)[j] == FileWrite(ChannelPath(dir, i, ChannelOrder(j)), Jpeg(ChannelPlane(f, ChannelOrder(j))))
  {
  }

  lemma {:induction false} FirstChannelWriteCount(frames: seq<Frame>, dir: string, n: nat)
    requires n <= |frames|
    ensures |FirstChannelWrites(frames, dir, n)| == 3 * n
  {
    if n > 0 {
      FirstChannelWriteCount(frames, dir, n - 1);
    }
  }

  /**
   * Write number `k` goes to frame `k / 3`, colour red, green, blue for
   * `k % 3` = 0, 1, 2, and holds that colour of the frame: the red image is
   * the third plane of the BGR split, the blue image the first.
   */
  lemma ChannelWriteAt(frames: seq<Frame>, dir: string, k: nat)
    requires k < 3 * |frames|
    ensures |ChannelWrites(frames, dir)| == 3 * |frames|
    ensures var c := ChannelOrder(k % 3);
            ChannelWrites(frames, dir)[k] == FileWrite(ChannelPath(dir, k / 3, c), Jpeg(ChannelPlane(frames[k / 3], c)))
  {
    FirstChannelWriteAt(frames, dir, |frames|, k);
  }

  lemma {:induction false} FirstChannelWriteAt(frames: seq<Frame>, dir: string, n: nat, k: nat)
    requires n <= |frames| && k < 3 * n
    ensures |FirstChannelWrites(frames, dir, n)| == 3 * n
    ensures var c := ChannelOrder(k % 3);
            FirstChannelWrites(frames, dir, n)[k] == FileWrite(ChannelPath(dir, k / 3, c), Jpeg(ChannelPlane(frames[k / 3], c)))
  {
    FirstChannelWriteCount(frames, dir, n);
    var m := n - 1;
    FirstChannelWriteCount(frames, dir, m);
    var prev := FirstChannelWrites(frames, dir, m);
    var last := FrameChannelWrites(dir, m, frames[m]);
    if k < 3 * m {
      FirstChannelWriteAt(frames, dir, m, k);
      assert (prev + last)[k] == prev[k];
    } else {
      var j := k - 3 * m;
      assert k / 3 == m && k % 3 == j;
      FrameChannelWriteAt(dir, m, frames[m], j);
      assert (prev + last)[k] == last[j];
    }
  }

  /** Different (frame, colour) pairs get different file names. */
  lemma ChannelFileNameInjective(i: nat, c: Channel, j: nat, d: Channel)
    requires ChannelFileName(i, c) == ChannelFileName(j, d)
    ensures i == j && c == d
  {
    var p1, p2 := PadDigits(i, 4), PadDigits(j, 4);
    var t1, t2 := ChannelSuffix(c), ChannelSuffix(d);
    assert p1 + t1 == ChannelFileName(i, c)[6..];
    assert p2 + t2 == ChannelFileName(j, d)[6..];
    DigitRunPrefix(p1, t1, p2, t2);
    PadDigitsInjective(i, j, 4);
    assert |t1| == |ChannelName(c)| + 5 && |t2| == |ChannelName(d)| + 5;
  }

  /** No two channel images of one export share a path. */
  lemma ChannelPathsDistinct(frames: seq<Frame>, dir: string, k1: nat, k2: nat)
    requires k1 < k2 < 3 * |frames|
    ensures |ChannelWrites(frames, dir)| == 3 * |frames|
    ensures ChannelWrites(frames, dir)[k1].path != ChannelWrites(frames, dir)[k2].path
  {
    ChannelWriteAt(frames, dir, k1);
    ChannelWriteAt(frames, dir, k2);
    var c1, c2 := ChannelOrder(k1 % 3), ChannelOrder(k2 % 3);
    if ChannelPath(dir, k1 / 3, c1) == ChannelPath(dir, k2 / 3, c2) {
      JoinRelative(dir, ChannelFileName(k1 / 3, c1), ChannelFileName(k2 / 3, c2));
      ChannelFileNameInjective(k1 / 3, c1, k2 / 3, c2);
      assert false;
    }
  }

  /** Appending three writes one at a time appends the three together. */
  lemma AppendThree<T>(l: seq<T>, m: seq<T>, x: T, y: T, z: T)
    ensures l + m + [x] + [y] + [z] == l + (m + [x, y, z])
  {
  }

  /**
   * `split_and_save_channels(frames, base_path)`: creates `base_path` (also
   * when there are no frames), then writes three images per frame.
   */
  method SplitAndSaveChannels(fs: FileSystem, frames: seq<Frame>, basePath: string)
    modifies fs
    ensures fs.dirs == old(fs.dirs) + {basePath}
    ensures fs.log == old(fs.log) + ChannelWrites(frames, basePath)
  {
    fs.MakeDirs(basePath);
    for i := 0 to |frames|
      invariant fs.dirs == old(fs.dirs) + {basePath}
      invariant fs.log == old(fs.log) + FirstChannelWrites(frames, basePath, i)
    {
      ghost var before := fs.log;
      var (b, g, r) := Split(frames[i]);
      var red := FileWrite(ChannelPath(basePath, i, Red), Jpeg(r));
      var green := FileWrite(ChannelPath(basePath, i, Green), Jpeg(g));
      var blue := FileWrite(ChannelPath(basePath, i, Blue), Jpeg(b));
      fs.Write(red.path, red.content);
      fs.Write(green.path, green.content);
      fs.Write(blue.path, blue.content);
      AppendThree(old(fs.log), FirstChannelWrites(frames, basePath, i), red, green, blue);
    }
  }

  /**
   * `get_bids_path(output_root, subject_id, session_id)` without its
   * directory effect: its last component is always "func", whatever the
   * inputs.
   */
  function BidsPath(outputRoot: string, subjectId: string, sessionId: string): (p: string)
    ensures |p| >= 5 && p[|p| - 5..] == "/func"
  {
    var sub := Join(outputRoot, "sub-" + subjectId);
    JoinParts(sub, "ses-" + sessionId);
    FuncFolder(Join(sub, "ses-" + sessionId));
    Join(Join(sub, "ses-" + sessionId), "func")
  }

  /** "func" joined onto a non-empty folder ends with "/func". */
  lemma FuncFolder(ses: string)
    requires ses != []
    ensures var p := Join(ses, "func");
            |p| >= 5 && p[|p| - 5..] == "/func"
  {
    var d := DirPrefix(ses);
    JoinRelative(ses, "func", "func");
    var p := d + "func";
    assert p[|p| - 5..] == [d[|d| - 1]] + "func";
  }

  /**
   * With identifiers that do not end in "/", the helper's path is
   * `output_root/sub-S/ses-X/func`.
   */
  lemma BidsLayout(outputRoot: string, subjectId: string, sessionId: string)
    requires !EndsWithSep(subjectId) && !EndsWithSep(sessionId)
    ensures BidsPath(outputRoot, subjectId, sessionId)
            == DirPrefix(outputRoot) + ("sub-" + subjectId) + "/" + ("ses-" + sessionId) + "/func"
  {
    var sub, ses := "sub-" + subjectId, "ses-" + sessionId;
    JoinRelative(outputRoot, sub, sub);
    var a := Join(outputRoot, sub);
    assert a[|a| - 1] == sub[|sub| - 1];
    var b := Join(a, ses);
    assert b == a + "/" + ses;
    assert b[|b| - 1] == ses[|ses| - 1];
  }

  /** `get_bids_path`: creates the directory and returns it; a repeated call changes nothing. */
  method GetBidsPath(fs: FileSystem, outputRoot: string, subjectId: string, sessionId: string) returns (p: string)
    modifies fs
    ensures p == BidsPath(outputRoot, subjectId, sessionId)
    ensures fs.dirs == old(fs.dirs) + {p} && fs.log == old(fs.log)
    ensures p in old(fs.dirs) ==> fs.dirs == old(fs.dirs)
  {
    p := BidsPath(outputRoot, subjectId, sessionId);
    fs.MakeDirs(p);
  }
}
