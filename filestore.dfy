/**
 * The files the recorder produces. Every write is recorded, in order, as the
 * pair of a path and the logical content that went into it; encoded bytes
 * (XVID, HDF5/gzip, JPEG, JSON text) are not modelled.
 */
module FileStore {
  import opened Frames
  import opened Json

  /** One dataset of an HDF5 file: its shape, its compression filter and its frames in order. */
  datatype Dataset = Dataset(shape: seq<nat>, compression: string, frames: seq<Frame>)

  datatype Content =
    | Video(fourcc: string, fps: int, width: nat, height: nat, frames: seq<Frame>)
    | Hdf5(datasets: map<string, Dataset>)
    | Jpeg(image: Plane)
    | JsonDoc(doc: Value)

  datatype FileWrite = FileWrite(path: string, content: Content)

  /** No later write in `log` goes to the path of `log[k]`. */
  predicate LastWriteTo(log: seq<FileWrite>, k: nat)
    requires k < |log|
  {
    forall j :: k < j < |log| ==> log[j].path != log[k].path
  }

  /** What each path holds after the writes of `log`: the last content written to it. */
  function LatestContents(log: seq<FileWrite>): (m: map<string, Content>)
    ensures m.Keys == set k | 0 <= k < |log| :: log[k].path
  {
    if log == [] then map[]
    else
      var prev := log[..|log| - 1];
      var w := log[|log| - 1];
      assert forall k :: 0 <= k < |log| - 1 ==> prev[k] == log[k];
      LatestContents(prev)[w.path := w.content]
  }

  /** A path holds the content of the last write to it. */
  lemma {:induction false} LastWriteWins(log: seq<FileWrite>, k: nat)
    requires k < |log| && LastWriteTo(log, k)
    ensures log[k].path in LatestContents(log) && LatestContents(log)[log[k].path] == log[k].content
  {
    if k < |log| - 1 {
      var prev := log[..|log| - 1];
      assert LastWriteTo(prev, k);
      LastWriteWins(prev, k);
    }
  }

  /**
   * When a batch of writes goes to pairwise distinct paths, each of those
   * paths afterwards holds what the batch wrote to it, whatever came before.
   */
  lemma DistinctWritesHoldContent(before: seq<FileWrite>, ws: seq<FileWrite>, k: nat)
    requires k < |ws|
    requires forall k1, k2 :: 0 <= k1 < k2 < |ws| ==> ws[k1].path != ws[k2].path
    ensures ws[k].path in LatestContents(before + ws) && LatestContents(before + ws)[ws[k].path] == ws[k].content
  {
    var log := before + ws;
    assert LastWriteTo(log, |before| + k) by {
      forall j | |before| + k < j < |log|
        ensures log[j].path != log[|before| + k].path
      {
        assert log[j] == ws[j - |before|];
      }
    }
    LastWriteWins(log, |before| + k);
  }

  /**
   * The recorder's view of the disk: the directories `os.makedirs` has
   * created and every file write so far.
   */
  class FileSystem {
    var dirs: set<string>
    var log: seq<FileWrite>

    constructor (existing: set<string>)
      ensures dirs == existing && log == []
    {
      dirs := existing;
      log := [];
    }

    /** `os.makedirs(path, exist_ok=True)`: a path that is already there is no error and no change. */
    method MakeDirs(path: string)
      modifies this
      ensures dirs == old(dirs) + {path} && log == old(log)
      ensures path in old(dirs) ==> dirs == old(dirs)
    {
      dirs := dirs + {path};
    }

    /** Opening `path` for writing and writing `content` into it, replacing what was there. */
    method Write(path: string, content: Content)
      modifies this
      ensures log == old(log) + [FileWrite(path, content)] && dirs == old(dirs)
    {
      log := log + [FileWrite(path, content)];
    }
  }

  /**
   * `cv2.VideoWriter`: the frames handed to `write` are kept in order, and
   * `release` leaves them in the video file at `path`.
   */
  class VideoWriter {
    const path: string
    const fourcc: string
    const fps: int
    const width: nat
    const height: nat
    var written: seq<Frame>

    constructor (path: string, fourcc: string, fps: int, width: nat, height: nat)
      ensures this.path == path && this.fourcc == fourcc && this.fps == fps
      ensures this.width == width && this.height == height && written == []
    {
      this.path, this.fourcc, this.fps := path, fourcc, fps;
      this.width, this.height := width, height;
      written := [];
    }

    method Write(f: Frame)
      modifies this
      ensures written == old(written) + [f]
    {
      written := written + [f];
    }

    method Release(fs: FileSystem)
      modifies fs
      ensures fs.log == old(fs.log) + [FileWrite(path, Video(fourcc, fps, width, height, written))]
      ensures fs.dirs == old(fs.dirs)
    {
      fs.Write(path, Video(fourcc, fps, width, height, written));
    }
  }
}
