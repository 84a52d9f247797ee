/**
 * Camera frames as OpenCV hands them over: `height` rows of `width` pixels,
 * each pixel three 8-bit samples in blue, green, red order.
 */
module Frames {

  newtype byte = x: int | 0 <= x < 256

  datatype Pixel = Pixel(b: byte, g: byte, r: byte)

  /** A `height` x `width` x 3 image; `pixels` is row-major. */
  datatype Frame = Frame(height: nat, width: nat, pixels: seq<Pixel>)

  /** A single-channel image, as `cv2.split` returns it. */
  datatype Plane = Plane(height: nat, width: nat, values: seq<byte>)

  datatype Channel = Red | Green | Blue

  /** The numpy shape `(height, width, 3)` of a frame. */
  function Shape(f: Frame): seq<nat>
  {
    [f.height, f.width, 3]
  }

  /** All frames share the first frame's dimensions. */
  predicate SameShape(frames: seq<Frame>)
  {
    forall i :: 0 <= i < |frames| ==> Shape(frames[i]) == Shape(frames[0])
  }

  /** The sample of one colour in a pixel. */
  function Sample(p: Pixel, c: Channel): byte
  {
    match c
    case Red => p.r
    case Green => p.g
    case Blue => p.b
  }

  /** The image of one colour of a frame, defined independently of `Split`. */
  function ChannelPlane(f: Frame, c: Channel): (pl: Plane)
    ensures pl.height == f.height && pl.width == f.width && |pl.values| == |f.pixels|
  {
    Plane(f.height, f.width, seq(|f.pixels|, i requires 0 <= i < |f.pixels| => Sample(f.pixels[i], c)))
  }

  /**
   * `cv2.split(frame)`: the three planes of a BGR frame, in the order
   * `(b, g, r)`, so the first is the blue image and the third the red one.
   */
  function Split(f: Frame): (planes: (Plane, Plane, Plane))
    ensures planes.0 == ChannelPlane(f, Blue)
    ensures planes.1 == ChannelPlane(f, Green)
    ensures planes.2 == ChannelPlane(f, Red)
  {
    var n := |f.pixels|;
    (Plane(f.height, f.width, seq(n, i requires 0 <= i < n => f.pixels[i].b)),
     Plane(f.height, f.width, seq(n, i requires 0 <= i < n => f.pixels[i].g)),
     Plane(f.height, f.width, seq(n, i requires 0 <= i < n => f.pixels[i].r)))
  }

  /** `cv2.merge([b, g, r])`: the inverse of `Split` on planes of one size. */
  function Merge(b: Plane, g: Plane, r: Plane): Frame
    requires |b.values| == |g.values| == |r.values|
  {
    var n := |b.values|;
    Frame(b.height, b.width, seq(n, i requires 0 <= i < n => Pixel(b.values[i], g.values[i], r.values[i])))
  }

  /** Splitting loses nothing: merging the planes gives the frame back. */
  lemma MergeSplit(f: Frame)
    ensures var (b, g, r) := Split(f); Merge(b, g, r) == f
  {
    var (b, g, r) := Split(f);
    var m := Merge(b, g, r);
    assert m.pixels == f.pixels;
  }
}
