/**
 * The request bits of StereoProcessor (the anonymous enum of processor.h):
 * four per camera, three for the stereo outputs, and the group masks.
 */
module RequestFlags {
  /** The `int flags` argument of process, as a 32-bit word. */
  type Flags = bv32

  const LEFT_MONO: Flags := 1 << 0
  const LEFT_RECT: Flags := 1 << 1
  const LEFT_COLOR: Flags := 1 << 2
  const LEFT_RECT_COLOR: Flags := 1 << 3
  const RIGHT_MONO: Flags := 1 << 4
  const RIGHT_RECT: Flags := 1 << 5
  const RIGHT_COLOR: Flags := 1 << 6
  const RIGHT_RECT_COLOR: Flags := 1 << 7
  const DISPARITY: Flags := 1 << 8
  const POINT_CLOUD: Flags := 1 << 9
  const POINT_CLOUD2: Flags := 1 << 10

  const LEFT_ALL: Flags := LEFT_MONO | LEFT_RECT | LEFT_COLOR | LEFT_RECT_COLOR
  const RIGHT_ALL: Flags := RIGHT_MONO | RIGHT_RECT | RIGHT_COLOR | RIGHT_RECT_COLOR
  const STEREO_ALL: Flags := DISPARITY | POINT_CLOUD | POINT_CLOUD2
  const ALL: Flags := LEFT_ALL | RIGHT_ALL | STEREO_ALL

  /** The eleven single requests, in declaration order. */
  const REQUESTS: seq<Flags> := [LEFT_MONO, LEFT_RECT, LEFT_COLOR, LEFT_RECT_COLOR,
                                 RIGHT_MONO, RIGHT_RECT, RIGHT_COLOR, RIGHT_RECT_COLOR,
                                 DISPARITY, POINT_CLOUD, POINT_CLOUD2]

  /** The single requests are the distinct bits 0 through 10. */
  lemma RequestsAreDistinctBits()
    ensures |REQUESTS| == 11
    ensures forall k :: 0 <= k < |REQUESTS| ==> REQUESTS[k] == 1 << k
    ensures forall j, k :: 0 <= j < k < |REQUESTS| ==> REQUESTS[j] & REQUESTS[k] == 0
  {
  }

  /**
   * The three groups are pairwise disjoint; the camera groups fill bits
   * 0-7, the stereo group bits 8-10, and ALL is exactly bits 0-10.
   */
  lemma GroupsPartitionAll()
    ensures LEFT_ALL & RIGHT_ALL == 0 && LEFT_ALL & STEREO_ALL == 0 && RIGHT_ALL & STEREO_ALL == 0
    ensures LEFT_ALL | RIGHT_ALL == 0xFF
    ensures STEREO_ALL == 0x700
    ensures ALL == 0x7FF
  {
  }

  /** Shifting a right-camera request down by four gives the same left-camera request. */
  lemma RightShiftsToLeft()
    ensures RIGHT_ALL >> 4 == LEFT_ALL
    ensures RIGHT_MONO >> 4 == LEFT_MONO && RIGHT_RECT >> 4 == LEFT_RECT
    ensures RIGHT_COLOR >> 4 == LEFT_COLOR && RIGHT_RECT_COLOR >> 4 == LEFT_RECT_COLOR
  {
  }

  /**
   * Masking with a camera group keeps no stereo bit, and the right-camera
   * bits shifted down by four hold request k exactly when the caller set
   * right-camera request k.
   */
  lemma CameraMasks(flags: Flags)
    ensures (flags & LEFT_ALL) & STEREO_ALL == 0 && (flags & RIGHT_ALL) & STEREO_ALL == 0
    ensures ((flags & RIGHT_ALL) >> 4) & !LEFT_ALL == 0
    ensures forall k :: 0 <= k < 4 ==>
      ((((flags & RIGHT_ALL) >> 4) & REQUESTS[k] != 0) <==> (flags & REQUESTS[k + 4] != 0))
  {
  }
}
