/**
 * Sprite animation state: the frame array holds texture positions as
 * [x1, y1, x2, y2, ...], `currentFrame` is the index of the current x, and a
 * frame advances when more than 1000 / fps milliseconds have passed.
 */
module Animations {
  import opened Common

  /**
   * The index that follows `current` in a frame array of length `length`:
   * two on (as a Java `int`), back to 0 when that reaches the length.
   */
  function NextFrame(current: int32, length: int): (r: int32)
    ensures current as int + 2 <= INT_MAX ==> r as int == if current as int + 2 == length then 0 else current as int + 2
    ensures INT_MAX < current as int + 2 && 0 <= length ==> r as int == current as int + 2 - 0x1_0000_0000 < 0
  {
    var next := Wrap(current as int + 2);
    if next as int == length then 0 else next
  }

  /**
   * The timing test of `drawFrame` on the milliseconds elapsed since the
   * last advance. With fps zero the threshold 1000 / fps is +infinity in the
   * source's float arithmetic, so the frame never advances.
   */
  predicate FrameDue(elapsed: int, fps: real)
  {
    fps != 0.0 && elapsed as real > 1000.0 / fps
  }

  /**
   * For a positive rate a frame is due once more than 1000 / fps
   * milliseconds have passed, that is once elapsed * fps exceeds 1000.
   */
  lemma FrameDueAtPositiveRate(elapsed: int, fps: real)
    requires fps > 0.0
    ensures FrameDue(elapsed, fps) <==> elapsed as real * fps > 1000.0
  {
    ThresholdByProduct(elapsed as real, fps, 1000.0);
  }

  /** For a negative rate the threshold 1000 / fps is negative, and the comparison through the product turns round. */
  lemma FrameDueAtNegativeRate(elapsed: int, fps: real)
    requires fps < 0.0
    ensures FrameDue(elapsed, fps) <==> elapsed as real * fps < 1000.0
  {
    ThresholdByProduct(elapsed as real, fps, 1000.0);
  }

  /** a > k / c, for a non-zero c, compares a * c with k: the same way round when c is positive, reversed when negative. */
  lemma ThresholdByProduct(a: real, c: real, k: real)
    requires c != 0.0
    ensures c > 0.0 ==> (a > k / c <==> a * c > k)
    ensures c < 0.0 ==> (a > k / c <==> a * c < k)
  {
    var b := k / c;
    assert b * c == k;
    assert (a - b) * c == a * c - k;
  }

  /** An index that `drawFrame` can read together with the entry after it. */
  predicate InBounds(current: int, length: int)
  {
    0 <= current && current + 1 < length
  }

  /** The x entry of a frame pair: in bounds and even. */
  predicate WellPlaced(current: int, length: int)
  {
    InBounds(current, length) && current % 2 == 0
  }

  /**
   * With an even array length, stepping keeps a well-placed index
   * well placed, and it returns to 0 exactly when the end is reached.
   */
  lemma NextFrameStaysInBounds(current: int32, length: int)
    requires length <= INT_MAX && length % 2 == 0
    requires WellPlaced(current as int, length)
    ensures WellPlaced(NextFrame(current, length) as int, length)
    ensures NextFrame(current, length) == 0 <==> current as int == length - 2
  {
  }

  /**
   * With an odd array length the index never returns to 0: from the last
   * pair it steps past the end and the next read is out of bounds.
   */
  lemma OddLengthRunsOff(current: int32, length: int)
    requires length <= INT_MAX && length % 2 == 1
    requires WellPlaced(current as int, length)
    ensures NextFrame(current, length) as int == current as int + 2
    ensures current as int == length - 3 ==> !InBounds(NextFrame(current, length) as int, length)
  {
  }

  /** `setFrame` of a frame number whose pair exists selects that pair. */
  lemma SetFrameSelectsPair(frame: int32, length: int)
    requires length <= INT_MAX && 0 <= frame as int && 2 * frame as int + 1 < length
    ensures WellPlaced(Wrap(2 * frame as int) as int, length)
  {
  }

  /** The array after `flipHorizontally`: every x entry (even index) moved by the frame width. */
  function Flipped(s: seq<real>, width: real): (r: seq<real>)
    ensures |r| == |s|
    ensures forall i :: 0 <= i < |s| && i % 2 == 1 ==> r[i] == s[i]
    ensures forall i :: 0 <= i < |s| && i % 2 == 0 ==> r[i] == s[i] + width
  {
    seq(|s|, i requires 0 <= i < |s| => if i % 2 == 0 then s[i] + width else s[i])
  }

  /** Flipping twice (the second time with the negated width) restores the array. */
  lemma FlipTwiceRestores(s: seq<real>, width: real)
    ensures Flipped(Flipped(s, width), -width) == s
  {
    var once := Flipped(s, width);
    var twice := Flipped(once, -width);
    forall i | 0 <= i < |s|
      ensures twice[i] == s[i]
    {
      if i % 2 == 0 {
        assert twice[i] == once[i] + -width;
      }
    }
  }

  class Animation {
    const frameXYPositions: array<real>
    var frameWidth: real
    var frameHeight: real
    var currentFrame: int32
    var fps: real
    var lastEpoch: int
    var pause: bool

    /** The frame array is the caller's own, not a copy. */
    constructor (frameXYPositions: array<real>, frameWidth: real, frameHeight: real, fps: real)
      ensures this.frameXYPositions == frameXYPositions
      ensures this.frameWidth == frameWidth && this.frameHeight == frameHeight && this.fps == fps
      ensures currentFrame == 0 && lastEpoch == 0 && !pause
    {
      this.frameXYPositions := frameXYPositions;
      this.frameWidth := frameWidth;
      this.frameHeight := frameHeight;
      this.fps := fps;
      currentFrame := 0;
      lastEpoch := 0;
      pause := false;
    }

    /** Whether the next draw can read the current frame's two coordinates. */
    predicate CanDraw()
      reads this
    {
      InBounds(currentFrame as int, frameXYPositions.Length)
    }

    /**
     * The frame-stepping part of `drawFrame`, with the millisecond clock
     * reading passed in as `epoch`. The result is the texture position the
     * frame hands to the renderer; None is the source's out-of-bounds read.
     */
    method DrawFrame(epoch: int) returns (texture: Option<(real, real)>)
      modifies this`currentFrame, this`lastEpoch
      ensures var advanced := !pause && FrameDue(epoch - old(lastEpoch), fps);
              && currentFrame == (if advanced then NextFrame(old(currentFrame), frameXYPositions.Length) else old(currentFrame))
              && lastEpoch == (if advanced then epoch else old(lastEpoch))
      ensures texture == if CanDraw() then Some((frameXYPositions[currentFrame], frameXYPositions[currentFrame as int + 1])) else None
      ensures old(WellPlaced(currentFrame as int, frameXYPositions.Length)) &&
              frameXYPositions.Length <= INT_MAX && frameXYPositions.Length % 2 == 0 ==>
                WellPlaced(currentFrame as int, frameXYPositions.Length) && texture.Some?
    {
      if !pause {
        if FrameDue(epoch - lastEpoch, fps) {
          lastEpoch := epoch;
          currentFrame := Wrap(currentFrame as int + 2);
          if currentFrame as int == frameXYPositions.Length {
            currentFrame := 0;
          }
        }
      }
      if old(WellPlaced(currentFrame as int, frameXYPositions.Length)) &&
         frameXYPositions.Length <= INT_MAX && frameXYPositions.Length % 2 == 0 {
        NextFrameStaysInBounds(old(currentFrame), frameXYPositions.Length);
      }
      if 0 <= currentFrame && currentFrame as int + 1 < frameXYPositions.Length {
        texture := Some((frameXYPositions[currentFrame], frameXYPositions[currentFrame as int + 1]));
      } else {
        texture := None;
      }
    }

    /** `flipHorizontally`: shift every x entry by the frame width, then negate the width. */
    method FlipHorizontally()
      modifies frameXYPositions, this`frameWidth
      ensures frameXYPositions[..] == Flipped(old(frameXYPositions[..]), old(frameWidth))
      ensures frameWidth == -old(frameWidth)
    {
      var i := 0;
      while i < frameXYPositions.Length
        modifies frameXYPositions
        invariant 0 <= i <= frameXYPositions.Length + 1 && i % 2 == 0
        invariant forall k :: 0 <= k < frameXYPositions.Length ==>
          frameXYPositions[k] == if k < i && k % 2 == 0 then old(frameXYPositions[k]) + frameWidth else old(frameXYPositions[k])
      {
        frameXYPositions[i] := frameXYPositions[i] + frameWidth;
        i := i + 2;
      }
      frameWidth := -frameWidth;
    }

    method GetCurrentFrame() returns (frame: int32)
      ensures frame == currentFrame
    {
      frame := currentFrame;
    }

    /** Selects a frame by its number: the index of its x entry is twice the number, as a Java `int`. */
    method SetFrame(frame: int32)
      modifies this`currentFrame
      ensures currentFrame == Wrap(2 * frame as int)
    {
      currentFrame := Wrap(frame as int * 2);
    }

    method SetPause(pause: bool)
      modifies this`pause
      ensures this.pause == pause
    {
      this.pause := pause;
    }

    method SetFps(fps: real)
      modifies this`fps
      ensures this.fps == fps
    {
      this.fps := fps;
    }

    /**
     * Writes the texture position of the pair starting at index `frame`. The
     * source writes index `frame` before the write to `frame + 1` can fail, so
     * a failure may leave the first write done; `ok` is false on failure.
     */
    method SetFramePositions(frame: int, xPosition: real, yPosition: real) returns (ok: bool)
      modifies frameXYPositions
      ensures ok <==> 0 <= frame && frame + 1 < frameXYPositions.Length
      ensures frameXYPositions[..] ==
        if 0 <= frame < frameXYPositions.Length then
          if frame + 1 < frameXYPositions.Length then old(frameXYPositions[..])[frame := xPosition][frame + 1 := yPosition]
          else old(frameXYPositions[..])[frame := xPosition]
        else old(frameXYPositions[..])
    {
      if frame < 0 || frame >= frameXYPositions.Length {
        return false;
      }
      frameXYPositions[frame] := xPosition;
      if frame + 1 >= frameXYPositions.Length {
        return false;
      }
      frameXYPositions[frame + 1] := yPosition;
      ok := true;
    }
  }

  /**
   * `lastEpoch` starts at 0, so the first draw at any clock reading past one
   * frame period already advances: a fresh animation first shows its second
   * frame, not its first.
   */
  method FirstDrawShowsSecondFrame(frames: array<real>, width: real, height: real, fps: real, epoch: int)
      returns (texture: Option<(real, real)>)
    requires frames.Length >= 4 && fps > 0.0 && epoch as real > 1000.0 / fps
    ensures texture == Some((frames[2], frames[3]))
  {
    var animation := new Animation(frames, width, height, fps);
    texture := animation.DrawFrame(epoch);
  }

  /** Drawing while paused leaves the frame and its timestamp as they were. */
  method PausedDrawIsFrozen(a: Animation, epoch: int) returns (texture: Option<(real, real)>)
    requires a.pause
    modifies a
    ensures a.currentFrame == old(a.currentFrame) && a.lastEpoch == old(a.lastEpoch)
    ensures texture.Some? <==> InBounds(a.currentFrame as int, a.frameXYPositions.Length)
  {
    texture := a.DrawFrame(epoch);
  }

  /** Flipping an animation twice restores both its frame array and its frame width. */
  method FlipTwiceIsIdentity(a: Animation)
    modifies a, a.frameXYPositions
    ensures a.frameXYPositions[..] == old(a.frameXYPositions[..]) && a.frameWidth == old(a.frameWidth)
  {
    a.FlipHorizontally();
    a.FlipHorizontally();
    FlipTwiceRestores(old(a.frameXYPositions[..]), old(a.frameWidth));
  }
}
