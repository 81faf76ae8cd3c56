/** `Animation<T>` over `real` values: a frame array filled at construction
    and transport state updated in place. The global clock `eTime` is the
    parameter `now`, in milliseconds. Every method is tied to the pure
    transition of the same name in `AnimationSpec`, where its properties
    are proved. */
module Animations {
  import opened MachineInts
  import opened AnimationSpec

  class Animation {
    const frames: array<real>
    const numFrames: nat
    /** `frameTime * 1000`: the duration of one frame in milliseconds. */
    const frameMs: nat
    const loopType: LoopType

    var isPlaying: bool
    var isPaused: bool
    var startTime: U64
    var pauseTime: U64
    /** Elapsed milliseconds, cached between calls of `GetFrame`. */
    var time: U64

    /** The frame count matches the array, fits an `unsigned int` and is at
        least one; a frame's length in milliseconds fits an `int`, and is
        positive under the loop policy; the two flags are never both set. */
    ghost predicate Valid()
      reads this
    {
      frames.Length == numFrames
      && 1 <= numFrames < TWO_32
      && frameMs < TWO_32 / 2 && TimedFrames(frameMs, loopType)
      && Exclusive(State())
    }

    function State(): Transport
      reads this
    {
      Transport(isPlaying, isPaused, startTime, pauseTime, time)
    }

    /** Copies the first `n` values of `copyFrames` into a new array; the
        animation starts out stopped with both timestamps and the cached
        time at zero. The loop policy defaults to stop. */
    constructor (copyFrames: array<real>, n: nat, timePerFrameMs: nat, loop: LoopType := LoopType.Stop)
      requires 1 <= n <= copyFrames.Length && n < TWO_32
      requires timePerFrameMs < TWO_32 / 2 && TimedFrames(timePerFrameMs, loop)
      ensures Valid() && fresh(frames)
      ensures frames[..] == copyFrames[..n]
      ensures frameMs == timePerFrameMs && loopType == loop
      ensures State() == Idle
    {
      loopType := loop;
      frameMs := timePerFrameMs;
      numFrames := n;
      var fs := new real[n];
      for i := 0 to n
        invariant fs[..i] == copyFrames[..i]
      {
        fs[i] := copyFrames[i];
      }
      frames := fs;
      isPlaying, isPaused := false, false;
      startTime, pauseTime, time := 0, 0, 0;
    }

    method Start(now: U64)
      requires Valid()
      modifies this
      ensures Valid() && State() == AfterStart(old(State()), now)
    {
      startTime := now;
      isPlaying := true;
      isPaused := false;
    }

    method Stop()
      requires Valid()
      modifies this
      ensures Valid() && State() == AfterStop(old(State()))
    {
      isPlaying := false;
      isPaused := false;
    }

    method Play(now: U64)
      requires Valid()
      modifies this
      ensures Valid() && State() == AfterPlay(old(State()), now)
    {
      if isPaused {
        startTime := Add64(startTime, Sub64(now, pauseTime));
      } else {
        if !isPlaying {
          startTime := now;
        }
      }
      isPlaying := true;
      isPaused := false;
    }

    method Pause(now: U64)
      requires Valid()
      modifies this
      ensures Valid() && State() == AfterPause(old(State()), now)
    {
      isPlaying := false;
      isPaused := true;
      pauseTime := now;
    }

    /** The frame at the current time under the loop policy; may update the
        flags (stop), the start time (loop) and the cached time. */
    method GetFrame(now: U64) returns (r: Sample)
      requires Valid()
      modifies this
      ensures Valid()
      ensures Step(r, State()) == FrameStep(frames[..], frameMs, loopType, old(State()), now)
    {
      ghost var s0 := State();
      assert frames.Length == numFrames;
      if isPlaying {
        time := Sub64(now, startTime);
      }
      if isPaused {
        time := Sub64(pauseTime, startTime);
      }
      assert time == ObservedTime(s0, now);
      match loopType {
        case Clamp =>
          if time >= EndTime(frameMs, numFrames) {
            return Value(frames[numFrames - 1]);
          }
        case Loop =>
          if time >= EndTime(frameMs, numFrames) {
            startTime := Add64(startTime, Cycle(frameMs, numFrames));
            time := Sub64(now, startTime);
          }
        case Stop =>
          if time >= EndTime(frameMs, numFrames) {
            isPlaying := false;
            isPaused := false;
            return Value(frames[numFrames - 1]);
          }
      }
      if loopType != Loop {
        EndTimeNeedsFrameMs(frameMs, numFrames, time);
      }
      ghost var fs := frames[..];
      assert State() == FrameStep(fs, frameMs, loopType, s0, now).state;
      assert FrameStep(fs, frameMs, loopType, s0, now).sample == Interpolate(fs, frameMs, time);
      var frame := time / frameMs;
      DivNonneg(time, frameMs);
      if frame >= numFrames {
        r := OutOfRange(frame);
        assert r == Interpolate(fs, frameMs, time);
        return;
      }
      assert 0 <= frame < frames.Length;
      var nextFrame := (frame + 1) % numFrames;
      r := Value(Blend(frames[frame], frames[nextFrame], Ratio(time, frameMs)));
      assert fs[frame] == frames[frame] && fs[nextFrame] == frames[nextFrame];
      assert r == Interpolate(fs, frameMs, time);
    }

    function IsPlaying(): (b: bool)
      reads this
      ensures b <==> State().isPlaying
    {
      isPlaying
    }
  }

  lemma DivNonneg(a: nat, b: nat)
    requires b >= 1
    ensures a / b >= 0
  {
  }

  /** A client: under the clamp policy, sampling during a pause, waiting
      and resuming leaves the sampled frame where it was at the pause,
      whatever the clock did in between. Under loop a paused call past the
      end re-measures from the clock, and under stop it stops the animation
      so that resuming restarts it; neither policy keeps the frame. */
  method PauseResumeKeepsFrame(a: Animation, tp: U64, tn: U64) returns (atPause: Sample, afterResume: Sample)
    requires a.Valid() && a.loopType == Clamp
    modifies a
    ensures atPause == afterResume
  {
    ghost var s0 := a.State();
    a.Pause(tp);
    atPause := a.GetFrame(tp);
    ghost var t := a.State().time;
    assert a.State() == AfterPause(s0.(time := t), tp);
    a.Play(tn);
    afterResume := a.GetFrame(tn);
    ResumeContinuesSample(a.frames[..], a.frameMs, a.loopType, s0.(time := t), tp, tp, tn);
  }
}
