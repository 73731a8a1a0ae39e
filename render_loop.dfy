/** The render loop of `main` (shaderun.c:128-172).  Each iteration reads
    the framebuffer size, the clock and the cursor, and hands the shader
    five uniform values; the frame counter, the previous clock reading and
    the mouse vector carry over from one iteration to the next.

    The clock, framebuffer size and cursor readings of each iteration are a
    `FrameInput`, and how many iterations run (until the window is asked to
    close) is the length of the input sequence.  Each `glUniform*` call is a
    `UniformWrite` appended to a log.  Times and coordinates are exact reals. */
module RenderLoop {
  import opened Startup

  datatype Value =
    | Scalar(x: real)
    | Vec3(x: real, y: real, z: real)
    | Vec4(x: real, y: real, z: real, w: real)

  datatype UniformWrite = UniformWrite(location: int, value: Value)

  /** What one iteration reads: `glfwGetTime`, `glfwGetFramebufferSize`
      and `glfwGetCursorPos`. */
  datatype FrameInput = FrameInput(time: real, width: int, height: int,
                                   cursorX: real, cursorY: real)

  /** The clock reading `prev_time` holds after these iterations: 0 before
      the first, when the clock has just been reset. */
  function ClockBefore(inputs: seq<FrameInput>): real {
    if inputs == [] then 0.0 else inputs[|inputs| - 1].time
  }

  /** The five uploads of iteration `k` (counting from 0), in the order
      `main` issues them: time, resolution, time delta, frame, mouse.  The
      last two mouse components are never written, so they keep `stale`. */
  function FrameWrites(s: Slots, k: nat, prevTime: real, input: FrameInput,
                       stale: (real, real)): seq<UniformWrite>
  {
    [UniformWrite(s.time, Scalar(input.time)),
     UniformWrite(s.resolution, Vec3(input.width as real, input.height as real, 1.0)),
     UniformWrite(s.timeDelta, Scalar(input.time - prevTime)),
     UniformWrite(s.frame, Scalar(k as real)),
     UniformWrite(s.mouse, Vec4(input.cursorX, input.height as real - input.cursorY,
                                stale.0, stale.1))]
  }

  /** Every upload of a run over these inputs, iteration after iteration. */
  function RunLog(s: Slots, inputs: seq<FrameInput>, stale: (real, real)): seq<UniformWrite>
    decreases |inputs|
  {
    if inputs == [] then []
    else
      var before := inputs[..|inputs| - 1];
      RunLog(s, before, stale)
        + FrameWrites(s, |before|, ClockBefore(before), inputs[|inputs| - 1], stale)
  }

  /** The state `main` keeps across iterations. */
  class Runner {
    const slots: Slots
    const stale: (real, real)
    var frame: int          // f
    var prevTime: real      // prev_time
    var curTime: real       // cur_time
    var timeDelta: real     // dtime
    var width: int          // w_width
    var height: int         // w_height
    const mouse: array<real> // mouse_vec
    var log: seq<UniformWrite>
    ghost var inputs: seq<FrameInput>

    /** The counter counts the iterations, `prev_time` is the last clock
        reading, the mouse vector's unwritten half is unchanged, and the
        log is the run's. */
    ghost predicate Valid()
      reads this, mouse
    {
      mouse.Length == 4
      && frame == |inputs|
      && prevTime == ClockBefore(inputs)
      && mouse[2] == stale.0 && mouse[3] == stale.1
      && log == RunLog(slots, inputs, stale)
    }

    /** The per-frame variables hold these values. */
    ghost predicate ShowsState(width: int, height: int, curTime: real, timeDelta: real,
                               mouseX: real, mouseY: real)
      reads this, mouse
    {
      mouse.Length == 4
      && this.width == width && this.height == height
      && this.curTime == curTime && this.timeDelta == timeDelta
      && mouse[0] == mouseX && mouse[1] == mouseY
    }

    /** The per-frame variables hold what iteration `input` computed after a
        clock reading of `prevTime`. */
    ghost predicate ShowsFrame(input: FrameInput, prevTime: real)
      reads this, mouse
    {
      ShowsState(input.width, input.height, input.time, input.time - prevTime,
                 input.cursorX, input.height as real - input.cursorY)
    }

    /** The state just before the loop (shaderun.c:128-134), whose mouse
        vector holds whatever `stale` values its storage had. */
    constructor (slots: Slots, stale: (real, real))
      ensures Valid()
      ensures this.slots == slots && this.stale == stale
      ensures inputs == [] && log == [] && frame == 0 && prevTime == 0.0
      ensures fresh(mouse)
    {
      this.slots := slots;
      this.stale := stale;
      frame := 0;
      prevTime := 0.0;
      curTime := 0.0;
      timeDelta := 0.0;
      width := 0;
      height := 0;
      var m := new real[4];
      m[2] := stale.0;
      m[3] := stale.1;
      mouse := m;
      log := [];
      inputs := [];
    }

    /** One iteration of the loop body (shaderun.c:136-168). */
    method Step(input: FrameInput)
      requires Valid()
      modifies this, mouse
      ensures Valid()
      ensures inputs == old(inputs) + [input]
      ensures frame == old(frame) + 1
      ensures curTime == prevTime == input.time
      ensures timeDelta == input.time - old(prevTime)
      ensures width == input.width && height == input.height
      ensures mouse[..] == [input.cursorX, input.height as real - input.cursorY, stale.0, stale.1]
      ensures log == old(log) + FrameWrites(slots, old(frame), old(prevTime), input, stale)
    {
      width, height := input.width, input.height;
      curTime := input.time;
      timeDelta := curTime - prevTime;
      prevTime := curTime;

      mouse[0] := input.cursorX;
      mouse[1] := height as real - input.cursorY;
      // the five glUniform calls, in the order main makes them
      ghost var writes := FrameWrites(slots, frame, old(prevTime), input, stale);
      log := log + [UniformWrite(slots.time, Scalar(curTime)),
                    UniformWrite(slots.resolution, Vec3(width as real, height as real, 1.0)),
                    UniformWrite(slots.timeDelta, Scalar(timeDelta)),
                    UniformWrite(slots.frame, Scalar(frame as real)),
                    UniformWrite(slots.mouse, Vec4(mouse[0], mouse[1], mouse[2], mouse[3]))];
      assert log == old(log) + writes;

      frame := frame + 1;
      ghost var before := inputs;
      inputs := inputs + [input];
      assert inputs[..|inputs| - 1] == before;
    }

    /** The loop itself: one step per iteration until the window closes. */
    method Run(frames: seq<FrameInput>)
      requires Valid()
      modifies this, mouse
      ensures Valid()
      ensures inputs == old(inputs) + frames
      ensures frames == [] ==> ShowsState(old(width), old(height), old(curTime), old(timeDelta),
                                          old(mouse[0]), old(mouse[1]))
      ensures frames != [] ==> ShowsFrame(frames[|frames| - 1],
                                          if |frames| > 1 then frames[|frames| - 2].time else old(prevTime))
    {
      var i := 0;
      while i < |frames|
        invariant 0 <= i <= |frames|
        invariant Valid()
        invariant inputs == old(inputs) + frames[..i]
        invariant i == 0 ==> ShowsState(old(width), old(height), old(curTime), old(timeDelta),
                                        old(mouse[0]), old(mouse[1]))
        invariant i > 0 ==> ShowsFrame(frames[i - 1], if i > 1 then frames[i - 2].time else old(prevTime))
      {
        Step(frames[i]);
        assert frames[..i + 1] == frames[..i] + [frames[i]];
        i := i + 1;
      }
      assert frames[..i] == frames;
    }
  }

  /** The loop of `main` from its set-up to `exit(EXIT_SUCCESS)`: the
      uploads are those of `RunLog`, one iteration per input, and the
      process ends with status 0. */
  method RenderSession(slots: Slots, stale: (real, real), frames: seq<FrameInput>)
    returns (log: seq<UniformWrite>, iterations: int, ending: Termination)
    ensures log == RunLog(slots, frames, stale)
    ensures iterations == |frames|
    ensures ending == Exited(0)
  {
    var runner := new Runner(slots, stale);
    runner.Run(frames);
    assert runner.inputs == frames;
    log, iterations := runner.log, runner.frame;
    ending := Exited(0);
  }

  /** Five uploads per iteration. */
  lemma {:induction false} RunLogLength(s: Slots, inputs: seq<FrameInput>, stale: (real, real))
    ensures |RunLog(s, inputs, stale)| == 5 * |inputs|
    decreases |inputs|
  {
    if inputs != [] {
      RunLogLength(s, inputs[..|inputs| - 1], stale);
    }
  }

  /** The log of iteration `k` sits at positions 5k to 5k+4 and depends only
      on that iteration's input and the clock reading before it. */
  lemma {:induction false} RunLogFrame(s: Slots, inputs: seq<FrameInput>, stale: (real, real), k: nat)
    requires k < |inputs|
    ensures |RunLog(s, inputs, stale)| == 5 * |inputs|
    ensures RunLog(s, inputs, stale)[5 * k .. 5 * k + 5]
            == FrameWrites(s, k, ClockBefore(inputs[..k]), inputs[k], stale)
    decreases |inputs|
  {
    var before := inputs[..|inputs| - 1];
    RunLogLength(s, inputs, stale);
    RunLogLength(s, before, stale);
    if k < |before| {
      RunLogFrame(s, before, stale, k);
      assert before[..k] == inputs[..k];
      assert RunLog(s, inputs, stale)[5 * k .. 5 * k + 5] == RunLog(s, before, stale)[5 * k .. 5 * k + 5];
    } else {
      assert before == inputs[..k];
    }
  }

  /** The clock reading before iteration `k` is that of iteration k-1, or 0
      for the first. */
  lemma ClockBeforeFrame(inputs: seq<FrameInput>, k: nat)
    requires k <= |inputs|
    ensures ClockBefore(inputs[..k]) == if k == 0 then 0.0 else inputs[k - 1].time
  {
  }

  /** `iTime` of iteration `k` is its clock reading. */
  lemma TimeUpload(s: Slots, inputs: seq<FrameInput>, stale: (real, real), k: nat)
    requires k < |inputs|
    ensures 5 * k < |RunLog(s, inputs, stale)|
    ensures RunLog(s, inputs, stale)[5 * k] == UniformWrite(s.time, Scalar(inputs[k].time))
  {
    RunLogFrame(s, inputs, stale, k);
    assert RunLog(s, inputs, stale)[5 * k] == RunLog(s, inputs, stale)[5 * k .. 5 * k + 5][0];
  }

  /** `iResolution` of iteration `k` is that iteration's framebuffer size
      with a z component of 1. */
  lemma ResolutionUpload(s: Slots, inputs: seq<FrameInput>, stale: (real, real), k: nat)
    requires k < |inputs|
    ensures 5 * k + 1 < |RunLog(s, inputs, stale)|
    ensures RunLog(s, inputs, stale)[5 * k + 1]
            == UniformWrite(s.resolution, Vec3(inputs[k].width as real, inputs[k].height as real, 1.0))
  {
    RunLogFrame(s, inputs, stale, k);
    assert RunLog(s, inputs, stale)[5 * k + 1] == RunLog(s, inputs, stale)[5 * k .. 5 * k + 5][1];
  }

  /** `iTimeDelta` of iteration `k` is its clock reading minus the previous
      iteration's, or minus 0 for the first. */
  lemma DeltaUpload(s: Slots, inputs: seq<FrameInput>, stale: (real, real), k: nat)
    requires k < |inputs|
    ensures 5 * k + 2 < |RunLog(s, inputs, stale)|
    ensures RunLog(s, inputs, stale)[5 * k + 2]
            == UniformWrite(s.timeDelta, Scalar(inputs[k].time - (if k == 0 then 0.0 else inputs[k - 1].time)))
  {
    RunLogFrame(s, inputs, stale, k);
    ClockBeforeFrame(inputs, k);
    assert RunLog(s, inputs, stale)[5 * k + 2] == RunLog(s, inputs, stale)[5 * k .. 5 * k + 5][2];
  }

  /** `iFrame` of iteration `k` is `k`: the counter starts at 0 and rises by
      one per iteration. */
  lemma FrameCounterUpload(s: Slots, inputs: seq<FrameInput>, stale: (real, real), k: nat)
    requires k < |inputs|
    ensures 5 * k + 3 < |RunLog(s, inputs, stale)|
    ensures RunLog(s, inputs, stale)[5 * k + 3] == UniformWrite(s.frame, Scalar(k as real))
  {
    RunLogFrame(s, inputs, stale, k);
    assert RunLog(s, inputs, stale)[5 * k + 3] == RunLog(s, inputs, stale)[5 * k .. 5 * k + 5][3];
  }

  /** `iMouse` of iteration `k` is the cursor with y flipped against that
      iteration's framebuffer height; its last two components never change. */
  lemma MouseUpload(s: Slots, inputs: seq<FrameInput>, stale: (real, real), k: nat)
    requires k < |inputs|
    ensures 5 * k + 4 < |RunLog(s, inputs, stale)|
    ensures RunLog(s, inputs, stale)[5 * k + 4]
            == UniformWrite(s.mouse, Vec4(inputs[k].cursorX, inputs[k].height as real - inputs[k].cursorY,
                                          stale.0, stale.1))
  {
    RunLogFrame(s, inputs, stale, k);
    assert RunLog(s, inputs, stale)[5 * k + 4] == RunLog(s, inputs, stale)[5 * k .. 5 * k + 5][4];
  }

  /** The sum of the `iTimeDelta` values of the first `n` iterations of a
      log laid out five uploads per iteration. */
  function DeltaSum(log: seq<UniformWrite>, n: nat): real
    requires 5 * n <= |log|
  {
    if n == 0 then 0.0
    else
      var v := log[5 * (n - 1) + 2].value;
      DeltaSum(log, n - 1) + (if v.Scalar? then v.x else 0.0)
  }

  /** Extending a log leaves the sums over its complete iterations alone. */
  lemma {:induction false} DeltaSumPrefix(log: seq<UniformWrite>, more: seq<UniformWrite>, n: nat)
    requires 5 * n <= |log|
    ensures DeltaSum(log + more, n) == DeltaSum(log, n)
  {
    if n > 0 {
      DeltaSumPrefix(log, more, n - 1);
      assert (log + more)[5 * (n - 1) + 2] == log[5 * (n - 1) + 2];
    }
  }

  /** The deltas telescope: after any number of iterations they add up to
      the last clock reading, since the clock and `prev_time` both start
      at 0. */
  lemma {:induction false} DeltaTelescope(s: Slots, inputs: seq<FrameInput>, stale: (real, real))
    ensures |RunLog(s, inputs, stale)| == 5 * |inputs|
    ensures DeltaSum(RunLog(s, inputs, stale), |inputs|) == ClockBefore(inputs)
    decreases |inputs|
  {
    RunLogLength(s, inputs, stale);
    if inputs != [] {
      var before := inputs[..|inputs| - 1];
      var n := |before|;
      DeltaTelescope(s, before, stale);
      var log := RunLog(s, inputs, stale);
      var frame := FrameWrites(s, n, ClockBefore(before), inputs[n], stale);
      assert log == RunLog(s, before, stale) + frame;
      DeltaSumPrefix(RunLog(s, before, stale), frame, n);
      assert log[5 * n + 2] == frame[2];
    }
  }

  /** A clock that never runs backwards gives no negative `iTimeDelta`. */
  lemma NonNegativeDeltas(s: Slots, inputs: seq<FrameInput>, stale: (real, real), k: nat)
    requires forall i :: 0 <= i < |inputs| ==> 0.0 <= inputs[i].time
    requires forall i :: 0 < i < |inputs| ==> inputs[i - 1].time <= inputs[i].time
    requires k < |inputs|
    ensures 5 * k + 2 < |RunLog(s, inputs, stale)|
    ensures RunLog(s, inputs, stale)[5 * k + 2].value.x >= 0.0
  {
    DeltaUpload(s, inputs, stale, k);
  }
}
