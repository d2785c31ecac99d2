/**
 * The per-frame GPU protocol as a trace of events.  Each frame slot owns a fence,
 * an image-available and a render-finished semaphore, a uniform buffer and a
 * command buffer; the renderer cycles through MAX_FRAMES_IN_FLIGHT slots.  A fence
 * monitor gives the events their meaning: a wait must find its fence signalled or
 * awaiting submitted work (otherwise it never returns), a reset must not touch a
 * fence still awaiting work, and a submission must be handed an unsignalled fence.
 */
module FrameProtocol {
  import opened Wrappers
  import opened LinAlg

  const MaxFramesInFlight := 2

  /** The result codes of acquire, submit and present. */
  datatype VkResult = Success | Suboptimal | OutOfDate | Failure(code: int)

  /** The uniform block written once per frame: identity model, the camera's view and projection. */
  datatype Ubo = Ubo(model: Mat4, view: Mat4, proj: Mat4)

  /** One indexed draw: the bound descriptor set, the pushed model matrix and the index range. */
  datatype Draw = Draw(descriptorSet: int, matrix: Mat4, indexCount: int, firstIndex: int, vertexOffset: int)

  datatype GpuEvent =
    | WaitFence(slot: nat)
    | AcquireImage(slot: nat)
    | RecreateSwapChain
    | WriteUniform(slot: nat, ubo: Ubo)
    | ResetFence(slot: nat)
    | ResetCommandBuffer(slot: nat)
    /** Everything recorded between begin and end: the draws, and the overlay while paused. */
    | RecordCommands(slot: nat, image: nat, draws: seq<Draw>, overlay: bool)
    /** Waits on the slot's image-available semaphore, signals its render-finished semaphore and its fence. */
    | Submit(slot: nat)
    /** Waits on the slot's render-finished semaphore. */
    | Present(slot: nat, image: nat)

  /** A fence signalled, unsignalled with nothing to signal it, or awaiting submitted work. */
  datatype FenceState = Signalled | Unsignalled | Pending

  /** What the GPU and the swap chain answer during one frame. */
  datatype FrameGpu = FrameGpu(acquire: VkResult, imageIndex: nat, beginOk: bool, endOk: bool,
                               submit: VkResult, present: VkResult)

  /** Fences as created: every slot signalled, so that the first wait returns. */
  const CreatedFences: seq<FenceState> := [Signalled, Signalled]

  /** The slot after `slot` in the ring. */
  function NextFrame(slot: nat): (r: nat)
    ensures r < MaxFramesInFlight
    ensures slot < MaxFramesInFlight ==> r != slot
  {
    (slot + 1) % MaxFramesInFlight
  }

  /** Two advances return to the same slot. */
  lemma NextFrameTwice(slot: nat)
    requires slot < MaxFramesInFlight
    ensures NextFrame(NextFrame(slot)) == slot
  {
  }

  predicate NoneUnsignalled(f: seq<FenceState>) {
    forall s :: 0 <= s < |f| ==> f[s] != Unsignalled
  }

  /** Whether the fence monitor admits event e in fence state f. */
  predicate Allowed(f: seq<FenceState>, e: GpuEvent) {
    match e
    case WaitFence(s) => s < |f| && f[s] != Unsignalled
    case ResetFence(s) => s < |f| && f[s] != Pending
    case Submit(s) => s < |f| && f[s] == Unsignalled
    case _ => true
  }

  /** The effect of event e on the fences: a wait lets pending work complete. */
  function Step(f: seq<FenceState>, e: GpuEvent): (r: seq<FenceState>)
    ensures |r| == |f|
  {
    match e
    case WaitFence(s) => if s < |f| && f[s] == Pending then f[s := Signalled] else f
    case ResetFence(s) => if s < |f| then f[s := Unsignalled] else f
    case Submit(s) => if s < |f| then f[s := Pending] else f
    case _ => f
  }

  /** The fences after a whole trace. */
  function Run(f: seq<FenceState>, t: seq<GpuEvent>): (r: seq<FenceState>)
    ensures |r| == |f|
    decreases |t|
  {
    if t == [] then f else Run(Step(f, t[0]), t[1..])
  }

  /** Every event of t is admitted, starting from f. */
  predicate SafeFrom(f: seq<FenceState>, t: seq<GpuEvent>)
    decreases |t|
  {
    t == [] || (Allowed(f, t[0]) && SafeFrom(Step(f, t[0]), t[1..]))
  }

  /** Running a concatenation is running its halves in turn. */
  lemma {:induction false} RunAppend(f: seq<FenceState>, t1: seq<GpuEvent>, t2: seq<GpuEvent>)
    ensures Run(f, t1 + t2) == Run(Run(f, t1), t2)
    decreases |t1|
  {
    if t1 != [] {
      assert (t1 + t2)[0] == t1[0];
      assert (t1 + t2)[1..] == t1[1..] + t2;
      RunAppend(Step(f, t1[0]), t1[1..], t2);
    } else {
      assert t1 + t2 == t2;
    }
  }

  /** A concatenation is safe exactly when its first half is, and its second half is from where the first leaves the fences. */
  lemma {:induction false} SafeAppend(f: seq<FenceState>, t1: seq<GpuEvent>, t2: seq<GpuEvent>)
    ensures SafeFrom(f, t1 + t2) <==> SafeFrom(f, t1) && SafeFrom(Run(f, t1), t2)
    decreases |t1|
  {
    if t1 != [] {
      assert (t1 + t2)[0] == t1[0];
      assert (t1 + t2)[1..] == t1[1..] + t2;
      SafeAppend(Step(f, t1[0]), t1[1..], t2);
    } else {
      assert t1 + t2 == t2;
    }
  }

  function AcquireErrorMessage(): string { "failed to acquire swap chain image!" }
  function BeginErrorMessage(): string { "failed to begin recording command buffer!" }
  function EndErrorMessage(): string { "failed to record command buffer!" }
  function SubmitErrorMessage(): string { "failed to submit draw command buffer!" }
  function PresentErrorMessage(): string { "failed to present swap chain image!" }

  predicate Acquired(r: VkResult) {
    r == Success || r == Suboptimal
  }

  /** Whether a present result, or a pending resize, makes the frame recreate the swap chain. */
  predicate NeedsRecreate(r: VkResult, resized: bool) {
    r == OutOfDate || r == Suboptimal || resized
  }

  /** The events one frame on `slot` emits: a pure statement of the frame's call sequence. */
  function FrameEvents(slot: nat, g: FrameGpu, ubo: Ubo, draws: seq<Draw>, overlay: bool, resized: bool): seq<GpuEvent> {
    [WaitFence(slot)] + AfterWait(slot, g, ubo, draws, overlay, resized)
  }

  /** After the fence wait: acquire, then either stop or write the uniforms and reset the fence. */
  function AfterWait(slot: nat, g: FrameGpu, ubo: Ubo, draws: seq<Draw>, overlay: bool, resized: bool): seq<GpuEvent> {
    if g.acquire == OutOfDate then [AcquireImage(slot), RecreateSwapChain]
    else if !Acquired(g.acquire) then [AcquireImage(slot)]
    else [AcquireImage(slot), WriteUniform(slot, ubo)] + ([ResetFence(slot)] + AfterReset(slot, g, draws, overlay, resized))
  }

  /** After the fence reset: reset and record the command buffer, then submit and present. */
  function AfterReset(slot: nat, g: FrameGpu, draws: seq<Draw>, overlay: bool, resized: bool): seq<GpuEvent> {
    if !g.beginOk then [ResetCommandBuffer(slot)]
    else if !g.endOk || g.submit != Success then [ResetCommandBuffer(slot), RecordCommands(slot, g.imageIndex, draws, overlay)]
    else [ResetCommandBuffer(slot), RecordCommands(slot, g.imageIndex, draws, overlay)] +
           ([Submit(slot)] + AfterSubmit(slot, g, resized))
  }

  /** After the submission: present, and recreate the swap chain when needed. */
  function AfterSubmit(slot: nat, g: FrameGpu, resized: bool): seq<GpuEvent> {
    if NeedsRecreate(g.present, resized) then [Present(slot, g.imageIndex), RecreateSwapChain]
    else [Present(slot, g.imageIndex)]
  }

  /** The frame's outcome: the first failing call raises its error, anything else completes. */
  function FrameResult(g: FrameGpu, resized: bool): Option<string> {
    if g.acquire == OutOfDate then None
    else if !Acquired(g.acquire) then Some(AcquireErrorMessage())
    else if !g.beginOk then Some(BeginErrorMessage())
    else if !g.endOk then Some(EndErrorMessage())
    else if g.submit != Success then Some(SubmitErrorMessage())
    else if !NeedsRecreate(g.present, resized) && g.present != Success then Some(PresentErrorMessage())
    else None
  }

  /**
   * On an out-of-date acquire the frame only waits, acquires and recreates the
   * swap chain: no fence reset, no recording, no submission, no present.
   */
  lemma OutOfDateEarlyReturn(slot: nat, g: FrameGpu, ubo: Ubo, draws: seq<Draw>, overlay: bool, resized: bool)
    requires g.acquire == OutOfDate
    ensures FrameEvents(slot, g, ubo, draws, overlay, resized) == [WaitFence(slot), AcquireImage(slot), RecreateSwapChain]
    ensures FrameResult(g, resized) == None
  {
  }

  /** On a completed frame every fence reset is followed by a submission on the same slot. */
  lemma ResetOnlyBeforeSubmit(slot: nat, g: FrameGpu, ubo: Ubo, draws: seq<Draw>, overlay: bool, resized: bool)
    requires FrameResult(g, resized) == None
    ensures var t := FrameEvents(slot, g, ubo, draws, overlay, resized);
            forall i :: 0 <= i < |t| && t[i].ResetFence? ==>
              exists j :: i < j < |t| && t[j] == Submit(t[i].slot)
  {
    var t := FrameEvents(slot, g, ubo, draws, overlay, resized);
    if g.acquire != OutOfDate {
      assert t[6] == Submit(slot);
      forall i | 0 <= i < |t| && t[i].ResetFence?
        ensures exists j :: i < j < |t| && t[j] == Submit(t[i].slot)
      {
        assert i == 3;
      }
    }
  }

  /** The submit path's order: wait, acquire, uniform write, fence reset, command-buffer reset, record, submit, present. */
  lemma SubmitPathOrder(slot: nat, g: FrameGpu, ubo: Ubo, draws: seq<Draw>, overlay: bool, resized: bool)
    requires g.acquire != OutOfDate && FrameResult(g, resized) == None
    ensures var t := FrameEvents(slot, g, ubo, draws, overlay, resized);
            t[..8] == [WaitFence(slot), AcquireImage(slot), WriteUniform(slot, ubo), ResetFence(slot),
                       ResetCommandBuffer(slot), RecordCommands(slot, g.imageIndex, draws, overlay),
                       Submit(slot), Present(slot, g.imageIndex)]
    ensures |FrameEvents(slot, g, ubo, draws, overlay, resized)| == if NeedsRecreate(g.present, resized) then 9 else 8
  {
  }

  /** Events other than waits, resets and submissions are admitted and change no fence. */
  predicate Neutral(e: GpuEvent) {
    !e.WaitFence? && !e.ResetFence? && !e.Submit?
  }

  lemma {:induction false} NeutralRun(f: seq<FenceState>, t: seq<GpuEvent>)
    requires forall i :: 0 <= i < |t| ==> Neutral(t[i])
    ensures SafeFrom(f, t) && Run(f, t) == f
    decreases |t|
  {
    if t != [] {
      assert Neutral(t[0]);
      NeutralRun(f, t[1..]);
    }
  }

  /** A trace that starts with e is admitted when e is and the rest is after e. */
  lemma Cons(f: seq<FenceState>, e: GpuEvent, rest: seq<GpuEvent>)
    ensures SafeFrom(f, [e] + rest) <==> Allowed(f, e) && SafeFrom(Step(f, e), rest)
    ensures Run(f, [e] + rest) == Run(Step(f, e), rest)
  {
    assert ([e] + rest)[0] == e && ([e] + rest)[1..] == rest;
  }

  /** A prefix of neutral events changes neither safety nor the resulting fences. */
  lemma NeutralPrefix(f: seq<FenceState>, n: seq<GpuEvent>, rest: seq<GpuEvent>)
    requires forall i :: 0 <= i < |n| ==> Neutral(n[i])
    ensures SafeFrom(f, n + rest) <==> SafeFrom(f, rest)
    ensures Run(f, n + rest) == Run(f, rest)
  {
    NeutralRun(f, n);
    SafeAppend(f, n, rest);
    RunAppend(f, n, rest);
  }

  /** The fence wait, then the rest of the frame, appended to any trace. */
  lemma WaitedEvents(t: seq<GpuEvent>, slot: nat, g: FrameGpu, ubo: Ubo, draws: seq<Draw>, overlay: bool, resized: bool)
    ensures t + [WaitFence(slot)] + AfterWait(slot, g, ubo, draws, overlay, resized)
         == t + FrameEvents(slot, g, ubo, draws, overlay, resized)
  {
  }

  /** Two events emitted one at a time, then the rest, appended to any trace. */
  lemma TwoThen(t: seq<GpuEvent>, a: GpuEvent, b: GpuEvent, rest: seq<GpuEvent>)
    ensures t + [a] + [b] + rest == t + ([a] + ([b] + rest))
  {
  }

  /** With an image acquired, the rest of the frame after the acquire, appended to any trace. */
  lemma AcquiredEvents(t: seq<GpuEvent>, slot: nat, g: FrameGpu, ubo: Ubo, draws: seq<Draw>, overlay: bool, resized: bool)
    requires g.acquire != OutOfDate && Acquired(g.acquire)
    ensures t + [AcquireImage(slot)] + ([WriteUniform(slot, ubo)] + ([ResetFence(slot)] + AfterReset(slot, g, draws, overlay, resized)))
         == t + AfterWait(slot, g, ubo, draws, overlay, resized)
  {
    var rest := [ResetFence(slot)] + AfterReset(slot, g, draws, overlay, resized);
    assert [AcquireImage(slot), WriteUniform(slot, ubo)] + rest == [AcquireImage(slot)] + ([WriteUniform(slot, ubo)] + rest);
  }

  /**
   * Every frame is admitted by the fence monitor from any state where no fence is
   * left unsignalled, and a frame that completes leaves no fence unsignalled.
   */
  lemma FrameSafe(f: seq<FenceState>, slot: nat, g: FrameGpu, ubo: Ubo, draws: seq<Draw>,
                  overlay: bool, resized: bool)
    requires slot < |f| && NoneUnsignalled(f)
    ensures SafeFrom(f, FrameEvents(slot, g, ubo, draws, overlay, resized))
    ensures FrameResult(g, resized) == None ==> NoneUnsignalled(Run(f, FrameEvents(slot, g, ubo, draws, overlay, resized)))
  {
    Cons(f, WaitFence(slot), AfterWait(slot, g, ubo, draws, overlay, resized));
    AfterWaitSafe(Step(f, WaitFence(slot)), slot, g, ubo, draws, overlay, resized);
  }

  /** After the wait the slot's fence is signalled, so the reset is admitted. */
  lemma AfterWaitSafe(f1: seq<FenceState>, slot: nat, g: FrameGpu, ubo: Ubo, draws: seq<Draw>,
                      overlay: bool, resized: bool)
    requires slot < |f1| && f1[slot] == Signalled && NoneUnsignalled(f1)
    ensures SafeFrom(f1, AfterWait(slot, g, ubo, draws, overlay, resized))
    ensures FrameResult(g, resized) == None ==> NoneUnsignalled(Run(f1, AfterWait(slot, g, ubo, draws, overlay, resized)))
  {
    var aw := AfterWait(slot, g, ubo, draws, overlay, resized);
    if g.acquire == OutOfDate || !Acquired(g.acquire) {
      NeutralRun(f1, aw);
    } else {
      AcquiredSafe(f1, slot, g, ubo, draws, overlay, resized);
    }
  }

  /** With an image acquired: the acquire and the uniform write are neutral, and the reset is admitted. */
  lemma AcquiredSafe(f1: seq<FenceState>, slot: nat, g: FrameGpu, ubo: Ubo, draws: seq<Draw>,
                     overlay: bool, resized: bool)
    requires slot < |f1| && f1[slot] == Signalled && NoneUnsignalled(f1)
    ensures var t := [AcquireImage(slot), WriteUniform(slot, ubo)] + ([ResetFence(slot)] + AfterReset(slot, g, draws, overlay, resized));
      && SafeFrom(f1, t)
      && (g.beginOk && g.endOk && g.submit == Success ==> NoneUnsignalled(Run(f1, t)))
  {
    var ar := AfterReset(slot, g, draws, overlay, resized);
    NeutralPrefix(f1, [AcquireImage(slot), WriteUniform(slot, ubo)], [ResetFence(slot)] + ar);
    Cons(f1, ResetFence(slot), ar);
    AfterResetSafe(f1, Step(f1, ResetFence(slot)), slot, g, draws, overlay, resized);
  }

  /** After the reset the slot's fence is unsignalled, so the submission is admitted and leaves it pending. */
  lemma AfterResetSafe(f1: seq<FenceState>, f2: seq<FenceState>, slot: nat, g: FrameGpu, draws: seq<Draw>,
                       overlay: bool, resized: bool)
    requires slot < |f1| && NoneUnsignalled(f1) && f2 == f1[slot := Unsignalled]
    ensures SafeFrom(f2, AfterReset(slot, g, draws, overlay, resized))
    ensures g.beginOk && g.endOk && g.submit == Success ==>
      NoneUnsignalled(Run(f2, AfterReset(slot, g, draws, overlay, resized)))
  {
    var ar := AfterReset(slot, g, draws, overlay, resized);
    if !g.beginOk || !g.endOk || g.submit != Success {
      NeutralRun(f2, ar);
    } else {
      var tail := AfterSubmit(slot, g, resized);
      NeutralPrefix(f2, [ResetCommandBuffer(slot), RecordCommands(slot, g.imageIndex, draws, overlay)],
                    [Submit(slot)] + tail);
      Cons(f2, Submit(slot), tail);
      NeutralRun(Step(f2, Submit(slot)), tail);
      assert Step(f2, Submit(slot)) == f1[slot := Pending];
    }
  }

  /**
   * The frame ring's invariant is kept: after any admitted history that leaves no
   * fence unsignalled, one more frame is admitted, and a completed frame again
   * leaves no fence unsignalled.
   */
  lemma FrameKeepsReady(t: seq<GpuEvent>, slot: nat, g: FrameGpu, ubo: Ubo, draws: seq<Draw>, overlay: bool, resized: bool)
    requires slot < MaxFramesInFlight
    requires SafeFrom(CreatedFences, t) && NoneUnsignalled(Run(CreatedFences, t))
    ensures SafeFrom(CreatedFences, t + FrameEvents(slot, g, ubo, draws, overlay, resized))
    ensures FrameResult(g, resized) == None ==>
      NoneUnsignalled(Run(CreatedFences, t + FrameEvents(slot, g, ubo, draws, overlay, resized)))
  {
    var events := FrameEvents(slot, g, ubo, draws, overlay, resized);
    FrameSafe(Run(CreatedFences, t), slot, g, ubo, draws, overlay, resized);
    SafeAppend(CreatedFences, t, events);
    RunAppend(CreatedFences, t, events);
  }
}
