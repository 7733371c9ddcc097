/** Renderer: the frame-transaction state machine. A frame is opened by BeginFrame, which
    acquires a swap-chain image and begins that image's command buffer, and closed by EndFrame,
    which ends and submits the buffer. Stale or suboptimal swap chains and window resizes make
    it rebuild the swap chain, which first waits for a usable window extent, then insists on
    the old chain's formats and reallocates the command buffers only when the image count
    changed. */
module Frames {
  import opened Vulkan
  import opened Windowing

  /** What the environment decides during one ReCreateSwapChain: the batches of events each
      glfwWaitEvents of the extent loop handles, what the new swap chain negotiates with the
      surface, and whether a command-buffer allocation, should one happen, succeeds. */
  datatype RebuildInput = RebuildInput(wakes: seq<seq<WindowEvent>>, negotiated: Negotiated, allocOk: bool)

  /** The observable state of a Renderer, together with the window and the command pool it
      holds by reference. */
  datatype RendererState = RendererState(
    window: WindowState,
    pool: PoolState,
    swapChain: Option<SwapChain>,       // m_SwapChain
    commandBuffers: seq<CommandBuffer>, // m_CommandBuffers
    currentImageIndex: u32,             // m_CurrentImageIndex
    isFrameStarted: bool,               // m_IsFrameStarted
    calls: seq<VkCall>)

  /** A state together with how the operation that produced it ended. */
  datatype Step = Step(state: RendererState, outcome: Outcome)

  /** BeginFrame also returns a command buffer (VK_NULL_HANDLE when it rebuilt instead). */
  datatype Begun = Begun(step: Step, cb: CommandBuffer)

  const NotCompatible := "Swap chains are not compatible"
  const AllocateFailed := "Failed to allocate command buffers"
  const AcquireFailed := "Failed to acquire swap chain image!"
  const BeginFailed := "Failed to allocate command buffer begin info"
  const RecordFailed := "Failed to record command"
  const PresentFailed := "Failed to present swap chain image!"

  /** The Renderer before its constructor body runs: no swap chain, no buffers, idle. */
  function Initial(w: WindowState, p: PoolState): RendererState {
    RendererState(w, p, None, [], 0, false, [])
  }

  /** The command buffers match the current swap chain one for one, and each is a live handle
      of the pool; the chain was built for a usable window extent. */
  predicate ChainValid(s: RendererState) {
    && s.swapChain.Some?
    && !IsDegenerate(s.swapChain.value.windowExtent)
    && |s.commandBuffers| == s.swapChain.value.imageCount
    && PoolValid(s.pool)
    && Distinct(s.commandBuffers)
    && (forall i :: 0 <= i < |s.commandBuffers| ==> s.commandBuffers[i] in s.pool.live)
  }

  /** ChainValid, and a frame in progress refers to one of those command buffers. */
  predicate Valid(s: RendererState) {
    ChainValid(s) && (s.isFrameStarted ==> s.currentImageIndex < |s.commandBuffers|)
  }

  // ---------------------------------------------------------------------------------------
  // The operations as functions of the state

  /** CreateCommandBuffers: size the list to the image count and allocate that many buffers. */
  function AfterCreateCommandBuffers(s: RendererState, allocOk: bool): Step
    requires s.swapChain.Some?
  {
    var n := s.swapChain.value.imageCount;
    if allocOk then Step(s.(pool := AfterAllocate(s.pool, n), commandBuffers := Allocation(s.pool, n)), Normal)
    else Step(s.(commandBuffers := NullBuffers(n)), Threw(AllocateFailed))
  }

  /** FreeCommandBuffers: give every buffer back to the pool and clear the list. */
  function AfterFreeCommandBuffers(s: RendererState): RendererState {
    s.(pool := AfterFree(s.pool, s.commandBuffers), commandBuffers := [])
  }

  /** ReCreateSwapChain. */
  function AfterReCreateSwapChain(s: RendererState, input: RebuildInput): Step {
    match AwaitExtent(s.window, input.wakes)
    case Stuck(w) => Step(s.(window := w), Pending)
    case Ready(extent, w) =>
      var chain := NewSwapChain(extent, input.negotiated);
      var s1 := s.(window := w, calls := s.calls + [DeviceWaitIdle], swapChain := Some(chain));
      if s.swapChain.None? then Step(s1, Normal)
      else if !CompareSwapFormats(s.swapChain.value, chain) then Step(s1, Threw(NotCompatible))
      else if chain.imageCount != |s.commandBuffers| then AfterCreateCommandBuffers(AfterFreeCommandBuffers(s1), input.allocOk)
      else Step(s1, Normal)
  }

  /** The constructor body: ReCreateSwapChain, then CreateCommandBuffers. */
  function Construct(w: WindowState, p: PoolState, input: RebuildInput, allocOk: bool): Step {
    var r := AfterReCreateSwapChain(Initial(w, p), input);
    if r.outcome != Normal then r else AfterCreateCommandBuffers(r.state, allocOk)
  }

  /** BeginFrame: acquire an image; on OutOfDate rebuild and return no buffer; on any other
      failure throw; otherwise mark the frame started and begin that image's buffer. */
  function AfterBeginFrame(s: RendererState, acq: Acquired, rebuild: RebuildInput, beginOk: bool): Begun
    requires !s.isFrameStarted
    requires AcquireSucceeded(acq) ==> acq.imageIndex < |s.commandBuffers|
  {
    var s1 := s.(currentImageIndex := acq.imageIndex, calls := s.calls + [AcquireNextImage]);
    if acq.result == OutOfDate then Begun(AfterReCreateSwapChain(s1, rebuild), NullHandle)
    else if !AcquireSucceeded(acq) then Begun(Step(s1, Threw(AcquireFailed)), NullHandle)
    else
      var cb := s1.commandBuffers[acq.imageIndex];
      var s2 := s1.(isFrameStarted := true, calls := s1.calls + [BeginCommandBuffer(cb)]);
      if !beginOk then Begun(Step(s2, Threw(BeginFailed)), NullHandle)
      else Begun(Step(s2, Normal), cb)
  }

  /** Whether EndFrame rebuilds after submitting. */
  predicate NeedsRebuild(submit: VkResult, w: WindowState) {
    submit == OutOfDate || submit == Suboptimal || w.resized
  }

  /** EndFrame: end and submit the current buffer; rebuild on a stale or suboptimal chain or
      a resize, throw on any other failure; the frame is over when nothing threw. */
  function AfterEndFrame(s: RendererState, endOk: bool, submit: VkResult, rebuild: RebuildInput): Step
    requires s.isFrameStarted && s.currentImageIndex < |s.commandBuffers|
  {
    var cb := s.commandBuffers[s.currentImageIndex];
    var s1 := s.(calls := s.calls + [EndCommandBuffer(cb)]);
    if !endOk then Step(s1, Threw(RecordFailed))
    else
      var s2 := s1.(calls := s1.calls + [SubmitCommandBuffers(cb, s.currentImageIndex)]);
      if NeedsRebuild(submit, s.window) then
        var r := AfterReCreateSwapChain(s2.(window := AfterResetResized(s2.window)), rebuild);
        if r.outcome == Normal then Step(r.state.(isFrameStarted := false), Normal) else r
      else if submit != Success then Step(s2, Threw(PresentFailed))
      else Step(s2.(isFrameStarted := false), Normal)
  }

  /** The precondition shared by both render-pass calls: a frame is in progress and `cb` is
      its command buffer. */
  predicate OnCurrentFrame(s: RendererState, cb: CommandBuffer) {
    s.isFrameStarted && s.currentImageIndex < |s.commandBuffers| && cb == s.commandBuffers[s.currentImageIndex]
  }

  /** BeginSwapChainRenderPass: begin the pass on the current image's framebuffer over the
      whole swap-chain extent, and set viewport and scissor to that extent. */
  function AfterBeginRenderPass(s: RendererState, cb: CommandBuffer): RendererState
    requires OnCurrentFrame(s, cb) && s.swapChain.Some?
  {
    s.(calls := s.calls + RenderPassOpening(cb, s.currentImageIndex, s.swapChain.value))
  }

  /** EndSwapChainRenderPass. */
  function AfterEndRenderPass(s: RendererState, cb: CommandBuffer): RendererState
    requires OnCurrentFrame(s, cb)
  {
    s.(calls := s.calls + [EndRenderPass(cb)])
  }

  // ---------------------------------------------------------------------------------------
  // Properties of the protocol

  /** The command buffers after a successful CreateCommandBuffers are as many as the chain has
      images, distinct, and fresh handles of the pool. */
  lemma CreateGivesFreshBuffers(s: RendererState, allocOk: bool)
    requires s.swapChain.Some? && PoolValid(s.pool) && !IsDegenerate(s.swapChain.value.windowExtent)
    ensures var r := AfterCreateCommandBuffers(s, allocOk);
      && (allocOk <==> r.outcome == Normal)
      && (allocOk ==> ChainValid(r.state) && forall i :: 0 <= i < |r.state.commandBuffers| ==> r.state.commandBuffers[i] !in s.pool.live)
      && (!allocOk ==> r.outcome == Threw(AllocateFailed) && r.state.commandBuffers == NullBuffers(s.swapChain.value.imageCount) && r.state.pool == s.pool)
  {
    AllocationIsFresh(s.pool, s.swapChain.value.imageCount);
  }

  /** The constructor builds the swap chain before the buffers, so a Renderer that was built
      has one buffer per image, is valid and is idle. It cannot fail the format check, since
      there is no older chain. */
  lemma ConstructEstablishesValid(w: WindowState, p: PoolState, input: RebuildInput, allocOk: bool)
    requires PoolValid(p)
    ensures var r := Construct(w, p, input, allocOk);
      && (r.outcome == Pending <==> AwaitExtent(w, input.wakes).Stuck?)
      && (r.outcome != Pending ==> r.state.swapChain == Some(NewSwapChain(AwaitExtent(w, input.wakes).extent, input.negotiated)))
      && (r.outcome == Normal <==> r.outcome != Pending && allocOk)
      && (r.outcome.Threw? ==> r.outcome == Threw(AllocateFailed))
      && (r.outcome == Normal ==>
            Valid(r.state) && !r.state.isFrameStarted
            && |r.state.commandBuffers| == input.negotiated.imageCount
            && r.state.calls == [DeviceWaitIdle])
  {
    var r0 := AfterReCreateSwapChain(Initial(w, p), input);
    if r0.outcome == Normal {
      CreateGivesFreshBuffers(r0.state, allocOk);
    }
  }

  /** The rebuild first waits until the window extent is usable: it either stays blocked,
      having changed nothing but the window, or creates the new chain for that extent after
      waiting for the device. */
  lemma RebuildWaitsForExtent(s: RendererState, input: RebuildInput)
    ensures var r := AfterReCreateSwapChain(s, input);
      && (r.outcome == Pending <==> AwaitExtent(s.window, input.wakes).Stuck?)
      && (r.outcome == Pending ==> r.state == s.(window := AwaitExtent(s.window, input.wakes).window))
      && (r.outcome != Pending ==>
            var extent := AwaitExtent(s.window, input.wakes).extent;
            && !IsDegenerate(extent)
            && r.state.swapChain == Some(NewSwapChain(extent, input.negotiated))
            && r.state.calls == s.calls + [DeviceWaitIdle]
            && r.state.window == AwaitExtent(s.window, input.wakes).window)
  {
  }

  /** A replacement chain with other formats than the old one is an error, raised after the
      new chain is in place and before any buffer is touched. */
  lemma RebuildRejectsOtherFormats(s: RendererState, input: RebuildInput)
    requires s.swapChain.Some? && AwaitExtent(s.window, input.wakes).Ready?
    requires !CompareSwapFormats(s.swapChain.value, NewSwapChain(AwaitExtent(s.window, input.wakes).extent, input.negotiated))
    ensures var r := AfterReCreateSwapChain(s, input);
      r.outcome == Threw(NotCompatible) && r.state.commandBuffers == s.commandBuffers && r.state.pool == s.pool
  {
  }

  /** A rebuild keeps the buffers when the image count is unchanged, and otherwise frees all of
      them and allocates one fresh buffer per new image; either way a rebuild that completes
      keeps ChainValid. */
  lemma RebuildReallocatesOnlyOnCountChange(s: RendererState, input: RebuildInput)
    requires ChainValid(s)
    ensures var r := AfterReCreateSwapChain(s, input);
      && (r.outcome == Normal ==> ChainValid(r.state) && r.state.isFrameStarted == s.isFrameStarted
                                    && r.state.currentImageIndex == s.currentImageIndex)
      && (r.outcome == Normal && input.negotiated.imageCount == |s.commandBuffers| ==>
            r.state.commandBuffers == s.commandBuffers && r.state.pool == s.pool)
      && (r.outcome == Normal && input.negotiated.imageCount != |s.commandBuffers| ==>
            && (forall i :: 0 <= i < |s.commandBuffers| ==> s.commandBuffers[i] !in r.state.pool.live)
            && (forall i :: 0 <= i < |r.state.commandBuffers| ==> r.state.commandBuffers[i] !in s.pool.live))
      && (r.outcome.Threw? ==> r.outcome == Threw(NotCompatible) || (r.outcome == Threw(AllocateFailed) && !input.allocOk))
  {
    match AwaitExtent(s.window, input.wakes)
    case Stuck(_) =>
    case Ready(extent, w) =>
      var chain := NewSwapChain(extent, input.negotiated);
      var s1 := s.(window := w, calls := s.calls + [DeviceWaitIdle], swapChain := Some(chain));
      if CompareSwapFormats(s.swapChain.value, chain) && chain.imageCount != |s.commandBuffers| {
        var freed := AfterFreeCommandBuffers(s1);
        FreeReleases(s.pool, s.commandBuffers);
        CreateGivesFreshBuffers(freed, input.allocOk);
        forall i | 0 <= i < |s.commandBuffers|
          ensures s.commandBuffers[i] !in AfterAllocate(freed.pool, chain.imageCount).live
        {
          var h := s.commandBuffers[i];
          assert h < s.pool.next;
          assert h !in freed.pool.live;
        }
      }
  }

  /** BeginFrame on a stale swap chain rebuilds, returns VK_NULL_HANDLE and leaves the frame
      not started. */
  lemma BeginFrameOutOfDate(s: RendererState, acq: Acquired, rebuild: RebuildInput, beginOk: bool)
    requires !s.isFrameStarted && acq.result == OutOfDate
    ensures var b := AfterBeginFrame(s, acq, rebuild, beginOk);
      && b.cb == NullHandle && !b.step.state.isFrameStarted
      && b.step == AfterReCreateSwapChain(s.(currentImageIndex := acq.imageIndex, calls := s.calls + [AcquireNextImage]), rebuild)
  {
    RebuildWaitsForExtent(s.(currentImageIndex := acq.imageIndex, calls := s.calls + [AcquireNextImage]), rebuild);
    var s1 := s.(currentImageIndex := acq.imageIndex, calls := s.calls + [AcquireNextImage]);
    match AwaitExtent(s1.window, rebuild.wakes)
    case Stuck(_) =>
    case Ready(extent, w) =>
      if s1.swapChain.Some? && CompareSwapFormats(s1.swapChain.value, NewSwapChain(extent, rebuild.negotiated))
         && rebuild.negotiated.imageCount != |s1.commandBuffers| {
        var s2 := AfterFreeCommandBuffers(s1.(window := w, calls := s1.calls + [DeviceWaitIdle], swapChain := Some(NewSwapChain(extent, rebuild.negotiated))));
        assert !AfterCreateCommandBuffers(s2, rebuild.allocOk).state.isFrameStarted;
      }
  }

  /** BeginFrame treats Success and Suboptimal alike: the frame is started and the returned
      buffer is the acquired image's; any other failed acquisition throws with no frame
      started. */
  lemma BeginFrameAcquires(s: RendererState, i: u32, rebuild: RebuildInput, beginOk: bool)
    requires !s.isFrameStarted && i < |s.commandBuffers|
    ensures AfterBeginFrame(s, Acquired(Success, i), rebuild, beginOk) == AfterBeginFrame(s, Acquired(Suboptimal, i), rebuild, beginOk)
    ensures var b := AfterBeginFrame(s, Acquired(Success, i), rebuild, beginOk);
      && b.step.state.isFrameStarted && b.step.state.currentImageIndex == i
      && b.step.state.calls == s.calls + [AcquireNextImage, BeginCommandBuffer(s.commandBuffers[i])]
      && (beginOk ==> b.step.outcome == Normal && b.cb == s.commandBuffers[i])
      && (!beginOk ==> b.step.outcome == Threw(BeginFailed))
    ensures var b := AfterBeginFrame(s, Acquired(OtherError, i), rebuild, beginOk);
      b.step.outcome == Threw(AcquireFailed) && !b.step.state.isFrameStarted && b.step.state.calls == s.calls + [AcquireNextImage]
  {
  }

  /** EndFrame ends and submits exactly the buffer of the current image. It rebuilds, after
      clearing the resize flag, exactly when the submission was stale or suboptimal or the
      window was resized; it throws on any other failed submission; whenever it returns
      normally the frame is over. */
  lemma EndFrameCases(s: RendererState, endOk: bool, submit: VkResult, rebuild: RebuildInput)
    requires s.isFrameStarted && s.currentImageIndex < |s.commandBuffers|
    ensures var r := AfterEndFrame(s, endOk, submit, rebuild);
      var cb := s.commandBuffers[s.currentImageIndex];
      var submitted := s.calls + [EndCommandBuffer(cb), SubmitCommandBuffers(cb, s.currentImageIndex)];
      && (!endOk ==> r == Step(s.(calls := s.calls + [EndCommandBuffer(cb)]), Threw(RecordFailed)))
      && (endOk && NeedsRebuild(submit, s.window) ==>
            var rb := AfterReCreateSwapChain(s.(calls := submitted, window := AfterResetResized(s.window)), rebuild);
            r == if rb.outcome == Normal then Step(rb.state.(isFrameStarted := false), Normal) else rb)
      && (endOk && !NeedsRebuild(submit, s.window) && submit != Success ==>
            r == Step(s.(calls := submitted), Threw(PresentFailed)))
      && (endOk && !NeedsRebuild(submit, s.window) && submit == Success ==>
            r == Step(s.(calls := submitted, isFrameStarted := false), Normal))
      && (r.outcome == Normal ==> !r.state.isFrameStarted)
  {
  }

  /** Both halves of the frame keep the Renderer valid whenever they return normally, given a
      presentation layer that only hands out indices of existing images. */
  lemma BeginFrameKeepsValid(s: RendererState, acq: Acquired, rebuild: RebuildInput, beginOk: bool)
    requires Valid(s) && !s.isFrameStarted
    requires AcquireSucceeded(acq) ==> acq.imageIndex < s.swapChain.value.imageCount
    ensures var b := AfterBeginFrame(s, acq, rebuild, beginOk);
      b.step.outcome == Normal ==> Valid(b.step.state) && (b.step.state.isFrameStarted <==> acq.result != OutOfDate)
  {
    var s1 := s.(currentImageIndex := acq.imageIndex, calls := s.calls + [AcquireNextImage]);
    if acq.result == OutOfDate {
      RebuildReallocatesOnlyOnCountChange(s1, rebuild);
    }
  }

  lemma EndFrameKeepsValid(s: RendererState, endOk: bool, submit: VkResult, rebuild: RebuildInput)
    requires Valid(s) && s.isFrameStarted
    ensures var r := AfterEndFrame(s, endOk, submit, rebuild);
      r.outcome == Normal ==> Valid(r.state) && !r.state.isFrameStarted
  {
    var cb := s.commandBuffers[s.currentImageIndex];
    var s2 := s.(calls := s.calls + [EndCommandBuffer(cb), SubmitCommandBuffers(cb, s.currentImageIndex)]);
    if endOk && NeedsRebuild(submit, s.window) {
      RebuildReallocatesOnlyOnCountChange(s2.(window := AfterResetResized(s2.window)), rebuild);
    }
  }

  /** The render pass covers the whole swap-chain extent: render area, viewport and scissor. */
  lemma RenderPassCoversExtent(s: RendererState, cb: CommandBuffer)
    requires OnCurrentFrame(s, cb) && s.swapChain.Some?
    ensures var t := AfterBeginRenderPass(s, cb);
      var e := s.swapChain.value.extent;
      && t.calls == s.calls + [BeginRenderPass(cb, s.currentImageIndex, e), SetViewport(cb, e), SetScissor(cb, e)]
      && t == s.(calls := t.calls)
      && OnCurrentFrame(t, cb) && OnCurrentFrame(AfterEndRenderPass(t, cb), cb)
  {
  }

  /** One undisturbed frame from an idle, valid Renderer: acquire image i, record a render
      pass into buffer i, submit buffer i for image i, and end idle with nothing but the trace
      changed. */
  lemma {:induction false} OneFrame(s: RendererState, i: u32, rebuild: RebuildInput)
    requires Valid(s) && !s.isFrameStarted && !s.window.resized && i < s.swapChain.value.imageCount
    ensures var b := AfterBeginFrame(s, Acquired(Success, i), rebuild, true);
      var cb := b.cb;
      && b.step.outcome == Normal && cb == s.commandBuffers[i]
      && OnCurrentFrame(b.step.state, cb)
      && var t := AfterEndRenderPass(AfterBeginRenderPass(b.step.state, cb), cb);
      && t.isFrameStarted && t.currentImageIndex == i
      && var e := AfterEndFrame(t, true, Success, rebuild);
      && e.outcome == Normal
      && e.state == s.(currentImageIndex := i, calls := e.state.calls)
      && e.state.calls == s.calls + [AcquireNextImage, BeginCommandBuffer(cb)]
                                  + RenderPassOpening(cb, i, s.swapChain.value)
                                  + [EndRenderPass(cb), EndCommandBuffer(cb), SubmitCommandBuffers(cb, i)]
      && Valid(e.state)
  {
    BeginFrameAcquires(s, i, rebuild, true);
    var b := AfterBeginFrame(s, Acquired(Success, i), rebuild, true);
    RenderPassCoversExtent(b.step.state, b.cb);
  }

  // ---------------------------------------------------------------------------------------
  // The Renderer object

  class Renderer {
    const window: MyWindow
    const pool: CommandPool
    var swapChain: Option<SwapChain>
    var commandBuffers: seq<CommandBuffer>
    var currentImageIndex: u32
    var isFrameStarted: bool
    var calls: seq<VkCall>

    function State(): RendererState
      reads this, window, pool
    {
      RendererState(window.State(), pool.State(), swapChain, commandBuffers, currentImageIndex, isFrameStarted, calls)
    }

    /** The fields before the constructor body runs. The C++ never initialises the frame flag
        or the image index; this model starts idle at index 0. */
    constructor (window: MyWindow, pool: CommandPool)
      ensures this.window == window && this.pool == pool
      ensures State() == Initial(window.State(), pool.State())
    {
      this.window, this.pool := window, pool;
      swapChain, commandBuffers := None, [];
      currentImageIndex, isFrameStarted := 0, false;
      calls := [];
    }

    /** Renderer(window, device): the member initialisers, then ReCreateSwapChain and
        CreateCommandBuffers; `outcome` says whether the constructor returned. */
    static method Create(window: MyWindow, pool: CommandPool, input: RebuildInput, allocOk: bool)
      returns (r: Renderer, outcome: Outcome)
      modifies window, pool
      ensures fresh(r) && r.window == window && r.pool == pool
      ensures Step(r.State(), outcome) == Construct(old(window.State()), old(pool.State()), input, allocOk)
    {
      r := new Renderer(window, pool);
      outcome := r.ReCreateSwapChain(input);
      if outcome == Normal {
        outcome := r.CreateCommandBuffers(allocOk);
      }
    }

    method ReCreateSwapChain(input: RebuildInput) returns (outcome: Outcome)
      modifies this, window, pool
      ensures Step(State(), outcome) == AfterReCreateSwapChain(old(State()), input)
    {
      var w := WaitForExtent(window, input.wakes);
      if w.Stuck? {
        return Pending;
      }
      calls := calls + [DeviceWaitIdle];
      var chain := NewSwapChain(w.extent, input.negotiated);
      if swapChain.None? {
        swapChain := Some(chain);
        return Normal;
      }
      var previous := swapChain.value;
      swapChain := Some(chain);
      if !CompareSwapFormats(previous, chain) {
        return Threw(NotCompatible);
      }
      if chain.imageCount != |commandBuffers| {
        FreeCommandBuffers();
        outcome := CreateCommandBuffers(input.allocOk);
        return;
      }
      return Normal;
    }

    method CreateCommandBuffers(allocOk: bool) returns (outcome: Outcome)
      requires swapChain.Some?
      modifies this, pool
      ensures Step(State(), outcome) == AfterCreateCommandBuffers(old(State()), allocOk)
    {
      commandBuffers := pool.Allocate(swapChain.value.imageCount, allocOk);
      outcome := if allocOk then Normal else Threw(AllocateFailed);
    }

    method FreeCommandBuffers()
      modifies this, pool
      ensures State() == AfterFreeCommandBuffers(old(State()))
    {
      pool.Free(commandBuffers);
      commandBuffers := [];
    }

    method BeginFrame(acq: Acquired, rebuild: RebuildInput, beginOk: bool) returns (cb: CommandBuffer, outcome: Outcome)
      requires !isFrameStarted
      requires AcquireSucceeded(acq) ==> acq.imageIndex < |commandBuffers|
      modifies this, window, pool
      ensures Begun(Step(State(), outcome), cb) == AfterBeginFrame(old(State()), acq, rebuild, beginOk)
    {
      calls := calls + [AcquireNextImage];
      currentImageIndex := acq.imageIndex;
      if acq.result == OutOfDate {
        outcome := ReCreateSwapChain(rebuild);
        return NullHandle, outcome;
      }
      if !AcquireSucceeded(acq) {
        return NullHandle, Threw(AcquireFailed);
      }
      isFrameStarted := true;
      var buffer := GetCommandBuffer();
      calls := calls + [BeginCommandBuffer(buffer)];
      if !beginOk {
        return NullHandle, Threw(BeginFailed);
      }
      return buffer, Normal;
    }

    method EndFrame(endOk: bool, submit: VkResult, rebuild: RebuildInput) returns (outcome: Outcome)
      requires isFrameStarted && currentImageIndex < |commandBuffers|
      modifies this, window, pool
      ensures Step(State(), outcome) == AfterEndFrame(old(State()), endOk, submit, rebuild)
    {
      var buffer := GetCommandBuffer();
      calls := calls + [EndCommandBuffer(buffer)];
      if !endOk {
        return Threw(RecordFailed);
      }
      calls := calls + [SubmitCommandBuffers(buffer, currentImageIndex)];
      if submit == OutOfDate || submit == Suboptimal || window.WasWindowResized() {
        window.ResetWindowResizedFlag();
        outcome := ReCreateSwapChain(rebuild);
        if outcome != Normal {
          return;
        }
      } else if submit != Success {
        return Threw(PresentFailed);
      }
      isFrameStarted := false;
      outcome := Normal;
    }

    method BeginSwapChainRenderPass(cb: CommandBuffer)
      requires OnCurrentFrame(State(), cb) && swapChain.Some?
      modifies this
      ensures State() == AfterBeginRenderPass(old(State()), cb)
    {
      calls := calls + RenderPassOpening(cb, currentImageIndex, swapChain.value);
    }

    method EndSwapChainRenderPass(cb: CommandBuffer)
      requires OnCurrentFrame(State(), cb)
      modifies this
      ensures State() == AfterEndRenderPass(old(State()), cb)
    {
      calls := calls + [EndRenderPass(cb)];
    }

    function IsFrameInProgress(): bool
      reads this
    {
      isFrameStarted
    }

    /** The buffer of the frame in progress; in a valid Renderer a live, non-null handle. */
    function GetCommandBuffer(): (cb: CommandBuffer)
      reads this, window, pool
      requires isFrameStarted && currentImageIndex < |commandBuffers|
      ensures Valid(State()) ==> cb in pool.live && cb != NullHandle && OnCurrentFrame(State(), cb)
    {
      commandBuffers[currentImageIndex]
    }
  }
}
