/** EngineMain: the earlier, self-contained frame loop that owns its swap chain directly.
    Unlike Renderer it accepts a replacement swap chain of any format, rebuilds the graphics
    pipeline after every completed swap-chain rebuild, and records and submits a whole frame
    in one DrawFrame; Run draws frames until the window asks to close. */
module EngineLoop {
  import opened Vulkan
  import opened Windowing
  import opened GameObjects
  import Frames

  const LayoutFailed := "Failed to create pipeline layout!"

  /** The observable state of an EngineMain, with the window, the command pool and the static
      id counter of CreateGameObject. */
  datatype EngineState = EngineState(
    window: WindowState,
    pool: PoolState,
    nextId: Id,                        // GameObject::CreateGameObject's CurrentId
    gameObjects: seq<GameObject>,      // m_GameObjects
    hasPipelineLayout: bool,           // m_PipelineLayout was created
    swapChain: Option<SwapChain>,      // m_SwapChain
    pipelineFor: Option<SwapChain>,    // the chain whose render pass m_RenderPipeline uses
    commandBuffers: seq<CommandBuffer>, // m_CommandBuffers
    calls: seq<VkCall>)

  datatype Step = Step(state: EngineState, outcome: Outcome)

  /** What the environment decides during one iteration of Run: the events glfwPollEvents
      handles, the acquisition, whether beginning and ending the command buffer succeed, the
      submission's result, and what a rebuild, should one happen, sees. */
  datatype FrameInput = FrameInput(
    events: seq<WindowEvent>,
    acquired: Acquired,
    beginOk: bool,
    endOk: bool,
    submit: VkResult,
    rebuild: Frames.RebuildInput)

  /** The fields before the constructor body runs. */
  function Initial(w: WindowState, p: PoolState, nextId: Id): EngineState {
    EngineState(w, p, nextId, [], false, None, None, [], [])
  }

  /** The buffers match the swap chain one for one and are live handles of the pool, the
      chain was built for a usable extent, the pipeline layout exists, and the pipeline was
      built for the current chain's render pass. */
  predicate Valid(s: EngineState) {
    && s.swapChain.Some?
    && !IsDegenerate(s.swapChain.value.windowExtent)
    && |s.commandBuffers| == s.swapChain.value.imageCount
    && PoolValid(s.pool)
    && Distinct(s.commandBuffers)
    && (forall i :: 0 <= i < |s.commandBuffers| ==> s.commandBuffers[i] in s.pool.live)
    && s.hasPipelineLayout
    && s.pipelineFor == s.swapChain
  }

  // ---------------------------------------------------------------------------------------
  // The operations as functions of the state

  /** LoadGameObjects: one game object with a fresh id (its mesh is not part of this model). */
  function AfterLoadGameObjects(s: EngineState): EngineState {
    s.(gameObjects := s.gameObjects + [GameObject(s.nextId)], nextId := (s.nextId + 1) % U32Modulus)
  }

  /** CreatePipelineLayout; `ok` is the driver's verdict. */
  function AfterCreatePipelineLayout(s: EngineState, ok: bool): Step {
    var s1 := s.(calls := s.calls + [CreatePipelineLayout]);
    if ok then Step(s1.(hasPipelineLayout := true), Normal) else Step(s1, Threw(LayoutFailed))
  }

  /** CreatePipeline: a new graphics pipeline for the current chain's render pass. */
  function AfterCreatePipeline(s: EngineState): EngineState {
    s.(pipelineFor := s.swapChain, calls := s.calls + [CreateGraphicsPipeline])
  }

  function AfterCreateCommandBuffers(s: EngineState, allocOk: bool): Step
    requires s.swapChain.Some?
  {
    var n := s.swapChain.value.imageCount;
    if allocOk then Step(s.(pool := AfterAllocate(s.pool, n), commandBuffers := Allocation(s.pool, n)), Normal)
    else Step(s.(commandBuffers := NullBuffers(n)), Threw(Frames.AllocateFailed))
  }

  function AfterFreeCommandBuffers(s: EngineState): EngineState {
    s.(pool := AfterFree(s.pool, s.commandBuffers), commandBuffers := [])
  }

  /** ReCreateSwapChain: wait for a usable extent and the device, replace the chain (no format
      check), reallocate the buffers when the image count changed, and rebuild the pipeline. */
  function AfterReCreateSwapChain(s: EngineState, input: Frames.RebuildInput): Step {
    match AwaitExtent(s.window, input.wakes)
    case Stuck(w) => Step(s.(window := w), Pending)
    case Ready(extent, w) =>
      var chain := NewSwapChain(extent, input.negotiated);
      var s1 := s.(window := w, calls := s.calls + [DeviceWaitIdle], swapChain := Some(chain));
      if s.swapChain.Some? && chain.imageCount != |s.commandBuffers| then
        var r := AfterCreateCommandBuffers(AfterFreeCommandBuffers(s1), input.allocOk);
        if r.outcome != Normal then r else Step(AfterCreatePipeline(r.state), Normal)
      else Step(AfterCreatePipeline(s1), Normal)
  }

  /** The constructor body: LoadGameObjects, CreatePipelineLayout, ReCreateSwapChain,
      CreateCommandBuffers, each only if the previous one returned. */
  function Construct(w: WindowState, p: PoolState, nextId: Id, layoutOk: bool, input: Frames.RebuildInput, allocOk: bool): Step {
    var r1 := AfterCreatePipelineLayout(AfterLoadGameObjects(Initial(w, p, nextId)), layoutOk);
    if r1.outcome != Normal then r1
    else
      var r2 := AfterReCreateSwapChain(r1.state, input);
      if r2.outcome != Normal then r2 else AfterCreateCommandBuffers(r2.state, allocOk)
  }

  /** RecordCommandBuffer: begin buffer i, open the render pass over image i, close it and end
      the buffer (drawing the game objects is not part of this model). */
  function AfterRecord(s: EngineState, i: nat, beginOk: bool, endOk: bool): Step
    requires s.swapChain.Some? && i < |s.commandBuffers|
  {
    var cb := s.commandBuffers[i];
    var s1 := s.(calls := s.calls + [BeginCommandBuffer(cb)]);
    if !beginOk then Step(s1, Threw(Frames.BeginFailed))
    else
      var s2 := s1.(calls := s1.calls + RenderPassOpening(cb, i, s.swapChain.value) + [EndRenderPass(cb), EndCommandBuffer(cb)]);
      if !endOk then Step(s2, Threw(Frames.RecordFailed)) else Step(s2, Normal)
  }

  /** What DrawFrame needs of its state: a swap chain, and a command buffer for the image the
      presentation layer hands out. */
  predicate DrawReady(s: EngineState, f: FrameInput) {
    s.swapChain.Some? && (AcquireSucceeded(f.acquired) ==> f.acquired.imageIndex < |s.commandBuffers|)
  }

  /** DrawFrame: acquire; rebuild on a stale chain and throw on any other failed acquisition;
      record and submit the image's buffer; rebuild after a stale or suboptimal submission or
      a resize, throw on any other failed submission. */
  function AfterDrawFrame(s: EngineState, f: FrameInput): Step
    requires DrawReady(s, f)
  {
    var s1 := s.(calls := s.calls + [AcquireNextImage]);
    var i := f.acquired.imageIndex;
    if f.acquired.result == OutOfDate then AfterReCreateSwapChain(s1, f.rebuild)
    else if !AcquireSucceeded(f.acquired) then Step(s1, Threw(Frames.AcquireFailed))
    else
      var r := AfterRecord(s1, i, f.beginOk, f.endOk);
      if r.outcome != Normal then r
      else
        var s2 := r.state.(calls := r.state.calls + [SubmitCommandBuffers(s.commandBuffers[i], i)]);
        if Frames.NeedsRebuild(f.submit, s2.window) then AfterReCreateSwapChain(s2.(window := AfterResetResized(s2.window)), f.rebuild)
        else if f.submit != Success then Step(s2, Threw(Frames.PresentFailed))
        else Step(s2, Normal)
  }

  /** One glfwPollEvents at the head of a Run iteration. */
  function Polled(s: EngineState, f: FrameInput): EngineState {
    s.(window := AfterEvents(s.window, f.events))
  }

  /** The presentation layer only hands out indices of existing images, frame after frame. */
  predicate Conforms(s: EngineState, frames: seq<FrameInput>)
    decreases |frames|
  {
    || !Open(s.window)
    || frames == []
    || (var s1 := Polled(s, frames[0]);
        && DrawReady(s1, frames[0])
        && var r := AfterDrawFrame(s1, frames[0]);
        r.outcome == Normal ==> Conforms(r.state, frames[1..]))
  }

  /** Run: while the window is open, poll events and draw a frame; then wait for the device.
      A frame that throws or blocks ends the run with that outcome, and so does running out of
      frames while the window is still open (Pending). */
  function AfterRun(s: EngineState, frames: seq<FrameInput>): Step
    requires Conforms(s, frames)
    decreases |frames|
  {
    if !Open(s.window) then Step(s.(calls := s.calls + [DeviceWaitIdle]), Normal)
    else if frames == [] then Step(s, Pending)
    else
      var r := AfterDrawFrame(Polled(s, frames[0]), frames[0]);
      if r.outcome != Normal then r else AfterRun(r.state, frames[1..])
  }

  // ---------------------------------------------------------------------------------------
  // Properties of the loop

  /** A successful CreateCommandBuffers hands out one fresh live buffer per image. */
  lemma CreateGivesFreshBuffers(s: EngineState, allocOk: bool)
    requires s.swapChain.Some? && PoolValid(s.pool)
    ensures var r := AfterCreateCommandBuffers(s, allocOk);
      && (allocOk <==> r.outcome == Normal)
      && (allocOk ==>
            && |r.state.commandBuffers| == s.swapChain.value.imageCount && PoolValid(r.state.pool)
            && Distinct(r.state.commandBuffers)
            && (forall i :: 0 <= i < |r.state.commandBuffers| ==> r.state.commandBuffers[i] in r.state.pool.live && r.state.commandBuffers[i] !in s.pool.live))
      && (!allocOk ==> r.outcome == Threw(Frames.AllocateFailed) && r.state.pool == s.pool)
  {
    AllocationIsFresh(s.pool, s.swapChain.value.imageCount);
  }

  /** The constructor loads one game object with the counter's id, then throws if the layout
      cannot be created, blocks if the window never gets a usable size, throws if the buffers
      cannot be allocated, and otherwise leaves a valid engine whose pipeline was built once,
      for the first chain. */
  lemma ConstructEstablishesValid(w: WindowState, p: PoolState, nextId: Id, layoutOk: bool, input: Frames.RebuildInput, allocOk: bool)
    requires PoolValid(p)
    ensures var r := Construct(w, p, nextId, layoutOk, input, allocOk);
      && r.state.gameObjects == [GameObject(nextId)]
      && r.state.nextId == (nextId + 1) % U32Modulus
      && (!layoutOk ==> r.outcome == Threw(LayoutFailed) && r.state.calls == [CreatePipelineLayout])
      && (layoutOk && AwaitExtent(w, input.wakes).Stuck? ==> r.outcome == Pending)
      && (r.outcome == Normal <==> layoutOk && AwaitExtent(w, input.wakes).Ready? && allocOk)
      && (r.outcome == Normal ==>
            && Valid(r.state)
            && r.state.swapChain == Some(NewSwapChain(AwaitExtent(w, input.wakes).extent, input.negotiated))
            && r.state.calls == [CreatePipelineLayout, DeviceWaitIdle, CreateGraphicsPipeline])
  {
    var r1 := AfterCreatePipelineLayout(AfterLoadGameObjects(Initial(w, p, nextId)), layoutOk);
    if r1.outcome == Normal {
      var r2 := AfterReCreateSwapChain(r1.state, input);
      if r2.outcome == Normal {
        CreateGivesFreshBuffers(r2.state, allocOk);
      }
    }
  }

  /** A rebuild never rejects the replacement chain's formats. When it completes it keeps the
      engine valid with the pipeline rebuilt for the new chain, keeps the buffers when the
      image count is unchanged, and otherwise replaces every one of them by a fresh buffer; it
      can only throw when that reallocation fails. */
  lemma RebuildKeepsValid(s: EngineState, input: Frames.RebuildInput)
    requires Valid(s)
    ensures var r := AfterReCreateSwapChain(s, input);
      && (r.outcome == Pending <==> AwaitExtent(s.window, input.wakes).Stuck?)
      && (r.outcome.Threw? ==> r.outcome == Threw(Frames.AllocateFailed) && !input.allocOk)
      && (r.outcome == Normal ==>
            && Valid(r.state)
            && r.state.pipelineFor == Some(NewSwapChain(AwaitExtent(s.window, input.wakes).extent, input.negotiated))
            && r.state.calls[|r.state.calls| - 1] == CreateGraphicsPipeline)
      && (r.outcome == Normal && input.negotiated.imageCount == |s.commandBuffers| ==>
            r.state.commandBuffers == s.commandBuffers && r.state.pool == s.pool)
      && (r.outcome == Normal && input.negotiated.imageCount != |s.commandBuffers| ==>
            && (forall i :: 0 <= i < |s.commandBuffers| ==> s.commandBuffers[i] !in r.state.pool.live)
            && (forall i :: 0 <= i < |r.state.commandBuffers| ==> r.state.commandBuffers[i] !in s.pool.live))
  {
    match AwaitExtent(s.window, input.wakes)
    case Stuck(_) =>
    case Ready(extent, w) =>
      var chain := NewSwapChain(extent, input.negotiated);
      var s1 := s.(window := w, calls := s.calls + [DeviceWaitIdle], swapChain := Some(chain));
      if chain.imageCount != |s.commandBuffers| {
        var freed := AfterFreeCommandBuffers(s1);
        FreeReleases(s.pool, s.commandBuffers);
        CreateGivesFreshBuffers(freed, input.allocOk);
        forall i | 0 <= i < |s.commandBuffers|
          ensures s.commandBuffers[i] !in AfterAllocate(freed.pool, chain.imageCount).live
        {
          var h := s.commandBuffers[i];
          assert h < s.pool.next;
          assert h !in freed.pool.live;
        }
      }
  }

  /** DrawFrame from a valid state, branch by branch. A stale acquisition rebuilds and any
      other failed one throws. On an acquired image i, buffer i is begun, recorded and ended,
      and a failed begin or end throws. After submitting buffer i for image i, a stale or
      suboptimal submission or a resize clears the flag and rebuilds, any other failed
      submission throws, and an undisturbed frame changes nothing but the trace. Every normal
      return keeps the engine valid. */
  lemma DrawFrameCases(s: EngineState, f: FrameInput)
    requires Valid(s) && (AcquireSucceeded(f.acquired) ==> f.acquired.imageIndex < s.swapChain.value.imageCount)
    ensures DrawReady(s, f)
    ensures var r := AfterDrawFrame(s, f);
      && (r.outcome == Normal ==> Valid(r.state))
      && (f.acquired.result == OutOfDate ==> r == AfterReCreateSwapChain(s.(calls := s.calls + [AcquireNextImage]), f.rebuild))
      && (f.acquired.result == OtherError ==> r == Step(s.(calls := s.calls + [AcquireNextImage]), Threw(Frames.AcquireFailed)))
      && (AcquireSucceeded(f.acquired) ==>
            var i := f.acquired.imageIndex;
            var cb := s.commandBuffers[i];
            var begun := s.calls + [AcquireNextImage, BeginCommandBuffer(cb)];
            var recorded := begun + RenderPassOpening(cb, i, s.swapChain.value) + [EndRenderPass(cb), EndCommandBuffer(cb)];
            var submitted := recorded + [SubmitCommandBuffers(cb, i)];
            && (!f.beginOk ==> r == Step(s.(calls := begun), Threw(Frames.BeginFailed)))
            && (f.beginOk && !f.endOk ==> r == Step(s.(calls := recorded), Threw(Frames.RecordFailed)))
            && (f.beginOk && f.endOk && Frames.NeedsRebuild(f.submit, s.window) ==>
                  r == AfterReCreateSwapChain(s.(calls := submitted, window := AfterResetResized(s.window)), f.rebuild))
            && (f.beginOk && f.endOk && !Frames.NeedsRebuild(f.submit, s.window) && f.submit != Success ==>
                  r == Step(s.(calls := submitted), Threw(Frames.PresentFailed)))
            && (f.beginOk && f.endOk && !Frames.NeedsRebuild(f.submit, s.window) && f.submit == Success ==>
                  r == Step(s.(calls := submitted), Normal)))
  {
    var s1 := s.(calls := s.calls + [AcquireNextImage]);
    if f.acquired.result == OutOfDate {
      RebuildKeepsValid(s1, f.rebuild);
    } else if AcquireSucceeded(f.acquired) {
      var r := AfterRecord(s1, f.acquired.imageIndex, f.beginOk, f.endOk);
      if r.outcome == Normal {
        var s2 := r.state.(calls := r.state.calls + [SubmitCommandBuffers(s.commandBuffers[f.acquired.imageIndex], f.acquired.imageIndex)]);
        RebuildKeepsValid(s2.(window := AfterResetResized(s2.window)), f.rebuild);
      }
    }
  }

  /** Waiting for a usable extent never reopens a window that was asked to close. */
  lemma {:induction false} AwaitKeepsClosed(e: Extent2D, w: WindowState, wakes: seq<seq<WindowEvent>>)
    requires !Open(w)
    ensures !Open(AwaitFrom(e, w, wakes).window)
    decreases |wakes|
  {
    if IsDegenerate(e) && wakes != [] {
      ClosingIsPermanent(w, wakes[0]);
      AwaitKeepsClosed(Extent(w), AfterEvents(w, wakes[0]), wakes[1..]);
    }
  }

  /** A frame neither loses the window nor reopens a window that was asked to close. */
  lemma DrawFrameKeepsWindow(s: EngineState, f: FrameInput)
    requires DrawReady(s, f)
    ensures var w := AfterDrawFrame(s, f).state.window;
      w.hasWindow == s.window.hasWindow && (!Open(s.window) ==> !Open(w))
  {
    var s1 := s.(calls := s.calls + [AcquireNextImage]);
    var w0 := if f.acquired.result == OutOfDate then s.window else AfterResetResized(s.window);
    AwaitKeepsHandle(Extent(w0), w0, f.rebuild.wakes);
    if !Open(s.window) {
      AwaitKeepsClosed(Extent(w0), w0, f.rebuild.wakes);
    }
  }

  /** Run from a valid engine: when it returns, the window was asked to close, the engine is
      still valid and the last call waited for the device to go idle. */
  lemma {:induction false} RunKeepsValid(s: EngineState, frames: seq<FrameInput>)
    requires Valid(s) && Conforms(s, frames)
    ensures var r := AfterRun(s, frames);
      r.outcome == Normal ==> !Open(r.state.window) && Valid(r.state) && |r.state.calls| > 0 && r.state.calls[|r.state.calls| - 1] == DeviceWaitIdle
    decreases |frames|
  {
    if Open(s.window) && frames != [] {
      var s1 := Polled(s, frames[0]);
      var r := AfterDrawFrame(s1, frames[0]);
      if r.outcome == Normal {
        DrawFrameCases(s1, frames[0]);
        RunKeepsValid(r.state, frames[1..]);
      }
    }
  }

  /** A close request is honoured at the next check of the loop: the frame of the iteration
      whose events ask to close is still drawn, and then Run waits for the device and returns,
      ignoring every later frame. */
  lemma CloseEndsRun(s: EngineState, frames: seq<FrameInput>)
    requires Open(s.window) && frames != [] && CloseRequested in frames[0].events && Conforms(s, frames)
    requires AfterDrawFrame(Polled(s, frames[0]), frames[0]).outcome == Normal
    ensures var r := AfterDrawFrame(Polled(s, frames[0]), frames[0]).state;
      AfterRun(s, frames) == Step(r.(calls := r.calls + [DeviceWaitIdle]), Normal)
  {
    var s1 := Polled(s, frames[0]);
    ClosingIsPermanent(s.window, frames[0].events);
    DrawFrameKeepsWindow(s1, frames[0]);
  }

  // ---------------------------------------------------------------------------------------
  // The EngineMain object

  class EngineMain {
    const window: MyWindow
    const pool: CommandPool
    const ids: IdCounter
    var gameObjects: seq<GameObject>
    var hasPipelineLayout: bool
    var swapChain: Option<SwapChain>
    var pipelineFor: Option<SwapChain>
    var commandBuffers: seq<CommandBuffer>
    var calls: seq<VkCall>

    function State(): EngineState
      reads this, window, pool, ids
    {
      EngineState(window.State(), pool.State(), ids.currentId, gameObjects, hasPipelineLayout, swapChain, pipelineFor, commandBuffers, calls)
    }

    constructor (window: MyWindow, pool: CommandPool, ids: IdCounter)
      ensures this.window == window && this.pool == pool && this.ids == ids
      ensures State() == Initial(window.State(), pool.State(), ids.currentId)
    {
      this.window, this.pool, this.ids := window, pool, ids;
      gameObjects, hasPipelineLayout := [], false;
      swapChain, pipelineFor := None, None;
      commandBuffers, calls := [], [];
    }

    /** EngineMain(): the member initialisers, then the constructor body. */
    static method Create(window: MyWindow, pool: CommandPool, ids: IdCounter, layoutOk: bool, input: Frames.RebuildInput, allocOk: bool)
      returns (e: EngineMain, outcome: Outcome)
      requires ids.Valid()
      modifies window, pool, ids
      ensures fresh(e) && e.window == window && e.pool == pool && e.ids == ids && ids.Valid()
      ensures Step(e.State(), outcome) == Construct(old(window.State()), old(pool.State()), old(ids.currentId), layoutOk, input, allocOk)
    {
      e := new EngineMain(window, pool, ids);
      e.LoadGameObjects();
      outcome := e.CreatePipelineLayout(layoutOk);
      if outcome != Normal {
        return;
      }
      outcome := e.ReCreateSwapChain(input);
      if outcome != Normal {
        return;
      }
      outcome := e.CreateCommandBuffers(allocOk);
    }

    method LoadGameObjects()
      requires ids.Valid()
      modifies this, ids
      ensures ids.Valid() && State() == AfterLoadGameObjects(old(State()))
    {
      var triangle := ids.CreateGameObject();
      gameObjects := gameObjects + [triangle];
    }

    method CreatePipelineLayout(ok: bool) returns (outcome: Outcome)
      modifies this
      ensures Step(State(), outcome) == AfterCreatePipelineLayout(old(State()), ok)
    {
      calls := calls + [VkCall.CreatePipelineLayout];
      if !ok {
        return Threw(LayoutFailed);
      }
      hasPipelineLayout := true;
      outcome := Normal;
    }

    method CreatePipeline()
      modifies this
      ensures State() == AfterCreatePipeline(old(State()))
    {
      pipelineFor := swapChain;
      calls := calls + [CreateGraphicsPipeline];
    }

    method ReCreateSwapChain(input: Frames.RebuildInput) returns (outcome: Outcome)
      modifies this, window, pool
      ensures Step(State(), outcome) == AfterReCreateSwapChain(old(State()), input)
    {
      var w := WaitForExtent(window, input.wakes);
      if w.Stuck? {
        return Pending;
      }
      calls := calls + [DeviceWaitIdle];
      var chain := NewSwapChain(w.extent, input.negotiated);
      if swapChain.None? {
        swapChain := Some(chain);
      } else {
        swapChain := Some(chain);
        if chain.imageCount != |commandBuffers| {
          FreeCommandBuffers();
          outcome := CreateCommandBuffers(input.allocOk);
          if outcome != Normal {
            return;
          }
        }
      }
      CreatePipeline();
      outcome := Normal;
    }

    method CreateCommandBuffers(allocOk: bool) returns (outcome: Outcome)
      requires swapChain.Some?
      modifies this, pool
      ensures Step(State(), outcome) == AfterCreateCommandBuffers(old(State()), allocOk)
    {
      commandBuffers := pool.Allocate(swapChain.value.imageCount, allocOk);
      outcome := if allocOk then Normal else Threw(Frames.AllocateFailed);
    }

    method FreeCommandBuffers()
      modifies this, pool
      ensures State() == AfterFreeCommandBuffers(old(State()))
    {
      pool.Free(commandBuffers);
      commandBuffers := [];
    }

    method RecordCommandBuffer(i: nat, beginOk: bool, endOk: bool) returns (outcome: Outcome)
      requires swapChain.Some? && i < |commandBuffers|
      modifies this
      ensures Step(State(), outcome) == AfterRecord(old(State()), i, beginOk, endOk)
    {
      var cb := commandBuffers[i];
      calls := calls + [BeginCommandBuffer(cb)];
      if !beginOk {
        return Threw(Frames.BeginFailed);
      }
      calls := calls + RenderPassOpening(cb, i, swapChain.value);
      calls := calls + [EndRenderPass(cb)];
      calls := calls + [EndCommandBuffer(cb)];
      if !endOk {
        return Threw(Frames.RecordFailed);
      }
      outcome := Normal;
    }

    method DrawFrame(f: FrameInput) returns (outcome: Outcome)
      requires DrawReady(State(), f)
      modifies this, window, pool
      ensures Step(State(), outcome) == AfterDrawFrame(old(State()), f)
    {
      calls := calls + [AcquireNextImage];
      if f.acquired.result == OutOfDate {
        outcome := ReCreateSwapChain(f.rebuild);
        return;
      }
      if !AcquireSucceeded(f.acquired) {
        return Threw(Frames.AcquireFailed);
      }
      var i := f.acquired.imageIndex;
      outcome := RecordCommandBuffer(i, f.beginOk, f.endOk);
      if outcome != Normal {
        return;
      }
      calls := calls + [SubmitCommandBuffers(commandBuffers[i], i)];
      if f.submit == OutOfDate || f.submit == Suboptimal || window.WasWindowResized() {
        window.ResetWindowResizedFlag();
        outcome := ReCreateSwapChain(f.rebuild);
        return;
      }
      if f.submit != Success {
        return Threw(Frames.PresentFailed);
      }
      outcome := Normal;
    }

    /** Run, with glfwPollEvents handling each frame's events. */
    method Run(frames: seq<FrameInput>) returns (outcome: Outcome)
      requires window.hasWindow && Conforms(State(), frames)
      modifies this, window, pool
      ensures Step(State(), outcome) == AfterRun(old(State()), frames)
    {
      var k := 0;
      while window.IsOpen()
        invariant 0 <= k <= |frames| && window.hasWindow
        invariant Conforms(State(), frames[k..])
        invariant AfterRun(old(State()), frames) == AfterRun(State(), frames[k..])
        decreases |frames| - k
      {
        if k == |frames| {
          return Pending;
        }
        ghost var before := window.State();
        window.ProcessEvents(frames[k].events);
        EventsKeepHandle(before, frames[k].events);
        ghost var polled := State();
        outcome := DrawFrame(frames[k]);
        DrawFrameKeepsWindow(polled, frames[k]);
        if outcome != Normal {
          return;
        }
        assert frames[k..][1..] == frames[k + 1..];
        k := k + 1;
      }
      calls := calls + [DeviceWaitIdle];
      outcome := Normal;
    }
  }
}
