/** MyWindow: the GLFW window wrapper. It stores the framebuffer size reported by GLFW and a
    "resized" flag that the frame loop polls and clears, and it guards GLFW initialisation and
    window creation so that both happen at most once. GLFW itself is a collaborator: its
    effects are recorded in a call log, and the events it delivers are inputs. */
module Windowing {
  import opened Vulkan

  datatype Hint = ClientApiNoApi | ResizableTrue

  /** Calls into GLFW made by the window wrapper. */
  datatype GlfwCall =
    | GlfwInit
    | WindowHint(hint: Hint)
    | CreateWindow(width: i32, height: i32, title: string)
    | SetWindowUserPointer
    | SetFramebufferSizeCallback
    | DestroyWindow

  /** Events GLFW delivers while polling or waiting. */
  datatype WindowEvent = FramebufferResize(width: i32, height: i32) | CloseRequested | OtherEvent

  /** The observable state of a MyWindow. */
  datatype WindowState = WindowState(
    name: string,
    width: i32,
    height: i32,
    resized: bool,          // m_FrameBufferResized
    hasWindow: bool,        // m_Window != nullptr
    glfwInitialized: bool,  // m_GLTFWInitialized
    shouldClose: bool,      // glfwWindowShouldClose(m_Window)
    glfwCalls: seq<GlfwCall>)

  /** The member initialisers of the constructor, before it calls InitWindow. */
  function Constructed(name: string, width: i32, height: i32): WindowState {
    WindowState(name, width, height, false, false, false, false, [])
  }

  /** InitWindow: initialise GLFW only if not yet done, create a window only if there is none. */
  function AfterInitWindow(w: WindowState): WindowState {
    var w1 := if !w.glfwInitialized
      then w.(glfwCalls := w.glfwCalls + [GlfwInit, WindowHint(ClientApiNoApi), WindowHint(ResizableTrue)])
      else w;
    var w2 := if !w1.hasWindow
      then w1.(hasWindow := true,
               glfwCalls := w1.glfwCalls + [CreateWindow(w.width, w.height, w.name), SetWindowUserPointer, SetFramebufferSizeCallback])
      else w1;
    w2.(glfwInitialized := true)
  }

  /** DestroyWindow: destroy the window only if there is one, then forget it. */
  function AfterDestroyWindow(w: WindowState): WindowState {
    if w.hasWindow then w.(hasWindow := false, glfwCalls := w.glfwCalls + [DestroyWindow]) else w
  }

  /** FrameBufferResizeCallback. */
  function AfterResize(w: WindowState, width: i32, height: i32): WindowState {
    w.(width := width, height := height, resized := true)
  }

  /** ResetWindowResizedFlag. */
  function AfterResetResized(w: WindowState): WindowState {
    w.(resized := false)
  }

  /** GetExtent: the stored size cast to unsigned. */
  function Extent(w: WindowState): Extent2D {
    Extent2D(ToU32(w.width), ToU32(w.height))
  }

  /** IsOpen. */
  predicate Open(w: WindowState) {
    !w.shouldClose
  }

  function AfterEvent(w: WindowState, e: WindowEvent): WindowState {
    match e
    case FramebufferResize(width, height) => AfterResize(w, width, height)
    case CloseRequested => w.(shouldClose := true)
    case OtherEvent => w
  }

  /** The effect of one glfwPollEvents / glfwWaitEvents that processes `batch` in order. */
  function AfterEvents(w: WindowState, batch: seq<WindowEvent>): WindowState
    decreases |batch|
  {
    if batch == [] then w else AfterEvent(AfterEvents(w, batch[..|batch| - 1]), batch[|batch| - 1])
  }

  // ---------------------------------------------------------------------------------------
  // Properties of the window state machine

  /** The constructor leaves one window of the requested size, GLFW initialised, no resize
      pending, and made each GLFW set-up call exactly once. */
  lemma ConstructorCreatesOneWindow(name: string, width: i32, height: i32)
    ensures var w := AfterInitWindow(Constructed(name, width, height));
      && w.hasWindow && w.glfwInitialized && !w.resized && Open(w)
      && w.width == width && w.height == height
      && w.glfwCalls == [GlfwInit, WindowHint(ClientApiNoApi), WindowHint(ResizableTrue),
                         CreateWindow(width, height, name), SetWindowUserPointer, SetFramebufferSizeCallback]
  {
  }

  /** InitWindow is idempotent: a second call changes nothing and calls nothing. */
  lemma InitWindowIdempotent(w: WindowState)
    ensures AfterInitWindow(AfterInitWindow(w)) == AfterInitWindow(w)
    ensures AfterInitWindow(w).hasWindow && AfterInitWindow(w).glfwInitialized
  {
  }

  /** DestroyWindow is idempotent and leaves no window. */
  lemma DestroyWindowIdempotent(w: WindowState)
    ensures AfterDestroyWindow(AfterDestroyWindow(w)) == AfterDestroyWindow(w)
    ensures !AfterDestroyWindow(w).hasWindow
    ensures !w.hasWindow ==> AfterDestroyWindow(w) == w
  {
  }

  /** The resize callback overwrites the size and raises the flag; resetting the flag clears
      only the flag. */
  lemma ResizeThenReset(w: WindowState, width: i32, height: i32)
    ensures AfterResize(w, width, height).resized
    ensures Extent(AfterResize(w, width, height)) == Extent2D(ToU32(width), ToU32(height))
    ensures 0 <= width && 0 <= height ==> Extent(AfterResize(w, width, height)) == Extent2D(width, height)
    ensures AfterResetResized(AfterResize(w, width, height)) == w.(width := width, height := height, resized := false)
  {
  }

  /** A negative size, which GLFW never reports, would not read as degenerate after the cast. */
  lemma NegativeSizeIsNotDegenerate(w: WindowState)
    requires w.width == -1 && w.height == -1
    ensures Extent(w) == Extent2D(0xFFFF_FFFF, 0xFFFF_FFFF) && !IsDegenerate(Extent(w))
  {
  }

  /** Events never create, destroy or re-initialise anything, and never touch the GLFW log. */
  lemma {:induction false} EventsKeepHandle(w: WindowState, batch: seq<WindowEvent>)
    ensures var w' := AfterEvents(w, batch);
      w'.hasWindow == w.hasWindow && w'.glfwInitialized == w.glfwInitialized
      && w'.glfwCalls == w.glfwCalls && w'.name == w.name
    decreases |batch|
  {
    if batch != [] {
      EventsKeepHandle(w, batch[..|batch| - 1]);
    }
  }

  /** Once GLFW flags the window to close, no later event reopens it. */
  lemma {:induction false} ClosingIsPermanent(w: WindowState, batch: seq<WindowEvent>)
    requires !Open(w) || CloseRequested in batch
    ensures !Open(AfterEvents(w, batch))
    decreases |batch|
  {
    if batch != [] {
      var init := batch[..|batch| - 1];
      if batch[|batch| - 1] != CloseRequested {
        assert CloseRequested in batch ==> CloseRequested in init by {
          if CloseRequested in batch {
            var k :| 0 <= k < |batch| && batch[k] == CloseRequested;
            assert init[k] == CloseRequested;
          }
        }
        ClosingIsPermanent(w, init);
      }
    }
  }

  // ---------------------------------------------------------------------------------------
  // The extent wait loop at the head of every ReCreateSwapChain

  /** Where the wait loop ends: with a usable extent and the window state at that point, or
      blocked in glfwWaitEvents once the script of wake-ups runs out. */
  datatype Wait = Ready(extent: Extent2D, window: WindowState) | Stuck(window: WindowState)

  /** The loop `while (Extent degenerate) { Extent = GetExtent(); glfwWaitEvents(); }`,
      started from extent `e`; each element of `wakes` is the batch one glfwWaitEvents handles. */
  function AwaitFrom(e: Extent2D, w: WindowState, wakes: seq<seq<WindowEvent>>): (r: Wait)
    ensures r.Ready? ==> !IsDegenerate(r.extent)
    ensures !IsDegenerate(e) ==> r == Ready(e, w)
    ensures r.Stuck? ==> IsDegenerate(e)
    decreases |wakes|
  {
    if !IsDegenerate(e) then Ready(e, w)
    else if wakes == [] then Stuck(w)
    else AwaitFrom(Extent(w), AfterEvents(w, wakes[0]), wakes[1..])
  }

  function AwaitExtent(w: WindowState, wakes: seq<seq<WindowEvent>>): Wait {
    AwaitFrom(Extent(w), w, wakes)
  }

  /** Waiting never loses the window, the GLFW state or the log. */
  lemma {:induction false} AwaitKeepsHandle(e: Extent2D, w: WindowState, wakes: seq<seq<WindowEvent>>)
    ensures var w' := AwaitFrom(e, w, wakes).window;
      w'.hasWindow == w.hasWindow && w'.glfwInitialized == w.glfwInitialized && w'.glfwCalls == w.glfwCalls
    decreases |wakes|
  {
    if IsDegenerate(e) && wakes != [] {
      EventsKeepHandle(w, wakes[0]);
      AwaitKeepsHandle(Extent(w), AfterEvents(w, wakes[0]), wakes[1..]);
    }
  }

  /** The loop reads the extent before it waits, so a resize that ends a minimisation is only
      noticed one wake-up later: with a single wake-up the loop is still blocked, with a second
      (even empty) one it leaves with the new size. */
  lemma ResizeNoticedOneWakeLate(w: WindowState, width: i32, height: i32)
    requires IsDegenerate(Extent(w)) && 0 < width && 0 < height
    ensures AwaitExtent(w, [[FramebufferResize(width, height)]]).Stuck?
    ensures AwaitExtent(w, [[FramebufferResize(width, height)], []]) == Ready(Extent2D(width, height), AfterResize(w, width, height))
  {
    var batch := [FramebufferResize(width, height)];
    assert AfterEvents(w, batch) == AfterResize(w, width, height) by {
      assert batch[..0] == [];
    }
    var resized := AfterResize(w, width, height);
    var single: seq<seq<WindowEvent>> := [batch];
    assert single[1..] == [];
    assert AwaitExtent(w, [batch]) == AwaitFrom(Extent(w), resized, []);
    var empty: seq<seq<WindowEvent>> := [[]];
    var wakes := [batch, []];
    assert wakes[1..] == empty && empty[1..] == [];
    assert AfterEvents(resized, []) == resized;
    assert AwaitExtent(w, wakes) == AwaitFrom(Extent(w), resized, [[]]);
    assert AwaitFrom(Extent(w), resized, [[]]) == AwaitFrom(Extent(resized), resized, []);
  }

  class MyWindow {
    const name: string
    var width: i32
    var height: i32
    var frameBufferResized: bool
    var hasWindow: bool
    var glfwInitialized: bool
    var shouldClose: bool
    var glfwCalls: seq<GlfwCall>

    function State(): WindowState
      reads this
    {
      WindowState(name, width, height, frameBufferResized, hasWindow, glfwInitialized, shouldClose, glfwCalls)
    }

    /** MyWindow(name, width, height): member initialisers, then InitWindow. */
    constructor (name: string, width: i32, height: i32)
      ensures State() == AfterInitWindow(Constructed(name, width, height))
    {
      this.name := name;
      this.width, this.height := width, height;
      frameBufferResized, hasWindow, glfwInitialized, shouldClose := false, false, false, false;
      glfwCalls := [];
      new;
      InitWindow();
    }

    method InitWindow()
      modifies this
      ensures State() == AfterInitWindow(old(State()))
    {
      if !glfwInitialized {
        glfwCalls := glfwCalls + [GlfwInit, WindowHint(ClientApiNoApi), WindowHint(ResizableTrue)];
      }
      if !hasWindow {
        hasWindow := true;
        glfwCalls := glfwCalls + [CreateWindow(width, height, name), SetWindowUserPointer, SetFramebufferSizeCallback];
      }
      glfwInitialized := true;
    }

    method DestroyWindow()
      modifies this
      ensures State() == AfterDestroyWindow(old(State()))
    {
      if hasWindow {
        glfwCalls := glfwCalls + [GlfwCall.DestroyWindow];
        hasWindow := false;
      }
    }

    /** glfwWindowShouldClose needs a window. */
    function IsOpen(): (r: bool)
      reads this
      requires hasWindow
      ensures r <==> Open(State())
    {
      !shouldClose
    }

    function GetExtent(): (e: Extent2D)
      reads this
      ensures e == Extent(State())
    {
      Extent2D(ToU32(width), ToU32(height))
    }

    function WasWindowResized(): (r: bool)
      reads this
      ensures r == State().resized
    {
      frameBufferResized
    }

    method ResetWindowResizedFlag()
      modifies this
      ensures State() == AfterResetResized(old(State()))
    {
      frameBufferResized := false;
    }

    method FrameBufferResizeCallback(width: i32, height: i32)
      modifies this
      ensures State() == AfterResize(old(State()), width, height)
    {
      this.width := width;
      this.height := height;
      frameBufferResized := true;
    }

    /** GLFW's event processing inside glfwPollEvents / glfwWaitEvents: the events of the batch
        reach the window in order, framebuffer-size events through the resize callback. */
    method ProcessEvents(batch: seq<WindowEvent>)
      modifies this
      ensures State() == AfterEvents(old(State()), batch)
    {
      for i := 0 to |batch|
        invariant State() == AfterEvents(old(State()), batch[..i])
      {
        assert batch[..i + 1][..i] == batch[..i];
        match batch[i]
        case FramebufferResize(w, h) => FrameBufferResizeCallback(w, h);
        case CloseRequested => shouldClose := true;
        case OtherEvent =>
      }
      assert batch[..|batch|] == batch;
    }
  }

  /** The wait loop shared by both ReCreateSwapChain implementations; each iteration reads the
      extent and then sleeps in glfwWaitEvents, which handles the next batch of `wakes`. */
  method WaitForExtent(window: MyWindow, wakes: seq<seq<WindowEvent>>) returns (r: Wait)
    modifies window
    ensures r == AwaitExtent(old(window.State()), wakes)
    ensures window.State() == r.window
  {
    var extent := window.GetExtent();
    var i := 0;
    while IsDegenerate(extent)
      invariant 0 <= i <= |wakes|
      invariant AwaitFrom(extent, window.State(), wakes[i..]) == AwaitExtent(old(window.State()), wakes)
      decreases |wakes| - i
    {
      if i == |wakes| {
        return Stuck(window.State());
      }
      extent := window.GetExtent();
      window.ProcessEvents(wakes[i]);
      i := i + 1;
    }
    return Ready(extent, window.State());
  }
}
