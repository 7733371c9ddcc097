/** Shared vocabulary of the engine model: the Vulkan results and handles the core code
    sees, the abstract swap chain it drives, the command pool it allocates from, and the
    trace of device calls through which its effects become observable. */
module Vulkan {

  datatype Option<T> = None | Some(value: T)

  /** The result of vkAcquireNextImageKHR / vkQueuePresentKHR, as far as the core branches on it. */
  datatype VkResult = Success | Suboptimal | OutOfDate | OtherError

  /** How a modelled call ended: it returned, it threw std::runtime_error with a message, or
      it is still blocked in a platform wait when the environment script runs out. */
  datatype Outcome = Normal | Threw(message: string) | Pending

  /** Unsigned 32-bit integers (uint32_t). */
  const U32Modulus: nat := 0x1_0000_0000
  type u32 = x: nat | x < U32Modulus

  /** Signed 32-bit integers (int). */
  type i32 = x: int | -0x8000_0000 <= x < 0x8000_0000

  /** The C++ conversion of an int to uint32_t: the value modulo 2^32. */
  function ToU32(x: int): (r: u32)
    ensures 0 <= x < U32Modulus ==> r == x
    ensures 0 <= x ==> r <= x
    ensures x < 0 && -x < U32Modulus ==> r == U32Modulus + x
  {
    x % U32Modulus
  }

  /** VkExtent2D. */
  datatype Extent2D = Extent2D(width: u32, height: u32)

  predicate IsDegenerate(e: Extent2D) {
    e.width == 0 || e.height == 0
  }

  /** VkCommandBuffer handles; 0 is VK_NULL_HANDLE. */
  type CommandBuffer = nat
  const NullHandle: CommandBuffer := 0

  /** What the presentation layer decided when a swap chain was created: the files that make
      this choice (surface format, present mode, extent clamping, image count) are not part
      of this model, so their outcome is an input. */
  datatype Negotiated = Negotiated(extent: Extent2D, imageCount: nat, imageFormat: nat, depthFormat: nat)

  /** An EngineSwapChain as the frame loop sees it: the window extent it was built for, the
      extent it chose, its image count and its colour and depth formats. */
  datatype SwapChain = SwapChain(windowExtent: Extent2D, extent: Extent2D, imageCount: nat, imageFormat: nat, depthFormat: nat)

  /** `EngineSwapChain(device, extent[, previous])`. */
  function NewSwapChain(windowExtent: Extent2D, n: Negotiated): (c: SwapChain)
    ensures c.windowExtent == windowExtent && c.imageCount == n.imageCount
  {
    SwapChain(windowExtent, n.extent, n.imageCount, n.imageFormat, n.depthFormat)
  }

  /** `CompareSwapFormats`: a replacement chain is compatible when its colour and depth
      formats are those of the old one. */
  predicate CompareSwapFormats(old_: SwapChain, new_: SwapChain) {
    old_.imageFormat == new_.imageFormat && old_.depthFormat == new_.depthFormat
  }

  /** One acquisition: the result and the image index written through the out-pointer. */
  datatype Acquired = Acquired(result: VkResult, imageIndex: u32)

  predicate AcquireSucceeded(a: Acquired) {
    a.result == Success || a.result == Suboptimal
  }

  /** Calls into the device and the swap chain, in the order the core issues them. */
  datatype VkCall =
    | AcquireNextImage
    | BeginCommandBuffer(cb: CommandBuffer)
    | EndCommandBuffer(cb: CommandBuffer)
    | BeginRenderPass(cb: CommandBuffer, framebuffer: nat, renderArea: Extent2D)
    | SetViewport(cb: CommandBuffer, size: Extent2D)
    | SetScissor(cb: CommandBuffer, size: Extent2D)
    | EndRenderPass(cb: CommandBuffer)
    | SubmitCommandBuffers(cb: CommandBuffer, imageIndex: nat)
    | DeviceWaitIdle
    | CreatePipelineLayout
    | CreateGraphicsPipeline

  /** The commands that open a swap-chain render pass on `cb` for image `image` of `chain`:
      the render area, viewport and scissor all cover the swap-chain extent. */
  function RenderPassOpening(cb: CommandBuffer, image: nat, chain: SwapChain): seq<VkCall> {
    [BeginRenderPass(cb, image, chain.extent), SetViewport(cb, chain.extent), SetScissor(cb, chain.extent)]
  }

  /** `std::vector::resize` followed by a failed vkAllocateCommandBuffers, which sets every
      entry of the output array to VK_NULL_HANDLE. */
  function NullBuffers(n: nat): (r: seq<CommandBuffer>)
    ensures |r| == n && forall i :: 0 <= i < n ==> r[i] == NullHandle
  {
    seq(n, _ => NullHandle)
  }

  predicate Distinct(s: seq<CommandBuffer>) {
    forall i, j :: 0 <= i < j < |s| ==> s[i] != s[j]
  }

  // ---------------------------------------------------------------------------------------
  // The command pool of EngineDevice: hands out fresh handles and takes them back.

  datatype PoolState = PoolState(next: nat, live: set<CommandBuffer>)

  /** Every live handle is non-null and below the next handle to be issued. */
  predicate PoolValid(p: PoolState) {
    0 < p.next && forall h :: h in p.live ==> 0 < h < p.next
  }

  /** The handles a successful vkAllocateCommandBuffers of `n` buffers returns. */
  function Allocation(p: PoolState, n: nat): seq<CommandBuffer> {
    seq(n, i => p.next + i)
  }

  function AfterAllocate(p: PoolState, n: nat): PoolState {
    PoolState(p.next + n, p.live + (set h | h in Allocation(p, n)))
  }

  /** vkFreeCommandBuffers: the given handles are no longer live (null handles are ignored). */
  function AfterFree(p: PoolState, bufs: seq<CommandBuffer>): PoolState {
    p.(live := p.live - (set h | h in bufs))
  }

  /** An allocation hands out `n` distinct, non-null handles that were not live before, and
      keeps the pool valid. */
  lemma AllocationIsFresh(p: PoolState, n: nat)
    requires PoolValid(p)
    ensures |Allocation(p, n)| == n && Distinct(Allocation(p, n))
    ensures forall i :: 0 <= i < n ==> Allocation(p, n)[i] !in p.live && Allocation(p, n)[i] != NullHandle
    ensures forall i :: 0 <= i < n ==> Allocation(p, n)[i] in AfterAllocate(p, n).live
    ensures PoolValid(AfterAllocate(p, n))
  {
  }

  /** Freeing keeps the pool valid and releases exactly the given handles. */
  lemma FreeReleases(p: PoolState, bufs: seq<CommandBuffer>)
    requires PoolValid(p)
    ensures PoolValid(AfterFree(p, bufs))
    ensures forall h :: h in bufs ==> h !in AfterFree(p, bufs).live
    ensures forall h :: h in p.live && h !in bufs ==> h in AfterFree(p, bufs).live
  {
  }

  class CommandPool {
    var next: nat
    var live: set<CommandBuffer>

    function State(): PoolState
      reads this
    {
      PoolState(next, live)
    }

    constructor ()
      ensures State() == PoolState(1, {})
    {
      next, live := 1, {};
    }

    /** vkAllocateCommandBuffers of `n` primary buffers; `ok` is the driver's verdict. */
    method Allocate(n: nat, ok: bool) returns (bufs: seq<CommandBuffer>)
      modifies this
      ensures ok ==> bufs == Allocation(old(State()), n) && State() == AfterAllocate(old(State()), n)
      ensures !ok ==> bufs == NullBuffers(n) && State() == old(State())
    {
      if ok {
        bufs := Allocation(State(), n);
        live := live + (set h | h in bufs);
        next := next + n;
      } else {
        bufs := NullBuffers(n);
      }
    }

    /** vkFreeCommandBuffers. */
    method Free(bufs: seq<CommandBuffer>)
      modifies this
      ensures State() == AfterFree(old(State()), bufs)
    {
      live := live - (set h | h in bufs);
    }
  }
}
