/** The newer renderer (Graphics::DirectX12::Renderer): the per-slot fence values and the
    swap-chain index it keeps, the frame it records and presents, and the resize sequence
    that rebuilds the render-target views.  It drives the older triangle entity. */
module Graphics {
  import opened Calls
  import opened FrameSync
  import Entities
  import opened VertexLayout

  /** What Initialize's creation steps produce; their internals are not modelled. */
  datatype RendererSetup = RendererSetup(
    device: Ptr, commandQueue: Ptr, commandAllocator: Ptr, commandList: Ptr, swapChain: Ptr,
    rtvIncrement: nat, views: ViewEnv, frameFence: Ptr, triangle: Entities.ResourceSetup)

  function CreationSteps(): seq<Call> {
    [Step(CreateDevice), Step(CreateCommandInterfaces), Step(CreateSwapChain)]
  }

  /** The calls of one Initialize, up to its end or the first failed check. */
  function InitializeCalls(s: RendererSetup): seq<Call>
    requires ValidViewEnv(s.views)
  {
    CreationSteps()
    + ViewCalls(s.device != Null, s.swapChain != Null, s.views, s.rtvIncrement, PlatformCheckFailure(true))
    + if ViewsExit(s.device != Null, s.swapChain != Null, s.views) then [] else
      FenceCalls(s.frameFence) + Entities.ResourceCreateCalls(s.triangle)
  }

  /** One frame of Render as recorded between its two waits holds exactly the two
      transition barriers on the target, PRESENT to RENDER_TARGET and back; it clears the
      bound descriptor once exactly when clearing is on; and the triangle draw stays inside
      its vertex buffer. */
  lemma RenderedFrame(pipeline: Ptr, signature: Ptr, vertexBuffer: Ptr, target: Ptr, descriptor: nat, clear: bool, width: nat, height: nat)
    ensures var frame := FrameCommands(Null, target, descriptor, clear, width, height, Entities.DrawCalls(pipeline, signature, vertexBuffer));
      Select(frame, IsBarrier) == [Barrier(target, Present, RenderTarget), Barrier(target, RenderTarget, Present)]
      && Select(frame, IsClear) == (if clear then [ClearRenderTarget(descriptor)] else [])
    ensures DrawsWithinBoundBuffer(Entities.DrawCalls(pipeline, signature, vertexBuffer))
  {
    var draw := Entities.DrawCalls(pipeline, signature, vertexBuffer);
    Entities.DrawContract(pipeline, signature, vertexBuffer);
    FrameBarrierPair(Null, target, descriptor, clear, width, height, draw);
    FrameClearsIffAsked(Null, target, descriptor, clear, width, height, draw);
  }

  /** The target and the descriptor Render binds for slot i are the buffer and the handle
      that a complete CreateRenderTargetViews gave that slot. */
  lemma RenderBindsCreatedView(e: ViewEnv, increment: nat, i: nat)
    requires ViewsComplete(e) && i < SwapChainBufferCount
    ensures CreateRenderTargetView(e.buffers[i].buffer, RtvDescriptor(e.heapStart, i, increment))
            in ViewCalls(true, true, e, increment, PlatformCheckFailure(true))
  {
    BufferViewsAt(e, increment, PlatformCheckFailure(true), 0);
    var calls := BufferViewCalls(e, increment, PlatformCheckFailure(true), 0);
    assert calls[2 * i + 1] == CreateRenderTargetView(e.buffers[i].buffer, RtvDescriptor(e.heapStart, i, increment));
    assert ViewCalls(true, true, e, increment, PlatformCheckFailure(true)) == [CreateDescriptorHeap(SwapChainBufferCount)] + calls;
  }

  class Renderer {
    var windowHandle: Ptr
    var frameBufferWidth: nat
    var frameBufferHeight: nat
    var currentFrameBufferIndex: nat
    var frameFence: Ptr
    const frameFenceValues: array<nat>
    var frameCounter: nat
    var isFrameInFlight: bool
    var device: Ptr
    var swapChain: Ptr
    var commandQueue: Ptr
    const commandAllocators: array<Ptr>
    /** The single allocator and command list the method bodies use. */
    var commandAllocator: Ptr
    var commandList: Ptr
    var rtvHeap: Ptr
    /** The heap's first CPU handle and the device's RTV descriptor increment. */
    var rtvHeapStart: nat
    var rtvIncrement: nat
    const renderTargets: array<Ptr>
    var shouldRender: bool
    var shouldClear: bool
    var triangle: Entities.TriangleEntity?

    /** Two slots per per-buffer array, an index naming one of them, a UINT frame counter. */
    predicate Valid()
      reads this
    {
      frameFenceValues.Length == SwapChainBufferCount
      && commandAllocators.Length == SwapChainBufferCount
      && renderTargets.Length == SwapChainBufferCount
      && commandAllocators != renderTargets
      && currentFrameBufferIndex < SwapChainBufferCount
      && frameCounter < UInt32Modulus
    }

    /** CurrentFrameBufferIndex and FrameFenceValues. */
    function Fence(): (r: FenceState)
      requires Valid()
      reads this, frameFenceValues
      ensures ValidFence(r) && r.index == currentFrameBufferIndex
    {
      FenceState(currentFrameBufferIndex, frameFenceValues[..])
    }

    /** The command queue and the frame fence both exist. */
    predicate Ready()
      reads this
    {
      commandQueue != Null && frameFence != Null
    }

    /** The heap, its first handle and every render target are those a complete
        CreateRenderTargetViews made from e: target i is swap-chain buffer i. */
    predicate HoldsViews(e: ViewEnv)
      requires Valid() && ValidViewEnv(e)
      reads this, renderTargets
    {
      rtvHeap == e.heap && rtvHeapStart == e.heapStart
      && forall i :: 0 <= i < SwapChainBufferCount ==> renderTargets[i] == e.buffers[i].buffer
    }

    /** The field initializers. */
    constructor ()
      ensures Valid() && fresh(frameFenceValues) && fresh(commandAllocators) && fresh(renderTargets)
      ensures Fence() == InitialFence && frameCounter == 0 && !isFrameInFlight
      ensures shouldRender && shouldClear
      ensures frameBufferWidth == 0 && frameBufferHeight == 0
      ensures commandAllocators[..] == [Null, Null] && renderTargets[..] == [Null, Null]
      ensures windowHandle == Null && frameFence == Null && device == Null && swapChain == Null
      ensures commandQueue == Null && commandAllocator == Null && commandList == Null && rtvHeap == Null
      ensures triangle == null
    {
      windowHandle := Null;
      frameBufferWidth, frameBufferHeight, currentFrameBufferIndex := 0, 0, 0;
      frameFence := Null;
      frameFenceValues := new nat[SwapChainBufferCount](_ => 1);
      frameCounter := 0;
      isFrameInFlight := false;
      device, swapChain, commandQueue := Null, Null, Null;
      commandAllocators := new Ptr[SwapChainBufferCount](_ => Null);
      commandAllocator, commandList := Null, Null;
      rtvHeap, rtvHeapStart, rtvIncrement := Null, 0, 0;
      renderTargets := new Ptr[SwapChainBufferCount](_ => Null);
      shouldRender, shouldClear := true, true;
      triangle := null;
      new;
      assert frameFenceValues[..] == [1, 1];
    }

    /** Signals the current slot's fence value, adopts the swap chain's back-buffer index,
        blocks while the GPU has not reached that slot's value, and stores the signalled
        value plus one in that slot; an early return only logs.  The swap-chain cast
        dereferences the swap chain. */
    method WaitForGPU(log: CallLog, g: GpuView)
      requires Valid() && !log.exited && ValidView(g)
      requires Ready() && g.signalSucceeds ==> swapChain != Null
      modifies log, this`currentFrameBufferIndex, frameFenceValues
      ensures Valid()
      ensures Fence() == Wait(old(Fence()), Ready(), g)
      ensures log.calls == old(log.calls) + WaitCalls(old(Fence()), Ready(), g) && !log.exited
    {
      if commandQueue == Null || frameFence == Null {
        log.Issue(Fatal);
        return;
      }
      var currentFenceValue := frameFenceValues[currentFrameBufferIndex];
      log.Issue(Signal(currentFenceValue));
      if !g.signalSucceeds || !g.swapChain3Available {
        log.Issue(Fatal);
        return;
      }
      currentFrameBufferIndex := g.backBufferIndex;
      var frameFenceValue := frameFenceValues[currentFrameBufferIndex];
      if g.completedValue < frameFenceValue {
        log.Issue(WaitForFence(frameFenceValue));
      }
      frameFenceValues[currentFrameBufferIndex] := currentFenceValue + 1;
    }

    /** Drops every render target and releases the descriptor heap. */
    method CleanupRenderTargetViews(log: CallLog)
      requires Valid() && !log.exited
      modifies log, this`rtvHeap, renderTargets
      ensures renderTargets[..] == ReleasedTargets(old(renderTargets[..])) && rtvHeap == Null
      ensures log.calls == old(log.calls) + CleanupCalls(old(rtvHeap)) && !log.exited
    {
      var i := 0;
      while i < SwapChainBufferCount
        invariant 0 <= i <= SwapChainBufferCount
        invariant unchanged(log) && unchanged(this)
        invariant forall k :: 0 <= k < i ==> renderTargets[k] == Null
      {
        if renderTargets[i] != Null {
          renderTargets[i] := Null;
        }
        i := i + 1;
      }
      if rtvHeap != Null {
        log.Issue(Release(rtvHeap));
        rtvHeap := Null;
      }
    }

    /** Creates the two-descriptor heap and, for each buffer i, the view of swap-chain
        buffer i at heap start plus i increments; each creation is checked with
        Platform::CheckHandle. */
    method CreateRenderTargetViews(log: CallLog, e: ViewEnv)
      requires Valid() && !log.exited && ValidViewEnv(e)
      modifies log, this`rtvHeap, this`rtvHeapStart, renderTargets
      ensures log.calls == old(log.calls) + ViewCalls(device != Null, swapChain != Null, e, rtvIncrement, PlatformCheckFailure(true))
      ensures log.exited <==> ViewsExit(device != Null, swapChain != Null, e)
      ensures device == Null || swapChain == Null ==>
        rtvHeap == old(rtvHeap) && rtvHeapStart == old(rtvHeapStart) && renderTargets[..] == old(renderTargets[..])
      ensures device != Null && swapChain != Null && ViewsComplete(e) ==> HoldsViews(e)
    {
      if device == Null || swapChain == Null {
        log.Issue(Fatal);
        return;
      }
      ghost var failure := PlatformCheckFailure(true);
      log.Issue(CreateDescriptorHeap(SwapChainBufferCount));
      rtvHeap := e.heap;
      PlatformCheckHandle(log, e.heapCreated, true);
      if log.exited {
        return;
      }
      rtvHeapStart := e.heapStart;
      CreateBufferViews(log, e);
    }

    /** The loop of CreateRenderTargetViews: buffer i of the swap chain becomes render
        target i, with its view at heap start plus i increments. */
    method CreateBufferViews(log: CallLog, e: ViewEnv)
      requires Valid() && !log.exited && ValidViewEnv(e) && rtvHeapStart == e.heapStart
      modifies log, renderTargets
      ensures log.calls == old(log.calls) + BufferViewCalls(e, rtvIncrement, PlatformCheckFailure(true), 0)
      ensures log.exited <==> exists k :: 0 <= k < SwapChainBufferCount && !e.buffers[k].succeeded
      ensures !log.exited ==> forall k :: 0 <= k < SwapChainBufferCount ==> renderTargets[k] == e.buffers[k].buffer
    {
      ghost var failure := PlatformCheckFailure(true);
      ghost var views := log.calls + BufferViewCalls(e, rtvIncrement, failure, 0);
      var i := 0;
      while i < SwapChainBufferCount
        invariant 0 <= i <= SwapChainBufferCount && !log.exited
        invariant log.calls + BufferViewCalls(e, rtvIncrement, failure, i) == views
        invariant forall k :: 0 <= k < i ==> e.buffers[k].succeeded && renderTargets[k] == e.buffers[k].buffer
        decreases SwapChainBufferCount - i
      {
        var buffer := e.buffers[i];
        log.Issue(GetBuffer(i));
        renderTargets[i] := buffer.buffer;
        PlatformCheckHandle(log, buffer.succeeded, true);
        if log.exited {
          return;
        }
        log.Issue(CreateRenderTargetView(buffer.buffer, RtvDescriptor(rtvHeapStart, i, rtvIncrement)));
        i := i + 1;
      }
    }

    /** Stores the window and the size, runs the creation steps and the view creation,
        creates the frame fence, then creates the triangle entity and its resources. */
    method Initialize(log: CallLog, hwnd: Ptr, width: nat, height: nat, s: RendererSetup)
      requires Valid() && !log.exited && ValidViewEnv(s.views) && s.device != Null
      modifies log, this`windowHandle, this`frameBufferWidth, this`frameBufferHeight
      modifies this`device, this`rtvIncrement, this`commandQueue, this`commandAllocator, this`commandList, this`swapChain
      modifies this`rtvHeap, this`rtvHeapStart, renderTargets, this`frameFence, this`triangle
      ensures Valid()
      ensures windowHandle == hwnd && frameBufferWidth == width && frameBufferHeight == height
      ensures log.calls == old(log.calls) + InitializeCalls(s)
      ensures log.exited <==> ViewsExit(true, s.swapChain != Null, s.views) || !Entities.ResourcesCreated(s.triangle)
      ensures !log.exited ==>
        device == s.device && commandQueue == s.commandQueue && commandAllocator == s.commandAllocator
        && commandList == s.commandList && swapChain == s.swapChain && frameFence == s.frameFence
        && triangle != null && fresh(triangle)
        && triangle.pipelineState == s.triangle.pipeline.handle && triangle.rootSignature == s.triangle.signature.handle
        && triangle.vertexBuffer == s.triangle.vertexBuffer.handle
      ensures rtvIncrement == s.rtvIncrement
      ensures s.swapChain == Null ==> rtvHeap == old(rtvHeap) && rtvHeapStart == old(rtvHeapStart) && renderTargets[..] == old(renderTargets[..])
      ensures !log.exited && s.swapChain != Null ==> HoldsViews(s.views)
    {
      windowHandle := hwnd;
      frameBufferWidth, frameBufferHeight := width, height;
      SetUp(log, s);
    }

    /** Initialize after the window and the size are stored: the creation steps and views,
        then, unless they ended the process, the fence and the triangle. */
    method SetUp(log: CallLog, s: RendererSetup)
      requires Valid() && !log.exited && ValidViewEnv(s.views) && s.device != Null
      modifies log, this`device, this`rtvIncrement, this`commandQueue, this`commandAllocator, this`commandList, this`swapChain
      modifies this`rtvHeap, this`rtvHeapStart, renderTargets, this`frameFence, this`triangle
      ensures Valid()
      ensures log.calls == old(log.calls) + InitializeCalls(s)
      ensures log.exited <==> ViewsExit(true, s.swapChain != Null, s.views) || !Entities.ResourcesCreated(s.triangle)
      ensures !log.exited ==>
        device == s.device && commandQueue == s.commandQueue && commandAllocator == s.commandAllocator
        && commandList == s.commandList && swapChain == s.swapChain && frameFence == s.frameFence
        && triangle != null && fresh(triangle)
        && triangle.pipelineState == s.triangle.pipeline.handle && triangle.rootSignature == s.triangle.signature.handle
        && triangle.vertexBuffer == s.triangle.vertexBuffer.handle
      ensures rtvIncrement == s.rtvIncrement
      ensures s.swapChain == Null ==> rtvHeap == old(rtvHeap) && rtvHeapStart == old(rtvHeapStart) && renderTargets[..] == old(renderTargets[..])
      ensures !log.exited && s.swapChain != Null ==> HoldsViews(s.views)
    {
      ghost var start := log.calls;
      ghost var views := ViewCalls(true, s.swapChain != Null, s.views, s.rtvIncrement, PlatformCheckFailure(true));
      CreateDeviceAndViews(log, s);
      if log.exited {
        return;
      }
      FinishInitialize(log, s);
      AppendAssoc(start, CreationSteps() + views, FenceCalls(s.frameFence) + Entities.ResourceCreateCalls(s.triangle));
    }

    /** The part of Initialize up to the views: the creation steps, then the render target
        views on the swap chain they produced. */
    method CreateDeviceAndViews(log: CallLog, s: RendererSetup)
      requires Valid() && !log.exited && ValidViewEnv(s.views) && s.device != Null
      modifies log, this`device, this`rtvIncrement, this`commandQueue, this`commandAllocator, this`commandList, this`swapChain
      modifies this`rtvHeap, this`rtvHeapStart, renderTargets
      ensures Valid()
      ensures log.calls == old(log.calls) + (CreationSteps() + ViewCalls(true, s.swapChain != Null, s.views, s.rtvIncrement, PlatformCheckFailure(true)))
      ensures log.exited <==> ViewsExit(true, s.swapChain != Null, s.views)
      ensures device == s.device && commandQueue == s.commandQueue && commandAllocator == s.commandAllocator
      ensures commandList == s.commandList && swapChain == s.swapChain
      ensures rtvIncrement == s.rtvIncrement
      ensures s.swapChain == Null ==> rtvHeap == old(rtvHeap) && rtvHeapStart == old(rtvHeapStart) && renderTargets[..] == old(renderTargets[..])
      ensures s.swapChain != Null && ViewsComplete(s.views) ==> HoldsViews(s.views)
    {
      ghost var start := log.calls;
      RunCreationSteps(log, s);
      CreateRenderTargetViews(log, s.views);
      AppendAssoc(start, CreationSteps(), ViewCalls(true, s.swapChain != Null, s.views, s.rtvIncrement, PlatformCheckFailure(true)));
    }

    /** The part of Initialize after the views: the frame fence, then the triangle. */
    method FinishInitialize(log: CallLog, s: RendererSetup)
      requires !log.exited && device != Null
      modifies log, this`frameFence, this`triangle
      ensures log.calls == old(log.calls) + (FenceCalls(s.frameFence) + Entities.ResourceCreateCalls(s.triangle))
      ensures log.exited <==> !Entities.ResourcesCreated(s.triangle)
      ensures frameFence == s.frameFence && triangle != null && fresh(triangle)
      ensures !log.exited ==>
        triangle.pipelineState == s.triangle.pipeline.handle && triangle.rootSignature == s.triangle.signature.handle
        && triangle.vertexBuffer == s.triangle.vertexBuffer.handle
    {
      ghost var start := log.calls;
      CreateFrameFence(log, s.frameFence);
      CreateTriangle(log, s.triangle);
      AppendAssoc(start, FenceCalls(s.frameFence), Entities.ResourceCreateCalls(s.triangle));
    }

    /** CreateDevice, CreateCommandInterfaces and CreateSwapChain, represented by the
        handles they leave. */
    method RunCreationSteps(log: CallLog, s: RendererSetup)
      requires !log.exited
      modifies log, this`device, this`rtvIncrement, this`commandQueue, this`commandAllocator, this`commandList, this`swapChain
      ensures log.calls == old(log.calls) + CreationSteps() && !log.exited
      ensures device == s.device && rtvIncrement == s.rtvIncrement && commandQueue == s.commandQueue
      ensures commandAllocator == s.commandAllocator && commandList == s.commandList && swapChain == s.swapChain
    {
      log.Issue(Step(CreateDevice));
      device, rtvIncrement := s.device, s.rtvIncrement;
      log.Issue(Step(CreateCommandInterfaces));
      commandQueue, commandAllocator, commandList := s.commandQueue, s.commandAllocator, s.commandList;
      log.Issue(Step(CreateSwapChain));
      swapChain := s.swapChain;
    }

    /** CreateFrameFence: a failed creation is only logged. */
    method CreateFrameFence(log: CallLog, fence: Ptr)
      requires !log.exited && device != Null
      modifies log, this`frameFence
      ensures log.calls == old(log.calls) + FenceCalls(fence) && !log.exited
      ensures frameFence == fence
    {
      log.Issue(Step(Calls.CreateFrameFence));
      frameFence := fence;
      if frameFence == Null {
        log.Issue(Fatal);
      }
    }

    /** The triangle part of Initialize: a new entity creates its resources on the device. */
    method CreateTriangle(log: CallLog, t: Entities.ResourceSetup)
      requires !log.exited && device != Null
      modifies log, this`triangle
      ensures log.calls == old(log.calls) + Entities.ResourceCreateCalls(t)
      ensures log.exited <==> !Entities.ResourcesCreated(t)
      ensures triangle != null && fresh(triangle)
      ensures !log.exited ==>
        triangle.pipelineState == t.pipeline.handle && triangle.rootSignature == t.signature.handle
        && triangle.vertexBuffer == t.vertexBuffer.handle
    {
      var entity := new Entities.TriangleEntity();
      triangle := entity;
      entity.OnResourceCreate(log, device, t);
    }

    /** When rendering is on: wait, record the frame for the slot the wait adopted (with the
        triangle's draw between the viewport and the closing barrier), execute, present,
        wait again and count the frame; when it is off, nothing happens. */
    method Render(log: CallLog, g1: GpuView, g2: GpuView)
      requires Valid() && !log.exited && ValidView(g1) && ValidView(g2)
      requires shouldRender ==>
        commandAllocator != Null && commandList != Null && rtvHeap != Null && device != Null
        && commandQueue != Null && swapChain != Null && triangle != null && triangle.vertexBuffer != Null
      modifies log, this`currentFrameBufferIndex, this`frameCounter, frameFenceValues
      ensures Valid() && !log.exited
      ensures !old(shouldRender) ==>
        log.calls == old(log.calls) && Fence() == old(Fence()) && frameCounter == old(frameCounter)
      ensures old(shouldRender) ==>
        var s1 := Wait(old(Fence()), Ready(), g1);
        Fence() == Wait(s1, Ready(), g2)
        && frameCounter == (old(frameCounter) + 1) % UInt32Modulus
        && log.calls == old(log.calls) + WaitCalls(old(Fence()), Ready(), g1)
           + FrameCommands(Null, renderTargets[s1.index], RtvDescriptor(rtvHeapStart, s1.index, rtvIncrement),
                           shouldClear, frameBufferWidth, frameBufferHeight,
                           Entities.DrawCalls(triangle.pipelineState, triangle.rootSignature, triangle.vertexBuffer))
           + WaitCalls(s1, Ready(), g2)
    {
      if !shouldRender {
        return;
      }
      ghost var s0 := Fence();
      WaitForGPU(log, g1);
      ghost var s1 := Fence();
      assert s1 == Wait(s0, Ready(), g1);
      ghost var waited := log.calls;
      RecordFrame(log);
      ghost var framed := log.calls;
      WaitForGPU(log, g2);
      assert log.calls == framed + WaitCalls(s1, Ready(), g2);
      frameCounter := (frameCounter + 1) % UInt32Modulus;
    }

    /** Render's commands between its two waits, for the slot the first wait adopted. */
    method RecordFrame(log: CallLog)
      requires Valid() && !log.exited
      requires commandAllocator != Null && commandList != Null && rtvHeap != Null && device != Null
      requires commandQueue != Null && swapChain != Null && triangle != null && triangle.vertexBuffer != Null
      modifies log
      ensures !log.exited
      ensures log.calls == old(log.calls)
        + FrameCommands(Null, renderTargets[currentFrameBufferIndex], RtvDescriptor(rtvHeapStart, currentFrameBufferIndex, rtvIncrement),
                        shouldClear, frameBufferWidth, frameBufferHeight,
                        Entities.DrawCalls(triangle.pipelineState, triangle.rootSignature, triangle.vertexBuffer))
    {
      var target := renderTargets[currentFrameBufferIndex];
      var rtvHandle := RtvDescriptor(rtvHeapStart, currentFrameBufferIndex, rtvIncrement);
      var width, height, clear, entity, list := frameBufferWidth, frameBufferHeight, shouldClear, triangle, commandList;
      ghost var start := log.calls;
      log.IssueAll([ResetCommandAllocator, ResetCommandList(Null), Barrier(target, Present, RenderTarget), SetRenderTarget(rtvHandle)]);
      if clear {
        log.Issue(ClearRenderTarget(rtvHandle));
      }
      log.IssueAll([SetViewport, SetScissor(0, 0, width, height)]);
      entity.OnRender(log, list);
      log.IssueAll([Barrier(target, RenderTarget, Present), CloseCommandList, ExecuteCommandList, PresentFrame(1, 0)]);
    }

    /** Unless the swap chain is missing (logged) or the size is unchanged, stores the new
        size with rendering off, waits, drops the views, resizes the two buffers, recreates
        the views, waits again and turns rendering back on. */
    method Resize(log: CallLog, width: nat, height: nat, g1: GpuView, e: ViewEnv, g2: GpuView)
      requires Valid() && !log.exited && ValidView(g1) && ValidView(g2) && ValidViewEnv(e)
      modifies log, this`frameBufferWidth, this`frameBufferHeight, this`shouldRender, this`currentFrameBufferIndex,
        this`rtvHeap, this`rtvHeapStart, frameFenceValues, renderTargets
      ensures Valid()
      ensures swapChain == Null ==>
        log.calls == old(log.calls) + [Fatal] && !log.exited && shouldRender == old(shouldRender)
        && frameBufferWidth == old(frameBufferWidth) && frameBufferHeight == old(frameBufferHeight) && Fence() == old(Fence())
        && rtvHeap == old(rtvHeap) && rtvHeapStart == old(rtvHeapStart) && renderTargets[..] == old(renderTargets[..])
      ensures swapChain != Null && width == old(frameBufferWidth) && height == old(frameBufferHeight) ==>
        log.calls == old(log.calls) && !log.exited && shouldRender == old(shouldRender) && Fence() == old(Fence())
        && frameBufferWidth == width && frameBufferHeight == height && rtvHeap == old(rtvHeap) && rtvHeapStart == old(rtvHeapStart) && renderTargets[..] == old(renderTargets[..])
      ensures swapChain != Null && (width != old(frameBufferWidth) || height != old(frameBufferHeight)) ==>
        var s1 := Wait(old(Fence()), Ready(), g1);
        frameBufferWidth == width && frameBufferHeight == height
        && (log.exited <==> ViewsExit(device != Null, true, e))
        && shouldRender == !log.exited
        && log.calls == old(log.calls) + WaitCalls(old(Fence()), Ready(), g1) + CleanupCalls(old(rtvHeap))
           + [ResizeBuffers(SwapChainBufferCount, width, height)]
           + ViewCalls(device != Null, true, e, rtvIncrement, PlatformCheckFailure(true))
           + (if log.exited then [] else WaitCalls(s1, Ready(), g2))
        && (!log.exited ==> Fence() == Wait(s1, Ready(), g2))
      ensures swapChain != Null && (width != old(frameBufferWidth) || height != old(frameBufferHeight)) ==>
        (device == Null ==> rtvHeap == Null && rtvHeapStart == old(rtvHeapStart) && renderTargets[..] == ReleasedTargets(old(renderTargets[..])))
        && (device != Null && ViewsComplete(e) ==> HoldsViews(e))
    {
      if swapChain == Null {
        log.Issue(Fatal);
        return;
      }
      if width == frameBufferWidth && height == frameBufferHeight {
        return;
      }
      shouldRender := false;
      frameBufferWidth, frameBufferHeight := width, height;
      Reconfigure(log, g1, e, g2);
    }

    /** Resize once the new size is stored: wait, rebuild the views for that size, and when
        that passes, wait again and turn rendering back on. */
    method Reconfigure(log: CallLog, g1: GpuView, e: ViewEnv, g2: GpuView)
      requires Valid() && !log.exited && ValidView(g1) && ValidView(g2) && ValidViewEnv(e) && swapChain != Null && !shouldRender
      modifies log, this`shouldRender, this`currentFrameBufferIndex, this`rtvHeap, this`rtvHeapStart, frameFenceValues, renderTargets
      ensures Valid()
      ensures var s1 := Wait(old(Fence()), Ready(), g1);
        (log.exited <==> ViewsExit(device != Null, true, e))
        && shouldRender == !log.exited
        && log.calls == old(log.calls) + WaitCalls(old(Fence()), Ready(), g1) + CleanupCalls(old(rtvHeap))
           + [ResizeBuffers(SwapChainBufferCount, frameBufferWidth, frameBufferHeight)]
           + ViewCalls(device != Null, true, e, rtvIncrement, PlatformCheckFailure(true))
           + (if log.exited then [] else WaitCalls(s1, Ready(), g2))
        && (!log.exited ==> Fence() == Wait(s1, Ready(), g2))
      ensures device == Null ==> rtvHeap == Null && rtvHeapStart == old(rtvHeapStart) && renderTargets[..] == ReleasedTargets(old(renderTargets[..]))
      ensures device != Null && ViewsComplete(e) ==> HoldsViews(e)
    {
      WaitForGPU(log, g1);
      RebuildViews(log, frameBufferWidth, frameBufferHeight, e);
      ViewCallsExit(device != Null, true, e, rtvIncrement, PlatformCheckFailure(true));
      if log.exited {
        return;
      }
      WaitForGPU(log, g2);
      shouldRender := true;
    }

    /** The middle of Resize: drop the views, resize the two buffers, recreate the views. */
    method RebuildViews(log: CallLog, width: nat, height: nat, e: ViewEnv)
      requires Valid() && !log.exited && ValidViewEnv(e)
      modifies log, this`rtvHeap, this`rtvHeapStart, renderTargets
      ensures log.calls == old(log.calls) + CleanupCalls(old(rtvHeap)) + [ResizeBuffers(SwapChainBufferCount, width, height)]
        + ViewCalls(device != Null, swapChain != Null, e, rtvIncrement, PlatformCheckFailure(true))
      ensures log.exited <==> ViewsExit(device != Null, swapChain != Null, e)
      ensures device == Null || swapChain == Null ==> rtvHeap == Null && rtvHeapStart == old(rtvHeapStart) && renderTargets[..] == ReleasedTargets(old(renderTargets[..]))
      ensures device != Null && swapChain != Null && ViewsComplete(e) ==> HoldsViews(e)
    {
      CleanupRenderTargetViews(log);
      log.Issue(ResizeBuffers(SwapChainBufferCount, width, height));
      CreateRenderTargetViews(log, e);
    }
  }
}
