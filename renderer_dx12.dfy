/** The older renderer (RendererDirectX12): the same fence and frame logic as the newer
    one, but it picks its adapter itself, checks with its own CheckHandle, builds the
    triangle's objects in its own setup steps and records the triangle draw inline, without
    a clear. */
module LegacyRenderer {
  import opened Calls
  import opened FrameSync
  import opened VertexLayout
  import opened Adapters

  /** What Initialize's steps are answered: factory creation, the factory cast and the
      adapters the factory enumerates, the device, the command interfaces, the swap chain,
      the view answers, the fence, and the four triangle objects. */
  datatype LegacySetup = LegacySetup(
    factoryCreated: bool, factory: Ptr, factory7Available: bool, adapters: seq<AdapterDesc>, device: Ptr,
    commandQueue: Ptr, commandAllocator: Ptr, commandList: Ptr, swapChain: Ptr,
    rtvIncrement: nat, views: ViewEnv, frameFence: Ptr,
    rootSignature: Ptr, vertexShader: Ptr, pixelShader: Ptr, pipeline: Ptr, vertexBuffer: Ptr)

  /** A failed check: the member CheckHandle with its crash flag on. */
  function Failure(): seq<Call> {
    MemberCheckFailure(true)
  }

  /** The calls of CreateDevice: create the factory (a failure is logged and ends the step),
      search for an adapter, create the device on the adapter the search left. */
  function DeviceCalls(s: LegacySetup, previousAdapter: Ptr): seq<Call> {
    [CreateFactory]
    + if !s.factoryCreated then [Fatal] else
      SearchCalls(s.factory7Available, s.adapters)
      + [CreateDeviceOn(AdapterAfterSearch(s.factory7Available, s.adapters, previousAdapter))]
      + if s.device == Null then [Fatal] else []
  }

  /** The four triangle setup steps, represented by the objects they leave. */
  function TriangleSteps(): seq<Call> {
    [Step(TriangleCreateRootSignature), Step(TriangleCompileShaders), Step(TriangleCreatePipelineState), Step(TriangleCreateVertexBuffer)]
  }

  /** Everything after the views: the fence, then the triangle. */
  function LateSetupCalls(s: LegacySetup): seq<Call> {
    FenceCalls(s.frameFence) + TriangleSteps()
  }

  /** The calls of one Initialize, up to its end or the first failed check. */
  function InitializeCalls(s: LegacySetup, previousAdapter: Ptr): seq<Call>
    requires ValidViewEnv(s.views)
  {
    DeviceCalls(s, previousAdapter) + [Step(CreateCommandInterfaces), Step(CreateSwapChain)]
    + ViewCalls(true, s.swapChain != Null, s.views, s.rtvIncrement, Failure())
    + if ViewsExit(true, s.swapChain != Null, s.views) then [] else LateSetupCalls(s)
  }

  /** The inline triangle draw: root signature, the whole vertex array with one vertex
      stride, triangle-list topology, one instance of three vertices. */
  function DrawCalls(signature: Ptr, vertexBuffer: Ptr): seq<Call> {
    [SetRootSignature(signature), VertexBufferView(vertexBuffer), SetTopology(TriangleList), DrawInstanced(3, 1, 0, 0)]
  }

  /** A frame of this renderer starts its command list with the triangle's pipeline state,
      holds exactly the barrier pair on the target, never clears, and draws inside the bound
      vertex buffer. */
  lemma RenderedFrame(pipeline: Ptr, signature: Ptr, vertexBuffer: Ptr, target: Ptr, descriptor: nat, width: nat, height: nat)
    ensures var frame := FrameCommands(pipeline, target, descriptor, false, width, height, DrawCalls(signature, vertexBuffer));
      frame[1] == ResetCommandList(pipeline)
      && Select(frame, IsBarrier) == [Barrier(target, Present, RenderTarget), Barrier(target, RenderTarget, Present)]
      && Select(frame, IsClear) == []
    ensures DrawsWithinBoundBuffer(DrawCalls(signature, vertexBuffer))
  {
    var draw := DrawCalls(signature, vertexBuffer);
    DrawContract(signature, vertexBuffer);
    FrameBarrierPair(pipeline, target, descriptor, false, width, height, draw);
    FrameClearsIffAsked(pipeline, target, descriptor, false, width, height, draw);
  }

  /** The triangle's draw calls hold no barrier and no clear, and draw inside the vertex
      buffer they bind. */
  lemma DrawContract(signature: Ptr, vertexBuffer: Ptr)
    ensures var cs := DrawCalls(signature, vertexBuffer);
      (forall k :: 0 <= k < |cs| ==> !cs[k].Barrier? && !cs[k].ClearRenderTarget?)
      && DrawsWithinBoundBuffer(cs)
  {
    var cs := DrawCalls(signature, vertexBuffer);
    assert cs[1].SetVertexBuffer? && cs[1].sizeInBytes / cs[1].strideInBytes == 3;
    assert forall j :: 0 <= j < |cs| && cs[j].DrawInstanced? ==> j == 3;
  }

  class RendererDirectX12 {
    var windowHandle: Ptr
    var frameBufferWidth: nat
    var frameBufferHeight: nat
    var dxgiFactory: Ptr
    var device: Ptr
    var adapter: Ptr
    var commandQueue: Ptr
    var commandAllocator: Ptr
    var commandList: Ptr
    var swapChain: Ptr
    var rtvHeap: Ptr
    /** The heap's first CPU handle and the device's RTV descriptor increment. */
    var rtvHeapStart: nat
    var rtvIncrement: nat
    const renderTargets: array<Ptr>
    var frameFence: Ptr
    const frameFenceValues: array<nat>
    var currentFrameBufferIndex: nat
    var frameCounter: nat
    var shouldRender: bool
    var triangleRootSignature: Ptr
    var triangleVertexShader: Ptr
    var trianglePixelShader: Ptr
    var trianglePipelineState: Ptr
    var triangleVertexBuffer: Ptr

    /** Two render targets and two fence values, an index naming one of them, a UINT frame
        counter. */
    predicate Valid()
      reads this
    {
      frameFenceValues.Length == SwapChainBufferCount
      && renderTargets.Length == SwapChainBufferCount
      && currentFrameBufferIndex < SwapChainBufferCount
      && frameCounter < UInt32Modulus
    }

    /** CurrentFrameBufferIndex and FrameFenceValues. */
    function Fence(): (r: FenceState)
      requires Valid()
      reads this, frameFenceValues
      ensures ValidFence(r) && r.index == currentFrameBufferIndex
    {
      FenceState(currentFrameBufferIndex, frameFenceValues[..])
    }

    /** The command queue and the frame fence both exist. */
    predicate Ready()
      reads this
    {
      commandQueue != Null && frameFence != Null
    }

    /** The heap, its first handle and every render target are those a complete
        CreateRenderTargetViews made from e: target i is swap-chain buffer i. */
    predicate HoldsViews(e: ViewEnv)
      requires Valid() && ValidViewEnv(e)
      reads this, renderTargets
    {
      rtvHeap == e.heap && rtvHeapStart == e.heapStart
      && forall i :: 0 <= i < SwapChainBufferCount ==> renderTargets[i] == e.buffers[i].buffer
    }

    /** Factory, device and adapter start null; the other members start as in the newer
        renderer's initializers. */
    constructor ()
      ensures Valid() && fresh(frameFenceValues) && fresh(renderTargets)
      ensures Fence() == InitialFence && frameCounter == 0 && shouldRender
      ensures dxgiFactory == Null && device == Null && adapter == Null
      ensures renderTargets[..] == [Null, Null] && rtvHeap == Null && swapChain == Null
      ensures commandQueue == Null && commandAllocator == Null && commandList == Null && frameFence == Null
    {
      windowHandle, frameBufferWidth, frameBufferHeight := Null, 0, 0;
      dxgiFactory, device, adapter := Null, Null, Null;
      commandQueue, commandAllocator, commandList, swapChain := Null, Null, Null, Null;
      rtvHeap, rtvHeapStart, rtvIncrement := Null, 0, 0;
      renderTargets := new Ptr[SwapChainBufferCount](_ => Null);
      frameFence := Null;
      frameFenceValues := new nat[SwapChainBufferCount](_ => 1);
      currentFrameBufferIndex, frameCounter, shouldRender := 0, 0, true;
      triangleRootSignature, triangleVertexShader, trianglePixelShader := Null, Null, Null;
      trianglePipelineState, triangleVertexBuffer := Null, Null;
      new;
      assert frameFenceValues[..] == [1, 1];
    }

    /** Nothing on success; on failure a fatal log line and a breakpoint, and a crash when
        asked to. */
    method CheckHandle(log: CallLog, succeeded: bool, shouldCrash: bool)
      requires !log.exited
      modifies log
      ensures log.calls == old(log.calls) + (if succeeded then [] else MemberCheckFailure(shouldCrash))
      ensures log.exited <==> !succeeded && shouldCrash
    {
      if !succeeded {
        log.Issue(Fatal);
        log.Issue(Breakpoint);
        if shouldCrash {
          log.Issue(Breakpoint);
          log.Halt();
        }
      }
    }

    /** Casts the factory (a failure is logged and leaves the adapter as it was), then
        enumerates adapters from index 0 until the enumeration runs out or a hardware
        adapter passes the probe, and stores the adapter the loop ended on. */
    method FindSuitableHardwareAdapter(log: CallLog, factory7Available: bool, adapters: seq<AdapterDesc>)
      requires !log.exited
      modifies log, this`adapter
      ensures log.calls == old(log.calls) + SearchCalls(factory7Available, adapters) && !log.exited
      ensures adapter == AdapterAfterSearch(factory7Available, adapters, old(adapter))
    {
      if !factory7Available {
        log.Issue(Fatal);
        return;
      }
      ghost var target := log.calls + EnumerationCalls(adapters, 0);
      var current := Null;
      var index := 0;
      while true
        invariant index <= |adapters| && !log.exited
        invariant log.calls + EnumerationCalls(adapters, index) == target
        invariant forall k :: 0 <= k < index ==> !Suitable(adapters[k])
        decreases |adapters| - index
      {
        ghost var before := log.calls;
        log.Issue(EnumAdapter(index));
        if index == |adapters| {
          current := Null;
          FirstSuitableIs(adapters, 0, index);
          break;
        }
        var description := adapters[index];
        current := description.handle;
        ghost var rest := EnumerationCalls(adapters, index + 1);
        if IsSoftware(description) {
          assert EnumerationCalls(adapters, index) == [EnumAdapter(index)] + rest;
          AppendAssoc(before, [EnumAdapter(index)], rest);
          index := index + 1;
          continue;
        }
        log.Issue(ProbeDevice(index));
        if description.supportsLevel12 {
          log.IssueAll([ReportAdapter(index), ReportPerformanceClass(TryToDeterminePerformanceClass(description.vendorId))]);
          FirstSuitableIs(adapters, 0, index);
          break;
        }
        assert EnumerationCalls(adapters, index) == [EnumAdapter(index), ProbeDevice(index)] + rest;
        AppendAssoc(before, [EnumAdapter(index), ProbeDevice(index)], rest);
        index := index + 1;
      }
      adapter := current;
    }

    /** Creates the factory, searches for an adapter and creates the device on it; a failed
        creation is logged and ends the step. */
    method CreateDevice(log: CallLog, s: LegacySetup)
      requires !log.exited
      modifies log, this`dxgiFactory, this`adapter, this`device
      ensures log.calls == old(log.calls) + DeviceCalls(s, old(adapter)) && !log.exited
      ensures s.factoryCreated ==> dxgiFactory == s.factory
      ensures device == if s.factoryCreated && s.device != Null then s.device else old(device)
      ensures adapter == if s.factoryCreated then AdapterAfterSearch(s.factory7Available, s.adapters, old(adapter)) else old(adapter)
    {
      log.Issue(CreateFactory);
      if !s.factoryCreated {
        log.Issue(Fatal);
        return;
      }
      dxgiFactory := s.factory;
      ghost var start := log.calls;
      FindSuitableHardwareAdapter(log, s.factory7Available, s.adapters);
      ghost var search := SearchCalls(s.factory7Available, s.adapters);
      ghost var rest := [CreateDeviceOn(adapter)] + if s.device == Null then [Fatal] else [];
      log.Issue(CreateDeviceOn(adapter));
      if s.device != Null {
        device := s.device;
      } else {
        log.Issue(Fatal);
      }
      AppendAssoc(start, search, rest);
    }

    /** Signals the current slot's fence value, adopts the swap chain's back-buffer index,
        blocks while the GPU has not reached that slot's value, and stores the signalled
        value plus one in that slot; an early return only logs. */
    method WaitForGPU(log: CallLog, g: GpuView)
      requires Valid() && !log.exited && ValidView(g)
      requires Ready() && g.signalSucceeds ==> swapChain != Null
      modifies log, this`currentFrameBufferIndex, frameFenceValues
      ensures Valid()
      ensures Fence() == Wait(old(Fence()), Ready(), g)
      ensures log.calls == old(log.calls) + WaitCalls(old(Fence()), Ready(), g) && !log.exited
    {
      if commandQueue == Null || frameFence == Null {
        log.Issue(Fatal);
        return;
      }
      var currentFenceValue := frameFenceValues[currentFrameBufferIndex];
      log.Issue(Signal(currentFenceValue));
      if !g.signalSucceeds || !g.swapChain3Available {
        log.Issue(Fatal);
        return;
      }
      currentFrameBufferIndex := g.backBufferIndex;
      var frameFenceValue := frameFenceValues[currentFrameBufferIndex];
      if g.completedValue < frameFenceValue {
        log.Issue(WaitForFence(frameFenceValue));
      }
      frameFenceValues[currentFrameBufferIndex] := currentFenceValue + 1;
    }

    /** Drops every render target and releases the descriptor heap; the fence values are
        not touched. */
    method CleanupRenderTargetViews(log: CallLog)
      requires Valid() && !log.exited
      modifies log, this`rtvHeap, renderTargets
      ensures renderTargets[..] == ReleasedTargets(old(renderTargets[..])) && rtvHeap == Null
      ensures log.calls == old(log.calls) + CleanupCalls(old(rtvHeap)) && !log.exited
    {
      var i := 0;
      while i < SwapChainBufferCount
        invariant 0 <= i <= SwapChainBufferCount
        invariant unchanged(log) && unchanged(this)
        invariant forall k :: 0 <= k < i ==> renderTargets[k] == Null
      {
        if renderTargets[i] != Null {
          renderTargets[i] := Null;
        }
        i := i + 1;
      }
      if rtvHeap != Null {
        log.Issue(Release(rtvHeap));
        rtvHeap := Null;
      }
    }

    /** Creates the two-descriptor heap and, for each buffer i, the view of swap-chain
        buffer i at heap start plus i increments; each creation is checked with the member
        CheckHandle. */
    method CreateRenderTargetViews(log: CallLog, e: ViewEnv)
      requires Valid() && !log.exited && ValidViewEnv(e)
      modifies log, this`rtvHeap, this`rtvHeapStart, renderTargets
      ensures log.calls == old(log.calls) + ViewCalls(device != Null, swapChain != Null, e, rtvIncrement, Failure())
      ensures log.exited <==> ViewsExit(device != Null, swapChain != Null, e)
      ensures device == Null || swapChain == Null ==>
        rtvHeap == old(rtvHeap) && rtvHeapStart == old(rtvHeapStart) && renderTargets[..] == old(renderTargets[..])
      ensures device != Null && swapChain != Null && ViewsComplete(e) ==> HoldsViews(e)
    {
      if device == Null || swapChain == Null {
        log.Issue(Fatal);
        return;
      }
      log.Issue(CreateDescriptorHeap(SwapChainBufferCount));
      rtvHeap := e.heap;
      CheckHandle(log, e.heapCreated, true);
      if log.exited {
        return;
      }
      rtvHeapStart := e.heapStart;
      CreateBufferViews(log, e);
    }

    /** The loop of CreateRenderTargetViews: buffer i of the swap chain becomes render
        target i, with its view at heap start plus i increments. */
    method CreateBufferViews(log: CallLog, e: ViewEnv)
      requires Valid() && !log.exited && ValidViewEnv(e) && rtvHeapStart == e.heapStart
      modifies log, renderTargets
      ensures log.calls == old(log.calls) + BufferViewCalls(e, rtvIncrement, Failure(), 0)
      ensures log.exited <==> exists k :: 0 <= k < SwapChainBufferCount && !e.buffers[k].succeeded
      ensures !log.exited ==> forall k :: 0 <= k < SwapChainBufferCount ==> renderTargets[k] == e.buffers[k].buffer
    {
      ghost var views := log.calls + BufferViewCalls(e, rtvIncrement, Failure(), 0);
      var i := 0;
      while i < SwapChainBufferCount
        invariant 0 <= i <= SwapChainBufferCount && !log.exited
        invariant log.calls + BufferViewCalls(e, rtvIncrement, Failure(), i) == views
        invariant forall k :: 0 <= k < i ==> e.buffers[k].succeeded && renderTargets[k] == e.buffers[k].buffer
        decreases SwapChainBufferCount - i
      {
        var buffer := e.buffers[i];
        log.Issue(GetBuffer(i));
        renderTargets[i] := buffer.buffer;
        CheckHandle(log, buffer.succeeded, true);
        if log.exited {
          return;
        }
        log.Issue(CreateRenderTargetView(buffer.buffer, RtvDescriptor(rtvHeapStart, i, rtvIncrement)));
        i := i + 1;
      }
    }

    /** Stores the window and the size, creates the device, the command interfaces and the
        swap chain, the views, the frame fence and the triangle's four objects, in that
        order.  The source dereferences the device unguarded, so it must be created. */
    method Initialize(log: CallLog, hwnd: Ptr, width: nat, height: nat, s: LegacySetup)
      requires Valid() && !log.exited && ValidViewEnv(s.views) && s.factoryCreated && s.device != Null
      modifies log, this`windowHandle, this`frameBufferWidth, this`frameBufferHeight
      modifies this`dxgiFactory, this`adapter, this`device, this`rtvIncrement
      modifies this`commandQueue, this`commandAllocator, this`commandList, this`swapChain
      modifies this`rtvHeap, this`rtvHeapStart, renderTargets, this`frameFence
      modifies this`triangleRootSignature, this`triangleVertexShader, this`trianglePixelShader
      modifies this`trianglePipelineState, this`triangleVertexBuffer
      ensures Valid()
      ensures windowHandle == hwnd && frameBufferWidth == width && frameBufferHeight == height
      ensures log.calls == old(log.calls) + InitializeCalls(s, old(adapter))
      ensures log.exited <==> ViewsExit(true, s.swapChain != Null, s.views)
      ensures device == s.device && adapter == AdapterAfterSearch(s.factory7Available, s.adapters, old(adapter))
      ensures !log.exited ==>
        commandQueue == s.commandQueue && commandAllocator == s.commandAllocator && commandList == s.commandList
        && swapChain == s.swapChain && frameFence == s.frameFence
        && triangleRootSignature == s.rootSignature && trianglePipelineState == s.pipeline
        && triangleVertexBuffer == s.vertexBuffer
      ensures rtvIncrement == s.rtvIncrement
      ensures s.swapChain == Null ==> rtvHeap == old(rtvHeap) && rtvHeapStart == old(rtvHeapStart) && renderTargets[..] == old(renderTargets[..])
      ensures !log.exited && s.swapChain != Null ==> HoldsViews(s.views)
    {
      windowHandle := hwnd;
      frameBufferWidth, frameBufferHeight := width, height;
      SetUp(log, s);
    }

    /** Initialize after the window and the size are stored: the creation steps and views,
        then, unless they ended the process, the fence and the triangle. */
    method SetUp(log: CallLog, s: LegacySetup)
      requires Valid() && !log.exited && ValidViewEnv(s.views) && s.factoryCreated && s.device != Null
      modifies log, this`dxgiFactory, this`adapter, this`device, this`rtvIncrement
      modifies this`commandQueue, this`commandAllocator, this`commandList, this`swapChain
      modifies this`rtvHeap, this`rtvHeapStart, renderTargets, this`frameFence
      modifies this`triangleRootSignature, this`triangleVertexShader, this`trianglePixelShader
      modifies this`trianglePipelineState, this`triangleVertexBuffer
      ensures Valid()
      ensures log.calls == old(log.calls) + InitializeCalls(s, old(adapter))
      ensures log.exited <==> ViewsExit(true, s.swapChain != Null, s.views)
      ensures device == s.device && adapter == AdapterAfterSearch(s.factory7Available, s.adapters, old(adapter))
      ensures !log.exited ==>
        commandQueue == s.commandQueue && commandAllocator == s.commandAllocator && commandList == s.commandList
        && swapChain == s.swapChain && frameFence == s.frameFence
        && triangleRootSignature == s.rootSignature && trianglePipelineState == s.pipeline
        && triangleVertexBuffer == s.vertexBuffer
      ensures rtvIncrement == s.rtvIncrement
      ensures s.swapChain == Null ==> rtvHeap == old(rtvHeap) && rtvHeapStart == old(rtvHeapStart) && renderTargets[..] == old(renderTargets[..])
      ensures !log.exited && s.swapChain != Null ==> HoldsViews(s.views)
    {
      ghost var start := log.calls;
      ghost var created := DeviceCalls(s, adapter) + [Step(CreateCommandInterfaces), Step(CreateSwapChain)];
      ghost var views := ViewCalls(true, s.swapChain != Null, s.views, s.rtvIncrement, Failure());
      CreateDeviceAndViews(log, s);
      if log.exited {
        return;
      }
      FinishInitialize(log, s);
      AppendAssoc(start, created + views, LateSetupCalls(s));
    }

    /** The part of Init up to the views: the device, the command interfaces and the swap
        chain, then the render target views on that swap chain. */
    method CreateDeviceAndViews(log: CallLog, s: LegacySetup)
      requires Valid() && !log.exited && ValidViewEnv(s.views) && s.factoryCreated && s.device != Null
      modifies log, this`dxgiFactory, this`adapter, this`device, this`rtvIncrement
      modifies this`commandQueue, this`commandAllocator, this`commandList, this`swapChain
      modifies this`rtvHeap, this`rtvHeapStart, renderTargets
      ensures Valid()
      ensures log.calls == old(log.calls) + (DeviceCalls(s, old(adapter)) + [Step(CreateCommandInterfaces), Step(CreateSwapChain)]
        + ViewCalls(true, s.swapChain != Null, s.views, s.rtvIncrement, Failure()))
      ensures log.exited <==> ViewsExit(true, s.swapChain != Null, s.views)
      ensures device == s.device && adapter == AdapterAfterSearch(s.factory7Available, s.adapters, old(adapter))
      ensures commandQueue == s.commandQueue && commandAllocator == s.commandAllocator
      ensures commandList == s.commandList && swapChain == s.swapChain
      ensures rtvIncrement == s.rtvIncrement
      ensures s.swapChain == Null ==> rtvHeap == old(rtvHeap) && rtvHeapStart == old(rtvHeapStart) && renderTargets[..] == old(renderTargets[..])
      ensures s.swapChain != Null && ViewsComplete(s.views) ==> HoldsViews(s.views)
    {
      ghost var start := log.calls;
      ghost var created := DeviceCalls(s, adapter) + [Step(CreateCommandInterfaces), Step(CreateSwapChain)];
      CreateDeviceAndInterfaces(log, s);
      CreateRenderTargetViews(log, s.views);
      AppendAssoc(start, created, ViewCalls(true, s.swapChain != Null, s.views, s.rtvIncrement, Failure()));
    }

    /** The first three steps of Initialize: the device, then the command interfaces and
        the swap chain. */
    method CreateDeviceAndInterfaces(log: CallLog, s: LegacySetup)
      requires !log.exited && s.factoryCreated && s.device != Null
      modifies log, this`dxgiFactory, this`adapter, this`device, this`rtvIncrement
      modifies this`commandQueue, this`commandAllocator, this`commandList, this`swapChain
      ensures log.calls == old(log.calls) + (DeviceCalls(s, old(adapter)) + [Step(CreateCommandInterfaces), Step(CreateSwapChain)])
      ensures !log.exited
      ensures device == s.device && adapter == AdapterAfterSearch(s.factory7Available, s.adapters, old(adapter))
      ensures rtvIncrement == s.rtvIncrement && commandQueue == s.commandQueue && commandAllocator == s.commandAllocator
      ensures commandList == s.commandList && swapChain == s.swapChain
    {
      ghost var start := log.calls;
      CreateDevice(log, s);
      CreateInterfaces(log, s);
      AppendAssoc(start, DeviceCalls(s, old(adapter)), [Step(CreateCommandInterfaces), Step(CreateSwapChain)]);
    }

    /** CreateCommandInterfaces and CreateSwapChain, represented by the handles they
        leave. */
    method CreateInterfaces(log: CallLog, s: LegacySetup)
      requires !log.exited
      modifies log, this`rtvIncrement, this`commandQueue, this`commandAllocator, this`commandList, this`swapChain
      ensures log.calls == old(log.calls) + [Step(CreateCommandInterfaces), Step(CreateSwapChain)] && !log.exited
      ensures rtvIncrement == s.rtvIncrement && commandQueue == s.commandQueue && commandAllocator == s.commandAllocator
      ensures commandList == s.commandList && swapChain == s.swapChain
    {
      log.IssueAll([Step(CreateCommandInterfaces), Step(CreateSwapChain)]);
      rtvIncrement, commandQueue, commandAllocator, commandList := s.rtvIncrement, s.commandQueue, s.commandAllocator, s.commandList;
      swapChain := s.swapChain;
    }

    /** The part of Initialize after the views: the frame fence, then the four triangle
        steps. */
    method FinishInitialize(log: CallLog, s: LegacySetup)
      requires !log.exited && device != Null
      modifies log, this`frameFence, this`triangleRootSignature, this`triangleVertexShader, this`trianglePixelShader
      modifies this`trianglePipelineState, this`triangleVertexBuffer
      ensures log.calls == old(log.calls) + LateSetupCalls(s) && !log.exited
      ensures frameFence == s.frameFence && triangleRootSignature == s.rootSignature
      ensures trianglePipelineState == s.pipeline && triangleVertexBuffer == s.vertexBuffer
    {
      log.Issue(Step(Calls.CreateFrameFence));
      frameFence := s.frameFence;
      if frameFence == Null {
        log.Issue(Fatal);
      }
      log.IssueAll(TriangleSteps());
      triangleRootSignature, triangleVertexShader, trianglePixelShader := s.rootSignature, s.vertexShader, s.pixelShader;
      trianglePipelineState, triangleVertexBuffer := s.pipeline, s.vertexBuffer;
    }

    /** When rendering is on: wait, record the frame for the slot the wait adopted, starting
        the command list with the triangle's pipeline state and drawing inline, execute,
        present, wait again and count the frame; when it is off, nothing happens. */
    method Render(log: CallLog, g1: GpuView, g2: GpuView)
      requires Valid() && !log.exited && ValidView(g1) && ValidView(g2)
      requires shouldRender ==>
        commandAllocator != Null && commandList != Null && rtvHeap != Null && device != Null
        && commandQueue != Null && swapChain != Null && triangleVertexBuffer != Null
      modifies log, this`currentFrameBufferIndex, this`frameCounter, frameFenceValues
      ensures Valid() && !log.exited
      ensures !old(shouldRender) ==>
        log.calls == old(log.calls) && Fence() == old(Fence()) && frameCounter == old(frameCounter)
      ensures old(shouldRender) ==>
        var s1 := Wait(old(Fence()), Ready(), g1);
        Fence() == Wait(s1, Ready(), g2)
        && frameCounter == (old(frameCounter) + 1) % UInt32Modulus
        && log.calls == old(log.calls) + WaitCalls(old(Fence()), Ready(), g1)
           + FrameCommands(trianglePipelineState, renderTargets[s1.index], RtvDescriptor(rtvHeapStart, s1.index, rtvIncrement),
                           false, frameBufferWidth, frameBufferHeight, DrawCalls(triangleRootSignature, triangleVertexBuffer))
           + WaitCalls(s1, Ready(), g2)
    {
      if !shouldRender {
        return;
      }
      ghost var s0 := Fence();
      WaitForGPU(log, g1);
      ghost var s1 := Fence();
      assert s1 == Wait(s0, Ready(), g1);
      RecordFrame(log);
      ghost var framed := log.calls;
      WaitForGPU(log, g2);
      assert log.calls == framed + WaitCalls(s1, Ready(), g2);
      frameCounter := (frameCounter + 1) % UInt32Modulus;
    }

    /** Render's commands between its two waits, for the current slot. */
    method RecordFrame(log: CallLog)
      requires Valid() && !log.exited
      modifies log
      ensures !log.exited
      ensures log.calls == old(log.calls)
        + FrameCommands(trianglePipelineState, renderTargets[currentFrameBufferIndex],
                        RtvDescriptor(rtvHeapStart, currentFrameBufferIndex, rtvIncrement),
                        false, frameBufferWidth, frameBufferHeight, DrawCalls(triangleRootSignature, triangleVertexBuffer))
    {
      var target := renderTargets[currentFrameBufferIndex];
      var rtvHandle := RtvDescriptor(rtvHeapStart, currentFrameBufferIndex, rtvIncrement);
      var width, height, pipeline, signature, vertexBuffer := frameBufferWidth, frameBufferHeight, trianglePipelineState, triangleRootSignature, triangleVertexBuffer;
      log.IssueAll([ResetCommandAllocator, ResetCommandList(pipeline), Barrier(target, Present, RenderTarget), SetRenderTarget(rtvHandle)]);
      log.IssueAll([SetViewport, SetScissor(0, 0, width, height)]);
      log.IssueAll([SetRootSignature(signature), VertexBufferView(vertexBuffer), SetTopology(TriangleList), DrawInstanced(3, 1, 0, 0)]);
      log.IssueAll([Barrier(target, RenderTarget, Present), CloseCommandList, ExecuteCommandList, PresentFrame(1, 0)]);
    }

    /** Unless the swap chain is missing (logged) or the size is unchanged, stores the new
        size with rendering off, waits, drops the views, resizes the two buffers, recreates
        the views, waits again and turns rendering back on. */
    method Resize(log: CallLog, width: nat, height: nat, g1: GpuView, e: ViewEnv, g2: GpuView)
      requires Valid() && !log.exited && ValidView(g1) && ValidView(g2) && ValidViewEnv(e)
      modifies log, this`frameBufferWidth, this`frameBufferHeight, this`shouldRender, this`currentFrameBufferIndex,
        this`rtvHeap, this`rtvHeapStart, frameFenceValues, renderTargets
      ensures Valid()
      ensures swapChain == Null ==>
        log.calls == old(log.calls) + [Fatal] && !log.exited && shouldRender == old(shouldRender)
        && frameBufferWidth == old(frameBufferWidth) && frameBufferHeight == old(frameBufferHeight) && Fence() == old(Fence())
        && rtvHeap == old(rtvHeap) && rtvHeapStart == old(rtvHeapStart) && renderTargets[..] == old(renderTargets[..])
      ensures swapChain != Null && width == old(frameBufferWidth) && height == old(frameBufferHeight) ==>
        log.calls == old(log.calls) && !log.exited && shouldRender == old(shouldRender) && Fence() == old(Fence())
        && frameBufferWidth == width && frameBufferHeight == height && rtvHeap == old(rtvHeap) && rtvHeapStart == old(rtvHeapStart) && renderTargets[..] == old(renderTargets[..])
      ensures swapChain != Null && (width != old(frameBufferWidth) || height != old(frameBufferHeight)) ==>
        var s1 := Wait(old(Fence()), Ready(), g1);
        frameBufferWidth == width && frameBufferHeight == height
        && (log.exited <==> ViewsExit(device != Null, true, e))
        && shouldRender == !log.exited
        && log.calls == old(log.calls) + WaitCalls(old(Fence()), Ready(), g1) + CleanupCalls(old(rtvHeap))
           + [ResizeBuffers(SwapChainBufferCount, width, height)]
           + ViewCalls(device != Null, true, e, rtvIncrement, Failure())
           + (if log.exited then [] else WaitCalls(s1, Ready(), g2))
        && (!log.exited ==> Fence() == Wait(s1, Ready(), g2))
      ensures swapChain != Null && (width != old(frameBufferWidth) || height != old(frameBufferHeight)) ==>
        (device == Null ==> rtvHeap == Null && rtvHeapStart == old(rtvHeapStart) && renderTargets[..] == ReleasedTargets(old(renderTargets[..])))
        && (device != Null && ViewsComplete(e) ==> HoldsViews(e))
    {
      if swapChain == Null {
        log.Issue(Fatal);
        return;
      }
      if width == frameBufferWidth && height == frameBufferHeight {
        return;
      }
      shouldRender := false;
      frameBufferWidth, frameBufferHeight := width, height;
      Reconfigure(log, g1, e, g2);
    }

    /** Resize once the new size is stored: wait, rebuild the views for that size, and when
        that passes, wait again and turn rendering back on. */
    method Reconfigure(log: CallLog, g1: GpuView, e: ViewEnv, g2: GpuView)
      requires Valid() && !log.exited && ValidView(g1) && ValidView(g2) && ValidViewEnv(e) && swapChain != Null && !shouldRender
      modifies log, this`shouldRender, this`currentFrameBufferIndex, this`rtvHeap, this`rtvHeapStart, frameFenceValues, renderTargets
      ensures Valid()
      ensures var s1 := Wait(old(Fence()), Ready(), g1);
        (log.exited <==> ViewsExit(device != Null, true, e))
        && shouldRender == !log.exited
        && log.calls == old(log.calls) + WaitCalls(old(Fence()), Ready(), g1) + CleanupCalls(old(rtvHeap))
           + [ResizeBuffers(SwapChainBufferCount, frameBufferWidth, frameBufferHeight)]
           + ViewCalls(device != Null, true, e, rtvIncrement, Failure())
           + (if log.exited then [] else WaitCalls(s1, Ready(), g2))
        && (!log.exited ==> Fence() == Wait(s1, Ready(), g2))
      ensures device == Null ==> rtvHeap == Null && rtvHeapStart == old(rtvHeapStart) && renderTargets[..] == ReleasedTargets(old(renderTargets[..]))
      ensures device != Null && ViewsComplete(e) ==> HoldsViews(e)
    {
      WaitForGPU(log, g1);
      RebuildViews(log, frameBufferWidth, frameBufferHeight, e);
      ViewCallsExit(device != Null, true, e, rtvIncrement, Failure());
      if log.exited {
        return;
      }
      WaitForGPU(log, g2);
      shouldRender := true;
    }

    /** The middle of Resize: drop the views, resize the two buffers, recreate the views. */
    method RebuildViews(log: CallLog, width: nat, height: nat, e: ViewEnv)
      requires Valid() && !log.exited && ValidViewEnv(e)
      modifies log, this`rtvHeap, this`rtvHeapStart, renderTargets
      ensures log.calls == old(log.calls) + CleanupCalls(old(rtvHeap)) + [ResizeBuffers(SwapChainBufferCount, width, height)]
        + ViewCalls(device != Null, swapChain != Null, e, rtvIncrement, Failure())
      ensures log.exited <==> ViewsExit(device != Null, swapChain != Null, e)
      ensures device == Null || swapChain == Null ==> rtvHeap == Null && rtvHeapStart == old(rtvHeapStart) && renderTargets[..] == ReleasedTargets(old(renderTargets[..]))
      ensures device != Null && swapChain != Null && ViewsComplete(e) ==> HoldsViews(e)
    {
      CleanupRenderTargetViews(log);
      log.Issue(ResizeBuffers(SwapChainBufferCount, width, height));
      CreateRenderTargetViews(log, e);
    }
  }
}
