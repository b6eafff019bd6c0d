/** The calls the renderer, its entities and its scene issue to Direct3D 12, DXGI, the
    logger and the process, recorded in the order they are made.  Direct3D objects are
    opaque references; the GPU itself is the environment. */
module Calls {

  /** A COM pointer or raw object pointer: null, or some object identity. */
  datatype Ptr = Null | Obj(id: nat)

  /** Resource states a swap-chain buffer moves between. */
  datatype ResourceState = Present | RenderTarget

  datatype Topology = TriangleList

  datatype ShaderStage = VertexStage | PixelStage

  /** A root parameter of a root signature; only constant-buffer views occur. */
  datatype RootParameter = ConstantBufferView(shaderRegister: nat, registerSpace: nat)

  /** Vertex element formats used by the triangle's input layout. */
  datatype Format = R32G32B32Float | R32G32B32A32Float

  /** One element of an input layout: semantic name, format and byte offset. */
  datatype InputElement = InputElement(semantic: string, format: Format, offset: nat)

  /** What Direct3D answers to one creating call. */
  datatype Creation = Creation(succeeded: bool, handle: Ptr)

  /** A successful creation yields an object. */
  predicate Sound(c: Creation) {
    c.succeeded ==> c.handle != Null
  }

  /** Initialization steps whose internals are represented only by the handles they produce. */
  datatype SetupStep =
    | CreateDevice
    | CreateCommandInterfaces
    | CreateSwapChain
    | CreateFrameFence
    | TriangleCreateRootSignature
    | TriangleCompileShaders
    | TriangleCreatePipelineState
    | TriangleCreateVertexBuffer

  /** How fast an adapter is taken to be, judged from its vendor. */
  datatype GPUPerformanceClass = Unknown | Integrated | Dedicated

  datatype Call =
    // command queue and fence
    | Signal(value: nat)
    | WaitForFence(value: nat)
    | ExecuteCommandList
    // command allocator and command list
    | ResetCommandAllocator
    | ResetCommandList(initialPipeline: Ptr)
    | Barrier(resource: Ptr, before: ResourceState, after: ResourceState)
    | SetRenderTarget(descriptor: nat)
    | ClearRenderTarget(descriptor: nat)
    | SetViewport
    | SetScissor(left: nat, top: nat, right: nat, bottom: nat)
    | SetPipelineState(pipeline: Ptr)
    | SetRootSignature(signature: Ptr)
    | SetVertexBuffer(buffer: Ptr, sizeInBytes: nat, strideInBytes: nat)
    | SetRootConstantBufferView(parameterIndex: nat, buffer: Ptr)
    | SetTopology(topology: Topology)
    | DrawInstanced(vertexCount: nat, instanceCount: nat, startVertex: nat, startInstance: nat)
    | CloseCommandList
    // swap chain and render-target views
    | PresentFrame(syncInterval: nat, flags: nat)
    | ResizeBuffers(bufferCount: nat, width: nat, height: nat)
    | CreateDescriptorHeap(descriptorCount: nat)
    | GetBuffer(index: nat)
    | CreateRenderTargetView(resource: Ptr, descriptor: nat)
    | Release(handle: Ptr)
    // factory, adapters and device
    | CreateFactory
    | EnumAdapter(index: nat)
    | ProbeDevice(index: nat)
    | ReportAdapter(index: nat)
    | ReportPerformanceClass(performanceClass: GPUPerformanceClass)
    | CreateDeviceOn(adapter: Ptr)
    // entity resources
    | SerializeRootSignature(parameters: seq<RootParameter>, staticSamplers: nat)
    | CreateRootSignature(blob: Ptr)
    | CompileShader(stage: ShaderStage)
    | LoadShader(stage: ShaderStage)
    | CreatePipelineState(signature: Ptr, vertexShader: Ptr, pixelShader: Ptr, layout: seq<InputElement>)
    | CreateCommittedResource(sizeInBytes: nat)
    | MapBuffer(buffer: Ptr)
    | UnmapBuffer(buffer: Ptr)
    | DeleteBlob(blob: Ptr)
    // scene callbacks into entities
    | EntityResourceCreate(entity: Ptr, device: Ptr)
    | EntityUpdate(entity: Ptr, frame: nat)
    | EntityRender(entity: Ptr, commandList: Ptr)
    // renderer entry points without a body in the model
    | BeginFrame
    | EndFrame(frame: nat, commandList: Ptr)
    | DeleteRenderer
    | Step(step: SetupStep)
    // diagnostics and process
    | Fatal
    | Breakpoint
    | Exit

  /** Platform::CheckHandle on a failed HRESULT: a fatal log line, then, when asked to
      crash, TriggerCrash (a breakpoint and process exit). */
  function PlatformCheckFailure(shouldCrash: bool): (r: seq<Call>)
    ensures Exit in r <==> shouldCrash
  {
    [Fatal] + if shouldCrash then [Breakpoint, Exit] else []
  }

  /** The legacy renderer's and the legacy entity's own CheckHandle on a failed HRESULT: a
      fatal log line and a breakpoint, then, when asked to crash, TriggerCrash. */
  function MemberCheckFailure(shouldCrash: bool): (r: seq<Call>)
    ensures Exit in r <==> shouldCrash
  {
    [Fatal, Breakpoint] + if shouldCrash then [Breakpoint, Exit] else []
  }

  /** Concatenation regroups; used to match a method's log against a nested call sequence. */
  lemma AppendAssoc(a: seq<Call>, b: seq<Call>, c: seq<Call>)
    ensures a + (b + c) == a + b + c
  {
  }

  /** The ordered record of issued calls, and whether the process has exited. */
  class CallLog {
    var calls: seq<Call>
    var exited: bool

    constructor ()
      ensures calls == [] && !exited
    {
      calls := [];
      exited := false;
    }

    method Issue(c: Call)
      requires !exited
      modifies this
      ensures calls == old(calls) + [c] && !exited
    {
      calls := calls + [c];
    }

    method IssueAll(cs: seq<Call>)
      requires !exited
      modifies this
      ensures calls == old(calls) + cs && !exited
    {
      calls := calls + cs;
    }

    /** Platform::Halt: the process ends; nothing is issued afterwards. */
    method Halt()
      requires !exited
      modifies this
      ensures calls == old(calls) + [Exit] && exited
    {
      calls := calls + [Exit];
      exited := true;
    }
  }

  /** A fatal log line, then Platform::TriggerCrash: a breakpoint and process exit. */
  method FatalCrash(log: CallLog)
    requires !log.exited
    modifies log
    ensures log.calls == old(log.calls) + PlatformCheckFailure(true) && log.exited
  {
    log.Issue(Fatal);
    log.Issue(Breakpoint);
    log.Halt();
  }

  /** Platform::CheckHandle(result, message, shouldCrash). */
  method PlatformCheckHandle(log: CallLog, succeeded: bool, shouldCrash: bool)
    requires !log.exited
    modifies log
    ensures log.calls == old(log.calls) + (if succeeded then [] else PlatformCheckFailure(shouldCrash))
    ensures log.exited <==> !succeeded && shouldCrash
  {
    if !succeeded {
      log.Issue(Fatal);
      if shouldCrash {
        log.Issue(Breakpoint);
        log.Halt();
      }
    }
  }
}
