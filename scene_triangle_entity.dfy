/** The newer triangle entity (namespace Scene::Entities): besides the legacy entity's
    resources it owns one constant buffer per back buffer, which it maps, updates and binds
    for the back buffer being rendered; it checks each creation with Platform::CheckHandle. */
module SceneEntities {
  import opened Calls
  import opened VertexLayout
  import opened Metadata

  /** Size of the per-entity constant-buffer array. */
  const ConstantBufferSlots: nat := 2

  /** What loading one precompiled shader meets: whether the file is there, whether it
      opens and reads in full, whether D3DCreateBlob succeeds, and the blob it creates. */
  datatype ShaderLoad = ShaderLoad(present: bool, opens: bool, readFully: bool, blobCreated: bool, blob: Ptr)

  /** The answers to the calls of OnResourceCreate; the two shaders are loaded from files
      already compiled, and constantBuffers are the objects CreateCommittedResource gives
      slot by slot. */
  datatype ResourceSetup = ResourceSetup(
    serialized: Creation, signature: Creation,
    vertexShader: ShaderLoad, pixelShader: ShaderLoad,
    pipeline: Creation,
    vertexBuffer: Creation, mapped: bool,
    constantBuffers: seq<Ptr>)

  function Failure(): seq<Call> {
    PlatformCheckFailure(true)
  }

  /** Root parameter 0 is the one constant-buffer view, register b0 in space 0; there are
      no static samplers. */
  const RootParameters: seq<RootParameter> := [ConstantBufferView(0, 0)]
  const StaticSamplerCount: nat := 0

  function RootSignatureCalls(s: ResourceSetup): seq<Call> {
    [SerializeRootSignature(RootParameters, StaticSamplerCount)]
    + if !s.serialized.succeeded then Failure() else
      [CreateRootSignature(s.serialized.handle)]
      + if !s.signature.succeeded then Failure() else []
  }

  predicate RootSignatureCreated(s: ResourceSetup) {
    s.serialized.succeeded && s.signature.succeeded
  }

  /** Platform::FileExist answers true when the file is MISSING; LoadShaderByteCode tests
      it without negation, so the two inversions cancel and a missing file is fatal. */
  function FileExist(present: bool): bool {
    !present
  }

  /** Tools::LoadShaderByteCode: a missing file, a failed open or a short read in
      LoadFileIntoBuffer, or a failed D3DCreateBlob each log a fatal line and crash, so the
      first of them ends the process. */
  function LoadShaderCalls(stage: ShaderStage, l: ShaderLoad): seq<Call> {
    [LoadShader(stage)]
    + if FileExist(l.present) then Failure()
      else if !l.opens then Failure()
      else if !l.readFully then Failure()
      else if !l.blobCreated then Failure()
      else []
  }

  predicate ShaderLoaded(l: ShaderLoad) {
    l.present && l.opens && l.readFully && l.blobCreated
  }

  /** A load either succeeds with only its own call, or ends with the crash; a missing
      file is one of the failures. */
  lemma LoadShaderOutcome(stage: ShaderStage, l: ShaderLoad)
    ensures ShaderLoaded(l) ==> LoadShaderCalls(stage, l) == [LoadShader(stage)]
    ensures !ShaderLoaded(l) ==> LoadShaderCalls(stage, l) == [LoadShader(stage), Fatal, Breakpoint, Exit]
    ensures Exit in LoadShaderCalls(stage, l) <==> !ShaderLoaded(l)
    ensures !l.present ==> Exit in LoadShaderCalls(stage, l)
  {
  }

  /** The vertex shader, then, when it loaded, the pixel shader. */
  function ShaderCalls(s: ResourceSetup): seq<Call> {
    LoadShaderCalls(VertexStage, s.vertexShader)
    + if !ShaderLoaded(s.vertexShader) then [] else LoadShaderCalls(PixelStage, s.pixelShader)
  }

  predicate ShadersLoaded(s: ResourceSetup) {
    ShaderLoaded(s.vertexShader) && ShaderLoaded(s.pixelShader)
  }

  function PipelineCalls(s: ResourceSetup): seq<Call> {
    [CreatePipelineState(s.signature.handle, s.vertexShader.blob, s.pixelShader.blob, InputLayout)]
    + if !s.pipeline.succeeded then Failure() else []
  }

  function VertexBufferCalls(s: ResourceSetup): seq<Call> {
    [CreateCommittedResource(VerticesSize)]
    + if !s.vertexBuffer.succeeded then Failure() else
      [MapBuffer(s.vertexBuffer.handle)]
      + if !s.mapped then Failure() else [UnmapBuffer(s.vertexBuffer.handle)]
  }

  predicate VertexBufferFilled(s: ResourceSetup) {
    s.vertexBuffer.succeeded && s.mapped
  }

  /** One unchecked constant-buffer creation per back buffer. */
  function ConstantBufferCalls(count: nat): (r: seq<Call>)
    ensures |r| == count && forall i :: 0 <= i < count ==> r[i] == CreateCommittedResource(ConstantBufferPayloadSize)
  {
    seq(count, _ => CreateCommittedResource(ConstantBufferPayloadSize))
  }

  predicate ResourcesCreated(s: ResourceSetup) {
    RootSignatureCreated(s) && ShadersLoaded(s) && s.pipeline.succeeded && VertexBufferFilled(s)
  }

  /** OnResourceCreate: root signature, shaders, pipeline state, vertex buffer, constant
      buffers; each creation method runs only when the ones before it passed their checks. */
  function ResourceCreateCalls(s: ResourceSetup, backBufferCount: nat): seq<Call> {
    RootSignatureCalls(s)
    + if !RootSignatureCreated(s) then [] else
      ShaderCalls(s)
      + if !ShadersLoaded(s) then [] else
      PipelineCalls(s)
      + if !s.pipeline.succeeded then [] else
        VertexBufferCalls(s)
        + if !VertexBufferFilled(s) then [] else ConstantBufferCalls(backBufferCount)
  }

  /** The commands OnRender records after updating the constant buffer of the current back
      buffer: pipeline state, root signature, vertex buffer, that constant buffer as root
      parameter 0, triangle-list topology, one instance of three vertices. */
  function DrawCalls(pipeline: Ptr, signature: Ptr, vertexBuffer: Ptr, constantBuffer: Ptr): seq<Call> {
    [SetPipelineState(pipeline), SetRootSignature(signature), VertexBufferView(vertexBuffer),
     SetRootConstantBufferView(0, constantBuffer), SetTopology(TriangleList), DrawInstanced(3, 1, 0, 0)]
  }

  function RenderCalls(pipeline: Ptr, signature: Ptr, vertexBuffer: Ptr, constantBuffer: Ptr): seq<Call> {
    [MapBuffer(constantBuffer), UnmapBuffer(constantBuffer)] + DrawCalls(pipeline, signature, vertexBuffer, constantBuffer)
  }

  /** A fully successful creation issues its calls in the source's order with the pipeline
      state consuming the root signature and both shader blobs, and one constant buffer per
      back buffer; a failed check ends the sequence with process exit, and only then. */
  lemma ResourceCreateOrder(s: ResourceSetup, backBufferCount: nat)
    ensures ResourcesCreated(s) ==>
      ResourceCreateCalls(s, backBufferCount) == [
        SerializeRootSignature([ConstantBufferView(0, 0)], 0), CreateRootSignature(s.serialized.handle),
        LoadShader(VertexStage), LoadShader(PixelStage),
        CreatePipelineState(s.signature.handle, s.vertexShader.blob, s.pixelShader.blob, InputLayout),
        CreateCommittedResource(VerticesSize), MapBuffer(s.vertexBuffer.handle), UnmapBuffer(s.vertexBuffer.handle)]
        + ConstantBufferCalls(backBufferCount)
    ensures Exit in ResourceCreateCalls(s, backBufferCount) <==> !ResourcesCreated(s)
    ensures !ResourcesCreated(s) ==> ResourceCreateCalls(s, backBufferCount)[|ResourceCreateCalls(s, backBufferCount)| - 1] == Exit
  {
    LoadShaderOutcome(VertexStage, s.vertexShader);
    LoadShaderOutcome(PixelStage, s.pixelShader);
    assert Exit !in ConstantBufferCalls(backBufferCount);
  }

  /** OnRender touches exactly one constant buffer, the one it is given, and binds it as
      root parameter 0, which is the root signature's single constant-buffer view; the draw
      issues no barrier and no clear and stays inside the bound vertex buffer. */
  lemma RenderContract(pipeline: Ptr, signature: Ptr, vertexBuffer: Ptr, constantBuffer: Ptr)
    ensures var cs := RenderCalls(pipeline, signature, vertexBuffer, constantBuffer);
      (forall k :: 0 <= k < |cs| && (cs[k].MapBuffer? || cs[k].UnmapBuffer?) ==> cs[k].buffer == constantBuffer)
      && (forall k :: 0 <= k < |cs| && cs[k].SetRootConstantBufferView? ==>
            cs[k].buffer == constantBuffer && cs[k].parameterIndex < |RootParameters|
            && RootParameters[cs[k].parameterIndex].ConstantBufferView?)
      && (forall k :: 0 <= k < |cs| ==> !cs[k].Barrier? && !cs[k].ClearRenderTarget?)
      && DrawsWithinBoundBuffer(cs)
  {
    var cs := RenderCalls(pipeline, signature, vertexBuffer, constantBuffer);
    assert cs[4].SetVertexBuffer? && cs[4].sizeInBytes / cs[4].strideInBytes == 3;
    assert forall j :: 0 <= j < |cs| && cs[j].DrawInstanced? ==> j == 7;
  }

  /** Tools::LoadShaderByteCode: checks that the file is there, reads it into a buffer,
      creates a blob of its size and copies the bytes into it; the blob is written through
      the out-pointer once D3DCreateBlob has run. */
  method LoadShaderByteCode(log: CallLog, stage: ShaderStage, l: ShaderLoad) returns (byteCode: Ptr)
    requires !log.exited
    modifies log
    ensures log.calls == old(log.calls) + LoadShaderCalls(stage, l)
    ensures log.exited <==> !ShaderLoaded(l)
    ensures !log.exited ==> byteCode == l.blob
  {
    log.Issue(LoadShader(stage));
    byteCode := Null;
    if FileExist(l.present) {
      FatalCrash(log);
      return;
    }
    if !l.opens {
      FatalCrash(log);
      return;
    }
    if !l.readFully {
      FatalCrash(log);
      return;
    }
    byteCode := l.blob;
    if !l.blobCreated {
      FatalCrash(log);
    }
  }

  class TriangleEntity {
    var frame: nat
    var vertexShaderBlob: Ptr
    var pixelShaderBlob: Ptr
    var rootSignature: Ptr
    var pipelineState: Ptr
    var vertexBuffer: Ptr
    const constantBuffers: array<Ptr>

    predicate Valid()
      reads this
    {
      constantBuffers.Length == ConstantBufferSlots
    }

    constructor ()
      ensures Valid() && fresh(constantBuffers)
      ensures frame == 0 && constantBuffers[..] == [Null, Null]
      ensures vertexShaderBlob == Null && pixelShaderBlob == Null
      ensures rootSignature == Null && pipelineState == Null && vertexBuffer == Null
    {
      frame := 0;
      vertexShaderBlob, pixelShaderBlob := Null, Null;
      rootSignature, pipelineState, vertexBuffer := Null, Null, Null;
      constantBuffers := new Ptr[ConstantBufferSlots](_ => Null);
    }

    /** Stores the frame number; nothing else changes. */
    method OnUpdate(f: nat)
      modifies this`frame
      ensures frame == f
    {
      frame := f;
    }

    method CreateRootSignature(log: CallLog, device: Ptr, s: ResourceSetup)
      requires !log.exited && device != Null
      modifies log, this`rootSignature
      ensures log.calls == old(log.calls) + RootSignatureCalls(s)
      ensures log.exited <==> !RootSignatureCreated(s)
      ensures !log.exited ==> rootSignature == s.signature.handle
    {
      log.Issue(SerializeRootSignature(RootParameters, StaticSamplerCount));
      PlatformCheckHandle(log, s.serialized.succeeded, true);
      if log.exited { return; }
      log.Issue(Call.CreateRootSignature(s.serialized.handle));
      rootSignature := s.signature.handle;
      PlatformCheckHandle(log, s.signature.succeeded, true);
    }

    /** The vertex shader, then the pixel shader; a failed load ends the process. */
    method CreateShaders(log: CallLog, s: ResourceSetup)
      requires !log.exited
      modifies log, this`vertexShaderBlob, this`pixelShaderBlob
      ensures log.calls == old(log.calls) + ShaderCalls(s)
      ensures log.exited <==> !ShadersLoaded(s)
      ensures !log.exited ==> vertexShaderBlob == s.vertexShader.blob && pixelShaderBlob == s.pixelShader.blob
    {
      vertexShaderBlob := LoadShaderByteCode(log, VertexStage, s.vertexShader);
      if log.exited { return; }
      pixelShaderBlob := LoadShaderByteCode(log, PixelStage, s.pixelShader);
    }

    method CreatePipelineState(log: CallLog, device: Ptr, s: ResourceSetup)
      requires !log.exited && device != Null
      requires rootSignature == s.signature.handle && vertexShaderBlob == s.vertexShader.blob && pixelShaderBlob == s.pixelShader.blob
      modifies log, this`pipelineState
      ensures log.calls == old(log.calls) + PipelineCalls(s)
      ensures log.exited <==> !s.pipeline.succeeded
      ensures pipelineState == s.pipeline.handle
    {
      log.Issue(Call.CreatePipelineState(rootSignature, vertexShaderBlob, pixelShaderBlob, InputLayout));
      pipelineState := s.pipeline.handle;
      PlatformCheckHandle(log, s.pipeline.succeeded, true);
    }

    method CreateVertexBuffer(log: CallLog, device: Ptr, s: ResourceSetup)
      requires !log.exited && device != Null
      modifies log, this`vertexBuffer
      ensures log.calls == old(log.calls) + VertexBufferCalls(s)
      ensures log.exited <==> !VertexBufferFilled(s)
      ensures vertexBuffer == s.vertexBuffer.handle
    {
      log.Issue(CreateCommittedResource(VerticesSize));
      vertexBuffer := s.vertexBuffer.handle;
      PlatformCheckHandle(log, s.vertexBuffer.succeeded, true);
      if log.exited { return; }
      log.Issue(MapBuffer(vertexBuffer));
      PlatformCheckHandle(log, s.mapped, true);
      if log.exited { return; }
      log.Issue(UnmapBuffer(vertexBuffer));
    }

    /** Slot i receives the i-th created buffer for every i below the back-buffer count;
        the slots above it keep their contents.  The array has two slots, so the count
        must not exceed two. */
    method CreateConstantBuffers(log: CallLog, device: Ptr, backBufferCount: nat, created: seq<Ptr>)
      requires Valid() && !log.exited && device != Null
      requires backBufferCount <= ConstantBufferSlots && |created| >= backBufferCount
      modifies log, constantBuffers
      ensures log.calls == old(log.calls) + ConstantBufferCalls(backBufferCount) && !log.exited
      ensures forall i :: 0 <= i < backBufferCount ==> constantBuffers[i] == created[i]
      ensures forall i :: backBufferCount <= i < ConstantBufferSlots ==> constantBuffers[i] == old(constantBuffers[i])
    {
      var i := 0;
      while i < backBufferCount
        invariant 0 <= i <= backBufferCount && !log.exited
        invariant log.calls == old(log.calls) + ConstantBufferCalls(i)
        invariant forall k :: 0 <= k < i ==> constantBuffers[k] == created[k]
        invariant forall k :: i <= k < ConstantBufferSlots ==> constantBuffers[k] == old(constantBuffers[k])
      {
        log.Issue(CreateCommittedResource(ConstantBufferPayloadSize));
        constantBuffers[i] := created[i];
        assert ConstantBufferCalls(i + 1) == ConstantBufferCalls(i) + [CreateCommittedResource(ConstantBufferPayloadSize)];
        i := i + 1;
      }
    }

    /** Root signature, shaders, pipeline state, vertex buffer, constant buffers, in that
        order; the first failed check ends the process. */
    method OnResourceCreate(log: CallLog, meta: ResourcesInitializationMetadata, s: ResourceSetup)
      requires Valid() && !log.exited && meta.device != Null
      requires meta.backBufferCount <= ConstantBufferSlots && |s.constantBuffers| >= meta.backBufferCount
      modifies log, this, constantBuffers
      ensures Valid()
      ensures log.calls == old(log.calls) + ResourceCreateCalls(s, meta.backBufferCount)
      ensures log.exited <==> !ResourcesCreated(s)
      ensures !log.exited ==>
        rootSignature == s.signature.handle && pipelineState == s.pipeline.handle && vertexBuffer == s.vertexBuffer.handle
        && vertexShaderBlob == s.vertexShader.blob && pixelShaderBlob == s.pixelShader.blob
        && (forall i :: 0 <= i < meta.backBufferCount ==> constantBuffers[i] == s.constantBuffers[i])
      ensures frame == old(frame)
    {
      CreateRootSignature(log, meta.device, s);
      if log.exited { return; }
      CreateShaders(log, s);
      if log.exited { return; }
      CreatePipelineState(log, meta.device, s);
      if log.exited { return; }
      CreateVertexBuffer(log, meta.device, s);
      if log.exited { return; }
      CreateConstantBuffers(log, meta.device, meta.backBufferCount, s.constantBuffers);
    }

    /** Maps, unmaps and binds the constant buffer of the back buffer being rendered, then
        records the draw; no field changes. */
    method OnRender(log: CallLog, meta: FrameMetadata)
      requires Valid() && !log.exited && meta.commandList != Null
      requires meta.currentBackBufferIndex < ConstantBufferSlots
      requires constantBuffers[meta.currentBackBufferIndex] != Null && vertexBuffer != Null
      modifies log
      ensures !log.exited
      ensures log.calls == old(log.calls) + RenderCalls(pipelineState, rootSignature, vertexBuffer, constantBuffers[meta.currentBackBufferIndex])
    {
      var constantBuffer := constantBuffers[meta.currentBackBufferIndex];
      log.Issue(MapBuffer(constantBuffer));
      log.Issue(UnmapBuffer(constantBuffer));
      log.Issue(SetPipelineState(pipelineState));
      log.Issue(SetRootSignature(rootSignature));
      log.Issue(VertexBufferView(vertexBuffer));
      log.Issue(SetRootConstantBufferView(0, constantBuffer));
      log.Issue(SetTopology(TriangleList));
      log.Issue(DrawInstanced(3, 1, 0, 0));
    }

    /** Deletes both shader blobs (the pointers are left as they were) and drops the root
        signature, pipeline state, vertex buffer and both constant buffers. */
    method OnShutdown(log: CallLog)
      requires Valid() && !log.exited
      modifies log, this`rootSignature, this`pipelineState, this`vertexBuffer, constantBuffers
      ensures !log.exited
      ensures log.calls == old(log.calls) + [DeleteBlob(vertexShaderBlob), DeleteBlob(pixelShaderBlob)]
      ensures rootSignature == Null && pipelineState == Null && vertexBuffer == Null
      ensures constantBuffers[..] == [Null, Null]
    {
      var i := 0;
      while i < ConstantBufferSlots
        invariant 0 <= i <= ConstantBufferSlots
        invariant unchanged(log) && unchanged(this)
        invariant forall k :: 0 <= k < i ==> constantBuffers[k] == Null
      {
        constantBuffers[i] := Null;
        i := i + 1;
      }
      log.Issue(DeleteBlob(vertexShaderBlob));
      log.Issue(DeleteBlob(pixelShaderBlob));
      rootSignature, pipelineState, vertexBuffer := Null, Null, Null;
    }
  }
}
