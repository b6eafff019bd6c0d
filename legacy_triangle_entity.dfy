/** The older triangle entity (namespace Entities): it builds a root signature without
    parameters, compiles its two shaders, builds a pipeline state and fills a vertex buffer,
    checking each step with its own CheckHandle; it then records one triangle draw into a
    command list.  The newer renderer creates and draws this entity. */
module Entities {
  import opened Calls
  import opened VertexLayout

  /** The answers to the calls of OnResourceCreate. */
  datatype ResourceSetup = ResourceSetup(
    serialized: Creation, signature: Creation,
    vertexShader: Creation, pixelShader: Creation,
    pipeline: Creation,
    vertexBuffer: Creation, mapped: bool)

  predicate SoundSetup(s: ResourceSetup) {
    Sound(s.serialized) && Sound(s.signature) && Sound(s.vertexShader) && Sound(s.pixelShader)
    && Sound(s.pipeline) && Sound(s.vertexBuffer)
  }

  /** A failed check: CheckHandle with its crash flag on. */
  function Failure(): seq<Call> {
    MemberCheckFailure(true)
  }

  /** The root signature has no parameters and no static samplers. */
  const RootParameters: seq<RootParameter> := []
  const StaticSamplerCount: nat := 0

  /** Serialize the root signature, then create it from the blob, each checked. */
  function RootSignatureCalls(s: ResourceSetup): seq<Call> {
    [SerializeRootSignature(RootParameters, StaticSamplerCount)]
    + if !s.serialized.succeeded then Failure() else
      [CreateRootSignature(s.serialized.handle)]
      + if !s.signature.succeeded then Failure() else []
  }

  predicate RootSignatureCreated(s: ResourceSetup) {
    s.serialized.succeeded && s.signature.succeeded
  }

  /** Compile the vertex shader, then the pixel shader, each checked. */
  function ShaderCalls(s: ResourceSetup): seq<Call> {
    [CompileShader(VertexStage)]
    + if !s.vertexShader.succeeded then Failure() else
      [CompileShader(PixelStage)]
      + if !s.pixelShader.succeeded then Failure() else []
  }

  predicate ShadersCompiled(s: ResourceSetup) {
    s.vertexShader.succeeded && s.pixelShader.succeeded
  }

  /** Create the pipeline state from the root signature, both shaders and the layout. */
  function PipelineCalls(s: ResourceSetup): seq<Call> {
    [CreatePipelineState(s.signature.handle, s.vertexShader.handle, s.pixelShader.handle, InputLayout)]
    + if !s.pipeline.succeeded then Failure() else []
  }

  /** Create the buffer and map it, each checked, then unmap it. */
  function VertexBufferCalls(s: ResourceSetup): seq<Call> {
    [CreateCommittedResource(VerticesSize)]
    + if !s.vertexBuffer.succeeded then Failure() else
      [MapBuffer(s.vertexBuffer.handle)]
      + if !s.mapped then Failure() else [UnmapBuffer(s.vertexBuffer.handle)]
  }

  predicate VertexBufferFilled(s: ResourceSetup) {
    s.vertexBuffer.succeeded && s.mapped
  }

  /** Every check of OnResourceCreate passes. */
  predicate ResourcesCreated(s: ResourceSetup) {
    RootSignatureCreated(s) && ShadersCompiled(s) && s.pipeline.succeeded && VertexBufferFilled(s)
  }

  /** OnResourceCreate: root signature, shaders, pipeline state, vertex buffer; each creation
      method runs only when the ones before it passed all their checks. */
  function ResourceCreateCalls(s: ResourceSetup): seq<Call> {
    RootSignatureCalls(s)
    + if !RootSignatureCreated(s) then [] else
      ShaderCalls(s)
      + if !ShadersCompiled(s) then [] else
        PipelineCalls(s)
        + if !s.pipeline.succeeded then [] else
          VertexBufferCalls(s)
  }

  /** The commands OnRender records: pipeline state, root signature, the whole vertex array
      with one vertex stride, triangle-list topology, one instance of three vertices. */
  function DrawCalls(pipeline: Ptr, signature: Ptr, vertexBuffer: Ptr): seq<Call> {
    [SetPipelineState(pipeline), SetRootSignature(signature), VertexBufferView(vertexBuffer),
     SetTopology(TriangleList), DrawInstanced(3, 1, 0, 0)]
  }

  /** A fully successful creation issues exactly eight calls in the source's order, the
      pipeline state consuming the root signature and both shaders; a failed check ends the
      sequence with process exit, and the process exits only then. */
  lemma ResourceCreateOrder(s: ResourceSetup)
    ensures ResourcesCreated(s) ==> ResourceCreateCalls(s) == [
      SerializeRootSignature([], 0), CreateRootSignature(s.serialized.handle),
      CompileShader(VertexStage), CompileShader(PixelStage),
      CreatePipelineState(s.signature.handle, s.vertexShader.handle, s.pixelShader.handle, InputLayout),
      CreateCommittedResource(VerticesSize), MapBuffer(s.vertexBuffer.handle), UnmapBuffer(s.vertexBuffer.handle)]
    ensures Exit in ResourceCreateCalls(s) <==> !ResourcesCreated(s)
    ensures !ResourcesCreated(s) ==> ResourceCreateCalls(s)[|ResourceCreateCalls(s)| - 1] == Exit
  {
  }

  /** The draw binds no constant buffer, issues no barrier and no clear, and reads only
      vertices inside the vertex buffer it binds (3 = size / stride). */
  lemma DrawContract(pipeline: Ptr, signature: Ptr, vertexBuffer: Ptr)
    ensures var cs := DrawCalls(pipeline, signature, vertexBuffer);
      (forall k :: 0 <= k < |cs| ==> !cs[k].SetRootConstantBufferView? && !cs[k].Barrier? && !cs[k].ClearRenderTarget?)
      && DrawsWithinBoundBuffer(cs)
  {
    var cs := DrawCalls(pipeline, signature, vertexBuffer);
    assert cs[2].SetVertexBuffer? && cs[2].sizeInBytes / cs[2].strideInBytes == 3;
    assert forall j :: 0 <= j < |cs| && cs[j].DrawInstanced? ==> j == 4;
  }

  class TriangleEntity {
    var rootSignature: Ptr
    var pipelineState: Ptr
    var vertexShader: Ptr
    var pixelShader: Ptr
    var vertexBuffer: Ptr

    constructor ()
      ensures rootSignature == Null && pipelineState == Null && vertexShader == Null
      ensures pixelShader == Null && vertexBuffer == Null
    {
      rootSignature, pipelineState := Null, Null;
      vertexShader, pixelShader, vertexBuffer := Null, Null, Null;
    }

    /** Nothing on success; on failure a fatal log line and a breakpoint, and a crash when
        asked to. */
    method CheckHandle(log: CallLog, succeeded: bool, shouldCrash: bool)
      requires !log.exited
      modifies log
      ensures log.calls == old(log.calls) + (if succeeded then [] else MemberCheckFailure(shouldCrash))
      ensures log.exited <==> !succeeded && shouldCrash
    {
      if !succeeded {
        log.Issue(Fatal);
        log.Issue(Breakpoint);
        if shouldCrash {
          log.Issue(Breakpoint);
          log.Halt();
        }
      }
    }

    method CreateRootSignature(log: CallLog, device: Ptr, s: ResourceSetup)
      requires !log.exited && device != Null
      modifies log, this`rootSignature
      ensures log.calls == old(log.calls) + RootSignatureCalls(s)
      ensures log.exited <==> !RootSignatureCreated(s)
      ensures !log.exited ==> rootSignature == s.signature.handle
    {
      log.Issue(SerializeRootSignature(RootParameters, StaticSamplerCount));
      CheckHandle(log, s.serialized.succeeded, true);
      if log.exited { return; }
      log.Issue(Call.CreateRootSignature(s.serialized.handle));
      CheckHandle(log, s.signature.succeeded, true);
      if log.exited { return; }
      rootSignature := s.signature.handle;
    }

    method CreateShaders(log: CallLog, s: ResourceSetup)
      requires !log.exited
      modifies log, this`vertexShader, this`pixelShader
      ensures log.calls == old(log.calls) + ShaderCalls(s)
      ensures log.exited <==> !ShadersCompiled(s)
      ensures !log.exited ==> vertexShader == s.vertexShader.handle && pixelShader == s.pixelShader.handle
    {
      log.Issue(CompileShader(VertexStage));
      vertexShader := s.vertexShader.handle;
      CheckHandle(log, s.vertexShader.succeeded, true);
      if log.exited { return; }
      log.Issue(CompileShader(PixelStage));
      pixelShader := s.pixelShader.handle;
      CheckHandle(log, s.pixelShader.succeeded, true);
    }

    method CreatePipelineState(log: CallLog, device: Ptr, s: ResourceSetup)
      requires !log.exited && device != Null
      requires rootSignature == s.signature.handle && vertexShader == s.vertexShader.handle && pixelShader == s.pixelShader.handle
      modifies log, this`pipelineState
      ensures log.calls == old(log.calls) + PipelineCalls(s)
      ensures log.exited <==> !s.pipeline.succeeded
      ensures !log.exited ==> pipelineState == s.pipeline.handle
    {
      log.Issue(Call.CreatePipelineState(rootSignature, vertexShader, pixelShader, InputLayout));
      CheckHandle(log, s.pipeline.succeeded, true);
      if log.exited { return; }
      pipelineState := s.pipeline.handle;
    }

    method CreateVertexBuffer(log: CallLog, device: Ptr, s: ResourceSetup)
      requires !log.exited && device != Null
      modifies log, this`vertexBuffer
      ensures log.calls == old(log.calls) + VertexBufferCalls(s)
      ensures log.exited <==> !VertexBufferFilled(s)
      ensures vertexBuffer == s.vertexBuffer.handle
    {
      log.Issue(CreateCommittedResource(VerticesSize));
      vertexBuffer := s.vertexBuffer.handle;
      CheckHandle(log, s.vertexBuffer.succeeded, true);
      if log.exited { return; }
      log.Issue(MapBuffer(vertexBuffer));
      CheckHandle(log, s.mapped, true);
      if log.exited { return; }
      log.Issue(UnmapBuffer(vertexBuffer));
    }

    /** Root signature, shaders, pipeline state, vertex buffer, in that order; the first
        failed check ends the process. */
    method OnResourceCreate(log: CallLog, device: Ptr, s: ResourceSetup)
      requires !log.exited && device != Null
      modifies log, this
      ensures log.calls == old(log.calls) + ResourceCreateCalls(s)
      ensures log.exited <==> !ResourcesCreated(s)
      ensures !log.exited ==>
        rootSignature == s.signature.handle && vertexShader == s.vertexShader.handle && pixelShader == s.pixelShader.handle
        && pipelineState == s.pipeline.handle && vertexBuffer == s.vertexBuffer.handle
    {
      ghost var start := log.calls;
      CreateRootSignature(log, device, s);
      if log.exited { return; }
      CreateShaders(log, s);
      if log.exited {
        AppendAssoc(start, RootSignatureCalls(s), ShaderCalls(s));
        return;
      }
      ghost var shaded := log.calls;
      CreatePipelineAndBuffer(log, device, s);
      ghost var tail := PipelineCalls(s) + if !s.pipeline.succeeded then [] else VertexBufferCalls(s);
      assert log.calls == shaded + tail;
      AppendAssoc(RootSignatureCalls(s), ShaderCalls(s), tail);
      AppendAssoc(start, RootSignatureCalls(s), ShaderCalls(s));
      AppendAssoc(start, RootSignatureCalls(s) + ShaderCalls(s), tail);
      AppendAssoc(start, RootSignatureCalls(s), ShaderCalls(s) + tail);
    }

    /** The pipeline state, then, when it passed, the vertex buffer. */
    method CreatePipelineAndBuffer(log: CallLog, device: Ptr, s: ResourceSetup)
      requires !log.exited && device != Null
      requires rootSignature == s.signature.handle && vertexShader == s.vertexShader.handle && pixelShader == s.pixelShader.handle
      modifies log, this`pipelineState, this`vertexBuffer
      ensures log.calls == old(log.calls) + (PipelineCalls(s) + if !s.pipeline.succeeded then [] else VertexBufferCalls(s))
      ensures log.exited <==> !(s.pipeline.succeeded && VertexBufferFilled(s))
      ensures !log.exited ==> pipelineState == s.pipeline.handle && vertexBuffer == s.vertexBuffer.handle
    {
      ghost var start := log.calls;
      CreatePipelineState(log, device, s);
      if log.exited { return; }
      CreateVertexBuffer(log, device, s);
      AppendAssoc(start, PipelineCalls(s), VertexBufferCalls(s));
    }

    /** Records the triangle draw into the command list. */
    method OnRender(log: CallLog, commandList: Ptr)
      requires !log.exited && commandList != Null && vertexBuffer != Null
      modifies log
      ensures log.calls == old(log.calls) + DrawCalls(pipelineState, rootSignature, vertexBuffer) && !log.exited
    {
      log.Issue(SetPipelineState(pipelineState));
      log.Issue(SetRootSignature(rootSignature));
      log.Issue(VertexBufferView(vertexBuffer));
      log.Issue(SetTopology(TriangleList));
      log.Issue(DrawInstanced(3, 1, 0, 0));
    }
  }
}
