/** The records the renderer hands to entities and the scene. */
module Metadata {
  import opened Calls

  /** FrameMetadata as the newer scene entity reads it: the frame number, the swap chain's
      current back-buffer index, and the command list being recorded. */
  datatype FrameMetadata = FrameMetadata(frame: nat, currentBackBufferIndex: nat, commandList: Ptr)

  /** FrameMetadata as the renderer header declares it: a frame number and a command list
      only. */
  datatype RendererFrameMetadata = RendererFrameMetadata(frame: nat, commandList: Ptr)

  /** What an entity is given when it creates its resources. */
  datatype ResourcesInitializationMetadata = ResourcesInitializationMetadata(device: Ptr, backBufferCount: nat)
}
