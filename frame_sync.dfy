/** The frame and fence logic shared by both renderer snapshots: what one WaitForGPU
    does to the per-slot fence values and which calls it issues, the commands one frame
    records, the descriptor handle of each swap-chain buffer, and the calls that create
    and release the render-target views.  The renderer classes are proved against these
    definitions. */
module FrameSync {
  import opened Calls

  /** Number of swap-chain buffers, and therefore of fence values and render targets. */
  const SwapChainBufferCount: nat := 2

  /** A UINT counter wraps around at this value. */
  const UInt32Modulus: nat := 0x1_0000_0000

  /** What the GPU and the swap chain answer during one WaitForGPU: whether Signal
      succeeds, whether the swap chain can be viewed as IDXGISwapChain3, the current
      back-buffer index, and the fence's completed value. */
  datatype GpuView = GpuView(signalSucceeds: bool, swapChain3Available: bool, backBufferIndex: nat, completedValue: nat)

  predicate ValidView(g: GpuView) {
    g.backBufferIndex < SwapChainBufferCount
  }

  /** CurrentFrameBufferIndex and FrameFenceValues. */
  datatype FenceState = FenceState(index: nat, values: seq<nat>)

  predicate ValidFence(s: FenceState) {
    |s.values| == SwapChainBufferCount && s.index < SwapChainBufferCount
  }

  /** The initializers: index 0, fence values {1, 1}. */
  const InitialFence: FenceState := FenceState(0, [1, 1])

  /** The value WaitForGPU signals from state s: the fence value of the current slot. */
  function Signalled(s: FenceState): nat
    requires ValidFence(s)
  {
    s.values[s.index]
  }

  /** A completed WaitForGPU: adopt the swap chain's index and give that slot the signalled
      value plus one. */
  function Advance(s: FenceState, next: nat): (r: FenceState)
    requires ValidFence(s) && next < SwapChainBufferCount
    ensures ValidFence(r) && r.index == next
    ensures r.values[next] == Signalled(s) + 1
    ensures forall j :: 0 <= j < SwapChainBufferCount && j != next ==> r.values[j] == s.values[j]
  {
    FenceState(next, s.values[next := s.values[s.index] + 1])
  }

  /** WaitForGPU gets past its three early returns: queue and fence present, Signal
      succeeded, swap chain viewed as IDXGISwapChain3. */
  predicate Proceeds(ready: bool, g: GpuView) {
    ready && g.signalSucceeds && g.swapChain3Available
  }

  /** The fence state after WaitForGPU; `ready` says the command queue and the fence are
      both non-null. */
  function Wait(s: FenceState, ready: bool, g: GpuView): (r: FenceState)
    requires ValidFence(s) && ValidView(g)
    ensures ValidFence(r)
  {
    if Proceeds(ready, g) then Advance(s, g.backBufferIndex) else s
  }

  /** The calls one WaitForGPU issues. */
  function WaitCalls(s: FenceState, ready: bool, g: GpuView): seq<Call>
    requires ValidFence(s) && ValidView(g)
  {
    if !ready then [Fatal]
    else
      [Signal(Signalled(s))]
      + if !g.signalSucceeds || !g.swapChain3Available then [Fatal]
        else if g.completedValue < s.values[g.backBufferIndex] then [WaitForFence(s.values[g.backBufferIndex])]
        else []
  }

  /** An early return logs, changes no fence value and no index, and does not halt. */
  lemma WaitEarlyReturn(s: FenceState, ready: bool, g: GpuView)
    requires ValidFence(s) && ValidView(g) && !Proceeds(ready, g)
    ensures Wait(s, ready, g) == s
    ensures Fatal in WaitCalls(s, ready, g) && Exit !in WaitCalls(s, ready, g)
    ensures !ready ==> WaitCalls(s, ready, g) == [Fatal]
  {
  }

  /** A completed wait signals the old slot's value, adopts the swap chain's index, blocks
      exactly when the completed value is below the new slot's old value, stores the signal
      plus one in the new slot and leaves the other slot alone. */
  lemma WaitCompleted(s: FenceState, g: GpuView)
    requires ValidFence(s) && ValidView(g) && Proceeds(true, g)
    ensures WaitCalls(s, true, g)[0] == Signal(s.values[s.index])
    ensures (exists v :: WaitForFence(v) in WaitCalls(s, true, g)) <==> g.completedValue < s.values[g.backBufferIndex]
    ensures Wait(s, true, g).index == g.backBufferIndex
    ensures Wait(s, true, g).values[g.backBufferIndex] == s.values[s.index] + 1
    ensures forall j :: 0 <= j < SwapChainBufferCount && j != g.backBufferIndex ==> Wait(s, true, g).values[j] == s.values[j]
  {
    if g.completedValue < s.values[g.backBufferIndex] {
      assert WaitForFence(s.values[g.backBufferIndex]) in WaitCalls(s, true, g);
    } else {
      assert WaitCalls(s, true, g) == [Signal(s.values[s.index])];
    }
  }

  predicate AllSlots(indices: seq<nat>) {
    forall k :: 0 <= k < |indices| ==> indices[k] < SwapChainBufferCount
  }

  /** The fence state after a run of completed waits from the initializers, the k-th wait
      finding the swap chain at indices[k]. */
  function Replay(indices: seq<nat>): (r: FenceState)
    requires AllSlots(indices)
    ensures ValidFence(r)
    ensures indices != [] ==> r.index == indices[|indices| - 1]
  {
    if indices == [] then InitialFence
    else Advance(Replay(indices[..|indices| - 1]), indices[|indices| - 1])
  }

  /** After n completed waits the current slot holds n + 1 and no slot holds more, so the
      next wait (the (n + 1)-th) signals exactly n + 1. */
  lemma {:induction false} ReplayCounts(indices: seq<nat>)
    requires AllSlots(indices)
    ensures Signalled(Replay(indices)) == |indices| + 1
    ensures forall j :: 0 <= j < SwapChainBufferCount ==> 1 <= Replay(indices).values[j] <= |indices| + 1
  {
    if indices != [] {
      var prefix := indices[..|indices| - 1];
      assert AllSlots(prefix);
      ReplayCounts(prefix);
    }
  }

  /** In a reachable state WaitForGPU only blocks on a value no larger than the one it has
      just signalled, so the wait is for work already submitted; and the slot it writes
      strictly grows. */
  lemma ReplayWaitIsBounded(indices: seq<nat>, g: GpuView)
    requires AllSlots(indices) && ValidView(g) && Proceeds(true, g)
    ensures WaitCalls(Replay(indices), true, g)[0] == Signal(|indices| + 1)
    ensures forall v: nat :: WaitForFence(v) in WaitCalls(Replay(indices), true, g) ==> v <= |indices| + 1
    ensures Wait(Replay(indices), true, g).values[g.backBufferIndex] > Replay(indices).values[g.backBufferIndex]
    ensures Wait(Replay(indices), true, g) == Replay(indices + [g.backBufferIndex])
  {
    ReplayCounts(indices);
    WaitCallsBounded(Replay(indices), g, |indices| + 1);
    ReplayStep(indices, g.backBufferIndex);
  }

  /** From a state whose current slot holds n and whose slots hold at most n, a completed
      wait signals n and blocks on nothing larger. */
  lemma WaitCallsBounded(s: FenceState, g: GpuView, n: nat)
    requires ValidFence(s) && ValidView(g) && Proceeds(true, g)
    requires Signalled(s) == n && forall j :: 0 <= j < SwapChainBufferCount ==> s.values[j] <= n
    ensures WaitCalls(s, true, g)[0] == Signal(n)
    ensures forall v: nat :: WaitForFence(v) in WaitCalls(s, true, g) ==> v <= n
  {
    var b := g.backBufferIndex;
    if g.completedValue < s.values[b] {
      assert WaitCalls(s, true, g) == [Signal(n), WaitForFence(s.values[b])];
    } else {
      assert WaitCalls(s, true, g) == [Signal(n)];
    }
  }

  /** One more completed wait is one more step of the replay. */
  lemma ReplayStep(indices: seq<nat>, b: nat)
    requires AllSlots(indices) && b < SwapChainBufferCount
    ensures AllSlots(indices + [b]) && Replay(indices + [b]) == Advance(Replay(indices), b)
  {
    var extended := indices + [b];
    assert extended[..|extended| - 1] == indices;
  }

  /** The calls among cs that p selects, in order. */
  function Select(cs: seq<Call>, p: Call -> bool): (r: seq<Call>)
    ensures |r| <= |cs|
    ensures forall k :: 0 <= k < |r| ==> p(r[k])
  {
    if cs == [] then [] else (if p(cs[0]) then [cs[0]] else []) + Select(cs[1..], p)
  }

  lemma {:induction false} SelectConcat(a: seq<Call>, b: seq<Call>, p: Call -> bool)
    ensures Select(a + b, p) == Select(a, p) + Select(b, p)
  {
    if a == [] {
      assert a + b == b;
    } else {
      assert (a + b)[1..] == a[1..] + b;
      SelectConcat(a[1..], b, p);
    }
  }

  lemma SelectSingle(c: Call, p: Call -> bool)
    ensures Select([c], p) == if p(c) then [c] else []
  {
    assert [c][1..] == [];
  }

  lemma {:induction false} SelectNone(cs: seq<Call>, p: Call -> bool)
    requires forall k :: 0 <= k < |cs| ==> !p(cs[k])
    ensures Select(cs, p) == []
  {
    if cs != [] {
      SelectNone(cs[1..], p);
    }
  }

  predicate IsBarrier(c: Call) { c.Barrier? }
  predicate IsClear(c: Call) { c.ClearRenderTarget? }

  /** Render's commands up to the bind: reset allocator and list, barrier from PRESENT to
      RENDER_TARGET, bind the render target. */
  function FramePrologue(initialPipeline: Ptr, target: Ptr, descriptor: nat): seq<Call> {
    [ResetCommandAllocator, ResetCommandList(initialPipeline), Barrier(target, Present, RenderTarget), SetRenderTarget(descriptor)]
  }

  function FrameClear(clear: bool, descriptor: nat): seq<Call> {
    if clear then [ClearRenderTarget(descriptor)] else []
  }

  function FrameViewport(width: nat, height: nat): seq<Call> {
    [SetViewport, SetScissor(0, 0, width, height)]
  }

  /** Render's commands after the draw: barrier back to PRESENT, close, execute, present with
      sync interval 1 and no flags. */
  function FrameEpilogue(target: Ptr): seq<Call> {
    [Barrier(target, RenderTarget, Present), CloseCommandList, ExecuteCommandList, PresentFrame(1, 0)]
  }

  /** The commands Render records between its two waits. */
  function FrameCommands(initialPipeline: Ptr, target: Ptr, descriptor: nat, clear: bool, width: nat, height: nat, draw: seq<Call>): seq<Call>
  {
    FramePrologue(initialPipeline, target, descriptor) + FrameClear(clear, descriptor) + FrameViewport(width, height) + draw + FrameEpilogue(target)
  }

  /** Select distributes over the five parts of a frame. */
  lemma SelectFrame(initialPipeline: Ptr, target: Ptr, descriptor: nat, clear: bool, width: nat, height: nat, draw: seq<Call>, p: Call -> bool)
    ensures Select(FrameCommands(initialPipeline, target, descriptor, clear, width, height, draw), p)
         == Select(FramePrologue(initialPipeline, target, descriptor), p) + Select(FrameClear(clear, descriptor), p)
            + Select(FrameViewport(width, height), p) + Select(draw, p) + Select(FrameEpilogue(target), p)
  {
    var a := FramePrologue(initialPipeline, target, descriptor);
    var b := FrameClear(clear, descriptor);
    var c := FrameViewport(width, height);
    var e := FrameEpilogue(target);
    SelectConcat(a + b + c + draw, e, p);
    SelectConcat(a + b + c, draw, p);
    SelectConcat(a + b, c, p);
    SelectConcat(a, b, p);
  }

  /** A frame holds exactly two transition barriers, on the same resource: PRESENT to
      RENDER_TARGET first, RENDER_TARGET to PRESENT second. */
  lemma FrameBarrierPair(initialPipeline: Ptr, target: Ptr, descriptor: nat, clear: bool, width: nat, height: nat, draw: seq<Call>)
    requires forall k :: 0 <= k < |draw| ==> !draw[k].Barrier?
    ensures Select(FrameCommands(initialPipeline, target, descriptor, clear, width, height, draw), IsBarrier)
         == [Barrier(target, Present, RenderTarget), Barrier(target, RenderTarget, Present)]
  {
    var b := FrameClear(clear, descriptor);
    var c := FrameViewport(width, height);
    assert Select(b, IsBarrier) == [] by { SelectNone(b, IsBarrier); }
    assert Select(c, IsBarrier) == [] by { SelectNone(c, IsBarrier); }
    assert Select(draw, IsBarrier) == [] by { SelectNone(draw, IsBarrier); }
    PrologueBarrier(initialPipeline, target, descriptor);
    EpilogueBarrier(target);
    SelectFrame(initialPipeline, target, descriptor, clear, width, height, draw, IsBarrier);
  }

  lemma PrologueBarrier(initialPipeline: Ptr, target: Ptr, descriptor: nat)
    ensures Select(FramePrologue(initialPipeline, target, descriptor), IsBarrier) == [Barrier(target, Present, RenderTarget)]
  {
    var resets := [ResetCommandAllocator, ResetCommandList(initialPipeline)];
    var barrier := [Barrier(target, Present, RenderTarget)];
    var bind := [SetRenderTarget(descriptor)];
    assert FramePrologue(initialPipeline, target, descriptor) == resets + barrier + bind;
    assert Select(resets, IsBarrier) == [] by { SelectNone(resets, IsBarrier); }
    assert Select(barrier, IsBarrier) == barrier by { SelectSingle(barrier[0], IsBarrier); }
    assert Select(bind, IsBarrier) == [] by { SelectSingle(bind[0], IsBarrier); }
    SelectConcat(resets + barrier, bind, IsBarrier);
    SelectConcat(resets, barrier, IsBarrier);
  }

  lemma EpilogueBarrier(target: Ptr)
    ensures Select(FrameEpilogue(target), IsBarrier) == [Barrier(target, RenderTarget, Present)]
  {
    var finish := [CloseCommandList, ExecuteCommandList, PresentFrame(1, 0)];
    assert FrameEpilogue(target) == [Barrier(target, RenderTarget, Present)] + finish;
    SelectConcat([Barrier(target, RenderTarget, Present)], finish, IsBarrier);
    SelectSingle(Barrier(target, RenderTarget, Present), IsBarrier);
    SelectNone(finish, IsBarrier);
  }

  /** A frame clears exactly when asked to, once, and clears the descriptor it binds. */
  lemma FrameClearsIffAsked(initialPipeline: Ptr, target: Ptr, descriptor: nat, clear: bool, width: nat, height: nat, draw: seq<Call>)
    requires forall k :: 0 <= k < |draw| ==> !draw[k].ClearRenderTarget?
    ensures Select(FrameCommands(initialPipeline, target, descriptor, clear, width, height, draw), IsClear)
         == if clear then [ClearRenderTarget(descriptor)] else []
  {
    var a := FramePrologue(initialPipeline, target, descriptor);
    var c := FrameViewport(width, height);
    var e := FrameEpilogue(target);
    assert Select(a, IsClear) == [] by { SelectNone(a, IsClear); }
    assert Select(c, IsClear) == [] by { SelectNone(c, IsClear); }
    assert Select(draw, IsClear) == [] by { SelectNone(draw, IsClear); }
    assert Select(e, IsClear) == [] by { SelectNone(e, IsClear); }
    assert Select(FrameClear(clear, descriptor), IsClear) == FrameClear(clear, descriptor) by {
      if clear {
        SelectSingle(ClearRenderTarget(descriptor), IsClear);
      }
    }
    SelectFrame(initialPipeline, target, descriptor, clear, width, height, draw, IsClear);
  }

  /** The CPU descriptor handle of swap-chain buffer i: heap start plus i increments. */
  function RtvDescriptor(heapStart: nat, i: nat, increment: nat): nat {
    heapStart + i * increment
  }

  /** Buffers get distinct, increasing handles whenever the increment is positive. */
  lemma RtvDescriptorsIncrease(heapStart: nat, i: nat, j: nat, increment: nat)
    requires i < j && increment > 0
    ensures RtvDescriptor(heapStart, i, increment) < RtvDescriptor(heapStart, j, increment)
    ensures RtvDescriptor(heapStart, j, increment) - RtvDescriptor(heapStart, i, increment) == (j - i) * increment
  {
    assert j * increment == i * increment + (j - i) * increment;
  }

  /** One GetBuffer answer. */
  datatype BufferResult = BufferResult(succeeded: bool, buffer: Ptr)

  /** What CreateRenderTargetViews is given by Direct3D: whether the descriptor heap is
      created, the heap object, its first CPU handle, and each GetBuffer answer. */
  datatype ViewEnv = ViewEnv(heapCreated: bool, heap: Ptr, heapStart: nat, buffers: seq<BufferResult>)

  predicate ValidViewEnv(e: ViewEnv) {
    |e.buffers| == SwapChainBufferCount
  }

  /** The calls of the view loop from buffer i on; onFailure is what a failed CheckHandle
      issues, ending in process exit. */
  function BufferViewCalls(e: ViewEnv, increment: nat, onFailure: seq<Call>, i: nat): seq<Call>
    requires ValidViewEnv(e) && i <= SwapChainBufferCount
    decreases SwapChainBufferCount - i
  {
    if i == SwapChainBufferCount then []
    else if !e.buffers[i].succeeded then [GetBuffer(i)] + onFailure
    else [GetBuffer(i), CreateRenderTargetView(e.buffers[i].buffer, RtvDescriptor(e.heapStart, i, increment))]
         + BufferViewCalls(e, increment, onFailure, i + 1)
  }

  /** The calls CreateRenderTargetViews issues. */
  function ViewCalls(devicePresent: bool, swapChainPresent: bool, e: ViewEnv, increment: nat, onFailure: seq<Call>): seq<Call>
    requires ValidViewEnv(e)
  {
    if !devicePresent || !swapChainPresent then [Fatal]
    else [CreateDescriptorHeap(SwapChainBufferCount)]
         + if !e.heapCreated then onFailure else BufferViewCalls(e, increment, onFailure, 0)
  }

  /** Whether CreateRenderTargetViews runs to the end without a failed check. */
  predicate ViewsComplete(e: ViewEnv) {
    ValidViewEnv(e) && e.heapCreated && forall i :: 0 <= i < |e.buffers| ==> e.buffers[i].succeeded
  }

  /** CreateRenderTargetViews ends the process exactly when it gets past its null check and
      then a check fails. */
  predicate ViewsExit(devicePresent: bool, swapChainPresent: bool, e: ViewEnv) {
    devicePresent && swapChainPresent && !ViewsComplete(e)
  }

  lemma {:induction false} BufferViewsExit(e: ViewEnv, increment: nat, onFailure: seq<Call>, i: nat)
    requires ValidViewEnv(e) && i <= SwapChainBufferCount && Exit in onFailure
    ensures Exit in BufferViewCalls(e, increment, onFailure, i) <==> exists k :: i <= k < SwapChainBufferCount && !e.buffers[k].succeeded
    decreases SwapChainBufferCount - i
  {
    if i < SwapChainBufferCount {
      BufferViewsExit(e, increment, onFailure, i + 1);
      if e.buffers[i].succeeded {
        var here := [GetBuffer(i), CreateRenderTargetView(e.buffers[i].buffer, RtvDescriptor(e.heapStart, i, increment))];
        assert Exit !in here;
        assert BufferViewCalls(e, increment, onFailure, i) == here + BufferViewCalls(e, increment, onFailure, i + 1);
      }
    }
  }

  /** With a failure sequence that exits, the view calls contain a process exit exactly when
      ViewsExit holds. */
  lemma ViewCallsExit(devicePresent: bool, swapChainPresent: bool, e: ViewEnv, increment: nat, onFailure: seq<Call>)
    requires ValidViewEnv(e) && Exit in onFailure
    ensures Exit in ViewCalls(devicePresent, swapChainPresent, e, increment, onFailure) <==> ViewsExit(devicePresent, swapChainPresent, e)
  {
    BufferViewsExit(e, increment, onFailure, 0);
  }

  /** When every step succeeds, each buffer i gets its view at heap start plus i increments,
      in buffer order, and no failure is issued. */
  lemma {:induction false} BufferViewsAt(e: ViewEnv, increment: nat, onFailure: seq<Call>, i: nat)
    requires ViewsComplete(e) && i <= SwapChainBufferCount
    ensures |BufferViewCalls(e, increment, onFailure, i)| == 2 * (SwapChainBufferCount - i)
    ensures forall k :: i <= k < SwapChainBufferCount ==>
      BufferViewCalls(e, increment, onFailure, i)[2 * (k - i)] == GetBuffer(k) &&
      BufferViewCalls(e, increment, onFailure, i)[2 * (k - i) + 1] == CreateRenderTargetView(e.buffers[k].buffer, RtvDescriptor(e.heapStart, k, increment))
    decreases SwapChainBufferCount - i
  {
    if i < SwapChainBufferCount {
      BufferViewsAt(e, increment, onFailure, i + 1);
    }
  }

  /** Every view the loop creates sits at the handle Render later binds for that buffer. */
  lemma {:induction false} ViewsAtRtvDescriptor(e: ViewEnv, increment: nat, onFailure: seq<Call>, i: nat, r: Ptr, d: nat)
    requires ValidViewEnv(e) && i <= SwapChainBufferCount
    requires CreateRenderTargetView(r, d) in BufferViewCalls(e, increment, onFailure, i)
    requires forall k :: 0 <= k < |onFailure| ==> !onFailure[k].CreateRenderTargetView?
    ensures exists k :: i <= k < SwapChainBufferCount && r == e.buffers[k].buffer && d == RtvDescriptor(e.heapStart, k, increment)
    decreases SwapChainBufferCount - i
  {
    if i < SwapChainBufferCount && e.buffers[i].succeeded {
      var rest := BufferViewCalls(e, increment, onFailure, i + 1);
      var here := CreateRenderTargetView(e.buffers[i].buffer, RtvDescriptor(e.heapStart, i, increment));
      assert BufferViewCalls(e, increment, onFailure, i) == [GetBuffer(i), here] + rest;
      if CreateRenderTargetView(r, d) != here {
        assert CreateRenderTargetView(r, d) in rest;
        ViewsAtRtvDescriptor(e, increment, onFailure, i + 1, r, d);
      }
    } else if i < SwapChainBufferCount {
      assert false;
    }
  }

  /** CreateFrameFence logs a failed creation without halting. */
  function FenceCalls(fence: Ptr): seq<Call> {
    [Step(CreateFrameFence)] + if fence == Null then [Fatal] else []
  }

  /** The calls CleanupRenderTargetViews issues: releasing the heap when there is one
      (dropping a buffer reference is not a call). */
  function CleanupCalls(heap: Ptr): seq<Call> {
    if heap != Null then [Release(heap)] else []
  }

  /** Dropping every render target: the state CleanupRenderTargetViews leaves. */
  function ReleasedTargets(targets: seq<Ptr>): (r: seq<Ptr>)
    ensures |r| == |targets| && forall i :: 0 <= i < |r| ==> r[i] == Null
  {
    seq(|targets|, _ => Null)
  }

  /** Cleanup is idempotent: a second run issues nothing and changes nothing. */
  lemma CleanupIdempotent(targets: seq<Ptr>, heap: Ptr)
    ensures ReleasedTargets(ReleasedTargets(targets)) == ReleasedTargets(targets)
    ensures CleanupCalls(Null) == []
    ensures CleanupCalls(heap) == [] <==> heap == Null
  {
  }
}
