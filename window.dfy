/** The application window's glue between the renderer and the scene: what it creates,
    what one paint runs, and how a size change is forwarded. */
module Core {
  import opened Calls
  import opened FrameSync
  import Graphics
  import Entities
  import opened Metadata
  import opened Scene

  const Int32Modulus: nat := 0x1_0000_0000
  const Int32Max: int := 0x7FFF_FFFF

  /** An int converted to UINT: reduced modulo 2^32. */
  function AsUInt(x: int): (r: nat)
    ensures r < Int32Modulus && (r - x) % Int32Modulus == 0
  {
    x % Int32Modulus
  }

  /** A UINT converted to int: values past the int range wrap to negative ones. */
  function AsInt(x: nat): (r: int)
    requires x < Int32Modulus
    ensures -Int32Max - 1 <= r <= Int32Max && (x - r) % Int32Modulus == 0
  {
    if x <= Int32Max then x else x - Int32Modulus
  }

  /** A size that went from UINT to int comes back unchanged, and so does an int
      within the int range that went the other way. */
  lemma SizeConversionsRoundTrip(x: nat, y: int)
    requires x < Int32Modulus && -Int32Max - 1 <= y <= Int32Max
    ensures AsUInt(AsInt(x)) == x && AsInt(AsUInt(y)) == y
  {
  }

  /** The calls of one paint between BeginFrame and EndFrame: each root in order gets
      OnUpdate with the frame number, then OnRender with the command list. */
  function PaintCalls(trees: seq<Tree>, frame: nat, commandList: Ptr): seq<Call> {
    if trees == [] then []
    else
      var t := trees[|trees| - 1];
      PaintCalls(trees[..|trees| - 1], frame, commandList)
      + Notifications(Update(frame), Visits(t)) + Notifications(Render(commandList), Visits(t))
  }

  /** A log that received the paint calls of the first i roots, then root i's update and
      render walks, received the paint calls of the first i + 1 roots. */
  lemma PaintStep(start: seq<Call>, trees: seq<Tree>, i: nat, frame: nat, commandList: Ptr, calls: seq<Call>)
    requires i < |trees|
    requires calls == start + PaintCalls(trees[..i], frame, commandList)
      + Notifications(Update(frame), Visits(trees[i])) + Notifications(Render(commandList), Visits(trees[i]))
    ensures calls == start + PaintCalls(trees[..i + 1], frame, commandList)
  {
    assert trees[..i + 1][..i] == trees[..i];
    var before := PaintCalls(trees[..i], frame, commandList);
    var updates := Notifications(Update(frame), Visits(trees[i]));
    AppendAssoc(start, before, updates);
    AppendAssoc(start, before + updates, Notifications(Render(commandList), Visits(trees[i])));
  }

  predicate IsEntityUpdate(c: Call) { c.EntityUpdate? }
  predicate IsEntityRender(c: Call) { c.EntityRender? }

  lemma {:induction false} SelectNotifications(cb: Callback, es: seq<Ptr>, p: Call -> bool)
    requires p(Notification(cb, Null)) && forall e :: p(Notification(cb, e)) == p(Notification(cb, Null))
    ensures Select(Notifications(cb, es), p) == Notifications(cb, es)
    decreases |es|
  {
    if es != [] {
      var init := es[..|es| - 1];
      SelectNotifications(cb, init, p);
      SelectConcat(Notifications(cb, init), [Notification(cb, es[|es| - 1])], p);
      SelectSingle(Notification(cb, es[|es| - 1]), p);
    }
  }

  lemma {:induction false} SelectNoNotifications(cb: Callback, es: seq<Ptr>, p: Call -> bool)
    requires forall e :: !p(Notification(cb, e))
    ensures Select(Notifications(cb, es), p) == []
  {
    NotificationsAt(cb, es);
    SelectNone(Notifications(cb, es), p);
  }

  /** Taken on their own, the updates of a paint reach every entity of every root in walk
      order, all with the one frame number. */
  lemma {:induction false} PaintUpdatesEveryEntity(trees: seq<Tree>, frame: nat, commandList: Ptr)
    ensures Select(PaintCalls(trees, frame, commandList), IsEntityUpdate) == Notifications(Update(frame), RootVisits(trees))
    decreases |trees|
  {
    if trees != [] {
      var init := trees[..|trees| - 1];
      var t := trees[|trees| - 1];
      var earlier := PaintCalls(init, frame, commandList);
      var updates := Notifications(Update(frame), Visits(t));
      var renders := Notifications(Render(commandList), Visits(t));
      calc {
        Select(PaintCalls(trees, frame, commandList), IsEntityUpdate);
        Select(earlier + updates + renders, IsEntityUpdate);
        { SelectConcat(earlier + updates, renders, IsEntityUpdate); }
        Select(earlier + updates, IsEntityUpdate) + Select(renders, IsEntityUpdate);
        { SelectConcat(earlier, updates, IsEntityUpdate); }
        Select(earlier, IsEntityUpdate) + Select(updates, IsEntityUpdate) + Select(renders, IsEntityUpdate);
        { SelectNotifications(Update(frame), Visits(t), IsEntityUpdate); SelectNoNotifications(Render(commandList), Visits(t), IsEntityUpdate); }
        Select(earlier, IsEntityUpdate) + updates;
        { PaintUpdatesEveryEntity(init, frame, commandList); }
        Notifications(Update(frame), RootVisits(init)) + updates;
        { NotificationsConcat(Update(frame), RootVisits(init), Visits(t)); }
        Notifications(Update(frame), RootVisits(init) + Visits(t));
      }
    }
  }

  /** Likewise the renders reach every entity in walk order with the one command list. */
  lemma {:induction false} PaintRendersEveryEntity(trees: seq<Tree>, frame: nat, commandList: Ptr)
    ensures Select(PaintCalls(trees, frame, commandList), IsEntityRender) == Notifications(Render(commandList), RootVisits(trees))
    decreases |trees|
  {
    if trees != [] {
      var init := trees[..|trees| - 1];
      var t := trees[|trees| - 1];
      var earlier := PaintCalls(init, frame, commandList);
      var updates := Notifications(Update(frame), Visits(t));
      var renders := Notifications(Render(commandList), Visits(t));
      calc {
        Select(PaintCalls(trees, frame, commandList), IsEntityRender);
        Select(earlier + updates + renders, IsEntityRender);
        { SelectConcat(earlier + updates, renders, IsEntityRender); }
        Select(earlier + updates, IsEntityRender) + Select(renders, IsEntityRender);
        { SelectConcat(earlier, updates, IsEntityRender); }
        Select(earlier, IsEntityRender) + Select(updates, IsEntityRender) + Select(renders, IsEntityRender);
        { SelectNotifications(Render(commandList), Visits(t), IsEntityRender); SelectNoNotifications(Update(frame), Visits(t), IsEntityRender); }
        Select(earlier, IsEntityRender) + [] + renders;
        { assert Select(earlier, IsEntityRender) + [] == Select(earlier, IsEntityRender); }
        Select(earlier, IsEntityRender) + renders;
        { PaintRendersEveryEntity(init, frame, commandList); }
        Notifications(Render(commandList), RootVisits(init)) + renders;
        { NotificationsConcat(Render(commandList), RootVisits(init), Visits(t)); }
        Notifications(Render(commandList), RootVisits(init) + Visits(t));
      }
    }
  }

  /** Updates and renders alternate root by root: with two roots, the second root's
      updates come after the first root's renders. */
  lemma PaintInterleavesRoots(first: Tree, second: Tree, frame: nat, commandList: Ptr)
    ensures PaintCalls([first, second], frame, commandList) ==
      Notifications(Update(frame), Visits(first)) + Notifications(Render(commandList), Visits(first))
      + Notifications(Update(frame), Visits(second)) + Notifications(Render(commandList), Visits(second))
  {
    var a, b := Notifications(Update(frame), Visits(first)), Notifications(Render(commandList), Visits(first));
    assert [first, second][..1] == [first];
    assert [first][..0] == [];
    assert PaintCalls([first], frame, commandList) == [] + a + b;
    assert [] + a + b == a + b;
  }

  /** WindowProperties: the window handle and the int width and height. */
  class WindowProperties {
    var windowHandle: Ptr
    var width: int
    var height: int

    constructor (width: int, height: int)
      ensures windowHandle == Null && this.width == width && this.height == height
    {
      windowHandle := Null;
      this.width, this.height := width, height;
    }
  }

  class Window {
    const properties: WindowProperties
    var renderer: Graphics.Renderer?
    const sceneGraph: SceneGraph?

    /** A renderer, once there is one, keeps its own invariant. */
    predicate Valid()
      reads this, renderer
    {
      renderer != null ==> renderer.Valid()
    }

    /** Keeps the properties; the scene graph is the one the application hands over. */
    constructor (properties: WindowProperties, sceneGraph: SceneGraph?)
      ensures this.properties == properties && this.sceneGraph == sceneGraph && renderer == null && Valid()
    {
      this.properties := properties;
      this.sceneGraph := sceneGraph;
      renderer := null;
    }

    /** Stores the handle, creates the renderer and initializes it with the window size;
        then, when the scene graph exists, has each root in order create its entities'
        resources on the renderer's device. */
    method OnCreate(log: CallLog, windowHandle: Ptr, s: Graphics.RendererSetup, ghost trees: seq<Tree>)
      requires !log.exited && ValidViewEnv(s.views) && s.device != Null
      requires sceneGraph != null ==> RootsDescribed(sceneGraph.nodes, trees)
      modifies log, properties, this`renderer
      ensures Valid() && renderer != null && fresh(renderer)
      ensures properties.windowHandle == windowHandle
      ensures renderer.frameBufferWidth == AsUInt(old(properties.width)) && renderer.frameBufferHeight == AsUInt(old(properties.height))
      ensures log.calls == old(log.calls) + Graphics.InitializeCalls(s)
        + if log.exited || sceneGraph == null then [] else Notifications(ResourceCreate(s.device), RootVisits(trees))
      ensures log.exited <==> ViewsExit(true, s.swapChain != Null, s.views) || !Entities.ResourcesCreated(s.triangle)
    {
      if sceneGraph != null {
        AllNodesAllocated(trees);
      }
      properties.windowHandle := windowHandle;
      ghost var start := log.calls;
      var r := CreateRenderer(log, windowHandle, AsUInt(properties.width), AsUInt(properties.height), s);
      renderer := r;
      if log.exited {
        return;
      }
      if sceneGraph != null {
        CreateSceneResources(log, r.device, trees);
        AppendAssoc(start, Graphics.InitializeCalls(s), Notifications(ResourceCreate(s.device), RootVisits(trees)));
      }
    }

    /** The renderer part of OnCreate: a new renderer, initialized on the window. */
    method CreateRenderer(log: CallLog, windowHandle: Ptr, width: nat, height: nat, s: Graphics.RendererSetup)
      returns (r: Graphics.Renderer)
      requires !log.exited && ValidViewEnv(s.views) && s.device != Null
      modifies log
      ensures fresh(r) && r.Valid() && r.frameBufferWidth == width && r.frameBufferHeight == height
      ensures log.calls == old(log.calls) + Graphics.InitializeCalls(s)
      ensures log.exited <==> ViewsExit(true, s.swapChain != Null, s.views) || !Entities.ResourcesCreated(s.triangle)
      ensures !log.exited ==> r.device == s.device
    {
      r := new Graphics.Renderer();
      r.Initialize(log, windowHandle, width, height, s);
    }

    /** The loop of OnCreate over the roots. */
    method CreateSceneResources(log: CallLog, device: Ptr, ghost trees: seq<Tree>)
      requires !log.exited && sceneGraph != null && RootsDescribed(sceneGraph.nodes, trees)
      requires forall n :: n in AllNodes(trees) ==> allocated(n)
      modifies log
      ensures log.calls == old(log.calls) + Notifications(ResourceCreate(device), RootVisits(trees)) && !log.exited
    {
      ghost var start := log.calls;
      var i := 0;
      while i < |sceneGraph.nodes|
        invariant i <= |trees| == |sceneGraph.nodes| && !log.exited && RootsDescribed(sceneGraph.nodes, trees)
        invariant log.calls == start + Notifications(ResourceCreate(device), RootVisits(trees[..i]))
      {
        ghost var before := RootVisits(trees[..i]);
        ghost var t := trees[i];
        assert Nodes(t) <= AllNodes(trees);
        sceneGraph.nodes[i].OnResourceCreate(log, device, t);
        assert trees[..i + 1][..i] == trees[..i];
        NotificationsConcat(ResourceCreate(device), before, Visits(t));
        AppendAssoc(start, Notifications(ResourceCreate(device), before), Notifications(ResourceCreate(device), Visits(t)));
        i := i + 1;
      }
      assert trees[..i] == trees;
    }

    /** BeginFrame once, then each root in order updated with the frame number and
        rendered into the command list, then EndFrame once; with no scene graph only the
        two frame calls. */
    method OnPaint(log: CallLog, frameMetadata: RendererFrameMetadata, ghost trees: seq<Tree>)
      requires !log.exited && renderer != null
      requires sceneGraph != null ==> RootsDescribed(sceneGraph.nodes, trees)
      modifies log
      ensures log.calls == old(log.calls) + [BeginFrame]
        + (if sceneGraph == null then [] else PaintCalls(trees, frameMetadata.frame, frameMetadata.commandList))
        + [EndFrame(frameMetadata.frame, frameMetadata.commandList)]
      ensures !log.exited
    {
      if sceneGraph != null {
        AllNodesAllocated(trees);
      }
      log.Issue(BeginFrame);
      if sceneGraph != null {
        PaintRoots(log, frameMetadata, trees);
      }
      log.Issue(EndFrame(frameMetadata.frame, frameMetadata.commandList));
    }

    /** The loop of OnPaint over the roots. */
    method PaintRoots(log: CallLog, frameMetadata: RendererFrameMetadata, ghost trees: seq<Tree>)
      requires !log.exited && sceneGraph != null && RootsDescribed(sceneGraph.nodes, trees)
      requires forall n :: n in AllNodes(trees) ==> allocated(n)
      modifies log
      ensures log.calls == old(log.calls) + PaintCalls(trees, frameMetadata.frame, frameMetadata.commandList) && !log.exited
    {
      ghost var start := log.calls;
      var frame, commandList := frameMetadata.frame, frameMetadata.commandList;
      var i := 0;
      while i < |sceneGraph.nodes|
        invariant i <= |trees| == |sceneGraph.nodes| && !log.exited && RootsDescribed(sceneGraph.nodes, trees)
        invariant log.calls == start + PaintCalls(trees[..i], frame, commandList)
      {
        ghost var before := PaintCalls(trees[..i], frame, commandList);
        ghost var t := trees[i];
        assert Nodes(t) <= AllNodes(trees);
        PaintRoot(log, sceneGraph.nodes[i], frame, commandList, t);
        PaintStep(start, trees, i, frame, commandList, log.calls);
        i := i + 1;
      }
      assert trees[..i] == trees;
    }

    /** One root of OnPaint: its update walk, then its render walk. */
    method PaintRoot(log: CallLog, sceneNode: SceneNode, frame: nat, commandList: Ptr, ghost t: Tree)
      requires !log.exited && t.node == sceneNode && Describes(t) && forall n :: n in Nodes(t) ==> allocated(n)
      modifies log
      ensures log.calls == old(log.calls) + Notifications(Update(frame), Visits(t)) + Notifications(Render(commandList), Visits(t))
      ensures !log.exited
    {
      sceneNode.OnUpdate(log, frame, t);
      sceneNode.OnRender(log, commandList, t);
    }

    /** Always stores the new size in the properties; forwards it to the renderer's Resize
        only when there is a renderer. */
    method OnSizeChange(log: CallLog, width: nat, height: nat, g1: GpuView, e: ViewEnv, g2: GpuView)
      requires Valid() && !log.exited && width < Int32Modulus && height < Int32Modulus
      requires ValidView(g1) && ValidView(g2) && ValidViewEnv(e)
      modifies log, properties
      modifies if renderer != null then {renderer, renderer.frameFenceValues, renderer.renderTargets} else {}
      ensures Valid()
      ensures properties.width == AsInt(width) && properties.height == AsInt(height)
      ensures renderer == null ==> log.calls == old(log.calls) && !log.exited
      ensures renderer != null && renderer.swapChain == Null ==> log.calls == old(log.calls) + [Fatal] && !log.exited
      ensures renderer != null && renderer.swapChain != Null && !log.exited ==>
        renderer.frameBufferWidth == width && renderer.frameBufferHeight == height
    {
      properties.width := AsInt(width);
      properties.height := AsInt(height);
      if renderer != null {
        renderer.Resize(log, width, height, g1, e, g2);
      }
    }

    /** ~Window: deletes the renderer only when there is one. */
    method Destroy(log: CallLog)
      requires !log.exited
      modifies log
      ensures log.calls == old(log.calls) + (if renderer != null then [DeleteRenderer] else []) && !log.exited
    {
      if renderer != null {
        log.Issue(DeleteRenderer);
      }
    }
  }
}
