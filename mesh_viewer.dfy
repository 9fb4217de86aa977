/**
 * The mesh viewer example: it loads the first mesh of an imported scene
 * that yields any triangles, and draws it in a loop that alternates
 * between two frames in flight, skips a frame when the swapchain must be
 * resized before acquisition, and stops when the window closes.
 */
module MeshViewer {
  import opened Vk
  import opened Scenes
  import opened Presentation

  /** A vertex of the viewer: position and normal. */
  datatype Vertex = Vertex(position: Vec3, normal: Vec3)

  datatype Mesh = Mesh(vertices: seq<Vertex>, indices: seq<nat>)

  const EmptyMesh := Mesh([], [])

  /** process_mesh reads a normal for every vertex. */
  predicate HasNormals(m: AiMesh)
  {
    m.normals.Some? && |m.normals.value| == |m.vertices|
  }

  /** The vertices of process_mesh: each position with the normal of the same index. */
  function Paired(positions: seq<Vec3>, normals: seq<Vec3>): (vs: seq<Vertex>)
    requires |positions| == |normals|
    ensures |vs| == |positions|
    ensures forall i :: 0 <= i < |vs| ==> vs[i] == Vertex(positions[i], normals[i])
  {
    if positions == [] then [] else [Vertex(positions[0], normals[0])] + Paired(positions[1..], normals[1..])
  }

  /** What process_mesh yields for an imported mesh. */
  function ProcessedMesh(m: AiMesh): Mesh
    requires HasNormals(m)
  {
    Mesh(Paired(m.vertices, m.normals.value), Grouped(Flatten(m.faces)))
  }

  /**
   * process_mesh: one vertex per imported vertex, in order, and the
   * triangles the face stack produces.
   */
  method ProcessMesh(m: AiMesh) returns (mesh: Mesh)
    requires HasNormals(m)
    ensures mesh == ProcessedMesh(m)
    ensures |mesh.vertices| == |m.vertices|
    ensures forall i :: 0 <= i < |m.vertices| ==> mesh.vertices[i] == Vertex(m.vertices[i], m.normals.value[i])
    ensures |mesh.indices| % 3 == 0
  {
    var vertices: seq<Vertex> := [];
    var i := 0;
    while i < |m.vertices|
      invariant 0 <= i <= |m.vertices|
      invariant |vertices| == i
      invariant forall k :: 0 <= k < i ==> vertices[k] == Vertex(m.vertices[k], m.normals.value[k])
    {
      vertices := vertices + [Vertex(m.vertices[i], m.normals.value[i])];
      i := i + 1;
    }
    var triangles := GroupTriangles(m.faces);
    mesh := Mesh(vertices, triangles);
    GroupedLength(Flatten(m.faces));
  }

  /** Every mesh of the scene carries normals (the importer is asked to generate them). */
  predicate AllHaveNormals(meshes: seq<AiMesh>)
  {
    forall k :: 0 <= k < |meshes| ==> HasNormals(meshes[k])
  }

  /**
   * process_node: the node's own meshes first, then each child in turn; the
   * first mesh with triangles wins, and the result is the empty mesh only
   * when none has any.
   */
  function ProcessNode(meshes: seq<AiMesh>, node: AiNode): (m: Mesh)
    requires AllHaveNormals(meshes) && Indexed(node, |meshes|)
    ensures |m.indices| > 0 || m == EmptyMesh
    decreases node, 3, 0
  {
    MeshLoop(meshes, node, 0)
  }

  /** The loop over the node's own meshes, from the i-th on. */
  function MeshLoop(meshes: seq<AiMesh>, node: AiNode, i: nat): (m: Mesh)
    requires AllHaveNormals(meshes) && Indexed(node, |meshes|) && i <= |node.meshes|
    ensures |m.indices| > 0 || m == EmptyMesh
    decreases node, 2, |node.meshes| - i
  {
    if i == |node.meshes| then ChildLoop(meshes, node, 0)
    else
      var processed := ProcessedMesh(meshes[node.meshes[i]]);
      if |processed.indices| > 0 then processed else MeshLoop(meshes, node, i + 1)
  }

  /** The loop over the node's children, from the i-th on. */
  function ChildLoop(meshes: seq<AiMesh>, node: AiNode, i: nat): (m: Mesh)
    requires AllHaveNormals(meshes) && Indexed(node, |meshes|) && i <= |node.children|
    ensures |m.indices| > 0 || m == EmptyMesh
    decreases node, 1, |node.children| - i
  {
    if i == |node.children| then EmptyMesh
    else
      var processed := ProcessNode(meshes, node.children[i]);
      if |processed.indices| > 0 then processed else ChildLoop(meshes, node, i + 1)
  }

  /**
   * The first of a list of mesh indices whose processed mesh has triangles,
   * processed; the empty mesh when there is none. (An index past the
   * scene's meshes never occurs in an indexed tree; it is skipped.)
   */
  function FirstMesh(meshes: seq<AiMesh>, ids: seq<nat>): Mesh
    requires AllHaveNormals(meshes)
  {
    if ids == [] then EmptyMesh
    else if YieldsTriangles(meshes, ids[0]) then ProcessedMesh(meshes[ids[0]])
    else FirstMesh(meshes, ids[1..])
  }

  /** FirstMesh is the processed mesh of the first index with triangles. */
  lemma {:induction false} FirstMeshIsFirstNonEmpty(meshes: seq<AiMesh>, ids: seq<nat>)
    requires AllHaveNormals(meshes)
    ensures NonEmptyIds(meshes, ids) == [] ==> FirstMesh(meshes, ids) == EmptyMesh
    ensures NonEmptyIds(meshes, ids) != [] ==> FirstMesh(meshes, ids) == ProcessedMesh(meshes[NonEmptyIds(meshes, ids)[0]])
  {
    if ids != [] && !YieldsTriangles(meshes, ids[0]) {
      FirstMeshIsFirstNonEmpty(meshes, ids[1..]);
    }
  }

  /** The first mesh of a concatenation: the first part's, unless it has none. */
  lemma {:induction false} FirstMeshAppend(meshes: seq<AiMesh>, a: seq<nat>, b: seq<nat>)
    requires AllHaveNormals(meshes)
    ensures FirstMesh(meshes, a + b) == if |FirstMesh(meshes, a).indices| > 0 then FirstMesh(meshes, a) else FirstMesh(meshes, b)
  {
    if a == [] {
      assert a + b == b;
    } else {
      assert (a + b)[1..] == a[1..] + b;
      if !YieldsTriangles(meshes, a[0]) {
        FirstMeshAppend(meshes, a[1..], b);
      }
    }
  }

  /** A mesh found this way always has triangles; the empty mesh has none. */
  lemma {:induction false} FirstMeshFound(meshes: seq<AiMesh>, ids: seq<nat>)
    requires AllHaveNormals(meshes)
    ensures FirstMesh(meshes, ids) == EmptyMesh || |FirstMesh(meshes, ids).indices| > 0
  {
    if ids != [] && !YieldsTriangles(meshes, ids[0]) {
      FirstMeshFound(meshes, ids[1..]);
    }
  }

  /**
   * process_node returns the processed mesh of the first mesh, in pre-order
   * over the tree, that has any triangles; an empty mesh when none has.
   */
  lemma {:induction false} ProcessNodeIsFirstInPreorder(meshes: seq<AiMesh>, node: AiNode)
    requires AllHaveNormals(meshes) && Indexed(node, |meshes|)
    ensures ProcessNode(meshes, node) == FirstMesh(meshes, Preorder(node))
    decreases node, 3, 0
  {
    MeshLoopIsFirst(meshes, node, 0);
    assert node.meshes[0..] == node.meshes;
  }

  lemma {:induction false} MeshLoopIsFirst(meshes: seq<AiMesh>, node: AiNode, i: nat)
    requires AllHaveNormals(meshes) && Indexed(node, |meshes|) && i <= |node.meshes|
    ensures MeshLoop(meshes, node, i) == FirstMesh(meshes, node.meshes[i..] + ChildrenFrom(node, 0))
    decreases node, 2, |node.meshes| - i
  {
    var rest := node.meshes[i..] + ChildrenFrom(node, 0);
    if i == |node.meshes| {
      ChildLoopIsFirst(meshes, node, 0);
      assert rest == ChildrenFrom(node, 0);
    } else {
      MeshLoopIsFirst(meshes, node, i + 1);
      assert rest[0] == node.meshes[i];
      assert rest[1..] == node.meshes[i + 1..] + ChildrenFrom(node, 0);
      GroupedEmpty(Flatten(meshes[node.meshes[i]].faces));
    }
  }

  lemma {:induction false} ChildLoopIsFirst(meshes: seq<AiMesh>, node: AiNode, i: nat)
    requires AllHaveNormals(meshes) && Indexed(node, |meshes|) && i <= |node.children|
    ensures ChildLoop(meshes, node, i) == FirstMesh(meshes, ChildrenFrom(node, i))
    decreases node, 1, |node.children| - i
  {
    if i < |node.children| {
      var child := node.children[i];
      ProcessNodeIsFirstInPreorder(meshes, child);
      ChildLoopIsFirst(meshes, node, i + 1);
      FirstMeshAppend(meshes, Preorder(child), ChildrenFrom(node, i + 1));
      FirstMeshFound(meshes, Preorder(child));
    }
  }

  /** The same, stated with the list of meshes that have triangles. */
  lemma ProcessNodePicksFirstNonEmpty(meshes: seq<AiMesh>, root: AiNode)
    requires AllHaveNormals(meshes) && Indexed(root, |meshes|)
    ensures var ids := NonEmptyIds(meshes, Preorder(root));
      ProcessNode(meshes, root) == if ids == [] then EmptyMesh else ProcessedMesh(meshes[ids[0]])
  {
    ProcessNodeIsFirstInPreorder(meshes, root);
    FirstMeshIsFirstNonEmpty(meshes, Preorder(root));
  }

  /**
   * load_mesh: the empty mesh when the importer reports no usable scene
   * (none, incomplete, or without a root node); otherwise the processed
   * mesh of the first mesh, in pre-order, that yields triangles, or the
   * empty mesh when none does.
   */
  function LoadMesh(scene: Option<AiScene>): (m: Mesh)
    requires scene.Some? ==> AllHaveNormals(scene.value.meshes) && Indexed(scene.value.root, |scene.value.meshes|)
    ensures scene.None? ==> m == EmptyMesh
    ensures scene.Some? ==> var ids := NonEmptyIds(scene.value.meshes, Preorder(scene.value.root));
      m == if ids == [] then EmptyMesh else ProcessedMesh(scene.value.meshes[ids[0]])
    ensures m == EmptyMesh || |m.indices| > 0
  {
    match scene
    case None => EmptyMesh
    case Some(sc) =>
      ProcessNodePicksFirstNonEmpty(sc.meshes, sc.root);
      ProcessNodeIsFirstInPreorder(sc.meshes, sc.root);
      FirstMeshFound(sc.meshes, Preorder(sc.root));
      ProcessNode(sc.meshes, sc.root)
  }

  /** What one iteration of the render loop observes: window, keyboard, and the swapchain's answers. */
  datatype Tick = Tick(shouldClose: bool, spaceDown: bool, acquireResult: VkResult, imageIndex: nat, presentResult: VkResult)

  /** A command buffer submitted with the frame's synchronisation objects, for a swapchain image. */
  datatype Submission = Submission(frame: nat, imageIndex: nat)

  /** How the loop stopped: the window was closed, or an error escaped it. */
  datatype LoopEnd = Closed | Escaped(error: VkResult)

  /** The loop's state: the frame in flight, pause state, frames completed, resizes, submissions, and whether it stopped. */
  datatype LoopState = LoopState(
    frame: nat,
    pause: PauseState,
    advanced: nat,
    resizes: nat,
    submitted: seq<Submission>,
    ended: Option<LoopEnd>)

  const Start := LoopState(0, PauseState(false, false), 0, 0, [], None)

  /**
   * Which acquire_image the loop calls: the library as written, where an
   * out-of-date swapchain escapes as an error, or the corrected one, which
   * reports it as a resize.
   */
  datatype Library = AsWritten | Corrected

  /** The loop's acquisition under the given library. */
  function Acquire(library: Library, result: VkResult, imageIndex: nat): (o: Outcome<Acquired>)
    ensures library == AsWritten ==> o == AcquireImageAsWritten(result, imageIndex)
    ensures library == Corrected ==> o == AcquireImage(result, imageIndex)
  {
    match library
    case AsWritten => AcquireImageAsWritten(result, imageIndex)
    case Corrected => AcquireImage(result, imageIndex)
  }

  /**
   * One iteration: close the window and stop; otherwise update the pause
   * state, acquire an image (on a resize, resize and start over with the
   * same frame), submit, present (resizing if asked), and flip the frame.
   */
  function Iterate(library: Library, s: LoopState, t: Tick): (r: LoopState)
    requires s.frame <= 1
    ensures r.frame <= 1
  {
    if t.shouldClose then s.(ended := Some(Closed))
    else
      var pause := PauseStep(s.pause, t.spaceDown);
      match Acquire(library, t.acquireResult, t.imageIndex)
      case Propagated(e) => s.(pause := pause, ended := Some(Escaped(e)))
      case Completed(a) =>
        if a.op.status == Resize then s.(pause := pause, resizes := s.resizes + 1)
        else
          var submitted := s.submitted + [Submission(s.frame, a.op.index)];
          match PresentImage(t.presentResult)
          case Propagated(e) => s.(pause := pause, submitted := submitted, ended := Some(Escaped(e)))
          case Completed(p) =>
            LoopState(1 - s.frame, pause, s.advanced + 1, s.resizes + (if p.status == Resize then 1 else 0), submitted, None)
  }

  /** The loop over a sequence of observations, until it stops or they run out. */
  function Run(library: Library, s: LoopState, ticks: seq<Tick>): LoopState
    requires s.frame <= 1
    decreases |ticks|
  {
    if ticks == [] || s.ended.Some? then s
    else Run(library, Iterate(library, s, ticks[0]), ticks[1..])
  }

  /**
   * The render loop of the mesh viewer, fed one observation per iteration.
   * It is the iteration above repeated until the window closes or an error
   * escapes.
   */
  method RenderLoop(library: Library, ticks: seq<Tick>) returns (s: LoopState)
    ensures s == Run(library, Start, ticks)
    ensures s.frame <= 1
  {
    var frame: nat := 0;
    var pause := PauseState(false, false);
    var advanced: nat := 0;
    var resizes: nat := 0;
    var submitted: seq<Submission> := [];
    var i := 0;
    while i < |ticks|
      invariant 0 <= i <= |ticks| && frame <= 1
      invariant Run(library, Start, ticks) == Run(library, LoopState(frame, pause, advanced, resizes, submitted, None), ticks[i..])
    {
      var here := LoopState(frame, pause, advanced, resizes, submitted, None);
      var t := ticks[i];
      ghost var next := Iterate(library, here, t);
      assert Run(library, here, ticks[i..]) == Run(library, next, ticks[i + 1..]) by {
        assert ticks[i..][1..] == ticks[i + 1..];
      }
      i := i + 1;
      if t.shouldClose {
        s := here.(ended := Some(Closed));
        assert s == next;
        return;
      }
      pause := PauseStep(pause, t.spaceDown);
      var acquired := Acquire(library, t.acquireResult, t.imageIndex);
      if acquired.Propagated? {
        s := LoopState(frame, pause, advanced, resizes, submitted, Some(Escaped(acquired.error)));
        assert s == next;
        return;
      }
      var op := acquired.value.op;
      if op.status == Resize {
        resizes := resizes + 1;
        assert next == LoopState(frame, pause, advanced, resizes, submitted, None);
        continue;
      }
      submitted := submitted + [Submission(frame, op.index)];
      var presented := PresentImage(t.presentResult);
      if presented.Propagated? {
        s := LoopState(frame, pause, advanced, resizes, submitted, Some(Escaped(presented.error)));
        assert s == next;
        return;
      }
      if presented.value.status == Resize {
        resizes := resizes + 1;
      }
      frame := 1 - frame;
      advanced := advanced + 1;
      assert next == LoopState(frame, pause, advanced, resizes, submitted, None);
    }
    s := LoopState(frame, pause, advanced, resizes, submitted, None);
  }

  /** The frame in flight is the parity of the frames completed: the loop alternates the two. */
  lemma {:induction false} FrameIsParity(library: Library, s: LoopState, ticks: seq<Tick>)
    requires s.frame == s.advanced % 2
    ensures Run(library, s, ticks).frame == Run(library, s, ticks).advanced % 2
    decreases |ticks|
  {
    if ticks != [] && s.ended.None? {
      FrameIsParity(library, Iterate(library, s, ticks[0]), ticks[1..]);
    }
  }

  /**
   * As written, an out-of-date swapchain at acquisition is an error that
   * escapes the loop: nothing is submitted, nothing is resized, and the
   * resize branch after acquisition is never taken.
   */
  lemma AcquireOutOfDateEscapes(s: LoopState, t: Tick, rest: seq<Tick>)
    requires s.frame <= 1 && s.ended.None? && !t.shouldClose && t.acquireResult == ErrorOutOfDateKHR
    ensures Iterate(AsWritten, s, t) == s.(pause := PauseStep(s.pause, t.spaceDown), ended := Some(Escaped(ErrorOutOfDateKHR)))
    ensures Run(AsWritten, s, [t] + rest) == Iterate(AsWritten, s, t)
  {
    assert ([t] + rest)[1..] == rest;
  }

  /** With the corrected acquire, a resize before acquisition submits nothing and keeps the frame; the loop goes on. */
  lemma AcquireResizeSkips(s: LoopState, t: Tick)
    requires s.frame <= 1 && !t.shouldClose && t.acquireResult == ErrorOutOfDateKHR
    ensures Iterate(Corrected, s, t) == s.(pause := PauseStep(s.pause, t.spaceDown), resizes := s.resizes + 1)
  {
  }

  /** A resize after presentation still completes the frame: it was submitted and the frame flips. */
  lemma PresentResizeCompletes(library: Library, s: LoopState, t: Tick)
    requires s.frame <= 1 && !t.shouldClose && t.acquireResult == Success && t.presentResult == ErrorOutOfDateKHR
    ensures Iterate(library, s, t).submitted == s.submitted + [Submission(s.frame, t.imageIndex)]
    ensures Iterate(library, s, t).frame == 1 - s.frame && Iterate(library, s, t).resizes == s.resizes + 1
    ensures Iterate(library, s, t).ended.None?
  {
  }

  /**
   * A timed-out or not-ready acquisition is not a resize: the frame is still
   * recorded and submitted, for image 0. The mesh viewer never meets this
   * case, since acquire_image waits without a timeout (UINT64_MAX), so
   * neither answer can come back; the lemma records what the loop would do.
   */
  lemma FailedAcquireStillSubmits(library: Library, s: LoopState, t: Tick)
    requires s.frame <= 1 && !t.shouldClose && (t.acquireResult == Timeout || t.acquireResult == NotReady)
    requires t.presentResult == Success
    ensures Iterate(library, s, t).submitted == s.submitted + [Submission(s.frame, 0)]
    ensures Iterate(library, s, t).frame == 1 - s.frame
  {
  }

  /** The loop reports a closed window only after an observation that the window should close. */
  lemma {:induction false} ClosedOnlyOnRequest(library: Library, s: LoopState, ticks: seq<Tick>)
    requires s.frame <= 1 && s.ended.None?
    ensures Run(library, s, ticks).ended == Some(Closed) ==> exists k :: 0 <= k < |ticks| && ticks[k].shouldClose
    decreases |ticks|
  {
    if ticks != [] {
      var next := Iterate(library, s, ticks[0]);
      if next.ended.None? {
        ClosedOnlyOnRequest(library, next, ticks[1..]);
        if Run(library, s, ticks).ended == Some(Closed) {
          var k :| 0 <= k < |ticks[1..]| && ticks[1..][k].shouldClose;
          assert ticks[k + 1].shouldClose;
        }
      } else if Run(library, s, ticks).ended == Some(Closed) {
        assert Run(library, next, ticks[1..]) == next;
        assert ticks[0].shouldClose;
      }
    }
  }

  /** The acquisition answers the loop handles: out-of-date only with the corrected acquire. */
  function HandledAcquires(library: Library): (rs: set<VkResult>)
    ensures {Success, SuboptimalKHR, Timeout, NotReady} <= rs
    ensures ErrorOutOfDateKHR in rs <==> library == Corrected
  {
    if library == Corrected then {Success, SuboptimalKHR, Timeout, NotReady, ErrorOutOfDateKHR}
    else {Success, SuboptimalKHR, Timeout, NotReady}
  }

  /**
   * Without a close request and with every answer a handled one, the loop
   * runs through all observations. As written, an out-of-date acquisition
   * is not handled (it escapes); an out-of-date presentation is.
   */
  lemma {:induction false} RunsToEnd(library: Library, s: LoopState, ticks: seq<Tick>)
    requires s.frame <= 1 && s.ended.None?
    requires forall k :: 0 <= k < |ticks| ==> !ticks[k].shouldClose
    requires forall k :: 0 <= k < |ticks| ==> ticks[k].acquireResult in HandledAcquires(library)
    requires forall k :: 0 <= k < |ticks| ==> ticks[k].presentResult in {Success, SuboptimalKHR, ErrorOutOfDateKHR}
    ensures Run(library, s, ticks).ended.None?
    ensures |Run(library, s, ticks).submitted| <= |s.submitted| + |ticks|
    decreases |ticks|
  {
    if ticks != [] {
      RunsToEnd(library, Iterate(library, s, ticks[0]), ticks[1..]);
    }
  }
}
