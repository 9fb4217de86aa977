/**
 * What the two example viewers share: the imported scene as a tree of
 * nodes that refer to meshes by index, the grouping of face indices into
 * triangles through a stack, and the edge-triggered pause toggle of their
 * render loops.
 */
module Scenes {
  import opened Vk
  import opened Sequences

  /** A float vector of the imported scene; only copied, never computed with. */
  datatype Vec3 = Vec3(x: real, y: real, z: real)
  datatype Vec2 = Vec2(x: real, y: real)

  /** An imported mesh: per-vertex data, faces as lists of vertex indices, and its material's index. */
  datatype AiMesh = AiMesh(
    vertices: seq<Vec3>,
    normals: Option<seq<Vec3>>,
    uvs: Option<seq<Vec2>>,
    faces: seq<seq<nat>>,
    materialIndex: nat)

  /** An imported material: its diffuse colour and, if any, its diffuse texture path. */
  datatype AiMaterial = AiMaterial(diffuse: Vec3, diffuseTexture: Option<string>)

  /** A scene node: indices into the scene's meshes, and child nodes in order. */
  datatype AiNode = AiNode(meshes: seq<nat>, children: seq<AiNode>)

  datatype AiScene = AiScene(meshes: seq<AiMesh>, materials: seq<AiMaterial>, root: AiNode)

  /** Every mesh index in the tree refers to one of `count` meshes. */
  predicate Indexed(node: AiNode, count: nat)
    decreases node
  {
    (forall i :: 0 <= i < |node.meshes| ==> node.meshes[i] < count) &&
    (forall i :: 0 <= i < |node.children| ==> Indexed(node.children[i], count))
  }

  /** The mesh indices of a tree in pre-order: a node's own meshes, then each child's, left to right. */
  function Preorder(node: AiNode): seq<nat>
    decreases node, 1, 0
  {
    node.meshes + ChildrenFrom(node, 0)
  }

  /** The pre-order mesh indices of the children from `i` on. */
  function ChildrenFrom(node: AiNode, i: nat): seq<nat>
    requires i <= |node.children|
    decreases node, 0, |node.children| - i
  {
    if i == |node.children| then [] else Preorder(node.children[i]) + ChildrenFrom(node, i + 1)
  }

  /** The pre-order mesh indices of the first `i` children. */
  function ChildrenUpTo(node: AiNode, i: nat): seq<nat>
    requires i <= |node.children|
  {
    if i == 0 then [] else ChildrenUpTo(node, i - 1) + Preorder(node.children[i - 1])
  }

  lemma {:induction false} ChildrenSplit(node: AiNode, i: nat)
    requires i <= |node.children|
    ensures ChildrenUpTo(node, i) + ChildrenFrom(node, i) == ChildrenFrom(node, 0)
    decreases i
  {
    if i > 0 {
      ChildrenSplit(node, i - 1);
      assert ChildrenFrom(node, i - 1) == Preorder(node.children[i - 1]) + ChildrenFrom(node, i);
    }
  }

  /** The children's pre-order indices, gathered from the first child on, are all of them. */
  lemma ChildrenComplete(node: AiNode)
    ensures ChildrenUpTo(node, |node.children|) == ChildrenFrom(node, 0)
  {
    ChildrenSplit(node, |node.children|);
  }

  /** All face indices, face after face. */
  function Flatten(faces: seq<seq<nat>>): seq<nat>
  {
    if faces == [] then [] else faces[0] + Flatten(faces[1..])
  }

  /**
   * The triangles the stack produces from a run of indices: each full run of
   * three pushed indices is popped and emitted most recent first; fewer than
   * three left over are dropped.
   */
  function Grouped(flat: seq<nat>): seq<nat>
  {
    if |flat| < 3 then [] else [flat[2], flat[1], flat[0]] + Grouped(flat[3..])
  }

  /** With N indices the output has 3 * (N div 3) of them: a multiple of three, within two of N. */
  lemma {:induction false} GroupedLength(flat: seq<nat>)
    ensures |Grouped(flat)| % 3 == 0
    ensures |Grouped(flat)| <= |flat| < |Grouped(flat)| + 3
  {
    if |flat| >= 3 {
      GroupedLength(flat[3..]);
    }
  }

  /** Triangle k is the k-th run of three indices, reversed. */
  lemma {:induction false} GroupedTriple(flat: seq<nat>, k: nat)
    requires 3 * k + 3 <= |flat|
    ensures |Grouped(flat)| >= 3 * k + 3
    ensures Grouped(flat)[3 * k] == flat[3 * k + 2]
    ensures Grouped(flat)[3 * k + 1] == flat[3 * k + 1]
    ensures Grouped(flat)[3 * k + 2] == flat[3 * k]
  {
    GroupedLength(flat);
    if k > 0 {
      GroupedTriple(flat[3..], k - 1);
    }
  }

  /** Some triangle comes out exactly when at least three indices go in. */
  lemma GroupedEmpty(flat: seq<nat>)
    ensures Grouped(flat) == [] <==> |flat| < 3
  {
    GroupedLength(flat);
  }

  /** Pushing one index onto a stack of fewer than three: what is owed stays the same. */
  lemma PushStep(total: seq<nat>, triangles: seq<nat>, stack: seq<nat>, x: nat, rest: seq<nat>)
    requires |stack| < 3
    requires total == triangles + Grouped(stack + ([x] + rest))
    ensures |stack + [x]| == 3 ==>
      total == (triangles + [x, stack[1], stack[0]]) + Grouped([] + rest)
    ensures |stack + [x]| < 3 ==> total == triangles + Grouped((stack + [x]) + rest)
  {
    AppendAssoc(stack, [x], rest);
    if |stack + [x]| == 3 {
      var s := stack + [x] + rest;
      assert s[3..] == rest && s[0] == stack[0] && s[1] == stack[1] && s[2] == x;
      assert [] + rest == rest;
    }
  }

  /**
   * The face loop of process_mesh: every face index is pushed on one stack
   * shared by all faces; whenever the stack holds three, they are popped
   * (top first) onto the triangle list. The stack never holds three
   * indices between pushes, and the triangles are those of the flattened
   * face indices.
   */
  method GroupTriangles(faces: seq<seq<nat>>) returns (triangles: seq<nat>)
    ensures triangles == Grouped(Flatten(faces))
  {
    triangles := [];
    var stack: seq<nat> := [];
    var i := 0;
    assert stack + Flatten(faces[i..]) == Flatten(faces) by {
      assert faces[0..] == faces;
    }
    while i < |faces|
      invariant 0 <= i <= |faces|
      invariant |stack| < 3
      invariant Grouped(Flatten(faces)) == triangles + Grouped(stack + Flatten(faces[i..]))
    {
      var face := faces[i];
      assert Flatten(faces[i..]) == face + Flatten(faces[i + 1..]) by {
        assert faces[i..][1..] == faces[i + 1..];
      }
      var j := 0;
      while j < |face|
        invariant 0 <= j <= |face|
        invariant |stack| < 3
        invariant Grouped(Flatten(faces)) == triangles + Grouped(stack + (face[j..] + Flatten(faces[i + 1..])))
      {
        SuffixCons(face, j);
        AppendAssoc([face[j]], face[j + 1..], Flatten(faces[i + 1..]));
        PushStep(Grouped(Flatten(faces)), triangles, stack, face[j], face[j + 1..] + Flatten(faces[i + 1..]));
        stack := stack + [face[j]];
        if |stack| >= 3 {
          var i0 := stack[|stack| - 1];
          stack := stack[..|stack| - 1];
          var i1 := stack[|stack| - 1];
          stack := stack[..|stack| - 1];
          var i2 := stack[|stack| - 1];
          stack := stack[..|stack| - 1];
          triangles := triangles + [i0, i1, i2];
        }
        j := j + 1;
      }
      assert face[j..] + Flatten(faces[i + 1..]) == Flatten(faces[i + 1..]);
      i := i + 1;
    }
    assert stack + Flatten(faces[i..]) == stack;
  }

  /**
   * Whether a mesh index refers to one of the meshes and that mesh's faces
   * hold at least three indices, so that the stack emits a triangle.
   */
  predicate YieldsTriangles(meshes: seq<AiMesh>, x: nat)
  {
    x < |meshes| && |Flatten(meshes[x].faces)| >= 3
  }

  /**
   * The mesh indices, in order, whose meshes yield triangles: the meshes
   * both viewers keep. (An index past the scene's meshes never occurs in an
   * indexed tree; it is skipped.)
   */
  function NonEmptyIds(meshes: seq<AiMesh>, ids: seq<nat>): (r: seq<nat>)
    ensures forall k :: 0 <= k < |r| ==> YieldsTriangles(meshes, r[k])
  {
    if ids == [] then []
    else if YieldsTriangles(meshes, ids[0]) then [ids[0]] + NonEmptyIds(meshes, ids[1..])
    else NonEmptyIds(meshes, ids[1..])
  }

  /** Filtering a concatenation filters each part. */
  lemma {:induction false} NonEmptyIdsAppend(meshes: seq<AiMesh>, a: seq<nat>, b: seq<nat>)
    ensures NonEmptyIds(meshes, a + b) == NonEmptyIds(meshes, a) + NonEmptyIds(meshes, b)
  {
    if a != [] {
      assert (a + b)[0] == a[0] && (a + b)[1..] == a[1..] + b;
      NonEmptyIdsAppend(meshes, a[1..], b);
      if YieldsTriangles(meshes, a[0]) {
        AppendAssoc([a[0]], NonEmptyIds(meshes, a[1..]), NonEmptyIds(meshes, b));
      }
    } else {
      assert a + b == b;
    }
  }

  /** The pause state of the render loops: paused, and whether space was down last iteration. */
  datatype PauseState = PauseState(paused: bool, pressed: bool)

  /**
   * One iteration of the pause handling: pressing space toggles the pause
   * only on the iteration where it goes down; holding it does nothing more.
   */
  function PauseStep(s: PauseState, spaceDown: bool): (t: PauseState)
    ensures t.paused != s.paused <==> spaceDown && !s.pressed
    ensures t.pressed == spaceDown
  {
    if spaceDown then
      if !s.pressed then PauseState(!s.paused, true) else s
    else s.(pressed := false)
  }

  /** `n` iterations with space held down. */
  function HoldSpace(s: PauseState, n: nat): PauseState
    decreases n
  {
    if n == 0 then s else HoldSpace(PauseStep(s, true), n - 1)
  }

  /** Holding space for any number of iterations toggles the pause once. */
  lemma {:induction false} HoldTogglesOnce(s: PauseState, n: nat)
    requires n >= 1 && !s.pressed
    ensures HoldSpace(s, n) == PauseState(!s.paused, true)
  {
    if n > 1 {
      HoldsAfterPress(PauseStep(s, true), n - 1);
    }
  }

  lemma {:induction false} HoldsAfterPress(s: PauseState, n: nat)
    requires s.pressed
    ensures HoldSpace(s, n) == s
  {
    if n > 0 {
      HoldsAfterPress(PauseStep(s, true), n - 1);
    }
  }
}
