/**
 * The model viewer example: it keeps every mesh of an imported scene that
 * yields triangles, with its material's colour and texture path; uploads
 * each into buffers, loading each texture file once through a cache; gives
 * textured meshes a descriptor set; and draws all meshes in a loop over two
 * frames in flight.
 */
module ModelViewer {
  import opened Vk
  import opened Deallocation
  import opened Allocation
  import opened Descriptors
  import opened Scenes
  import Pipelines
  import opened Sequences

  /** A vertex of the viewer; a normal or texture coordinate the mesh lacks is left unset (uninitialised in the source; None here). */
  datatype Vertex = Vertex(position: Vec3, normal: Option<Vec3>, uv: Option<Vec2>)

  /** A processed mesh: vertices, triangle indices, albedo colour and albedo texture path ("" when none). */
  datatype Mesh = Mesh(vertices: seq<Vertex>, indices: seq<nat>, albedoColor: Vec3, albedoPath: string)

  /** An imported mesh's optional per-vertex arrays have one entry per vertex. */
  predicate WellFormed(m: AiMesh)
  {
    (m.normals.Some? ==> |m.normals.value| == |m.vertices|) &&
    (m.uvs.Some? ==> |m.uvs.value| == |m.vertices|)
  }

  /** Every mesh is well formed and its material index refers to one of the scene's materials. */
  predicate WellFormedScene(meshes: seq<AiMesh>, materials: seq<AiMaterial>)
  {
    forall k :: 0 <= k < |meshes| ==> WellFormed(meshes[k]) && meshes[k].materialIndex < |materials|
  }

  /** std::replace of every backslash by a slash. */
  function ReplaceBackslashes(s: string): (r: string)
    ensures |r| == |s|
    ensures forall i :: 0 <= i < |s| ==> r[i] != '\\'
    ensures forall i :: 0 <= i < |s| ==> s[i] != '\\' ==> r[i] == s[i]
    ensures forall i :: 0 <= i < |s| ==> s[i] == '\\' ==> r[i] == '/'
  {
    if s == [] then [] else [if s[0] == '\\' then '/' else s[0]] + ReplaceBackslashes(s[1..])
  }

  predicate IsAbsolute(p: string)
  {
    |p| > 0 && p[0] == '/'
  }

  /**
   * std::filesystem's `dir / p` on POSIX paths: an absolute `p` replaces
   * the directory; otherwise `p` is appended, with a separator unless the
   * directory is empty or already ends in one.
   */
  function JoinPath(dir: string, p: string): (r: string)
    ensures |r| >= |p| && r[|r| - |p|..] == p
    ensures IsAbsolute(p) || dir == "" ==> r == p
    ensures !IsAbsolute(p) && dir != "" ==> |r| == |dir| + |p| + (if dir[|dir| - 1] == '/' then 0 else 1)
    ensures !IsAbsolute(p) && dir != "" ==> r[..|dir|] == dir
    ensures !IsAbsolute(p) && dir != "" && dir[|dir| - 1] != '/' ==> r[|dir|] == '/'
  {
    if IsAbsolute(p) || dir == "" then p
    else if dir[|dir| - 1] == '/' then dir + p
    else dir + "/" + p
  }

  /** The albedo path of a material: its diffuse texture, separators normalised, under the scene's directory. */
  function TexturePath(material: AiMaterial, dir: string): string
  {
    match material.diffuseTexture
    case None => ""
    case Some(p) => JoinPath(dir, ReplaceBackslashes(p))
  }

  /** The i-th vertex of process_mesh. */
  function VertexAt(m: AiMesh, i: nat): Vertex
    requires WellFormed(m) && i < |m.vertices|
  {
    Vertex(
      m.vertices[i],
      if m.normals.Some? then Some(m.normals.value[i]) else None,
      if m.uvs.Some? then Some(m.uvs.value[i]) else None)
  }

  /** The vertices of process_mesh, one per imported vertex. */
  function ProcessedVertices(m: AiMesh): (vs: seq<Vertex>)
    requires WellFormed(m)
    ensures |vs| == |m.vertices|
    ensures forall i :: 0 <= i < |vs| ==> vs[i] == VertexAt(m, i)
  {
    seq(|m.vertices|, i requires 0 <= i < |m.vertices| => VertexAt(m, i))
  }

  /** What process_mesh yields for an imported mesh. */
  function ProcessedMesh(m: AiMesh, materials: seq<AiMaterial>, dir: string): Mesh
    requires WellFormed(m) && m.materialIndex < |materials|
  {
    Mesh(
      ProcessedVertices(m),
      Grouped(Flatten(m.faces)),
      materials[m.materialIndex].diffuse,
      TexturePath(materials[m.materialIndex], dir))
  }

  /**
   * process_mesh: every imported vertex with its normal and texture
   * coordinate when the mesh has them, the triangles of the face stack,
   * and the colour and texture path of the mesh's material.
   */
  method ProcessMesh(m: AiMesh, materials: seq<AiMaterial>, dir: string) returns (mesh: Mesh)
    requires WellFormed(m) && m.materialIndex < |materials|
    ensures mesh == ProcessedMesh(m, materials, dir)
  {
    var vertices: seq<Vertex> := [];
    var i := 0;
    while i < |m.vertices|
      invariant 0 <= i <= |m.vertices|
      invariant |vertices| == i
      invariant forall k :: 0 <= k < i ==> vertices[k] == VertexAt(m, k)
    {
      var normal: Option<Vec3> := None;
      if m.normals.Some? {
        normal := Some(m.normals.value[i]);
      }
      var uv: Option<Vec2> := None;
      if m.uvs.Some? {
        uv := Some(m.uvs.value[i]);
      }
      vertices := vertices + [Vertex(m.vertices[i], normal, uv)];
      i := i + 1;
    }
    assert vertices == ProcessedVertices(m);
    var triangles := GroupTriangles(m.faces);
    var material := materials[m.materialIndex];
    var path := "";
    if material.diffuseTexture.Some? {
      path := JoinPath(dir, ReplaceBackslashes(material.diffuseTexture.value));
    }
    mesh := Mesh(vertices, triangles, material.diffuse, path);
  }

  /**
   * A processed mesh has one vertex per imported vertex, with a normal and
   * texture coordinate exactly when the mesh has them; whole triangles; its
   * material's colour; and a texture path only when the material has a
   * diffuse texture.
   */
  lemma ProcessedMeshShape(m: AiMesh, materials: seq<AiMaterial>, dir: string)
    requires WellFormed(m) && m.materialIndex < |materials|
    ensures var mesh := ProcessedMesh(m, materials, dir);
      |mesh.vertices| == |m.vertices| &&
      (forall i :: 0 <= i < |m.vertices| ==> mesh.vertices[i].position == m.vertices[i]) &&
      (forall i :: 0 <= i < |m.vertices| ==> (mesh.vertices[i].normal.Some? <==> m.normals.Some?)) &&
      (forall i :: 0 <= i < |m.vertices| ==> (mesh.vertices[i].uv.Some? <==> m.uvs.Some?)) &&
      |mesh.indices| % 3 == 0 &&
      mesh.albedoColor == materials[m.materialIndex].diffuse &&
      (mesh.albedoPath != "" ==> materials[m.materialIndex].diffuseTexture.Some?)
  {
    GroupedLength(Flatten(m.faces));
  }

  /**
   * `model` holds, in order, the processed mesh of each index of `kept`:
   * one entry per index and nothing else.
   */
  predicate ProcessedAll(meshes: seq<AiMesh>, materials: seq<AiMaterial>, dir: string, model: seq<Mesh>, kept: seq<nat>)
    requires WellFormedScene(meshes, materials)
  {
    |model| == |kept| &&
    forall k :: 0 <= k < |kept| ==> kept[k] < |meshes| && model[k] == ProcessedMesh(meshes[kept[k]], materials, dir)
  }

  /** The indices to process determine the model: there is one model for them. */
  lemma ProcessedAllDetermines(meshes: seq<AiMesh>, materials: seq<AiMaterial>, dir: string, model: seq<Mesh>, other: seq<Mesh>, kept: seq<nat>)
    requires WellFormedScene(meshes, materials)
    requires ProcessedAll(meshes, materials, dir, model, kept) && ProcessedAll(meshes, materials, dir, other, kept)
    ensures model == other
  {
  }

  /** Two processed runs, joined, are the processed run of the joined indices. */
  lemma ProcessedAllAppend(meshes: seq<AiMesh>, materials: seq<AiMaterial>, dir: string, m1: seq<Mesh>, k1: seq<nat>, m2: seq<Mesh>, k2: seq<nat>)
    requires WellFormedScene(meshes, materials)
    requires ProcessedAll(meshes, materials, dir, m1, k1) && ProcessedAll(meshes, materials, dir, m2, k2)
    ensures ProcessedAll(meshes, materials, dir, m1 + m2, k1 + k2)
  {
    forall k | |k1| <= k < |k1| + |k2|
      ensures (k1 + k2)[k] < |meshes| && (m1 + m2)[k] == ProcessedMesh(meshes[(k1 + k2)[k]], materials, dir)
    {
      assert (k1 + k2)[k] == k2[k - |k1|] && (m1 + m2)[k] == m2[k - |k1|];
    }
  }

  /** Every kept mesh has triangles: the model never holds an empty mesh. */
  lemma KeptMeshesHaveTriangles(meshes: seq<AiMesh>, materials: seq<AiMaterial>, dir: string, model: seq<Mesh>, ids: seq<nat>)
    requires WellFormedScene(meshes, materials)
    requires ProcessedAll(meshes, materials, dir, model, NonEmptyIds(meshes, ids))
    ensures forall k :: 0 <= k < |model| ==> |model[k].indices| > 0
  {
    var kept := NonEmptyIds(meshes, ids);
    forall k | 0 <= k < |model|
      ensures |model[k].indices| > 0
    {
      assert YieldsTriangles(meshes, kept[k]);
      GroupedEmpty(Flatten(meshes[kept[k]].faces));
    }
  }

  /** One step of process_node's first loop: the next own mesh is kept exactly when it has triangles. */
  lemma OwnMeshStep(meshes: seq<AiMesh>, materials: seq<AiMaterial>, dir: string, ids: seq<nat>, x: nat, model: seq<Mesh>, processed: Mesh)
    requires WellFormedScene(meshes, materials) && x < |meshes|
    requires ProcessedAll(meshes, materials, dir, model, NonEmptyIds(meshes, ids))
    requires processed == ProcessedMesh(meshes[x], materials, dir)
    ensures |processed.indices| > 0 ==> ProcessedAll(meshes, materials, dir, model + [processed], NonEmptyIds(meshes, ids + [x]))
    ensures |processed.indices| == 0 ==> ProcessedAll(meshes, materials, dir, model, NonEmptyIds(meshes, ids + [x]))
  {
    NonEmptyIdsAppend(meshes, ids, [x]);
    assert [x][1..] == [];
    GroupedEmpty(Flatten(meshes[x].faces));
    if |processed.indices| > 0 {
      ProcessedAllAppend(meshes, materials, dir, model, NonEmptyIds(meshes, ids), [processed], [x]);
    } else {
      assert NonEmptyIds(meshes, ids) + [] == NonEmptyIds(meshes, ids);
    }
  }

  /** One step of process_node's second loop: the c-th child's yield follows what was gathered so far. */
  lemma ChildStep(meshes: seq<AiMesh>, materials: seq<AiMaterial>, dir: string, node: AiNode, c: nat, model: seq<Mesh>, processed: seq<Mesh>)
    requires WellFormedScene(meshes, materials) && c < |node.children|
    requires ProcessedAll(meshes, materials, dir, model, NonEmptyIds(meshes, node.meshes + ChildrenUpTo(node, c)))
    requires ProcessedAll(meshes, materials, dir, processed, NonEmptyIds(meshes, Preorder(node.children[c])))
    ensures ProcessedAll(meshes, materials, dir, model + processed, NonEmptyIds(meshes, node.meshes + ChildrenUpTo(node, c + 1)))
    ensures |processed| == 0 ==> model + processed == model
  {
    var before, sub := node.meshes + ChildrenUpTo(node, c), Preorder(node.children[c]);
    assert ChildrenUpTo(node, c + 1) == ChildrenUpTo(node, c) + sub;
    AppendAssoc(node.meshes, ChildrenUpTo(node, c), sub);
    NonEmptyIdsAppend(meshes, before, sub);
    ProcessedAllAppend(meshes, materials, dir, model, NonEmptyIds(meshes, before), processed, NonEmptyIds(meshes, sub));
    if |processed| == 0 {
      assert model + processed == model;
    }
  }

  /**
   * The first loop of process_node: the node's own meshes, in order, each
   * processed and kept exactly when it yields triangles.
   */
  method ProcessOwnMeshes(meshes: seq<AiMesh>, materials: seq<AiMaterial>, dir: string, node: AiNode) returns (model: seq<Mesh>)
    requires WellFormedScene(meshes, materials) && Indexed(node, |meshes|)
    ensures ProcessedAll(meshes, materials, dir, model, NonEmptyIds(meshes, node.meshes))
  {
    model := [];
    ghost var seen: seq<nat> := [];
    var i := 0;
    while i < |node.meshes|
      invariant 0 <= i <= |node.meshes|
      invariant seen == node.meshes[..i]
      invariant ProcessedAll(meshes, materials, dir, model, NonEmptyIds(meshes, seen))
    {
      model := AppendOwnMesh(meshes, materials, dir, seen, node.meshes[i], model);
      seen := seen + [node.meshes[i]];
      i := i + 1;
    }
    assert seen == node.meshes;
  }

  /** One iteration of process_node's first loop: the mesh, processed and appended when it has triangles. */
  method AppendOwnMesh(meshes: seq<AiMesh>, materials: seq<AiMaterial>, dir: string, ghost seen: seq<nat>, x: nat, model: seq<Mesh>)
    returns (next: seq<Mesh>)
    requires WellFormedScene(meshes, materials) && x < |meshes|
    requires ProcessedAll(meshes, materials, dir, model, NonEmptyIds(meshes, seen))
    ensures ProcessedAll(meshes, materials, dir, next, NonEmptyIds(meshes, seen + [x]))
  {
    var processed := ProcessMesh(meshes[x], materials, dir);
    OwnMeshStep(meshes, materials, dir, seen, x, model, processed);
    next := model;
    if |processed.indices| > 0 {
      next := next + [processed];
    }
  }

  /**
   * process_node: the node's own meshes that yield triangles, then, child by
   * child, everything the child's subtree yields. The result is the
   * processed mesh of every mesh index of the subtree that yields
   * triangles, in pre-order.
   */
  method ProcessNode(meshes: seq<AiMesh>, materials: seq<AiMaterial>, dir: string, node: AiNode) returns (model: seq<Mesh>)
    requires WellFormedScene(meshes, materials) && Indexed(node, |meshes|)
    ensures ProcessedAll(meshes, materials, dir, model, NonEmptyIds(meshes, Preorder(node)))
    decreases node, 1
  {
    model := ProcessOwnMeshes(meshes, materials, dir, node);
    var c := 0;
    assert node.meshes + ChildrenUpTo(node, 0) == node.meshes;
    while c < |node.children|
      invariant 0 <= c <= |node.children|
      invariant ProcessedAll(meshes, materials, dir, model, NonEmptyIds(meshes, node.meshes + ChildrenUpTo(node, c)))
    {
      model := AppendChild(meshes, materials, dir, node, c, model);
      c := c + 1;
    }
    ChildrenComplete(node);
  }

  /** One iteration of process_node's second loop: the c-th child's yield, appended when it is not empty. */
  method AppendChild(meshes: seq<AiMesh>, materials: seq<AiMaterial>, dir: string, node: AiNode, c: nat, model: seq<Mesh>)
    returns (next: seq<Mesh>)
    requires WellFormedScene(meshes, materials) && Indexed(node, |meshes|) && c < |node.children|
    requires ProcessedAll(meshes, materials, dir, model, NonEmptyIds(meshes, node.meshes + ChildrenUpTo(node, c)))
    ensures ProcessedAll(meshes, materials, dir, next, NonEmptyIds(meshes, node.meshes + ChildrenUpTo(node, c + 1)))
    decreases node, 0
  {
    var processedModels := ProcessNode(meshes, materials, dir, node.children[c]);
    ChildStep(meshes, materials, dir, node, c, model, processedModels);
    next := model;
    if |processedModels| > 0 {
      next := next + processedModels;
    }
  }

  /**
   * load_model: an empty model when the importer reports no usable scene
   * (none, incomplete, or without a root node); otherwise what process_node
   * yields for the root, with texture paths relative to the file's
   * directory.
   */
  method LoadModel(scene: Option<AiScene>, dir: string) returns (model: seq<Mesh>)
    requires scene.Some? ==> WellFormedScene(scene.value.meshes, scene.value.materials) && Indexed(scene.value.root, |scene.value.meshes|)
    ensures scene.None? ==> model == []
    ensures scene.Some? ==> ProcessedAll(scene.value.meshes, scene.value.materials, dir, model, NonEmptyIds(scene.value.meshes, Preorder(scene.value.root)))
  {
    if scene.None? {
      return [];
    }
    model := ProcessNode(scene.value.meshes, scene.value.materials, dir, scene.value.root);
  }

  /** The texture cache: images already loaded, by path. */
  class TextureCache {
    var images: map<string, Resource>

    constructor ()
      ensures images == map[]
    {
      images := map[];
    }
  }

  /**
   * load_texture: a cached path returns its image and does nothing else. A
   * file that cannot be read gives nothing. Otherwise the image, a staging
   * buffer and a command pool are created; only the image is deferred onto
   * the queue; the pool and then the staging buffer are destroyed once the
   * upload is done; and the image is cached under its path. The pool
   * helper's proxy is read with `.value`, so a failed pool is the null
   * handle.
   */
  method LoadTexture(device: Device, cache: TextureCache, queue: DeallocationQueue, path: string, pixelsLoaded: bool, poolSucceeds: bool)
    returns (image: Option<Resource>)
    requires device.Valid()
    modifies device, cache, queue
    ensures device.Valid()
    ensures path in old(cache.images) ==> image == Some(old(cache.images)[path])
    ensures path in old(cache.images) || !pixelsLoaded ==>
      cache.images == old(cache.images) && queue.records == old(queue.records) &&
      device.created == old(device.created) && device.destroyed == old(device.destroyed)
    ensures path !in old(cache.images) && !pixelsLoaded ==> image == None
    ensures path !in old(cache.images) && pixelsLoaded ==>
      var n := |old(device.created)|;
      image == Some(Image(n + 1, n + 3, n + 2)) &&
      queue.records == old(queue.records) + [Record(image.value)] &&
      cache.images == old(cache.images)[path := image.value]
    ensures path !in old(cache.images) && pixelsLoaded ==>
      device.created == old(device.created) + LoadCreated(|old(device.created)|, poolSucceeds) &&
      device.destroyed == old(device.destroyed) + LoadDestroyed(|old(device.created)|, poolSucceeds)
  {
    if path in cache.images {
      return Some(cache.images[path]);
    }
    if !pixelsLoaded {
      return None;
    }
    var ip := CreateImage(device);
    var img := ip.Defer(queue);
    var sp := CreateBuffer(device);
    var staging := sp.value;
    var pp := Pipelines.CreateObject(device, CommandPoolObject, poolSucceeds);
    var pool := pp.value;
    device.Destroy(pool);
    device.Destroy(staging);
    cache.images := cache.images[path := img];
    image := Some(img);
  }

  /**
   * The objects a fresh texture load creates on a device that had n
   * objects: the image, its memory and its view, the staging buffer and its
   * memory, and the command pool when its creation succeeds.
   */
  function LoadCreated(n: nat, poolSucceeds: bool): (ns: seq<Native>)
    ensures |ns| == if poolSucceeds then 6 else 5
  {
    [Native(ImageObject, n + 1), Native(DeviceMemoryObject, n + 2), Native(ImageViewObject, n + 3)] +
    [Native(BufferObject, n + 4), Native(DeviceMemoryObject, n + 5)] +
    (if poolSucceeds then [Native(CommandPoolObject, n + 6)] else [])
  }

  /** What a fresh texture load destroys once the upload is done: the command pool (null if it failed), then the staging buffer. */
  function LoadDestroyed(n: nat, poolSucceeds: bool): (rs: seq<Resource>)
  {
    [Object(CommandPoolObject, if poolSucceeds then n + 6 else NullHandle), Buffer(n + 4, n + 5)]
  }

  /** Where a mesh's texture comes from: none, the cache, or a fresh load. */
  datatype TextureSource = NoTexture | Cached | Loaded

  /** The texture source vulkan_mesh ends up with for a path, given whether it is cached and whether its pixels load. */
  function SourceOf(path: string, inCache: bool, pixelsLoaded: bool): (src: TextureSource)
    ensures src == NoTexture <==> path == "" || (!inCache && !pixelsLoaded)
    ensures src == Loaded <==> path != "" && !inCache && pixelsLoaded
  {
    if path == "" then NoTexture else if inCache then Cached else if pixelsLoaded then Loaded else NoTexture
  }

  /**
   * The objects the texture step of vulkan_mesh creates on a device that
   * had n objects: nothing without a texture; otherwise those of a fresh
   * load, if any, and then the sampler, the newest object.
   */
  function TextureCreated(n: nat, src: TextureSource, poolSucceeds: bool): (ns: seq<Native>)
    ensures src == NoTexture <==> ns == []
  {
    match src
    case NoTexture => []
    case Cached => [Native(SamplerObject, n + 1)]
    case Loaded =>
      var loaded := LoadCreated(n, poolSucceeds);
      loaded + [Native(SamplerObject, n + |loaded| + 1)]
  }

  /** What the texture step destroys: the pool and staging buffer of a fresh load, and nothing otherwise. */
  function TextureDestroyed(n: nat, src: TextureSource, poolSucceeds: bool): (rs: seq<Resource>)
    ensures src != Loaded ==> rs == []
  {
    if src == Loaded then LoadDestroyed(n, poolSucceeds) else []
  }

  /** The objects vulkan_mesh creates: the vertex buffer and its memory, the index buffer and its memory, then the texture step's. */
  function MeshCreated(n: nat, src: TextureSource, poolSucceeds: bool): (ns: seq<Native>)
    ensures |ns| == 4 + |TextureCreated(n + 4, src, poolSucceeds)|
  {
    [Native(BufferObject, n + 1), Native(DeviceMemoryObject, n + 2), Native(BufferObject, n + 3), Native(DeviceMemoryObject, n + 4)] +
    TextureCreated(n + 4, src, poolSucceeds)
  }

  /**
   * The objects created for a texture are numbered consecutively after the
   * first n: each handle is one more than the one before. A textured mesh's
   * last object is its sampler, and a fresh load makes the image, its
   * memory and view, the staging buffer and memory and, when it succeeds,
   * the pool before it; the load destroys exactly that pool (or the null
   * handle) and staging buffer.
   */
  lemma TextureCreatedShape(n: nat, src: TextureSource, poolSucceeds: bool)
    ensures var ns := TextureCreated(n, src, poolSucceeds);
      (forall k :: 0 <= k < |ns| ==> ns[k].handle == n + k + 1) &&
      (src != NoTexture ==> ns[|ns| - 1] == Native(SamplerObject, n + |ns|)) &&
      (src == Loaded ==> (ns[..|ns| - 1] == LoadCreated(n, poolSucceeds) &&
        ns[0].kind == ImageObject && ns[1].kind == DeviceMemoryObject && ns[2].kind == ImageViewObject &&
        ns[3].kind == BufferObject && ns[4].kind == DeviceMemoryObject &&
        (poolSucceeds <==> |ns| == 7) && (poolSucceeds ==> ns[5].kind == CommandPoolObject)))
    ensures TextureDestroyed(n, src, poolSucceeds) ==
      if src == Loaded then [Object(CommandPoolObject, if poolSucceeds then n + 6 else NullHandle), Buffer(n + 4, n + 5)] else []
  {
    var ns := TextureCreated(n, src, poolSucceeds);
    if src == Loaded {
      assert ns[..|ns| - 1] == LoadCreated(n, poolSucceeds);
    }
  }

  /** vulkan_mesh creates the vertex buffer and memory, then the index buffer and memory, then the texture step's objects. */
  lemma MeshCreatedShape(n: nat, src: TextureSource, poolSucceeds: bool)
    ensures var ns := MeshCreated(n, src, poolSucceeds);
      ns[..4] == [Native(BufferObject, n + 1), Native(DeviceMemoryObject, n + 2), Native(BufferObject, n + 3), Native(DeviceMemoryObject, n + 4)] &&
      ns[4..] == TextureCreated(n + 4, src, poolSucceeds)
  {
  }

  /** The device objects of one mesh, as the render loop uses them. */
  datatype VulkanMesh = VulkanMesh(
    vertexBuffer: Resource,
    indexBuffer: Resource,
    indexCount: nat,
    albedoImage: Resource,
    hasTexture: bool,
    albedoSampler: Handle,
    albedoColor: Vec3,
    descriptorSet: Handle)

  /** The handle a record's destruction starts from: the buffer, the image, or the object itself. */
  function Primary(r: Resource): Handle
  {
    match r
    case Object(_, h) => h
    case Buffer(b, _) => b
    case Image(i, _, _) => i
    case SyncSet(_, _, _) => NullHandle
  }

  /** Records in strictly increasing order of their objects: no object is recorded twice. */
  predicate Increasing(rs: seq<Record>)
  {
    forall i, j :: 0 <= i < j < |rs| ==> Primary(rs[i].value) < Primary(rs[j].value)
  }

  /** Every record is of an object created after the first `low` objects and among the first `high`. */
  predicate Within(rs: seq<Record>, low: nat, high: nat)
  {
    forall i :: 0 <= i < |rs| ==> low < Primary(rs[i].value) <= high
  }

  /**
   * The texture step of vulkan_mesh: when the mesh names a texture that is
   * cached or can be loaded, its image (deferred onto the mesh's queue only
   * when newly loaded) and a new sampler, which is not deferred; otherwise
   * no texture, and the null image and sampler.
   */
  method AttachTexture(device: Device, cache: TextureCache, queue: DeallocationQueue, path: string, pixelsLoaded: bool, poolSucceeds: bool)
    returns (albedoImage: Resource, hasTexture: bool, sampler: Handle)
    requires device.Valid()
    modifies device, cache, queue
    ensures device.Valid()
    ensures var src := SourceOf(path, path in old(cache.images), pixelsLoaded);
      device.created == old(device.created) + TextureCreated(|old(device.created)|, src, poolSucceeds) &&
      device.destroyed == old(device.destroyed) + TextureDestroyed(|old(device.created)|, src, poolSucceeds)
    ensures hasTexture <==> path != "" && (path in old(cache.images) || pixelsLoaded)
    ensures !hasTexture ==> albedoImage == Image(NullHandle, NullHandle, NullHandle) && sampler == NullHandle
    ensures hasTexture ==> |device.created| > 0 && device.created[|device.created| - 1] == Native(SamplerObject, sampler)
    ensures hasTexture && path in old(cache.images) ==> albedoImage == old(cache.images)[path]
    ensures hasTexture && path !in old(cache.images) ==>
      var n := |old(device.created)|;
      albedoImage == Image(n + 1, n + 3, n + 2) && |device.created| >= n + 3
    ensures queue.records == old(queue.records) + (if hasTexture && path !in old(cache.images) then [Record(albedoImage)] else [])
    ensures path != "" && path !in old(cache.images) && pixelsLoaded ==> cache.images == old(cache.images)[path := albedoImage]
    ensures !(path != "" && path !in old(cache.images) && pixelsLoaded) ==> cache.images == old(cache.images)
  {
    albedoImage := Image(NullHandle, NullHandle, NullHandle);
    hasTexture := false;
    sampler := NullHandle;
    if path != "" {
      var image := LoadTexture(device, cache, queue, path, pixelsLoaded, poolSucceeds);
      if image.Some? {
        albedoImage := image.value;
        sampler := device.Create(SamplerObject);
        hasTexture := true;
      }
    }
  }

  /**
   * vulkan_mesh: a vertex buffer and an index buffer, deferred onto the
   * mesh's own queue; when the mesh names a texture that is cached or can
   * be loaded, the image (deferred only when newly loaded) and a new
   * sampler, which is not deferred. The proxy carries the queue and never
   * fails.
   */
  method MakeVulkanMesh(device: Device, cache: TextureCache, mesh: Mesh, pixelsLoaded: bool, poolSucceeds: bool)
    returns (p: ComposedReturnProxy<VulkanMesh>)
    requires device.Valid()
    modifies device, cache
    ensures device.Valid()
    ensures var src := SourceOf(mesh.albedoPath, mesh.albedoPath in old(cache.images), pixelsLoaded);
      device.created == old(device.created) + MeshCreated(|old(device.created)|, src, poolSucceeds) &&
      device.destroyed == old(device.destroyed) + TextureDestroyed(|old(device.created)| + 4, src, poolSucceeds)
    ensures fresh(p) && fresh(p.queue) && !p.failed
    ensures var n := |old(device.created)|;
      p.value.vertexBuffer == Buffer(n + 1, n + 2) && p.value.indexBuffer == Buffer(n + 3, n + 4)
    ensures p.value.indexCount == |mesh.indices| && p.value.albedoColor == mesh.albedoColor
    ensures p.value.descriptorSet == NullHandle
    ensures p.value.hasTexture <==> mesh.albedoPath != "" && (mesh.albedoPath in old(cache.images) || pixelsLoaded)
    ensures !p.value.hasTexture ==> p.value.albedoImage == Image(NullHandle, NullHandle, NullHandle) && p.value.albedoSampler == NullHandle
    ensures p.value.hasTexture ==> |device.created| > 0 && device.created[|device.created| - 1] == Native(SamplerObject, p.value.albedoSampler)
    ensures p.value.hasTexture && mesh.albedoPath in old(cache.images) ==> p.value.albedoImage == old(cache.images)[mesh.albedoPath]
    ensures p.value.hasTexture && mesh.albedoPath !in old(cache.images) ==> p.value.albedoImage == Image(|old(device.created)| + 5, |old(device.created)| + 7, |old(device.created)| + 6)
    ensures p.queue.records == [Record(p.value.vertexBuffer), Record(p.value.indexBuffer)] +
      (if p.value.hasTexture && mesh.albedoPath !in old(cache.images) then [Record(p.value.albedoImage)] else [])
    ensures mesh.albedoPath != "" && mesh.albedoPath !in old(cache.images) && pixelsLoaded ==>
      cache.images == old(cache.images)[mesh.albedoPath := p.value.albedoImage]
    ensures !(mesh.albedoPath != "" && mesh.albedoPath !in old(cache.images) && pixelsLoaded) ==> cache.images == old(cache.images)
    ensures Increasing(p.queue.records) && Within(p.queue.records, |old(device.created)|, |device.created|)
  {
    var queue := new DeallocationQueue([]);
    var vertexBuffer, indexBuffer := CreateMeshBuffers(device, queue);
    var albedoImage, hasTexture, sampler := AttachTexture(device, cache, queue, mesh.albedoPath, pixelsLoaded, poolSucceeds);
    MeshCreatedAfter(old(device.created), SourceOf(mesh.albedoPath, mesh.albedoPath in old(cache.images), pixelsLoaded), poolSucceeds);
    var value := VulkanMesh(vertexBuffer, indexBuffer, |mesh.indices|, albedoImage, hasTexture, sampler, mesh.albedoColor, NullHandle);
    MeshRecordsOrdered(|old(device.created)|, |device.created|, hasTexture && mesh.albedoPath !in old(cache.images), albedoImage);
    p := new ComposedReturnProxy(value, queue.records);
  }

  /** The two buffers of vulkan_mesh, vertex then index, each deferred onto the mesh's queue. */
  method CreateMeshBuffers(device: Device, queue: DeallocationQueue) returns (vertexBuffer: Resource, indexBuffer: Resource)
    requires device.Valid()
    modifies device, queue
    ensures device.Valid() && device.destroyed == old(device.destroyed)
    ensures var n := |old(device.created)|;
      vertexBuffer == Buffer(n + 1, n + 2) && indexBuffer == Buffer(n + 3, n + 4) &&
      device.created == old(device.created) + MeshCreated(n, NoTexture, false)
    ensures queue.records == old(queue.records) + [Record(vertexBuffer), Record(indexBuffer)]
  {
    var vp := CreateBuffer(device);
    vertexBuffer := vp.Defer(queue);
    var ip := CreateBuffer(device);
    indexBuffer := ip.Defer(queue);
  }

  /** The mesh's buffers followed by its texture step's objects are the objects vulkan_mesh creates. */
  lemma MeshCreatedAfter(c: seq<Native>, src: TextureSource, poolSucceeds: bool)
    ensures (c + MeshCreated(|c|, NoTexture, false)) + TextureCreated(|c| + 4, src, poolSucceeds)
      == c + MeshCreated(|c|, src, poolSucceeds)
  {
    var buffers := MeshCreated(|c|, NoTexture, false);
    assert MeshCreated(|c|, src, poolSucceeds) == buffers + TextureCreated(|c| + 4, src, poolSucceeds);
    AppendAssoc(c, buffers, TextureCreated(|c| + 4, src, poolSucceeds));
  }

  /** The records of one mesh's queue: its two buffers, then the image when it was newly loaded. */
  lemma MeshRecordsOrdered(n: nat, high: nat, withImage: bool, image: Resource)
    requires n + 4 <= high
    requires withImage ==> image == Image(n + 5, n + 7, n + 6) && n + 5 <= high
    ensures var rs := [Record(Buffer(n + 1, n + 2)), Record(Buffer(n + 3, n + 4))] + (if withImage then [Record(image)] else []);
      Increasing(rs) && Within(rs, n, high)
  {
  }

  /** A mesh's device form as vulkan_mesh leaves it: its index count, a texture only if it names one, and no descriptor set yet. */
  predicate Uploaded(v: VulkanMesh, m: Mesh)
  {
    v.indexCount == |m.indices| && (v.hasTexture ==> m.albedoPath != "") && v.descriptorSet == NullHandle
  }

  /**
   * The loop that turns every processed mesh into device objects and
   * unwraps each into the deallocator. Each texture path is loaded at most
   * once, so the deallocator never receives an object twice.
   */
  method AllocateMeshes(device: Device, cache: TextureCache, dal: Deallocator, model: seq<Mesh>, pixelsLoaded: seq<bool>, poolSucceeds: seq<bool>)
    returns (vkMeshes: seq<VulkanMesh>)
    requires device.Valid()
    requires |pixelsLoaded| == |model| && |poolSucceeds| == |model|
    modifies device, cache, dal.deallocators
    ensures device.Valid()
    ensures |vkMeshes| == |model|
    ensures forall i :: 0 <= i < |model| ==> Uploaded(vkMeshes[i], model[i])
    ensures |dal.deallocators.records| >= |old(dal.deallocators.records)|
    ensures dal.deallocators.records[..|old(dal.deallocators.records)|] == old(dal.deallocators.records)
    ensures Increasing(dal.deallocators.records[|old(dal.deallocators.records)|..])
    ensures Within(dal.deallocators.records[|old(dal.deallocators.records)|..], |old(device.created)|, |device.created|)
    ensures var log := Allocated(model, old(cache.images).Keys, pixelsLoaded, poolSucceeds, |old(device.created)|);
      device.created == old(device.created) + log.created && device.destroyed == old(device.destroyed) + log.destroyed
  {
    vkMeshes := [];
    ghost var records := [];
    ghost var log := Allocated(model, cache.images.Keys, pixelsLoaded, poolSucceeds, |device.created|);
    var i := 0;
    while i < |model|
      invariant 0 <= i <= |model|
      invariant device.Valid() && |device.created| >= |old(device.created)|
      invariant var rest := Allocated(model[i..], cache.images.Keys, pixelsLoaded[i..], poolSucceeds[i..], |device.created|);
        old(device.created) + log.created == device.created + rest.created &&
        old(device.destroyed) + log.destroyed == device.destroyed + rest.destroyed
      invariant |vkMeshes| == i
      invariant forall k :: 0 <= k < i ==> Uploaded(vkMeshes[k], model[k])
      invariant dal.deallocators.records == old(dal.deallocators.records) + records
      invariant Increasing(records) && Within(records, |old(device.created)|, |device.created|)
    {
      var vkMesh, added := AllocateMesh(device, cache, dal, model, pixelsLoaded, poolSucceeds, i, records, |old(device.created)|);
      AppendAssoc(old(dal.deallocators.records), records, added);
      records := records + added;
      vkMeshes := vkMeshes + [vkMesh];
      i := i + 1;
    }
    assert model[i..] == [] && pixelsLoaded[i..] == [] && poolSucceeds[i..] == [];
    assert device.created + [] == device.created && device.destroyed + [] == device.destroyed;
    assert dal.deallocators.records[|old(dal.deallocators.records)|..] == records;
  }

  /** What the allocation loop does to the device: the objects it creates and those it destroys, in order. */
  datatype DeviceLog = DeviceLog(created: seq<Native>, destroyed: seq<Resource>)

  /**
   * The device log of allocating a list of meshes on a device that had n
   * objects, when the cache holds the paths in `cached`: each mesh's
   * objects in turn, a path loaded for one mesh being cached for the later
   * ones.
   */
  function Allocated(model: seq<Mesh>, cached: set<string>, pixelsLoaded: seq<bool>, poolSucceeds: seq<bool>, n: nat): (log: DeviceLog)
    requires |pixelsLoaded| == |model| && |poolSucceeds| == |model|
    ensures |log.created| >= 4 * |model| && |log.destroyed| <= 2 * |model|
    decreases |model|
  {
    if model == [] then DeviceLog([], [])
    else
      var path := model[0].albedoPath;
      var src := SourceOf(path, path in cached, pixelsLoaded[0]);
      var created := MeshCreated(n, src, poolSucceeds[0]);
      var rest := Allocated(model[1..], if src == Loaded then cached + {path} else cached, pixelsLoaded[1..], poolSucceeds[1..], n + |created|);
      DeviceLog(created + rest.created, TextureDestroyed(n + 4, src, poolSucceeds[0]) + rest.destroyed)
  }

  /**
   * One iteration of the allocation loop: the device log it leaves,
   * followed by the log of the meshes after it, is the log of the meshes
   * from it on.
   */
  lemma AllocatedStep(model: seq<Mesh>, cached: set<string>, pixelsLoaded: seq<bool>, poolSucceeds: seq<bool>, i: nat,
                      created: seq<Native>, destroyed: seq<Resource>, created': seq<Native>, destroyed': seq<Resource>, cached': set<string>)
    requires |pixelsLoaded| == |model| && |poolSucceeds| == |model| && i < |model|
    requires var path := model[i].albedoPath;
      var src := SourceOf(path, path in cached, pixelsLoaded[i]);
      created' == created + MeshCreated(|created|, src, poolSucceeds[i]) &&
      destroyed' == destroyed + TextureDestroyed(|created| + 4, src, poolSucceeds[i]) &&
      cached' == if src == Loaded then cached + {path} else cached
    ensures var rest := Allocated(model[i..], cached, pixelsLoaded[i..], poolSucceeds[i..], |created|);
      var rest' := Allocated(model[i + 1..], cached', pixelsLoaded[i + 1..], poolSucceeds[i + 1..], |created'|);
      created + rest.created == created' + rest'.created && destroyed + rest.destroyed == destroyed' + rest'.destroyed
  {
    var path := model[i].albedoPath;
    var src := SourceOf(path, path in cached, pixelsLoaded[i]);
    assert model[i..][0] == model[i] && pixelsLoaded[i..][0] == pixelsLoaded[i] && poolSucceeds[i..][0] == poolSucceeds[i];
    assert model[i..][1..] == model[i + 1..] && pixelsLoaded[i..][1..] == pixelsLoaded[i + 1..] && poolSucceeds[i..][1..] == poolSucceeds[i + 1..];
    var rest' := Allocated(model[i + 1..], cached', pixelsLoaded[i + 1..], poolSucceeds[i + 1..], |created'|);
    AppendAssoc(created, MeshCreated(|created|, src, poolSucceeds[i]), rest'.created);
    AppendAssoc(destroyed, TextureDestroyed(|created| + 4, src, poolSucceeds[i]), rest'.destroyed);
  }

  /**
   * One iteration of the allocation loop: vulkan_mesh for the i-th mesh,
   * its proxy unwrapped into the deallocator. The device log it leaves,
   * followed by the log of the later meshes under the grown cache, is the
   * log of the meshes from the i-th on. `added` are the records the
   * deallocator receives, those of the mesh's own queue; appended to the
   * `records` of earlier meshes, whose objects are numbered above `low`,
   * they keep the order of creation.
   */
  method AllocateMesh(device: Device, cache: TextureCache, dal: Deallocator,
                      model: seq<Mesh>, pixelsLoaded: seq<bool>, poolSucceeds: seq<bool>, i: nat,
                      ghost records: seq<Record>, ghost low: nat)
    returns (vkMesh: VulkanMesh, ghost added: seq<Record>)
    requires device.Valid()
    requires low <= |device.created| && Increasing(records) && Within(records, low, |device.created|)
    requires |pixelsLoaded| == |model| && |poolSucceeds| == |model| && i < |model|
    modifies device, cache, dal.deallocators
    ensures device.Valid() && Uploaded(vkMesh, model[i]) && |device.created| >= |old(device.created)| + 4
    ensures var rest := Allocated(model[i..], old(cache.images).Keys, pixelsLoaded[i..], poolSucceeds[i..], |old(device.created)|);
      var rest' := Allocated(model[i + 1..], cache.images.Keys, pixelsLoaded[i + 1..], poolSucceeds[i + 1..], |device.created|);
      old(device.created) + rest.created == device.created + rest'.created &&
      old(device.destroyed) + rest.destroyed == device.destroyed + rest'.destroyed
    ensures dal.deallocators.records == old(dal.deallocators.records) + added
    ensures Increasing(records + added) && Within(records + added, low, |device.created|)
  {
    var p := MakeVulkanMesh(device, cache, model[i], pixelsLoaded[i], poolSucceeds[i]);
    AllocatedStep(model, old(cache.images).Keys, pixelsLoaded, poolSucceeds, i,
                  old(device.created), old(device.destroyed), device.created, device.destroyed, cache.images.Keys);
    added := p.queue.records;
    AppendIncreasing(records, added, low, |old(device.created)|, |device.created|);
    vkMesh := p.Unwrap(dal);
  }

  /** Appending records of newer objects keeps the order strict. */
  lemma AppendIncreasing(a: seq<Record>, b: seq<Record>, low: nat, mid: nat, high: nat)
    requires low <= mid <= high
    requires Increasing(a) && Within(a, low, mid)
    requires Increasing(b) && Within(b, mid, high)
    ensures Increasing(a + b) && Within(a + b, low, high)
  {
    forall i | 0 <= i < |a + b|
      ensures low < Primary((a + b)[i].value) <= high
    {
      if i < |a| {
        assert (a + b)[i] == a[i];
      } else {
        assert (a + b)[i] == b[i - |a|];
      }
    }
    forall i, j | 0 <= i < j < |a + b|
      ensures Primary((a + b)[i].value) < Primary((a + b)[j].value)
    {
      if j < |a| {
        assert (a + b)[i] == a[i] && (a + b)[j] == a[j];
      } else if i < |a| {
        assert (a + b)[i] == a[i] && (a + b)[j] == b[j - |a|];
      } else {
        assert (a + b)[i] == b[i - |a|] && (a + b)[j] == b[j - |a|];
      }
    }
  }

  /** The write of link_descriptor_set: the mesh's sampler and image view, read-only, into binding 0. */
  function TextureWrite(m: VulkanMesh): (w: WriteDescriptorSet)
    ensures w.dstSet == m.descriptorSet && w.dstBinding == 0 && w.dstArrayElement == 0 && w.descriptorCount == 1
    ensures w.descriptorType == CombinedImageSampler && w.bufferInfo == None
    ensures w.imageInfo == Some(ImageElement(m.albedoSampler, if m.albedoImage.Image? then m.albedoImage.view else NullHandle, ShaderReadOnlyOptimal, 0))
  {
    var view := if m.albedoImage.Image? then m.albedoImage.view else NullHandle;
    WriteDescriptorSet(m.descriptorSet, 0, 0, 1, CombinedImageSampler, Some(ImageElement(m.albedoSampler, view, ShaderReadOnlyOptimal, 0)), None)
  }

  /** The writes for the textured meshes of a list, in order. */
  function TextureWrites(ms: seq<VulkanMesh>): (ws: seq<WriteDescriptorSet>)
    ensures |ws| <= |ms|
  {
    if ms == [] then [] else (if ms[0].hasTexture then [TextureWrite(ms[0])] else []) + TextureWrites(ms[1..])
  }

  lemma {:induction false} TextureWritesAppend(a: seq<VulkanMesh>, b: seq<VulkanMesh>)
    ensures TextureWrites(a + b) == TextureWrites(a) + TextureWrites(b)
  {
    if a == [] {
      assert a + b == b;
    } else {
      var head := if a[0].hasTexture then [TextureWrite(a[0])] else [];
      assert (a + b)[0] == a[0] && (a + b)[1..] == a[1..] + b;
      assert TextureWrites(a + b) == head + TextureWrites(a[1..] + b);
      assert TextureWrites(a) == head + TextureWrites(a[1..]);
      TextureWritesAppend(a[1..], b);
      AppendAssoc(head, TextureWrites(a[1..]), TextureWrites(b));
    }
  }

  /** Every mesh without a texture contributes no write; each write is of a textured mesh. */
  lemma {:induction false} TextureWritesOnlyTextured(ms: seq<VulkanMesh>)
    ensures (forall i :: 0 <= i < |ms| ==> !ms[i].hasTexture) <==> TextureWrites(ms) == []
    ensures forall w :: w in TextureWrites(ms) ==> exists i :: 0 <= i < |ms| && ms[i].hasTexture && w == TextureWrite(ms[i])
  {
    if ms != [] {
      TextureWritesOnlyTextured(ms[1..]);
      forall w | w in TextureWrites(ms)
        ensures exists i :: 0 <= i < |ms| && ms[i].hasTexture && w == TextureWrite(ms[i])
      {
        if ms[0].hasTexture && w == TextureWrite(ms[0]) {
        } else {
          var i :| 0 <= i < |ms[1..]| && ms[1..][i].hasTexture && w == TextureWrite(ms[1..][i]);
          assert ms[i + 1] == ms[1..][i];
        }
      }
      if ms[0].hasTexture {
        assert TextureWrites(ms) != [];
      } else if TextureWrites(ms) == [] {
        assert forall i :: 0 <= i < |ms[1..]| ==> !ms[1..][i].hasTexture;
        forall i | 0 <= i < |ms|
          ensures !ms[i].hasTexture
        {
          if i > 0 {
            assert ms[i] == ms[1..][i - 1];
          }
        }
      }
    }
  }

  /** The descriptor sets allocated for the textured meshes of a list, in order. */
  function DescriptorSets(ms: seq<VulkanMesh>): (ns: seq<Native>)
    ensures |ns| <= |ms|
    ensures forall n :: n in ns ==> n.kind == DescriptorSetObject
  {
    if ms == [] then [] else (if ms[0].hasTexture then [Native(DescriptorSetObject, ms[0].descriptorSet)] else []) + DescriptorSets(ms[1..])
  }

  lemma {:induction false} DescriptorSetsAppend(a: seq<VulkanMesh>, b: seq<VulkanMesh>)
    ensures DescriptorSets(a + b) == DescriptorSets(a) + DescriptorSets(b)
  {
    if a == [] {
      assert a + b == b;
    } else {
      var head := if a[0].hasTexture then [Native(DescriptorSetObject, a[0].descriptorSet)] else [];
      assert (a + b)[0] == a[0] && (a + b)[1..] == a[1..] + b;
      assert DescriptorSets(a + b) == head + DescriptorSets(a[1..] + b);
      DescriptorSetsAppend(a[1..], b);
      AppendAssoc(head, DescriptorSets(a[1..]), DescriptorSets(b));
    }
  }

  /**
   * The loop over the meshes that links descriptor sets: a mesh without a
   * texture is skipped; a textured one gets a newly allocated set and the
   * write that binds its texture.
   */
  method LinkDescriptorSets(device: Device, vkMeshes: seq<VulkanMesh>) returns (linked: seq<VulkanMesh>, writes: seq<WriteDescriptorSet>)
    requires device.Valid()
    modifies device
    ensures device.Valid() && device.destroyed == old(device.destroyed)
    ensures LinkedAll(vkMeshes, linked, |old(device.created)|, |device.created|)
    ensures SetsIncrease(vkMeshes, linked)
    ensures writes == TextureWrites(linked)
    ensures device.created == old(device.created) + DescriptorSets(linked)
  {
    linked := [];
    writes := [];
    var i := 0;
    while i < |vkMeshes|
      invariant 0 <= i <= |vkMeshes|
      invariant device.Valid() && device.destroyed == old(device.destroyed)
      invariant |device.created| >= |old(device.created)|
      invariant LinkedAll(vkMeshes[..i], linked, |old(device.created)|, |device.created|)
      invariant SetsIncrease(vkMeshes[..i], linked)
      invariant writes == TextureWrites(linked)
      invariant device.created == old(device.created) + DescriptorSets(linked)
    {
      ghost var mid := |device.created|;
      var m, added := LinkMesh(device, vkMeshes[i]);
      LinkedAppend(vkMeshes[..i], linked, vkMeshes[i], m, |old(device.created)|, mid, |device.created|);
      assert vkMeshes[..i + 1] == vkMeshes[..i] + [vkMeshes[i]];
      TextureWritesAppend(linked, [m]);
      DescriptorSetsAppend(linked, [m]);
      assert DescriptorSets([m]) == (if m.hasTexture then [Native(DescriptorSetObject, m.descriptorSet)] else []) + DescriptorSets([]);
      AppendAssoc(old(device.created), DescriptorSets(linked), DescriptorSets([m]));
      writes := writes + added;
      linked := linked + [m];
      i := i + 1;
    }
    assert vkMeshes[..i] == vkMeshes;
  }

  /** Each mesh of `ws` is its counterpart in `vs`, linked to a set created between `low` and `high`. */
  predicate LinkedAll(vs: seq<VulkanMesh>, ws: seq<VulkanMesh>, low: nat, high: nat)
  {
    |ws| == |vs| && forall k :: 0 <= k < |vs| ==> LinkedMesh(vs[k], ws[k], low, high)
  }

  /** Textured meshes get their sets in mesh order: later meshes, later sets. */
  predicate SetsIncrease(vs: seq<VulkanMesh>, ws: seq<VulkanMesh>)
    requires |ws| == |vs|
  {
    forall k, l :: 0 <= k < l < |vs| && vs[k].hasTexture && vs[l].hasTexture ==> ws[k].descriptorSet < ws[l].descriptorSet
  }

  /** Linking one more mesh, with a set created after all earlier ones, keeps both properties. */
  lemma LinkedAppend(vs: seq<VulkanMesh>, ws: seq<VulkanMesh>, v: VulkanMesh, w: VulkanMesh, low: nat, mid: nat, high: nat)
    requires LinkedAll(vs, ws, low, mid) && SetsIncrease(vs, ws)
    requires LinkedMesh(v, w, mid, high) && low <= mid <= high
    ensures LinkedAll(vs + [v], ws + [w], low, high) && SetsIncrease(vs + [v], ws + [w])
  {
    var vs', ws' := vs + [v], ws + [w];
    forall k | 0 <= k < |vs'|
      ensures LinkedMesh(vs'[k], ws'[k], low, high)
    {
      if k < |vs| {
        assert vs'[k] == vs[k] && ws'[k] == ws[k];
        assert LinkedMesh(vs[k], ws[k], low, mid);
      }
    }
    forall k, l | 0 <= k < l < |vs'| && vs'[k].hasTexture && vs'[l].hasTexture
      ensures ws'[k].descriptorSet < ws'[l].descriptorSet
    {
      assert vs'[k] == vs[k] && ws'[k] == ws[k];
      if l < |vs| {
        assert vs'[l] == vs[l] && ws'[l] == ws[l];
      } else {
        assert LinkedMesh(vs[k], ws[k], low, mid) && vs'[l] == v && ws'[l] == w;
      }
    }
  }

  /**
   * One iteration of that loop: a textured mesh gets a newly allocated set,
   * the last object created, and the write that binds its texture; any
   * other mesh is left as it is and no write is made.
   */
  method LinkMesh(device: Device, v: VulkanMesh) returns (w: VulkanMesh, added: seq<WriteDescriptorSet>)
    requires device.Valid()
    modifies device
    ensures device.Valid() && device.destroyed == old(device.destroyed)
    ensures LinkedMesh(v, w, |old(device.created)|, |device.created|)
    ensures v.hasTexture ==> w.descriptorSet == |device.created|
    ensures !v.hasTexture ==> device.created == old(device.created)
    ensures v.hasTexture ==> device.created == old(device.created) + [Native(DescriptorSetObject, w.descriptorSet)]
    ensures added == TextureWrites([w])
    ensures w.hasTexture == v.hasTexture
  {
    w := v;
    added := [];
    if v.hasTexture {
      var dset := device.Create(DescriptorSetObject);
      w := w.(descriptorSet := dset);
      added := [TextureWrite(w)];
    }
    assert [w][1..] == [];
  }

  /**
   * A mesh after link_descriptor_set: unchanged when it has no texture;
   * otherwise unchanged but for a descriptor set allocated after the first
   * `low` objects and among the first `high`.
   */
  predicate LinkedMesh(v: VulkanMesh, w: VulkanMesh, low: nat, high: nat)
  {
    if v.hasTexture then w == v.(descriptorSet := w.descriptorSet) && low < w.descriptorSet <= high else w == v
  }

  /** What one iteration of the render loop observes: window, keyboard, and the acquired image. */
  datatype Tick = Tick(shouldClose: bool, spaceDown: bool, imageIndex: nat)

  /** A frame's submission: the frame's synchronisation slot and command buffer, and the image it renders to. */
  datatype Submission = Submission(frame: nat, imageIndex: nat)

  /** One draw of the command buffer: which pipeline, the bound set, the buffers and the index count. */
  datatype Draw = Draw(textured: bool, descriptorSet: Option<Handle>, vertexBuffer: Resource, indexBuffer: Resource, indexCount: nat)

  /**
   * The draws recorded each frame: one per mesh, in order; textured meshes
   * use the textured pipeline with their descriptor set, the others the
   * default pipeline.
   */
  method RecordDraws(vkMeshes: seq<VulkanMesh>) returns (draws: seq<Draw>)
    ensures |draws| == |vkMeshes|
    ensures forall i :: 0 <= i < |vkMeshes| ==> (draws[i].textured <==> vkMeshes[i].hasTexture)
    ensures forall i :: 0 <= i < |vkMeshes| ==> draws[i].descriptorSet == if vkMeshes[i].hasTexture then Some(vkMeshes[i].descriptorSet) else None
    ensures forall i :: 0 <= i < |vkMeshes| ==>
      draws[i].vertexBuffer == vkMeshes[i].vertexBuffer && draws[i].indexBuffer == vkMeshes[i].indexBuffer &&
      draws[i].indexCount == vkMeshes[i].indexCount
  {
    draws := [];
    var i := 0;
    while i < |vkMeshes|
      invariant 0 <= i <= |vkMeshes| && |draws| == i
      invariant forall k :: 0 <= k < i ==> (draws[k].textured <==> vkMeshes[k].hasTexture)
      invariant forall k :: 0 <= k < i ==> draws[k].descriptorSet == if vkMeshes[k].hasTexture then Some(vkMeshes[k].descriptorSet) else None
      invariant forall k :: 0 <= k < i ==>
        draws[k].vertexBuffer == vkMeshes[k].vertexBuffer && draws[k].indexBuffer == vkMeshes[k].indexBuffer &&
        draws[k].indexCount == vkMeshes[k].indexCount
    {
      var m := vkMeshes[i];
      var d;
      if m.hasTexture {
        d := Draw(true, Some(m.descriptorSet), m.vertexBuffer, m.indexBuffer, m.indexCount);
      } else {
        d := Draw(false, None, m.vertexBuffer, m.indexBuffer, m.indexCount);
      }
      draws := draws + [d];
      i := i + 1;
    }
  }

  /** The loop's state: the frame in flight, pause state, submissions so far, and whether the window closed. */
  datatype LoopState = LoopState(frame: nat, pause: PauseState, submitted: seq<Submission>, closed: bool)

  const Start := LoopState(0, PauseState(false, false), [], false)

  /** One iteration: close and stop, or update the pause state, submit for the acquired image, and flip the frame. */
  function Iterate(s: LoopState, t: Tick): (r: LoopState)
    requires s.frame <= 1
    ensures r.frame <= 1
  {
    if t.shouldClose then s.(closed := true)
    else LoopState(1 - s.frame, PauseStep(s.pause, t.spaceDown), s.submitted + [Submission(s.frame, t.imageIndex)], false)
  }

  /** The loop over a sequence of observations, until the window closes or they run out. */
  function Run(s: LoopState, ticks: seq<Tick>): LoopState
    requires s.frame <= 1
    decreases |ticks|
  {
    if ticks == [] || s.closed then s else Run(Iterate(s, ticks[0]), ticks[1..])
  }

  /** The render loop of the model viewer, fed one observation per iteration. */
  method RenderLoop(ticks: seq<Tick>) returns (s: LoopState)
    ensures s == Run(Start, ticks)
  {
    var frame: nat := 0;
    var pause := PauseState(false, false);
    var submitted: seq<Submission> := [];
    var i := 0;
    while i < |ticks|
      invariant 0 <= i <= |ticks| && frame <= 1
      invariant Run(Start, ticks) == Run(LoopState(frame, pause, submitted, false), ticks[i..])
    {
      var t := ticks[i];
      assert ticks[i..][1..] == ticks[i + 1..];
      i := i + 1;
      if t.shouldClose {
        return LoopState(frame, pause, submitted, true);
      }
      pause := PauseStep(pause, t.spaceDown);
      submitted := submitted + [Submission(frame, t.imageIndex)];
      frame := 1 - frame;
    }
    s := LoopState(frame, pause, submitted, false);
  }

  /** Submissions alternate between the two frames strictly, starting with frame 0, whatever the swapchain does. */
  predicate Alternating(s: LoopState)
  {
    s.frame == |s.submitted| % 2 &&
    forall k :: 0 <= k < |s.submitted| ==> s.submitted[k].frame == k % 2
  }

  lemma {:induction false} RunAlternates(s: LoopState, ticks: seq<Tick>)
    requires Alternating(s)
    ensures Alternating(Run(s, ticks))
    ensures |Run(s, ticks).submitted| <= |s.submitted| + |ticks|
    decreases |ticks|
  {
    if ticks != [] && !s.closed {
      var next := Iterate(s, ticks[0]);
      assert Alternating(next);
      RunAlternates(next, ticks[1..]);
    }
  }

  /** Each submission of a run from the start uses frame k mod 2 for the k-th frame. */
  lemma FramesAlternate(ticks: seq<Tick>)
    ensures Alternating(Run(Start, ticks))
  {
    RunAlternates(Start, ticks);
  }

  /** Without a close request, every observation yields one submission. */
  lemma {:induction false} SubmitsEveryIteration(s: LoopState, ticks: seq<Tick>)
    requires s.frame <= 1 && !s.closed
    requires forall k :: 0 <= k < |ticks| ==> !ticks[k].shouldClose
    ensures |Run(s, ticks).submitted| == |s.submitted| + |ticks| && !Run(s, ticks).closed
    decreases |ticks|
  {
    if ticks != [] {
      SubmitsEveryIteration(Iterate(s, ticks[0]), ticks[1..]);
    }
  }
}
