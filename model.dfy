/**
 * Loading an imported scene into GPU meshes and textures, drawing it and
 * releasing it. The importer's output (aiScene: a node tree referring to
 * meshes by index, the meshes' vertex streams and faces, the materials) is
 * given as data; reading the file is the importer's business and only its
 * success or failure is modelled.
 */
module Models {
  import opened Graphics

  datatype Vec2 = Vec2(x: real, y: real)

  /** An imported mesh: positions, the first UV channel if any, normals, faces, material. */
  datatype AiMesh = AiMesh(
    vertices: seq<Vec3>,
    texCoords0: Option<seq<Vec2>>,
    normals: seq<Vec3>,
    faces: seq<seq<nat>>,
    materialIndex: nat)

  /** A node of the scene graph: the scene meshes it shows, by index, and its children. */
  datatype AiNode = AiNode(meshes: seq<nat>, children: seq<AiNode>)

  /** A material: how many diffuse textures it names and the first one's path, if it can be read. */
  datatype AiMaterial = AiMaterial(diffuseCount: nat, diffusePath: Option<string>)

  datatype AiScene = AiScene(root: AiNode, meshes: seq<AiMesh>, materials: seq<AiMaterial>)

  /** Every vertex has a normal (the importer generates them) and, if there is a UV channel, a UV. */
  predicate MeshWellFormed(m: AiMesh)
  {
    && |m.normals| >= |m.vertices|
    && (m.texCoords0.Some? ==> |m.texCoords0.value| >= |m.vertices|)
  }

  /** Every mesh index in the tree names a mesh of the scene. */
  predicate RefsInRange(n: AiNode, meshCount: nat)
  {
    && (forall i :: 0 <= i < |n.meshes| ==> n.meshes[i] < meshCount)
    && (forall c :: c in n.children ==> RefsInRange(c, meshCount))
  }

  predicate SceneWellFormed(s: AiScene)
  {
    && RefsInRange(s.root, |s.meshes|)
    && (forall i :: 0 <= i < |s.meshes| ==> MeshWellFormed(s.meshes[i]))
  }

  // ---------------------------------------------------------------------------
  // The interleaved vertex buffer

  /** Eight floats per vertex: position, UV (zero when the mesh has none), negated normal. */
  function VertexRecord(m: AiMesh, i: nat): seq<real>
    requires MeshWellFormed(m) && i < |m.vertices|
  {
    var p := m.vertices[i];
    var uv := if m.texCoords0.Some? then m.texCoords0.value[i] else Vec2(0.0, 0.0);
    var n := m.normals[i];
    [p.x, p.y, p.z, uv.x, uv.y, -n.x, -n.y, -n.z]
  }

  /** The records of the first k vertices, one after the other. */
  function VertexBuffer(m: AiMesh, k: nat): seq<real>
    requires MeshWellFormed(m) && k <= |m.vertices|
  {
    if k == 0 then [] else VertexBuffer(m, k - 1) + VertexRecord(m, k - 1)
  }

  lemma {:induction false} VertexBufferLength(m: AiMesh, k: nat)
    requires MeshWellFormed(m) && k <= |m.vertices|
    ensures |VertexBuffer(m, k)| == 8 * k
    decreases k
  {
    if k > 0 {
      VertexBufferLength(m, k - 1);
    }
  }

  lemma {:induction false} VertexBufferPrefix(m: AiMesh, j: nat, k: nat)
    requires MeshWellFormed(m) && j <= k <= |m.vertices|
    ensures 8 * j <= |VertexBuffer(m, k)|
    ensures VertexBuffer(m, k)[..8 * j] == VertexBuffer(m, j)
    decreases k
  {
    VertexBufferLength(m, k);
    VertexBufferLength(m, j);
    if j < k {
      VertexBufferPrefix(m, j, k - 1);
      VertexBufferLength(m, k - 1);
      var prev := VertexBuffer(m, k - 1);
      assert (prev + VertexRecord(m, k - 1))[..8 * j] == prev[..8 * j];
    }
  }

  /**
   * Vertex i occupies floats 8i .. 8i+7 of the buffer: its position, then its
   * UV or (0, 0), then its normal with every component negated.
   */
  lemma VertexBufferLayout(m: AiMesh, i: nat)
    requires MeshWellFormed(m) && i < |m.vertices|
    ensures |VertexBuffer(m, |m.vertices|)| == 8 * |m.vertices|
    ensures VertexBuffer(m, |m.vertices|)[8 * i] == m.vertices[i].x
    ensures VertexBuffer(m, |m.vertices|)[8 * i + 1] == m.vertices[i].y
    ensures VertexBuffer(m, |m.vertices|)[8 * i + 2] == m.vertices[i].z
    ensures VertexBuffer(m, |m.vertices|)[8 * i + 3]
      == if m.texCoords0.Some? then m.texCoords0.value[i].x else 0.0
    ensures VertexBuffer(m, |m.vertices|)[8 * i + 4]
      == if m.texCoords0.Some? then m.texCoords0.value[i].y else 0.0
    ensures VertexBuffer(m, |m.vertices|)[8 * i + 5] == -m.normals[i].x
    ensures VertexBuffer(m, |m.vertices|)[8 * i + 6] == -m.normals[i].y
    ensures VertexBuffer(m, |m.vertices|)[8 * i + 7] == -m.normals[i].z
  {
    var buffer := VertexBuffer(m, |m.vertices|);
    VertexBufferSlice(m, i);
    var record := buffer[8 * i .. 8 * i + 8];
    assert record == VertexRecord(m, i);
    assert buffer[8 * i] == record[0] && buffer[8 * i + 1] == record[1];
    assert buffer[8 * i + 2] == record[2] && buffer[8 * i + 3] == record[3];
    assert buffer[8 * i + 4] == record[4] && buffer[8 * i + 5] == record[5];
    assert buffer[8 * i + 6] == record[6] && buffer[8 * i + 7] == record[7];
  }

  /** Vertex i's record is the buffer's slice 8i .. 8i+7. */
  lemma VertexBufferSlice(m: AiMesh, i: nat)
    requires MeshWellFormed(m) && i < |m.vertices|
    ensures |VertexBuffer(m, |m.vertices|)| == 8 * |m.vertices|
    ensures VertexBuffer(m, |m.vertices|)[8 * i .. 8 * i + 8] == VertexRecord(m, i)
  {
    var n := |m.vertices|;
    VertexBufferLength(m, n);
    VertexBufferLength(m, i);
    VertexBufferPrefix(m, i + 1, n);
    var upTo := VertexBuffer(m, i + 1);
    assert upTo[8 * i ..] == VertexRecord(m, i);
    assert VertexBuffer(m, n)[8 * i .. 8 * i + 8] == upTo[8 * i ..];
  }

  /** The index buffer: the faces' indices, face after face. */
  function IndexBuffer(faces: seq<seq<nat>>, k: nat): seq<nat>
    requires k <= |faces|
  {
    if k == 0 then [] else IndexBuffer(faces, k - 1) + faces[k - 1]
  }

  /** Where face f starts in the index buffer: the sizes of the faces before it. */
  function FaceOffset(faces: seq<seq<nat>>, f: nat): nat
    requires f <= |faces|
  {
    if f == 0 then 0 else FaceOffset(faces, f - 1) + |faces[f - 1]|
  }

  /** Index j of face f sits at FaceOffset(f) + j; the buffer holds nothing else. */
  lemma {:induction false} IndexBufferLayout(faces: seq<seq<nat>>, k: nat, f: nat, j: nat)
    requires k <= |faces| && f < k && j < |faces[f]|
    ensures |IndexBuffer(faces, k)| == FaceOffset(faces, k)
    ensures FaceOffset(faces, f) + j < FaceOffset(faces, k)
    ensures IndexBuffer(faces, k)[FaceOffset(faces, f) + j] == faces[f][j]
    decreases k
  {
    IndexBufferLength(faces, k);
    if f < k - 1 {
      IndexBufferLayout(faces, k - 1, f, j);
      assert IndexBuffer(faces, k) == IndexBuffer(faces, k - 1) + faces[k - 1];
    } else {
      IndexBufferLength(faces, k - 1);
    }
  }

  lemma {:induction false} IndexBufferLength(faces: seq<seq<nat>>, k: nat)
    requires k <= |faces|
    ensures |IndexBuffer(faces, k)| == FaceOffset(faces, k)
    decreases k
  {
    if k > 0 {
      IndexBufferLength(faces, k - 1);
    }
  }

  /** With every face a triangle, face f's corners are indices 3f, 3f+1 and 3f+2. */
  lemma {:induction false} TriangleOffsets(faces: seq<seq<nat>>, f: nat)
    requires f <= |faces|
    requires forall g :: 0 <= g < |faces| ==> |faces[g]| == 3
    ensures FaceOffset(faces, f) == 3 * f
    decreases f
  {
    if f > 0 {
      TriangleOffsets(faces, f - 1);
    }
  }

  /** One imported mesh's vertex and index streams, as handed to CreateMesh. */
  datatype MeshData = MeshData(vertices: seq<real>, indices: seq<nat>)

  function MeshUpload(m: AiMesh): MeshData
    requires MeshWellFormed(m)
  {
    MeshData(VertexBuffer(m, |m.vertices|), IndexBuffer(m.faces, |m.faces|))
  }

  /** The streams held by each slot of a mesh list; None for a released slot. */
  function Contents(ms: seq<Mesh?>): (r: seq<Option<MeshData>>)
    ensures |r| == |ms|
  {
    seq(|ms|, i requires 0 <= i < |ms| =>
      if ms[i] == null then None else Some(MeshData(ms[i].vertices, ms[i].indices)))
  }

  lemma ContentsAppend(a: seq<Mesh?>, b: seq<Mesh?>)
    ensures Contents(a + b) == Contents(a) + Contents(b)
  {
    assert forall i :: 0 <= i < |a + b| ==> Contents(a + b)[i] == (Contents(a) + Contents(b))[i];
  }

  // ---------------------------------------------------------------------------
  // The scene walk

  /** The mesh references of a subtree in the order LoadNode visits them: a node's own first. */
  function NodeMeshes(n: AiNode): seq<nat>
    decreases n, 1
  {
    n.meshes + ChildrenMeshes(n, |n.children|)
  }

  /** The references of the first k children's subtrees, child after child. */
  function ChildrenMeshes(n: AiNode, k: nat): seq<nat>
    requires k <= |n.children|
    decreases n, 0, k
  {
    if k == 0 then []
    else
      assert n.children[k - 1] in n.children;
      ChildrenMeshes(n, k - 1) + NodeMeshes(n.children[k - 1])
  }

  /** Mesh x is shown by the subtree: by the node itself or by a node below it. */
  predicate Shows(n: AiNode, x: nat)
  {
    x in n.meshes || exists c :: c in n.children && Shows(c, x)
  }

  /** The walk visits exactly the meshes the subtree shows, each as often as it is referenced. */
  lemma {:induction false} NodeMeshesShown(n: AiNode, x: nat)
    ensures x in NodeMeshes(n) <==> Shows(n, x)
    decreases n, 1
  {
    ChildrenMeshesShown(n, |n.children|, x);
  }

  lemma {:induction false} ChildrenMeshesShown(n: AiNode, k: nat, x: nat)
    requires k <= |n.children|
    ensures x in ChildrenMeshes(n, k) <==> exists i :: 0 <= i < k && Shows(n.children[i], x)
    decreases n, 0, k
  {
    if k > 0 {
      assert n.children[k - 1] in n.children;
      ChildrenMeshesShown(n, k - 1, x);
      NodeMeshesShown(n.children[k - 1], x);
      if Shows(n.children[k - 1], x) {
        assert x in ChildrenMeshes(n, k);
      }
    }
    if (exists c :: c in n.children[..k] && Shows(c, x)) {
      var c :| c in n.children[..k] && Shows(c, x);
      var i :| 0 <= i < k && n.children[..k][i] == c;
      assert Shows(n.children[i], x);
    }
  }

  lemma ShowsByChildIndex(n: AiNode, x: nat)
    ensures Shows(n, x) <==> x in n.meshes || exists i :: 0 <= i < |n.children| && Shows(n.children[i], x)
  {
    if exists c :: c in n.children && Shows(c, x) {
      var c :| c in n.children && Shows(c, x);
      var i :| 0 <= i < |n.children| && n.children[i] == c;
      assert Shows(n.children[i], x);
    }
  }

  /** In a well-formed tree every visited reference names a scene mesh. */
  lemma {:induction false} NodeMeshesInRange(n: AiNode, meshCount: nat)
    requires RefsInRange(n, meshCount)
    ensures forall k :: 0 <= k < |NodeMeshes(n)| ==> NodeMeshes(n)[k] < meshCount
    decreases n, 1
  {
    ChildrenMeshesInRange(n, |n.children|, meshCount);
  }

  lemma {:induction false} ChildrenMeshesInRange(n: AiNode, k: nat, meshCount: nat)
    requires k <= |n.children| && RefsInRange(n, meshCount)
    ensures forall j :: 0 <= j < |ChildrenMeshes(n, k)| ==> ChildrenMeshes(n, k)[j] < meshCount
    decreases n, 0, k
  {
    if k > 0 {
      assert n.children[k - 1] in n.children;
      ChildrenMeshesInRange(n, k - 1, meshCount);
      NodeMeshesInRange(n.children[k - 1], meshCount);
    }
  }

  /** What LoadMesh creates for scene mesh x; nothing for an index a well-formed scene cannot hold. */
  function SceneMeshUpload(s: AiScene, x: nat): Option<MeshData>
  {
    if x < |s.meshes| && MeshWellFormed(s.meshes[x]) then Some(MeshUpload(s.meshes[x])) else None
  }

  /** The material index of scene mesh x (0 for an index a well-formed scene cannot hold). */
  function SceneMaterial(s: AiScene, x: nat): nat
  {
    if x < |s.meshes| then s.meshes[x].materialIndex else 0
  }

  /** The streams LoadMesh creates for the referenced meshes, in order. */
  function Loads(s: AiScene, refs: seq<nat>): (r: seq<Option<MeshData>>)
    ensures |r| == |refs|
  {
    seq(|refs|, k requires 0 <= k < |refs| => SceneMeshUpload(s, refs[k]))
  }

  /** The material index recorded for each referenced mesh, in order. */
  function MaterialsOf(s: AiScene, refs: seq<nat>): (r: seq<nat>)
    ensures |r| == |refs|
  {
    seq(|refs|, k requires 0 <= k < |refs| => SceneMaterial(s, refs[k]))
  }

  lemma LoadsAppend(s: AiScene, a: seq<nat>, b: seq<nat>)
    ensures Loads(s, a + b) == Loads(s, a) + Loads(s, b)
    ensures MaterialsOf(s, a + b) == MaterialsOf(s, a) + MaterialsOf(s, b)
  {
    var ab := a + b;
    assert forall k :: 0 <= k < |ab| ==> ab[k] == (if k < |a| then a[k] else b[k - |a|]);
    assert forall k :: 0 <= k < |ab| ==> Loads(s, ab)[k] == (Loads(s, a) + Loads(s, b))[k];
    assert forall k :: 0 <= k < |ab| ==> MaterialsOf(s, ab)[k] == (MaterialsOf(s, a) + MaterialsOf(s, b))[k];
  }

  // ---------------------------------------------------------------------------
  // Textures

  /** The fallback texture for materials without a usable diffuse texture. */
  const DEFAULT_TEXTURE: string := "Textures/plain.png"

  /**
   * The position of the last backslash in a path, or -1 when there is none:
   * what `rfind("\\")` gives once stored in an int.
   */
  function LastBackslash(p: string): (r: int)
    ensures -1 <= r < |p|
    ensures r >= 0 ==> p[r] == '\\'
    ensures forall k :: r < k < |p| ==> p[k] != '\\'
    decreases |p|
  {
    if |p| == 0 then -1
    else if p[|p| - 1] == '\\' then |p| - 1
    else LastBackslash(p[..|p| - 1])
  }

  /** The file name of a possibly Windows-style path: what follows the last backslash. */
  function FileName(p: string): string
  {
    p[LastBackslash(p) + 1..]
  }

  /** Where the model looks for a material's texture: its file name under Textures/. */
  function TexturePath(p: string): string
  {
    "Textures/" + FileName(p)
  }

  /**
   * The texture path is `Textures/` followed by a backslash-free tail of the
   * original path, and a path without backslashes is kept whole.
   */
  lemma TexturePathShape(p: string)
    ensures TexturePath(p)[..9] == "Textures/"
    ensures TexturePath(p)[9..] == FileName(p)
    ensures forall k :: 0 <= k < |FileName(p)| ==> FileName(p)[k] != '\\'
    ensures p == p[..|p| - |FileName(p)|] + FileName(p)
    ensures (forall k :: 0 <= k < |p| ==> p[k] != '\\') ==> FileName(p) == p
  {
    var r := LastBackslash(p);
    assert forall k :: 0 <= k < |FileName(p)| ==> FileName(p)[k] == p[r + 1 + k];
    if forall k :: 0 <= k < |p| ==> p[k] != '\\' {
      assert r == -1;
    }
  }

  /** The file a material's texture slot ends up holding. */
  function ChosenFile(m: AiMaterial, gl: Gl): string
  {
    if m.diffuseCount > 0 && m.diffusePath.Some? && gl.ImageLoads(TexturePath(m.diffusePath.value))
    then TexturePath(m.diffusePath.value)
    else DEFAULT_TEXTURE
  }

  /**
   * A material's own texture is used when it names one and that image loads;
   * in every other case (no diffuse texture, unreadable path, failed load) the
   * slot falls back to the default texture.
   */
  lemma ChosenFileCases(m: AiMaterial, gl: Gl)
    ensures ChosenFile(m, gl) == DEFAULT_TEXTURE || gl.ImageLoads(ChosenFile(m, gl))
    ensures ChosenFile(m, gl) != DEFAULT_TEXTURE ==>
      m.diffuseCount > 0 && m.diffusePath.Some? && ChosenFile(m, gl) == TexturePath(m.diffusePath.value)
    ensures m.diffuseCount == 0 || m.diffusePath.None? ==> ChosenFile(m, gl) == DEFAULT_TEXTURE
  {
  }

  /** The texture path of a material whose own image fails to load, if any. */
  function FailedFile(m: AiMaterial, gl: Gl): seq<string>
  {
    if m.diffuseCount > 0 && m.diffusePath.Some? && !gl.ImageLoads(TexturePath(m.diffusePath.value))
    then [TexturePath(m.diffusePath.value)]
    else []
  }

  /** The texture paths that fail to load, material by material: each such texture is deleted. */
  function FailedFiles(ms: seq<AiMaterial>, gl: Gl): seq<string>
  {
    if ms == [] then [] else FailedFiles(ms[..|ms| - 1], gl) + FailedFile(ms[|ms| - 1], gl)
  }

  /** Every texture slot holds a texture of the file chosen for its material. */
  predicate TexturesChosen(ts: seq<Texture?>, materials: seq<AiMaterial>, gl: Gl)
  {
    && |ts| == |materials|
    && forall i :: 0 <= i < |ts| ==> ts[i] != null && ts[i].fileLocation == ChosenFile(materials[i], gl)
  }

  /** The files of a run of texture deletions; None if the run holds any other call. */
  function DeletedTextureFiles(calls: seq<Call>): Option<seq<string>>
  {
    if calls == [] then Some([])
    else
      match DeletedTextureFiles(calls[..|calls| - 1])
      case None => None
      case Some(files) =>
        if calls[|calls| - 1].DeleteTexture? then Some(files + [calls[|calls| - 1].texture.fileLocation])
        else None
  }

  /** std::vector::resize: cut to n, or grow to n with empty slots. */
  function Resize(ts: seq<Texture?>, n: nat): (r: seq<Texture?>)
    ensures |r| == n
    ensures forall i :: 0 <= i < n && i < |ts| ==> r[i] == ts[i]
    ensures forall i :: |ts| <= i < n ==> r[i] == null
  {
    if n <= |ts| then ts[..n] else ts + seq(n - |ts|, _ => null)
  }

  // ---------------------------------------------------------------------------
  // Drawing and releasing

  /** What drawing mesh slot i issues: its material's texture, if that slot holds one, then the mesh. */
  function MeshRender(mesh: Mesh, materialIndex: nat, textures: seq<Texture?>): seq<Call>
  {
    (if materialIndex < |textures| && textures[materialIndex] != null
     then [BindTexture(textures[materialIndex])] else [])
    + [DrawMesh(mesh)]
  }

  function RenderCalls(ms: seq<Mesh?>, meshToTex: seq<nat>, textures: seq<Texture?>, k: nat): seq<Call>
    requires k <= |ms| && k <= |meshToTex|
    requires forall i :: 0 <= i < k ==> ms[i] != null
  {
    if k == 0 then []
    else RenderCalls(ms, meshToTex, textures, k - 1) + MeshRender(ms[k - 1], meshToTex[k - 1], textures)
  }

  /** The meshes a run of calls draws, in order. */
  function DrawnMeshes(calls: seq<Call>): seq<Mesh?>
  {
    if calls == [] then []
    else DrawnMeshes(calls[..|calls| - 1])
         + (if calls[|calls| - 1].DrawMesh? then [calls[|calls| - 1].mesh] else [])
  }

  /** The textures a run of calls binds, in order. */
  function BoundTextures(calls: seq<Call>): seq<Texture?>
  {
    if calls == [] then []
    else BoundTextures(calls[..|calls| - 1])
         + (if calls[|calls| - 1].BindTexture? then [calls[|calls| - 1].texture] else [])
  }

  lemma {:induction false} DrawnMeshesAppend(a: seq<Call>, b: seq<Call>)
    ensures DrawnMeshes(a + b) == DrawnMeshes(a) + DrawnMeshes(b)
    ensures BoundTextures(a + b) == BoundTextures(a) + BoundTextures(b)
    decreases |b|
  {
    if b == [] {
      assert a + b == a;
    } else {
      var b' := b[..|b| - 1];
      assert (a + b)[..|a + b| - 1] == a + b';
      assert b[..|b| - 1] == b';
      DrawnMeshesAppend(a, b');
    }
  }

  /** Drawing one slot draws its mesh once and binds at most its material's texture. */
  lemma MeshRenderEffects(mesh: Mesh, materialIndex: nat, textures: seq<Texture?>)
    ensures DrawnMeshes(MeshRender(mesh, materialIndex, textures)) == [mesh]
    ensures BoundTextures(MeshRender(mesh, materialIndex, textures))
      == if materialIndex < |textures| && textures[materialIndex] != null then [textures[materialIndex]] else []
  {
    var draw := [DrawMesh(mesh)];
    assert DrawnMeshes(draw) == [mesh] && BoundTextures(draw) == [] by {
      assert draw[..0] == [];
    }
    if materialIndex < |textures| && textures[materialIndex] != null {
      var bind := [BindTexture(textures[materialIndex])];
      assert DrawnMeshes(bind) == [] && BoundTextures(bind) == [textures[materialIndex]] by {
        assert bind[..0] == [];
      }
      DrawnMeshesAppend(bind, draw);
    } else {
      assert MeshRender(mesh, materialIndex, textures) == draw;
    }
  }

  /** Drawing draws every mesh slot exactly once, in list order. */
  lemma {:induction false} RenderDrawsEveryMesh(ms: seq<Mesh?>, meshToTex: seq<nat>,
                                                textures: seq<Texture?>, k: nat)
    requires k <= |ms| && k <= |meshToTex|
    requires forall i :: 0 <= i < k ==> ms[i] != null
    ensures DrawnMeshes(RenderCalls(ms, meshToTex, textures, k)) == ms[..k]
    decreases k
  {
    if k > 0 {
      var prev := RenderCalls(ms, meshToTex, textures, k - 1);
      var step := MeshRender(ms[k - 1], meshToTex[k - 1], textures);
      assert RenderCalls(ms, meshToTex, textures, k) == prev + step;
      RenderDrawsEveryMesh(ms, meshToTex, textures, k - 1);
      DrawnMeshesAppend(prev, step);
      MeshRenderEffects(ms[k - 1], meshToTex[k - 1], textures);
      assert DrawnMeshes(prev + step) == ms[..k - 1] + [ms[k - 1]];
      assert ms[..k] == ms[..k - 1] + [ms[k - 1]];
    }
  }

  /** When every mesh's material has a texture, each mesh is drawn with its material's texture bound. */
  lemma {:induction false} RenderBindsMaterials(ms: seq<Mesh?>, meshToTex: seq<nat>,
                                                textures: seq<Texture?>, k: nat)
    requires k <= |ms| && k <= |meshToTex|
    requires forall i :: 0 <= i < k ==> ms[i] != null
    requires forall i :: 0 <= i < k ==> meshToTex[i] < |textures| && textures[meshToTex[i]] != null
    ensures BoundTextures(RenderCalls(ms, meshToTex, textures, k)) == MaterialTextures(meshToTex, textures, k)
    decreases k
  {
    if k > 0 {
      var prev := RenderCalls(ms, meshToTex, textures, k - 1);
      var step := MeshRender(ms[k - 1], meshToTex[k - 1], textures);
      assert RenderCalls(ms, meshToTex, textures, k) == prev + step;
      RenderBindsMaterials(ms, meshToTex, textures, k - 1);
      DrawnMeshesAppend(prev, step);
      MeshRenderEffects(ms[k - 1], meshToTex[k - 1], textures);
      MaterialTexturesStep(meshToTex, textures, k);
    }
  }

  /** The texture of each of the first k meshes' materials, in mesh order. */
  function MaterialTextures(meshToTex: seq<nat>, textures: seq<Texture?>, k: nat): (r: seq<Texture?>)
    requires k <= |meshToTex|
    requires forall i :: 0 <= i < k ==> meshToTex[i] < |textures|
    ensures |r| == k
  {
    seq(k, i requires 0 <= i < k => textures[meshToTex[i]])
  }

  lemma MaterialTexturesStep(meshToTex: seq<nat>, textures: seq<Texture?>, k: nat)
    requires 0 < k <= |meshToTex|
    requires forall i :: 0 <= i < k ==> meshToTex[i] < |textures|
    ensures MaterialTextures(meshToTex, textures, k)
      == MaterialTextures(meshToTex, textures, k - 1) + [textures[meshToTex[k - 1]]]
  {
    var whole := MaterialTextures(meshToTex, textures, k);
    var front := MaterialTextures(meshToTex, textures, k - 1);
    assert forall i :: 0 <= i < k ==> whole[i] == (front + [textures[meshToTex[k - 1]]])[i];
  }

  /** The deletions ClearModel issues for a mesh list: one per occupied slot, in order. */
  function MeshDeletes(ms: seq<Mesh?>): seq<Call>
  {
    if ms == [] then []
    else MeshDeletes(ms[..|ms| - 1])
         + (if ms[|ms| - 1] != null then [DeleteMesh(ms[|ms| - 1])] else [])
  }

  function TextureDeletes(ts: seq<Texture?>): seq<Call>
  {
    if ts == [] then []
    else TextureDeletes(ts[..|ts| - 1])
         + (if ts[|ts| - 1] != null then [DeleteTexture(ts[|ts| - 1])] else [])
  }

  /** Releasing lists whose slots are all empty issues nothing: a second ClearModel is harmless. */
  lemma {:induction false} ClearedDeletesNothing(ms: seq<Mesh?>, ts: seq<Texture?>)
    requires forall i :: 0 <= i < |ms| ==> ms[i] == null
    requires forall i :: 0 <= i < |ts| ==> ts[i] == null
    ensures MeshDeletes(ms) == [] && TextureDeletes(ts) == []
    decreases |ms| + |ts|
  {
    if ms != [] {
      ClearedDeletesNothing(ms[..|ms| - 1], ts);
    } else if ts != [] {
      ClearedDeletesNothing(ms, ts[..|ts| - 1]);
    }
  }

  /** Releasing deletes each occupied slot once: as many deletions as live meshes. */
  lemma {:induction false} MeshDeletesCount(ms: seq<Mesh?>)
    ensures |MeshDeletes(ms)| == |set i | 0 <= i < |ms| && ms[i] != null|
    decreases |ms|
  {
    if ms != [] {
      var init := ms[..|ms| - 1];
      MeshDeletesCount(init);
      var before := set i | 0 <= i < |init| && init[i] != null;
      var after := set i | 0 <= i < |ms| && ms[i] != null;
      if ms[|ms| - 1] != null {
        assert after == before + {|ms| - 1};
      } else {
        assert after == before;
      }
    }
  }

  // ---------------------------------------------------------------------------
  // The model

  class Model {
    var meshList: seq<Mesh?>
    var meshToTex: seq<nat>
    var textureList: seq<Texture?>

    /** Every mesh slot has its material index. */
    ghost predicate Valid()
      reads this
    {
      |meshList| == |meshToTex|
    }

    constructor ()
      ensures Valid()
      ensures meshList == [] && meshToTex == [] && textureList == []
    {
      meshList := [];
      meshToTex := [];
      textureList := [];
    }

    /**
     * LoadModel: when the importer fails nothing changes; otherwise the scene's
     * meshes are loaded in tree order and its materials' textures set up.
     */
    method LoadModel(gl: Gl, scene: Option<AiScene>)
      requires Valid()
      requires scene.Some? ==> SceneWellFormed(scene.value)
      modifies this, gl
      ensures Valid()
      ensures scene.None? ==> unchanged(this) && gl.log == old(gl.log)
      ensures scene.Some? ==>
        && NodeMeshesInScene(scene.value)
        && Contents(meshList) == old(Contents(meshList)) + Loads(scene.value, NodeMeshes(scene.value.root))
        && meshToTex == old(meshToTex) + MaterialsOf(scene.value, NodeMeshes(scene.value.root))
        && TexturesChosen(textureList, scene.value.materials, gl)
        && |gl.log| >= |old(gl.log)| && gl.log[..|old(gl.log)|] == old(gl.log)
        && DeletedTextureFiles(gl.log[|old(gl.log)|..]) == Some(FailedFiles(scene.value.materials, gl))
    {
      if scene.None? {
        return;
      }
      var s := scene.value;
      NodeMeshesInRange(s.root, |s.meshes|);
      LoadNode(s, s.root);
      LoadMaterials(gl, s);
    }

    /** The tree's references are in range, so the loaded streams can be named. */
    ghost predicate NodeMeshesInScene(s: AiScene)
    {
      forall k :: 0 <= k < |NodeMeshes(s.root)| ==> NodeMeshes(s.root)[k] < |s.meshes|
    }

    /** Record one imported mesh: a GPU mesh of its streams and its material index. */
    method LoadMesh(m: AiMesh)
      requires Valid() && MeshWellFormed(m)
      modifies this
      ensures Valid()
      ensures old(meshList) <= meshList
      ensures Contents(meshList) == old(Contents(meshList)) + [Some(MeshUpload(m))]
      ensures meshToTex == old(meshToTex) + [m.materialIndex]
      ensures textureList == old(textureList)
    {
      var vertices := InterleaveVertices(m);
      var indices := FlattenFaces(m.faces);
      var newMesh := new Mesh(vertices, indices);
      ContentsAppend(meshList, [newMesh]);
      meshList := meshList + [newMesh];
      meshToTex := meshToTex + [m.materialIndex];
    }

    /** The per-vertex loop of LoadMesh. */
    static method InterleaveVertices(m: AiMesh) returns (vertices: seq<real>)
      requires MeshWellFormed(m)
      ensures vertices == VertexBuffer(m, |m.vertices|)
    {
      vertices := [];
      for i := 0 to |m.vertices|
        invariant vertices == VertexBuffer(m, i)
      {
        var p := m.vertices[i];
        vertices := vertices + [p.x, p.y, p.z];
        if m.texCoords0.Some? {
          vertices := vertices + [m.texCoords0.value[i].x, m.texCoords0.value[i].y];
        } else {
          vertices := vertices + [0.0, 0.0];
        }
        var n := m.normals[i];
        vertices := vertices + [-n.x, -n.y, -n.z];
      }
    }

    /** The per-face loop of LoadMesh. */
    static method FlattenFaces(faces: seq<seq<nat>>) returns (indices: seq<nat>)
      ensures indices == IndexBuffer(faces, |faces|)
    {
      indices := [];
      for i := 0 to |faces|
        invariant indices == IndexBuffer(faces, i)
      {
        var face := faces[i];
        for j := 0 to |face|
          invariant indices == IndexBuffer(faces, i) + face[..j]
        {
          indices := indices + [face[j]];
          assert face[..j + 1] == face[..j] + [face[j]];
        }
        assert face[..|face|] == face;
      }
    }

    /** Load a subtree: the node's own meshes, then each child's subtree, in order. */
    method LoadNode(s: AiScene, node: AiNode)
      requires Valid() && SceneWellFormed(s) && RefsInRange(node, |s.meshes|)
      modifies this
      ensures Valid()
      ensures old(meshList) <= meshList
      ensures Contents(meshList) == old(Contents(meshList)) + Loads(s, NodeMeshes(node))
      ensures meshToTex == old(meshToTex) + MaterialsOf(s, NodeMeshes(node))
      ensures textureList == old(textureList)
      decreases node, 1
    {
      LoadMeshes(s, node.meshes);
      LoadChildren(s, node);
      LoadsAppend(s, node.meshes, ChildrenMeshes(node, |node.children|));
    }

    /** The first loop of LoadNode: the node's own meshes, in order. */
    method LoadMeshes(s: AiScene, refs: seq<nat>)
      requires Valid() && SceneWellFormed(s)
      requires forall k :: 0 <= k < |refs| ==> refs[k] < |s.meshes|
      modifies this
      ensures Valid()
      ensures old(meshList) <= meshList
      ensures Contents(meshList) == old(Contents(meshList)) + Loads(s, refs)
      ensures meshToTex == old(meshToTex) + MaterialsOf(s, refs)
      ensures textureList == old(textureList)
    {
      ghost var contents0 := Contents(meshList);
      ghost var materials0 := meshToTex;
      for i := 0 to |refs|
        invariant Valid() && textureList == old(textureList)
        invariant old(meshList) <= meshList
        invariant Contents(meshList) == contents0 + Loads(s, refs[..i])
        invariant meshToTex == materials0 + MaterialsOf(s, refs[..i])
      {
        LoadMesh(s.meshes[refs[i]]);
        assert SceneMeshUpload(s, refs[i]) == Some(MeshUpload(s.meshes[refs[i]]));
        assert refs[..i + 1] == refs[..i] + [refs[i]];
        LoadsAppend(s, refs[..i], [refs[i]]);
      }
      assert refs[..|refs|] == refs;
    }

    /** The second loop of LoadNode: each child's subtree, child after child. */
    method LoadChildren(s: AiScene, node: AiNode)
      requires Valid() && SceneWellFormed(s) && RefsInRange(node, |s.meshes|)
      modifies this
      ensures Valid()
      ensures old(meshList) <= meshList
      ensures Contents(meshList) == old(Contents(meshList)) + Loads(s, ChildrenMeshes(node, |node.children|))
      ensures meshToTex == old(meshToTex) + MaterialsOf(s, ChildrenMeshes(node, |node.children|))
      ensures textureList == old(textureList)
      decreases node, 0
    {
      ghost var contents0 := Contents(meshList);
      ghost var materials0 := meshToTex;
      for i := 0 to |node.children|
        invariant Valid() && textureList == old(textureList)
        invariant old(meshList) <= meshList
        invariant Contents(meshList) == contents0 + Loads(s, ChildrenMeshes(node, i))
        invariant meshToTex == materials0 + MaterialsOf(s, ChildrenMeshes(node, i))
      {
        var child := node.children[i];
        assert child in node.children;
        ghost var visited := ChildrenMeshes(node, i);
        ghost var below := NodeMeshes(child);
        LoadNode(s, child);
        assert ChildrenMeshes(node, i + 1) == visited + below;
        LoadsAppend(s, visited, below);
        assert contents0 + Loads(s, visited + below) == (contents0 + Loads(s, visited)) + Loads(s, below);
        assert materials0 + MaterialsOf(s, visited + below) == (materials0 + MaterialsOf(s, visited)) + MaterialsOf(s, below);
      }
    }

    /**
     * One texture slot per material: the material's own diffuse texture under
     * Textures/ when it names one and the image loads, otherwise the default
     * texture. A texture that fails to load is deleted before the fallback.
     */
    method LoadMaterials(gl: Gl, s: AiScene)
      modifies this, gl
      ensures meshList == old(meshList) && meshToTex == old(meshToTex)
      ensures TexturesChosen(textureList, s.materials, gl)
      ensures |gl.log| >= |old(gl.log)| && gl.log[..|old(gl.log)|] == old(gl.log)
      ensures DeletedTextureFiles(gl.log[|old(gl.log)|..]) == Some(FailedFiles(s.materials, gl))
    {
      var n := |s.materials|;
      textureList := Resize(textureList, n);
      ghost var start := gl.log;
      assert gl.log[|start|..] == [];
      for i := 0 to n
        invariant |textureList| == n
        invariant meshList == old(meshList) && meshToTex == old(meshToTex)
        invariant forall k :: 0 <= k < i ==>
          textureList[k] != null && textureList[k].fileLocation == ChosenFile(s.materials[k], gl)
        invariant |gl.log| >= |start| && gl.log[..|start|] == start
        invariant DeletedTextureFiles(gl.log[|start|..]) == Some(FailedFiles(s.materials[..i], gl))
      {
        ghost var logBefore := gl.log;
        var texture := MaterialTexture(gl, s.materials[i]);
        textureList := textureList[i := texture];
        FailedFilesStep(s.materials, i, gl);
        DeletedAfter(start, logBefore, gl.log, FailedFiles(s.materials[..i], gl), FailedFile(s.materials[i], gl));
      }
      assert s.materials[..n] == s.materials;
    }

    /**
     * The body of the materials loop for one material: try its diffuse
     * texture, delete it when the image does not load, and fall back to the
     * default texture when there is none by then.
     */
    static method MaterialTexture(gl: Gl, material: AiMaterial) returns (texture: Texture)
      modifies gl
      ensures texture.fileLocation == ChosenFile(material, gl)
      ensures |gl.log| >= |old(gl.log)| && gl.log[..|old(gl.log)|] == old(gl.log)
      ensures DeletedTextureFiles(gl.log[|old(gl.log)|..]) == Some(FailedFile(material, gl))
    {
      var slot: Texture? := null;
      if material.diffuseCount > 0 {
        if material.diffusePath.Some? {
          var texPath := TexturePath(material.diffusePath.value);
          var candidate := new Texture(texPath);
          slot := candidate;
          var loaded := candidate.LoadTexture(gl);
          if !loaded {
            gl.Issue(DeleteTexture(candidate));
            slot := null;
            assert gl.log[|old(gl.log)|..] == [DeleteTexture(candidate)];
            DeletedOne(candidate);
          }
        }
      }
      if slot == null {
        var fallback := new Texture(DEFAULT_TEXTURE);
        slot := fallback;
        var _ := fallback.LoadTextureA(gl);
      }
      texture := slot;
      if gl.log == old(gl.log) {
        assert gl.log[|old(gl.log)|..] == [];
      }
    }

    /**
     * Drawing: for each mesh slot in order, bind its material's texture when
     * that slot holds one, then draw the mesh.
     */
    method RenderModel(gl: Gl)
      requires Valid()
      requires forall i :: 0 <= i < |meshList| ==> meshList[i] != null
      modifies gl
      ensures gl.log == old(gl.log) + RenderCalls(meshList, meshToTex, textureList, |meshList|)
    {
      ghost var start := gl.log;
      for i := 0 to |meshList|
        invariant gl.log == start + RenderCalls(meshList, meshToTex, textureList, i)
      {
        var materialIndex := meshToTex[i];
        if materialIndex < |textureList| && textureList[materialIndex] != null {
          gl.Issue(BindTexture(textureList[materialIndex]));
        }
        gl.Issue(DrawMesh(meshList[i]));
      }
    }

    /**
     * Releasing: every occupied mesh slot, then every occupied texture slot, is
     * deleted and emptied. The lists keep their length and the material
     * indices stay.
     */
    method ClearModel(gl: Gl)
      modifies this, gl
      ensures |meshList| == |old(meshList)| && |textureList| == |old(textureList)|
      ensures forall i :: 0 <= i < |meshList| ==> meshList[i] == null
      ensures forall i :: 0 <= i < |textureList| ==> textureList[i] == null
      ensures meshToTex == old(meshToTex)
      ensures gl.log == old(gl.log) + MeshDeletes(old(meshList)) + TextureDeletes(old(textureList))
    {
      ghost var meshes0 := meshList;
      ghost var textures0 := textureList;
      for i := 0 to |meshList|
        invariant |meshList| == |meshes0| && textureList == textures0 && meshToTex == old(meshToTex)
        invariant forall k :: 0 <= k < i ==> meshList[k] == null
        invariant forall k :: i <= k < |meshList| ==> meshList[k] == meshes0[k]
        invariant gl.log == old(gl.log) + MeshDeletes(meshes0[..i])
      {
        assert meshes0[..i + 1][..i] == meshes0[..i];
        if meshList[i] != null {
          gl.Issue(DeleteMesh(meshList[i]));
          meshList := meshList[i := null];
        }
      }
      assert meshes0[..|meshes0|] == meshes0;
      ghost var afterMeshes := gl.log;
      for i := 0 to |textureList|
        invariant |textureList| == |textures0| && meshToTex == old(meshToTex)
        invariant forall k :: 0 <= k < |meshList| ==> meshList[k] == null
        invariant |meshList| == |meshes0|
        invariant forall k :: 0 <= k < i ==> textureList[k] == null
        invariant forall k :: i <= k < |textureList| ==> textureList[k] == textures0[k]
        invariant gl.log == afterMeshes + TextureDeletes(textures0[..i])
      {
        assert textures0[..i + 1][..i] == textures0[..i];
        if textureList[i] != null {
          gl.Issue(DeleteTexture(textureList[i]));
          textureList := textureList[i := null];
        }
      }
      assert textures0[..|textures0|] == textures0;
    }
  }

  /** FailedFiles grows material by material. */
  lemma FailedFilesStep(ms: seq<AiMaterial>, i: nat, gl: Gl)
    requires i < |ms|
    ensures FailedFiles(ms[..i + 1], gl) == FailedFiles(ms[..i], gl) + FailedFile(ms[i], gl)
  {
    assert ms[..i + 1][..i] == ms[..i];
  }

  /** A log that gains the deletions of `step` extends the run of deletions after `start` by those files. */
  lemma DeletedAfter(start: seq<Call>, before: seq<Call>, after: seq<Call>,
                     files: seq<string>, step: seq<string>)
    requires |before| >= |start| && before[..|start|] == start
    requires DeletedTextureFiles(before[|start|..]) == Some(files)
    requires |after| >= |before| && after[..|before|] == before
    requires DeletedTextureFiles(after[|before|..]) == Some(step)
    ensures |after| >= |start| && after[..|start|] == start
    ensures DeletedTextureFiles(after[|start|..]) == Some(files + step)
  {
    assert after[|start|..] == before[|start|..] + after[|before|..];
    DeletedAppend(before[|start|..], after[|before|..]);
  }

  lemma DeletedOne(t: Texture)
    ensures DeletedTextureFiles([DeleteTexture(t)]) == Some([t.fileLocation])
  {
    assert [DeleteTexture(t)][..0] == [];
    assert [] + [t.fileLocation] == [t.fileLocation];
  }

  lemma {:induction false} DeletedAppend(a: seq<Call>, b: seq<Call>)
    requires DeletedTextureFiles(a).Some? && DeletedTextureFiles(b).Some?
    ensures DeletedTextureFiles(a + b) == Some(DeletedTextureFiles(a).value + DeletedTextureFiles(b).value)
    decreases |b|
  {
    if b == [] {
      assert a + b == a;
      assert DeletedTextureFiles(a).value + [] == DeletedTextureFiles(a).value;
    } else {
      var b' := b[..|b| - 1];
      assert (a + b)[..|a + b| - 1] == a + b';
      assert (a + b)[|a + b| - 1] == b[|b| - 1];
      assert DeletedTextureFiles(b').Some?;
      DeletedAppend(a, b');
      var fa, fb' := DeletedTextureFiles(a).value, DeletedTextureFiles(b').value;
      assert (fa + fb') + [b[|b| - 1].texture.fileLocation] == fa + (fb' + [b[|b| - 1].texture.fileLocation]);
    }
  }
}
