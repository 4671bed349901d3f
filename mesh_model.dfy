/** `MeshModel`: a list of meshes with one model transform, and the static
    helpers that build meshes from an assimp scene. */
module MeshModels {
  import opened Common
  import opened Assimp

  datatype Vec2 = Vec2(x: real, y: real)

  /** Vertex layout uploaded to the GPU: position, colour, texture coordinates. */
  datatype Vertex = Vertex(pos: Vec3, col: Vec3, tex: Vec2)

  /** A `Mesh` as the loader creates it: its vertices, its indices and the index
      of its texture.  GPU buffers are not part of the model. */
  datatype Mesh = Mesh(vertices: seq<Vertex>, indices: seq<uint32>, texId: int)

  /** A `glm::mat4`, column by column; the model never computes with it. */
  datatype Mat4 = Mat4(entries: seq<real>)

  /** `glm::mat4(1.0f)` */
  const Identity: Mat4 := Mat4([1.0, 0.0, 0.0, 0.0,
                                0.0, 1.0, 0.0, 0.0,
                                0.0, 0.0, 1.0, 0.0,
                                0.0, 0.0, 0.0, 1.0])

  const White: Vec3 := Vec3(1.0, 1.0, 1.0)

  class MeshModel {
    var meshes: seq<Mesh>
    var model: Mat4
    /** The meshes `destroyBuffers` has been called on, in call order. */
    var destroyedBuffers: seq<Mesh>

    /** `MeshModel()`: no meshes.  The transform is left as `glm::mat4`'s default
        constructor leaves it, which the contract does not promise anything about. */
    constructor Empty()
      ensures meshes == [] && destroyedBuffers == []
    {
      meshes := [];
      model := Identity;
      destroyedBuffers := [];
    }

    /** `MeshModel(meshes)`: takes the meshes, with the identity transform. */
    constructor (newMeshes: seq<Mesh>)
      ensures meshes == newMeshes && model == Identity && destroyedBuffers == []
      ensures GetMeshCount() == |newMeshes|
      ensures GetModel() == Identity
    {
      meshes := newMeshes;
      model := Identity;
      destroyedBuffers := [];
    }

    /** `getMeshCount`: exactly the indices below it are accepted by `getMesh`. */
    function GetMeshCount(): (count: nat)
      reads this
      ensures forall index: nat :: GetMesh(index).Success? <==> index < count
    {
      |meshes|
    }

    /** `getMesh`: the mesh at `index`, or the error thrown for an index past the end. */
    function GetMesh(index: nat): (r: Result<Mesh, Error>)
      reads this
      ensures index < |meshes| ==> r == Success(meshes[index])
      ensures |meshes| <= index ==> r == Failure(InvalidMeshIndex(index))
    {
      if index >= |meshes| then Failure(InvalidMeshIndex(index)) else Success(meshes[index])
    }

    /** `getModel`: the stored transform. */
    function GetModel(): Mat4
      reads this
    {
      model
    }

    /** `setModel`: a later `getModel` returns the new transform; the meshes stay. */
    method SetModel(newModel: Mat4)
      modifies this`model
      ensures GetModel() == newModel
      ensures meshes == old(meshes) && destroyedBuffers == old(destroyedBuffers)
    {
      model := newModel;
    }

    /** `destroyMeshModel`: `destroyBuffers` once on every mesh, in list order. */
    method DestroyMeshModel()
      modifies this`destroyedBuffers
      ensures destroyedBuffers == old(destroyedBuffers) + meshes
      ensures meshes == old(meshes)
    {
      var i := 0;
      while i < |meshes|
        invariant 0 <= i <= |meshes|
        invariant destroyedBuffers == old(destroyedBuffers) + meshes[..i]
      {
        destroyedBuffers := destroyedBuffers + [meshes[i]];
        assert meshes[..i + 1] == meshes[..i] + [meshes[i]];
        i := i + 1;
      }
      assert meshes[..i] == meshes;
    }
  }

  // ---------------------------------------------------------------------------
  // LoadMaterials

  /** `std::string::rfind(c)` converted to `int`: the last position of `c`, or -1. */
  function LastIndexOf(s: string, c: char): (r: int)
    ensures -1 <= r < |s|
    ensures r >= 0 ==> s[r] == c
    ensures forall k :: r < k < |s| ==> s[k] != c
  {
    if |s| == 0 then -1
    else if s[|s| - 1] == c then |s| - 1
    else LastIndexOf(s[..|s| - 1], c)
  }

  /** The file name `LoadMaterials` keeps of a texture path: everything after the
      last '/'.  The backslash-stripped name the source computes first is
      overwritten by a name recomputed from the full path, so backslashes never
      separate directories. */
  function FileName(pathStr: string): (fileName: string)
    ensures '/' !in fileName
    ensures |fileName| <= |pathStr| && fileName == pathStr[|pathStr| - |fileName|..]
    ensures |fileName| < |pathStr| ==> pathStr[|pathStr| - |fileName| - 1] == '/'
    ensures '/' !in pathStr ==> fileName == pathStr
  {
    var idx := LastIndexOf(pathStr, '/');
    var fileName := pathStr[idx + 1..];
    assert |pathStr| - |fileName| == idx + 1;
    assert '/' !in fileName by {
      forall k | 0 <= k < |fileName| ensures fileName[k] != '/' {
        assert fileName[k] == pathStr[idx + 1 + k];
      }
    }
    assert '/' !in pathStr ==> idx == -1 by {
      if idx >= 0 { assert pathStr[idx] in pathStr; }
    }
    fileName
  }

  /** A Windows-style path keeps its directory part; a '/'-separated one loses it. */
  lemma FileNameExamples()
    ensures FileName("textures\\brick.png") == "textures\\brick.png"
    ensures FileName("models/textures/brick.png") == "brick.png"
  {
    var p := "models/textures/brick.png";
    assert LastIndexOf(p, '/') == 15 by {
      assert p[15] == '/';
      assert forall k :: 15 < k < |p| ==> p[k] != '/';
      assert LastIndexOf(p, '/') >= 15;
    }
  }

  /** The entry `LoadMaterials` stores for one material. */
  function TextureFileName(mat: Material): string {
    if mat.diffuseTextureCount != 0 && mat.diffuseTexturePath.Some? then
      FileName(mat.diffuseTexturePath.value)
    else
      ""
  }

  /** `LoadMaterials`: one entry per material, "" unless a diffuse texture path
      was obtained, in which case the file name of that path. */
  method LoadMaterials(scene: Scene) returns (textures: seq<string>)
    ensures |textures| == |scene.materials|
    ensures forall i :: 0 <= i < |textures| ==> textures[i] == TextureFileName(scene.materials[i])
    ensures forall i :: (0 <= i < |textures| &&
                         (scene.materials[i].diffuseTextureCount == 0 || scene.materials[i].diffuseTexturePath.None?))
                        ==> textures[i] == ""
  {
    textures := seq(|scene.materials|, _ => "");
    var i := 0;
    while i < |scene.materials|
      invariant 0 <= i <= |scene.materials|
      invariant |textures| == |scene.materials|
      invariant forall k :: 0 <= k < i ==> textures[k] == TextureFileName(scene.materials[k])
    {
      var mat := scene.materials[i];
      textures := textures[i := ""];
      if mat.diffuseTextureCount != 0 {
        var path := mat.diffuseTexturePath;
        if path.Some? {
          var fileName := FileName(path.value);
          textures := textures[i := fileName];
        }
      }
      i := i + 1;
    }
  }

  // ---------------------------------------------------------------------------
  // LoadMesh

  /** What the loader relies on of an `aiMesh`: a texture-coordinate channel, when
      present, has an entry per vertex, and the material index is in `matToTex`. */
  ghost predicate MeshWellFormed(m: AiMesh, matToTex: seq<int>) {
    (m.textureCoords.Some? ==> |m.textureCoords.value| >= |m.vertices|) &&
    m.materialIndex < |matToTex|
  }

  /** The indices of `faces`, face after face. */
  function FlattenFaces(faces: seq<Face>): seq<uint32> {
    if faces == [] then []
    else FlattenFaces(faces[..|faces| - 1]) + faces[|faces| - 1].indices
  }

  /** The sum of `mNumIndices` over `faces`. */
  function IndexTotal(faces: seq<Face>): nat {
    if faces == [] then 0 else |faces[0].indices| + IndexTotal(faces[1..])
  }

  lemma {:induction false} FlattenFacesAppend(a: seq<Face>, b: seq<Face>)
    ensures FlattenFaces(a + b) == FlattenFaces(a) + FlattenFaces(b)
    decreases |b|
  {
    if b != [] {
      var n := |b| - 1;
      assert (a + b)[..|a + b| - 1] == a + b[..n];
      FlattenFacesAppend(a, b[..n]);
    } else {
      assert a + b == a;
    }
  }

  /** The flattened list holds exactly the sum of the faces' index counts. */
  lemma {:induction false} FlattenFacesLength(faces: seq<Face>)
    ensures |FlattenFaces(faces)| == IndexTotal(faces)
    decreases |faces|
  {
    if faces != [] {
      FlattenFacesAppend([faces[0]], faces[1..]);
      assert [faces[0]] + faces[1..] == faces;
      assert FlattenFaces([faces[0]]) == faces[0].indices by {
        assert [faces[0]][..0] == [];
      }
      FlattenFacesLength(faces[1..]);
    }
  }

  /** Index `j` of face `k` sits right after the indices of the faces before `k`. */
  lemma FlattenFacesAt(faces: seq<Face>, k: nat, j: nat)
    requires k < |faces| && j < |faces[k].indices|
    ensures IndexTotal(faces[..k]) + j < |FlattenFaces(faces)|
    ensures FlattenFaces(faces)[IndexTotal(faces[..k]) + j] == faces[k].indices[j]
  {
    assert faces == faces[..k] + [faces[k]] + faces[k + 1..];
    FlattenFacesAppend(faces[..k] + [faces[k]], faces[k + 1..]);
    FlattenFacesAppend(faces[..k], [faces[k]]);
    assert FlattenFaces([faces[k]]) == faces[k].indices by {
      assert [faces[k]][..0] == [];
    }
    FlattenFacesLength(faces[..k]);
  }

  /** The vertex `LoadMesh` builds at position `i`.  The source reads the position
      through `mesh->mVertices` without an offset, so every vertex gets the first
      position of the mesh. */
  function VertexOf(m: AiMesh, i: nat): Vertex
    requires i < |m.vertices|
    requires m.textureCoords.Some? ==> |m.textureCoords.value| >= |m.vertices|
  {
    var tex := if m.textureCoords.Some? then Vec2(m.textureCoords.value[i].x, m.textureCoords.value[i].y)
               else Vec2(0.0, 0.0);
    Vertex(m.vertices[0], White, tex)
  }

  /** The `Mesh` `LoadMesh` creates from an `aiMesh`. */
  function MeshOf(m: AiMesh, matToTex: seq<int>): (r: Mesh)
    requires MeshWellFormed(m, matToTex)
    ensures |r.vertices| == |m.vertices|
    ensures forall i :: 0 <= i < |r.vertices| ==>
              && r.vertices[i].pos == m.vertices[0]
              && r.vertices[i].col == White
              && (m.textureCoords.None? ==> r.vertices[i].tex == Vec2(0.0, 0.0))
              && (m.textureCoords.Some? ==>
                    r.vertices[i].tex == Vec2(m.textureCoords.value[i].x, m.textureCoords.value[i].y))
    ensures r.indices == FlattenFaces(m.faces)
    ensures |r.indices| == IndexTotal(m.faces)
    ensures r.texId == matToTex[m.materialIndex]
  {
    FlattenFacesLength(m.faces);
    Mesh(seq(|m.vertices|, i requires 0 <= i < |m.vertices| => VertexOf(m, i)),
         FlattenFaces(m.faces),
         matToTex[m.materialIndex])
  }

  /** `LoadMesh`: fill one vertex per source vertex, then push every face's
      indices in order, and create the mesh with the material's texture. */
  method LoadMesh(m: AiMesh, matToTex: seq<int>) returns (r: Mesh)
    requires MeshWellFormed(m, matToTex)
    ensures r == MeshOf(m, matToTex)
  {
    var vertices := seq(|m.vertices|, _ => Vertex(Vec3(0.0, 0.0, 0.0), Vec3(0.0, 0.0, 0.0), Vec2(0.0, 0.0)));
    var indices: seq<uint32> := [];
    var i := 0;
    while i < |m.vertices|
      invariant 0 <= i <= |m.vertices|
      invariant |vertices| == |m.vertices|
      invariant forall k :: 0 <= k < i ==> vertices[k] == VertexOf(m, k)
    {
      var pos := m.vertices[0];
      var tex;
      if m.textureCoords.Some? {
        var textureCoords := m.textureCoords.value[i];
        tex := Vec2(textureCoords.x, textureCoords.y);
      } else {
        tex := Vec2(0.0, 0.0);
      }
      vertices := vertices[i := Vertex(pos, White, tex)];
      i := i + 1;
    }

    var f := 0;
    while f < |m.faces|
      invariant 0 <= f <= |m.faces|
      invariant indices == FlattenFaces(m.faces[..f])
    {
      var face := m.faces[f];
      var j := 0;
      while j < |face.indices|
        invariant 0 <= j <= |face.indices|
        invariant indices == FlattenFaces(m.faces[..f]) + face.indices[..j]
      {
        indices := indices + [face.indices[j]];
        assert face.indices[..j + 1] == face.indices[..j] + [face.indices[j]];
        j := j + 1;
      }
      assert face.indices[..j] == face.indices;
      assert m.faces[..f + 1][..f] == m.faces[..f];
      f := f + 1;
    }
    assert m.faces[..f] == m.faces;
    r := Mesh(vertices, indices, matToTex[m.materialIndex]);
  }

  // ---------------------------------------------------------------------------
  // LoadNode

  /** Every mesh a node (or any node below it) refers to exists and is well formed. */
  ghost predicate NodeWellFormed(node: Node, scene: Scene, matToTex: seq<int>)
    decreases node
  {
    && (forall k :: 0 <= k < |node.meshes| ==>
          node.meshes[k] < |scene.meshes| && MeshWellFormed(scene.meshes[node.meshes[k]], matToTex))
    && (forall k :: 0 <= k < |node.children| ==> NodeWellFormed(node.children[k], scene, matToTex))
  }

  /** The meshes of a node itself, in `mMeshes` order. */
  function OwnMeshes(node: Node, scene: Scene, matToTex: seq<int>): seq<Mesh>
    requires NodeWellFormed(node, scene, matToTex)
  {
    seq(|node.meshes|, k requires 0 <= k < |node.meshes| && NodeWellFormed(node, scene, matToTex) =>
          MeshOf(scene.meshes[node.meshes[k]], matToTex))
  }

  /** The lists of `ss`, one after the other. */
  function Concat<T>(ss: seq<seq<T>>): seq<T> {
    if ss == [] then [] else Concat(ss[..|ss| - 1]) + ss[|ss| - 1]
  }

  function Sum(xs: seq<nat>): nat {
    if xs == [] then 0 else Sum(xs[..|xs| - 1]) + xs[|xs| - 1]
  }

  lemma {:induction false} ConcatLength<T>(ss: seq<seq<T>>)
    ensures |Concat(ss)| == Sum(seq(|ss|, k requires 0 <= k < |ss| => |ss[k]|))
    decreases |ss|
  {
    if ss != [] {
      var n := |ss| - 1;
      ConcatLength(ss[..n]);
      assert seq(|ss|, k requires 0 <= k < |ss| => |ss[k]|)[..n] ==
             seq(n, k requires 0 <= k < n => |ss[..n][k]|);
    }
  }

  /** The meshes `LoadNode` returns for a node: its own, then each child's
      result in child order (a pre-order walk). */
  function LoadedMeshes(node: Node, scene: Scene, matToTex: seq<int>): seq<Mesh>
    requires NodeWellFormed(node, scene, matToTex)
    decreases node
  {
    OwnMeshes(node, scene, matToTex) + Concat(ChildResults(node, scene, matToTex))
  }

  /** `LoadNode`'s result for each child of `node`. */
  function ChildResults(node: Node, scene: Scene, matToTex: seq<int>): (r: seq<seq<Mesh>>)
    requires NodeWellFormed(node, scene, matToTex)
    ensures |r| == |node.children|
    decreases node, 0
  {
    seq(|node.children|, k requires 0 <= k < |node.children| && NodeWellFormed(node, scene, matToTex) =>
          LoadedMeshes(node.children[k], scene, matToTex))
  }

  /** The sum of `mNumMeshes` over a node and all nodes below it. */
  function SubtreeMeshCount(node: Node): nat
    decreases node
  {
    |node.meshes| + Sum(seq(|node.children|, k requires 0 <= k < |node.children| => SubtreeMeshCount(node.children[k])))
  }

  /** `LoadNode` returns one mesh per mesh reference in the subtree. */
  lemma {:induction false} LoadedMeshesLength(node: Node, scene: Scene, matToTex: seq<int>)
    requires NodeWellFormed(node, scene, matToTex)
    ensures |LoadedMeshes(node, scene, matToTex)| == SubtreeMeshCount(node)
    decreases node
  {
    var results := ChildResults(node, scene, matToTex);
    ConcatLength(results);
    forall k | 0 <= k < |node.children|
      ensures |results[k]| == SubtreeMeshCount(node.children[k])
    {
      LoadedMeshesLength(node.children[k], scene, matToTex);
    }
    assert seq(|results|, k requires 0 <= k < |results| => |results[k]|) ==
           seq(|node.children|, k requires 0 <= k < |node.children| => SubtreeMeshCount(node.children[k]));
  }

  /** A node's result starts with its own meshes, in `mMeshes` order. */
  lemma LoadedMeshesStartWithOwn(node: Node, scene: Scene, matToTex: seq<int>, k: nat)
    requires NodeWellFormed(node, scene, matToTex)
    requires k < |node.meshes|
    ensures k < |LoadedMeshes(node, scene, matToTex)|
    ensures LoadedMeshes(node, scene, matToTex)[k] == MeshOf(scene.meshes[node.meshes[k]], matToTex)
  {
  }

  /** `LoadNode`: load the node's own meshes, then append the result of loading
      each child. */
  method LoadNode(node: Node, scene: Scene, matToTex: seq<int>) returns (meshes: seq<Mesh>)
    requires NodeWellFormed(node, scene, matToTex)
    ensures meshes == LoadedMeshes(node, scene, matToTex)
    decreases node
  {
    meshes := [];
    ghost var own := OwnMeshes(node, scene, matToTex);
    var i := 0;
    while i < |node.meshes|
      invariant 0 <= i <= |node.meshes|
      invariant meshes == own[..i]
    {
      var meshId := node.meshes[i];
      var mesh := LoadMesh(scene.meshes[meshId], matToTex);
      meshes := meshes + [mesh];
      i := i + 1;
    }

    ghost var results := ChildResults(node, scene, matToTex);
    var c := 0;
    while c < |node.children|
      invariant 0 <= c <= |node.children|
      invariant meshes == own + Concat(results[..c])
    {
      var newMeshes := LoadNode(node.children[c], scene, matToTex);
      meshes := meshes + newMeshes;
      assert results[..c + 1][..c] == results[..c];
      c := c + 1;
    }
    assert results[..c] == results;
  }
}
