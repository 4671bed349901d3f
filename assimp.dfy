/** The parts of an imported assimp scene the mesh loader reads.  Counts such
    as `mNumVertices` or `mNumChildren` are the lengths of the sequences. */
module Assimp {
  import opened Common

  /** `aiVector3D`; components are carried, never computed with. */
  datatype Vec3 = Vec3(x: real, y: real, z: real)

  /** `aiFace`: `mNumIndices` vertex indices. */
  datatype Face = Face(indices: seq<uint32>)

  /** `aiMesh`: positions, the first texture-coordinate channel (absent when
      `mTextureCoords[0]` is null), faces and the material index. */
  datatype AiMesh = AiMesh(
    vertices: seq<Vec3>,
    textureCoords: Option<seq<Vec3>>,
    faces: seq<Face>,
    materialIndex: nat)

  /** `aiMaterial`, as seen through `GetTextureCount(aiTextureType_DIFFUSE)` and
      `GetTexture(aiTextureType_DIFFUSE, 0, &path)`; `None` when the latter fails. */
  datatype Material = Material(diffuseTextureCount: nat, diffuseTexturePath: Option<string>)

  /** `aiNode`: indices into the scene's meshes, and child nodes. */
  datatype Node = Node(meshes: seq<nat>, children: seq<Node>)

  /** `aiScene` */
  datatype Scene = Scene(meshes: seq<AiMesh>, materials: seq<Material>, rootNode: Node)
}
