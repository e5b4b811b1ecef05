/**
 * Models loaded from glTF files and the commands that draw them
 * (`src/engine/render/glft/model.rs`).
 *
 * The glTF document is the tree the `gltf` crate hands over: buffers with
 * their sources, scenes of nodes, each node with its children, its local
 * transform and perhaps a mesh of primitives whose attributes are already
 * decoded into sequences. GPU buffers are the data uploaded into them, a
 * texture is the bytes it was decoded from (whether they decode is the
 * parameter `decodes`), and a render encoder is the list of commands
 * recorded on it. A panic of the source is the error `Panic`.
 */
module GltfModel {
  import opened Vec
  import opened Wrappers
  import opened VertexLayout
  import opened Instance
  import opened Seqs

  datatype V2 = V2(u: real, v: real)

  /** `ModelVertex`. */
  datatype ModelVertex = ModelVertex(position: V3, texCoords: V2, normal: V3)

  /** A `TextureWrapper` made from these bytes. */
  datatype Texture = Texture(bytes: seq<bv8>)

  /** `Material`. */
  datatype Material = Material(name: string, diffuseTexture: Option<Texture>)

  /** `Mesh`: the vertex and index buffers as the data put into them. */
  datatype Mesh = Mesh(name: string, vertices: seq<ModelVertex>, indices: seq<nat>, numElements: nat, material: nat)

  /** `Model`. */
  datatype Model = Model(meshes: seq<Mesh>, materials: seq<Material>)

  /** Where a glTF buffer's bytes come from: the binary chunk of a GLB file or a URI. */
  datatype BufferSource = Bin | Uri(uri: string)

  /** Where an image's bytes come from: a view into a buffer or a URI. */
  datatype ImageSource = View(buffer: nat, offset: nat, length: nat) | ImageUri(uri: string)

  /** A glTF material: its name and the image of its base-colour texture, if any. */
  datatype GMaterial = GMaterial(name: Option<string>, baseColor: Option<ImageSource>)

  /** A glTF primitive: its material index and its decoded attributes. */
  datatype Primitive = Primitive(
    material: Option<nat>,
    positions: Option<seq<V3>>,
    normals: Option<seq<V3>>,
    texCoords: Option<seq<V2>>,
    indices: Option<seq<nat>>)

  datatype GMesh = GMesh(name: Option<string>, primitives: seq<Primitive>)

  /** A glTF node: its children, its local transform and its mesh. */
  datatype Node = Node(index: nat, children: seq<Node>, transform: M4, mesh: Option<GMesh>)

  /** A glTF document: the GLB blob, the buffers, the scenes (each a list of root nodes) and the materials. */
  datatype Gltf = Gltf(blob: Option<seq<bv8>>, buffers: seq<BufferSource>, scenes: seq<seq<Node>>, materials: seq<GMaterial>)

  /** Why `Model::load` gives up. */
  datatype LoadError = UriBuffer | UriImage | BadImage | Panic

  const DefaultMeshName: string := "default_mesh_name"
  const DefaultMaterialName: string := "Default Material"

  function OrEmpty<T>(s: Option<seq<T>>): seq<T> {
    if s.Some? then s.value else []
  }

  /** A position moved by the node transform, as `trans * (v, 1)` keeping x, y and z. */
  function Placed(trans: M4, v: V3): V3 {
    Xyz(Apply(trans, Point(v)))
  }

  /**
   * The mesh a primitive becomes, or `None` where filling in normals or
   * texture coordinates by running index passes the last vertex: one vertex
   * per position, moved by the node transform, with the i-th normal and
   * texture coordinates where there are that many and zeros otherwise.
   */
  function PrimitiveMesh(trans: M4, name: Option<string>, p: Primitive): (r: Option<Mesh>)
    ensures r.Some? <==> |OrEmpty(p.normals)| <= |OrEmpty(p.positions)| && |OrEmpty(p.texCoords)| <= |OrEmpty(p.positions)|
  {
    var ps, ns, ts, idx := OrEmpty(p.positions), OrEmpty(p.normals), OrEmpty(p.texCoords), OrEmpty(p.indices);
    if |ns| > |ps| || |ts| > |ps| then None
    else Some(Mesh(name.UnwrapOr(DefaultMeshName), Assembled(trans, ps, ns, ts), idx, |idx|, p.material.UnwrapOr(0)))
  }

  /** One vertex per position, moved by the transform, with the i-th normal and texture coordinates where there are that many. */
  function Assembled(trans: M4, ps: seq<V3>, ns: seq<V3>, ts: seq<V2>): (vs: seq<ModelVertex>)
    ensures |vs| == |ps|
  {
    seq(|ps|, i requires 0 <= i < |ps| =>
      ModelVertex(Placed(trans, ps[i]), if i < |ts| then ts[i] else V2(0.0, 0.0), if i < |ns| then ns[i] else Zero))
  }

  /** The parts joined in order, the first `n` of them, `None` as soon as one is. */
  function Joined<T>(parts: seq<Option<seq<T>>>, n: nat): Option<seq<T>>
    requires n <= |parts|
  {
    if n == 0 then Some([])
    else match Joined(parts, n - 1)
      case None => None
      case Some(a) => if parts[n - 1].Some? then Some(a + parts[n - 1].value) else None
  }

  /** Once a part fails, the join fails. */
  lemma {:induction false} JoinedFails<T>(parts: seq<Option<seq<T>>>, k: nat, n: nat)
    requires k <= n <= |parts| && Joined(parts, k).None?
    ensures Joined(parts, n).None?
    decreases n
  {
    if k < n {
      JoinedFails(parts, k, n - 1);
    }
  }

  /** The join succeeds exactly when every part does, and then holds the parts one after the other. */
  lemma {:induction false} JoinedParts<T>(parts: seq<Option<seq<T>>>, n: nat)
    requires n <= |parts|
    ensures Joined(parts, n).Some? <==> forall i :: 0 <= i < n ==> parts[i].Some?
    ensures Joined(parts, n).Some? && n > 0 ==>
      Joined(parts, n).value == Joined(parts, n - 1).value + parts[n - 1].value
  {
    if n > 0 {
      JoinedParts(parts, n - 1);
    }
  }

  /** Joining one more part that succeeds appends it. */
  lemma JoinedStep<T>(parts: seq<Option<seq<T>>>, n: nat)
    requires n < |parts| && Joined(parts, n).Some? && parts[n].Some?
    ensures Joined(parts, n + 1) == Some(Joined(parts, n).value + parts[n].value)
  {
  }

  /** A mesh as a one-element list of meshes. */
  function Single(m: Option<Mesh>): Option<seq<Mesh>> {
    if m.Some? then Some([m.value]) else None
  }

  /** The mesh of each of a node's own primitives, none without a mesh. */
  function OwnParts(node: Node): (r: seq<Option<seq<Mesh>>>)
    ensures node.mesh.Some? ==> |r| == |node.mesh.value.primitives|
  {
    match node.mesh
    case None => []
    case Some(m) =>
      seq(|m.primitives|, i requires 0 <= i < |m.primitives| => Single(PrimitiveMesh(node.transform, m.name, m.primitives[i])))
  }

  /** The meshes of a node's own primitives, one per primitive. */
  function OwnMeshes(node: Node): Option<seq<Mesh>> {
    Joined(OwnParts(node), |OwnParts(node)|)
  }

  /** `load_node` as a value: the meshes of the children, each subtree in turn, then the node's own. */
  function NodeMeshes(node: Node): Option<seq<Mesh>>
    decreases node, 2
  {
    match ChildMeshes(node)
    case None => None
    case Some(a) => if OwnMeshes(node).Some? then Some(a + OwnMeshes(node).value) else None
  }

  /** The meshes of all the subtrees under a node, in order. */
  function ChildMeshes(node: Node): Option<seq<Mesh>>
    decreases node, 1
  {
    Joined(ChildParts(node), |node.children|)
  }

  function ChildParts(node: Node): (r: seq<Option<seq<Mesh>>>)
    ensures |r| == |node.children|
    decreases node, 0
  {
    seq(|node.children|, i requires 0 <= i < |node.children| => NodeMeshes(node.children[i]))
  }

  /** The meshes of a list of root nodes, tree by tree. */
  function NodesMeshes(nodes: seq<Node>): Option<seq<Mesh>> {
    Joined(NodesParts(nodes), |nodes|)
  }

  function NodesParts(nodes: seq<Node>): (r: seq<Option<seq<Mesh>>>)
    ensures |r| == |nodes|
  {
    seq(|nodes|, i requires 0 <= i < |nodes| => NodeMeshes(nodes[i]))
  }

  /** The meshes of every scene, scene by scene, `None` as soon as a scene's are. */
  function ScenesMeshes(scenes: seq<seq<Node>>): Option<seq<Mesh>>
    decreases |scenes|
  {
    if scenes == [] then Some([])
    else match ScenesMeshes(scenes[..|scenes| - 1])
      case None => None
      case Some(a) =>
        var last := NodesMeshes(scenes[|scenes| - 1]);
        if last.Some? then Some(a + last.value) else None
  }

  /** Once the scenes so far fail, every longer list of them fails. */
  lemma {:induction false} ScenesFail(scenes: seq<seq<Node>>, k: nat)
    requires k <= |scenes| && ScenesMeshes(scenes[..k]).None?
    ensures ScenesMeshes(scenes).None?
    decreases |scenes| - k
  {
    if k < |scenes| {
      assert scenes[..k + 1][..k] == scenes[..k];
      ScenesFail(scenes, k + 1);
    } else {
      assert scenes[..k] == scenes;
    }
  }

  /**
   * A loaded node lists its children's meshes first and its own last: one
   * per primitive of its mesh, in the order of the primitives.
   */
  lemma OwnLast(node: Node)
    requires NodeMeshes(node).Some? && node.mesh.Some?
    ensures var ms, ps := NodeMeshes(node).value, node.mesh.value.primitives;
      && |ms| == |ChildMeshes(node).value| + |ps|
      && ms[..|ChildMeshes(node).value|] == ChildMeshes(node).value
      && forall i :: 0 <= i < |ps| ==>
           PrimitiveMesh(node.transform, node.mesh.value.name, ps[i]) == Some(ms[|ChildMeshes(node).value| + i])
  {
    OneEach(OwnParts(node), |OwnParts(node)|);
  }

  /** Joined one-element parts hold one element per part, in order. */
  lemma {:induction false} OneEach(parts: seq<Option<seq<Mesh>>>, n: nat)
    requires n <= |parts| && Joined(parts, n).Some?
    requires forall i :: 0 <= i < |parts| && parts[i].Some? ==> |parts[i].value| == 1
    ensures |Joined(parts, n).value| == n
    ensures forall i :: 0 <= i < n ==> parts[i] == Some([Joined(parts, n).value[i]])
  {
    if n > 0 {
      OneEach(parts, n - 1);
      var a := Joined(parts, n - 1).value;
      assert Joined(parts, n).value == a + parts[n - 1].value;
      assert parts[n - 1].value == [parts[n - 1].value[0]];
    }
  }

  /** `NodeData`: the list of meshes that `load_node` appends to. */
  class NodeData {
    var meshes: seq<Mesh>

    constructor ()
      ensures meshes == []
    {
      meshes := [];
    }

    /**
     * One primitive: the vertices from the positions, then the normals and
     * texture coordinates written by running index, then the indices;
     * `None` where a running index passes the last vertex.
     */
    static method LoadPrimitive(trans: M4, name: Option<string>, p: Primitive) returns (r: Option<Mesh>)
      ensures r == PrimitiveMesh(trans, name, p)
    {
      var ps, ns, ts := OrEmpty(p.positions), OrEmpty(p.normals), OrEmpty(p.texCoords);
      var vertices: seq<ModelVertex> := [];
      var i := 0;
      while i < |ps|
        invariant i <= |ps| && |vertices| == i
        invariant forall j :: 0 <= j < i ==> vertices[j] == ModelVertex(Placed(trans, ps[j]), V2(0.0, 0.0), Zero)
      {
        vertices := vertices + [ModelVertex(Placed(trans, ps[i]), V2(0.0, 0.0), Zero)];
        i := i + 1;
      }
      var normalIndex := 0;
      while normalIndex < |ns|
        invariant normalIndex <= |ns| && normalIndex <= |ps| && |vertices| == |ps|
        invariant forall j :: 0 <= j < |ps| ==>
          vertices[j] == ModelVertex(Placed(trans, ps[j]), V2(0.0, 0.0), if j < normalIndex then ns[j] else Zero)
      {
        if normalIndex >= |vertices| {
          return None;
        }
        vertices := vertices[normalIndex := vertices[normalIndex].(normal := ns[normalIndex])];
        normalIndex := normalIndex + 1;
      }
      var texIndex := 0;
      while texIndex < |ts|
        invariant texIndex <= |ts| && texIndex <= |ps| && |vertices| == |ps|
        invariant forall j :: 0 <= j < |ps| ==>
          vertices[j] == ModelVertex(Placed(trans, ps[j]), if j < texIndex then ts[j] else V2(0.0, 0.0), if j < |ns| then ns[j] else Zero)
      {
        if texIndex >= |vertices| {
          return None;
        }
        vertices := vertices[texIndex := vertices[texIndex].(texCoords := ts[texIndex])];
        texIndex := texIndex + 1;
      }
      assert vertices == Assembled(trans, ps, ns, ts);
      var indices := OrEmpty(p.indices);
      r := Some(Mesh(name.UnwrapOr(DefaultMeshName), vertices, indices, |indices|, p.material.UnwrapOr(0)));
    }

    /**
     * `load_node`: every child's subtree first, then one mesh per primitive
     * of the node's own mesh, appended; `false` when a primitive panics.
     */
    method LoadNode(node: Node) returns (ok: bool)
      modifies this
      ensures ok <==> NodeMeshes(node).Some?
      ensures ok ==> meshes == old(meshes) + NodeMeshes(node).value
      decreases node, 1
    {
      ok := LoadChildren(node);
      if !ok {
        return;
      }
      ghost var children := meshes;
      ok := LoadOwn(node);
      if ok {
        assert meshes == children + OwnMeshes(node).value;
      }
    }

    /** The children loop of `load_node`: each subtree in turn. */
    method LoadChildren(node: Node) returns (ok: bool)
      modifies this
      ensures ok <==> ChildMeshes(node).Some?
      ensures ok ==> meshes == old(meshes) + ChildMeshes(node).value
      decreases node, 0
    {
      var parts := ChildParts(node);
      var c := 0;
      while c < |node.children|
        invariant c <= |node.children|
        invariant Joined(parts, c).Some? && meshes == old(meshes) + Joined(parts, c).value
      {
        ghost var loaded := Joined(parts, c).value;
        ghost var part := parts[c];
        ok := LoadNode(node.children[c]);
        if !ok {
          JoinedFails(parts, c + 1, |parts|);
          return;
        }
        JoinedStep(parts, c);
        Assoc(old(meshes), loaded, part.value);
        c := c + 1;
      }
      ok := true;
    }

    /** The primitives loop of `load_node`: one mesh per primitive of the node's own mesh. */
    method LoadOwn(node: Node) returns (ok: bool)
      modifies this
      ensures ok <==> OwnMeshes(node).Some?
      ensures ok ==> meshes == old(meshes) + OwnMeshes(node).value
    {
      if node.mesh.Some? {
        var m := node.mesh.value;
        var own := OwnParts(node);
        var p := 0;
        while p < |m.primitives|
          invariant p <= |m.primitives|
          invariant Joined(own, p).Some? && meshes == old(meshes) + Joined(own, p).value
        {
          ghost var loaded := Joined(own, p).value;
          var mesh := LoadPrimitive(node.transform, m.name, m.primitives[p]);
          if mesh.None? {
            JoinedFails(own, p + 1, |own|);
            return false;
          }
          assert own[p] == Some([mesh.value]);
          JoinedStep(own, p);
          Assoc(old(meshes), loaded, [mesh.value]);
          meshes := meshes + [mesh.value];
          p := p + 1;
        }
      }
      ok := true;
    }

    /** The root nodes of one scene, tree by tree. */
    method LoadNodes(nodes: seq<Node>) returns (ok: bool)
      modifies this
      ensures ok <==> NodesMeshes(nodes).Some?
      ensures ok ==> meshes == old(meshes) + NodesMeshes(nodes).value
    {
      var parts := NodesParts(nodes);
      ghost var loaded: seq<Mesh> := [];
      var n := 0;
      while n < |nodes|
        invariant n <= |nodes|
        invariant Joined(parts, n) == Some(loaded) && meshes == old(meshes) + loaded
      {
        ghost var before := meshes;
        ok := LoadNode(nodes[n]);
        assert parts[n] == NodeMeshes(nodes[n]);
        if !ok {
          JoinedFails(parts, n + 1, |parts|);
          return;
        }
        JoinedStep(parts, n);
        ghost var tree := parts[n].value;
        Assoc(old(meshes), loaded, tree);
        loaded := loaded + tree;
        n := n + 1;
      }
      ok := true;
    }

    /** The scene loop of `load`: the root nodes of every scene, scene by scene. */
    method LoadScenes(scenes: seq<seq<Node>>) returns (ok: bool)
      modifies this
      ensures ok <==> ScenesMeshes(scenes).Some?
      ensures ok ==> meshes == old(meshes) + ScenesMeshes(scenes).value
    {
      ghost var loaded: seq<Mesh> := [];
      var s := 0;
      while s < |scenes|
        invariant s <= |scenes|
        invariant ScenesMeshes(scenes[..s]) == Some(loaded) && meshes == old(meshes) + loaded
      {
        ghost var part := NodesMeshes(scenes[s]);
        ok := LoadNodes(scenes[s]);
        assert scenes[..s + 1][..s] == scenes[..s];
        if !ok {
          ScenesFail(scenes, s + 1);
          return;
        }
        Assoc(old(meshes), loaded, part.value);
        loaded := loaded + part.value;
        s := s + 1;
      }
      assert scenes[..s] == scenes;
      ok := true;
    }
  }

  /** The buffer data `load` starts from: the GLB blob, when there is one, as buffer 0. */
  function BufferData(doc: Gltf): (d: seq<seq<bv8>>)
    ensures doc.blob.Some? <==> |d| == 1
    ensures doc.blob.Some? ==> d[0] == doc.blob.value
    ensures doc.blob.None? ==> d == []
  {
    if doc.blob.Some? then [doc.blob.value] else []
  }

  /**
   * One material: its name or "Default Material"; no texture without a
   * base-colour image; an image in a buffer view becomes a texture of its
   * bytes (a panic when the view lies outside the buffer data, an error
   * when the bytes do not decode); an image behind a URI is an error.
   */
  function MaterialOf(data: seq<seq<bv8>>, m: GMaterial, decodes: seq<bv8> -> bool): Result<Material, LoadError> {
    var name := m.name.UnwrapOr(DefaultMaterialName);
    match m.baseColor
    case None => Ok(Material(name, None))
    case Some(ImageUri(_)) => Err(UriImage)
    case Some(View(b, off, len)) =>
      if b >= |data| || off + len > |data[b]| then Err(Panic)
      else if !decodes(data[b][off..off + len]) then Err(BadImage)
      else Ok(Material(name, Some(Texture(data[b][off..off + len]))))
  }

  /** The first `n` materials, in order, stopping at the first error. */
  function MaterialsOf(data: seq<seq<bv8>>, ms: seq<GMaterial>, n: nat, decodes: seq<bv8> -> bool): Result<seq<Material>, LoadError>
    requires n <= |ms|
  {
    if n == 0 then Ok([])
    else match MaterialsOf(data, ms, n - 1, decodes)
      case Err(e) => Err(e)
      case Ok(a) =>
        match MaterialOf(data, ms[n - 1], decodes)
        case Err(e) => Err(e)
        case Ok(x) => Ok(a + [x])
  }

  /**
   * The materials come out one per glTF material, in order, each named
   * after it (or "Default Material") and with a texture exactly when it
   * has a base-colour image; so none of those images is behind a URI.
   */
  lemma {:induction false} MaterialsInOrder(data: seq<seq<bv8>>, ms: seq<GMaterial>, n: nat, decodes: seq<bv8> -> bool)
    requires n <= |ms| && MaterialsOf(data, ms, n, decodes).Ok?
    ensures var r := MaterialsOf(data, ms, n, decodes).value;
      && |r| == n
      && forall i :: 0 <= i < n ==>
           && r[i].name == ms[i].name.UnwrapOr(DefaultMaterialName)
           && (r[i].diffuseTexture.Some? <==> ms[i].baseColor.Some?)
           && (ms[i].baseColor.Some? ==> ms[i].baseColor.value.View?)
  {
    if n > 0 {
      MaterialsInOrder(data, ms, n - 1, decodes);
    }
  }

  /** A material whose image is behind a URI makes the materials fail, unless one before it failed first. */
  lemma {:induction false} UriImageFails(data: seq<seq<bv8>>, ms: seq<GMaterial>, n: nat, decodes: seq<bv8> -> bool, k: nat)
    requires k < n <= |ms| && ms[k].baseColor.Some? && ms[k].baseColor.value.ImageUri?
    ensures MaterialsOf(data, ms, n, decodes).Err?
    ensures MaterialsOf(data, ms, k, decodes).Ok? ==> MaterialsOf(data, ms, n, decodes) == Err(UriImage)
    decreases n
  {
    if k < n - 1 {
      UriImageFails(data, ms, n - 1, decodes, k);
    }
  }

  /**
   * `Model::load` as a value: a URI buffer is an error before anything is
   * read; then the meshes of every scene's trees and the materials in
   * order, the first failure deciding.
   */
  function LoadSpec(doc: Gltf, decodes: seq<bv8> -> bool): (r: Result<Model, LoadError>)
    ensures (exists j :: 0 <= j < |doc.buffers| && doc.buffers[j].Uri?) ==> r == Err(UriBuffer)
  {
    if exists j :: 0 <= j < |doc.buffers| && doc.buffers[j].Uri? then Err(UriBuffer)
    else match ScenesMeshes(doc.scenes)
      case None => Err(Panic)
      case Some(meshes) =>
        match MaterialsOf(BufferData(doc), doc.materials, |doc.materials|, decodes)
        case Err(e) => Err(e)
        case Ok(materials) => Ok(Model(meshes, materials))
  }

  /** `Model::load`: the buffers checked, every scene's trees loaded, then the materials. */
  method Load(doc: Gltf, decodes: seq<bv8> -> bool) returns (r: Result<Model, LoadError>)
    ensures r == LoadSpec(doc, decodes)
  {
    var bufferData: seq<seq<bv8>> := [];
    if doc.blob.Some? {
      bufferData := bufferData + [doc.blob.value];
    }
    assert bufferData == BufferData(doc);
    var b := 0;
    while b < |doc.buffers|
      invariant b <= |doc.buffers|
      invariant forall j :: 0 <= j < b ==> doc.buffers[j].Bin?
    {
      if doc.buffers[b].Uri? {
        return Err(UriBuffer);
      }
      b := b + 1;
    }
    assert !exists j :: 0 <= j < |doc.buffers| && doc.buffers[j].Uri?;
    var nodeData := new NodeData();
    var ok := nodeData.LoadScenes(doc.scenes);
    if !ok {
      return Err(Panic);
    }
    assert nodeData.meshes == ScenesMeshes(doc.scenes).value;
    var materials := LoadMaterials(bufferData, doc.materials, decodes);
    if materials.Err? {
      return Err(materials.error);
    }
    r := Ok(Model(nodeData.meshes, materials.value));
  }

  /** The body of the material loop of `load`: one material, or why it fails. */
  method LoadMaterial(data: seq<seq<bv8>>, mat: GMaterial, decodes: seq<bv8> -> bool) returns (r: Result<Material, LoadError>)
    ensures r == MaterialOf(data, mat, decodes)
  {
    var name := mat.name.UnwrapOr(DefaultMaterialName);
    match mat.baseColor {
      case None =>
        r := Ok(Material(name, None));
      case Some(ImageUri(_)) =>
        r := Err(UriImage);
      case Some(View(buf, off, len)) =>
        if buf >= |data| || off + len > |data[buf]| {
          return Err(Panic);
        }
        var bytes := data[buf][off..off + len];
        if !decodes(bytes) {
          return Err(BadImage);
        }
        r := Ok(Material(name, Some(Texture(bytes))));
    }
  }

  /** The material loop of `load`: each material pushed in order, the first failure returned. */
  method LoadMaterials(data: seq<seq<bv8>>, ms: seq<GMaterial>, decodes: seq<bv8> -> bool) returns (r: Result<seq<Material>, LoadError>)
    ensures r == MaterialsOf(data, ms, |ms|, decodes)
  {
    var materials: seq<Material> := [];
    var m := 0;
    while m < |ms|
      invariant m <= |ms|
      invariant MaterialsOf(data, ms, m, decodes) == Ok(materials)
    {
      var x := LoadMaterial(data, ms[m], decodes);
      if x.Err? {
        ErrorStays(data, ms, m + 1, |ms|, decodes);
        return Err(x.error);
      }
      materials := materials + [x.value];
      m := m + 1;
    }
    r := Ok(materials);
  }

  /** Once the materials fail, the error is the one of the first failure. */
  lemma {:induction false} ErrorStays(data: seq<seq<bv8>>, ms: seq<GMaterial>, k: nat, n: nat, decodes: seq<bv8> -> bool)
    requires k <= n <= |ms| && MaterialsOf(data, ms, k, decodes).Err?
    ensures MaterialsOf(data, ms, n, decodes) == MaterialsOf(data, ms, k, decodes)
    decreases n
  {
    if k < n {
      ErrorStays(data, ms, k, n - 1, decodes);
    }
  }

  /** `ModelVertex::desc`: per vertex, position, texture coordinates and normal at locations 0 to 2. */
  const ModelVertexDesc: Layout := Layout(8 * 4, PerVertex, [Attr(0, 0, Float32x3), Attr(3 * 4, 1, Float32x2), Attr(5 * 4, 2, Float32x3)])

  /** The vertex layout has offsets 0, 12 and 20, tiling the 32-byte vertex. */
  lemma ModelVertexDescPacked()
    ensures ModelVertexDesc.stride == 32 && ModelVertexDesc.step == PerVertex
    ensures Packed(ModelVertexDesc) && Locations(ModelVertexDesc, 0)
    ensures |ModelVertexDesc.attrs| == 3
    ensures ModelVertexDesc.attrs[0].offset == 0 && ModelVertexDesc.attrs[1].offset == 12 && ModelVertexDesc.attrs[2].offset == 20
  {
  }

  /** A `Range<u32>` of instances or indices. */
  datatype Range = Range(start: nat, end: nat)

  datatype Pipeline = LightPipeline | RenderPipeline

  /** What a vertex buffer slot is given: a mesh's vertices or a list of raw instances. */
  datatype VertexData = Vertices(vertices: seq<ModelVertex>) | Instances(raw: seq<InstanceRaw>)

  /** The render encoder calls, with `G` the bind groups. */
  datatype Cmd<G> =
    | SetPipeline(pipeline: Pipeline)
    | SetBindGroup(slot: nat, group: G)
    | SetVertexBuffer(slot: nat, data: VertexData)
    | SetIndexBuffer(indices: seq<nat>)
    | DrawIndexed(elements: Range, baseVertex: int, instances: Range)

  /** `draw_mesh_instanced`: the mesh's buffers, the local bind group in slot 1, and all its indices for the instances. */
  function MeshCmds<G>(mesh: Mesh, instances: Range, local: G): seq<Cmd<G>> {
    [SetVertexBuffer(0, Vertices(mesh.vertices)), SetIndexBuffer(mesh.indices), SetBindGroup(1, local),
     DrawIndexed(Range(0, mesh.numElements), 0, instances)]
  }

  /** `draw_model_instanced`: every mesh in turn. */
  function ModelCmds<G>(meshes: seq<Mesh>, instances: Range, local: G): seq<Cmd<G>> {
    if meshes == [] then []
    else ModelCmds(meshes[..|meshes| - 1], instances, local) + MeshCmds(meshes[|meshes| - 1], instances, local)
  }

  /**
   * Drawing a model issues four commands per mesh, mesh `k` in places
   * `4k` to `4k + 3`: every mesh is drawn once, in order, with all its
   * indices and the same instance range and bind group.
   */
  lemma {:induction false} ModelDrawsEachMesh<G>(meshes: seq<Mesh>, instances: Range, local: G)
    ensures |ModelCmds(meshes, instances, local)| == 4 * |meshes|
    ensures forall k :: 0 <= k < |meshes| ==>
      ModelCmds(meshes, instances, local)[4 * k..4 * k + 4] == MeshCmds(meshes[k], instances, local)
    decreases |meshes|
  {
    if meshes != [] {
      var init := meshes[..|meshes| - 1];
      ModelDrawsEachMesh(init, instances, local);
      var all := ModelCmds(meshes, instances, local);
      forall k | 0 <= k < |meshes|
        ensures all[4 * k..4 * k + 4] == MeshCmds(meshes[k], instances, local)
      {
        if k < |init| {
          assert all[4 * k..4 * k + 4] == ModelCmds(init, instances, local)[4 * k..4 * k + 4];
        } else {
          assert all[4 * k..4 * k + 4] == MeshCmds(meshes[k], instances, local);
        }
      }
    }
  }

  /** A render pass or bundle encoder, as the commands recorded on it. */
  class Encoder<G> {
    var cmds: seq<Cmd<G>>

    constructor ()
      ensures cmds == []
    {
      cmds := [];
    }

    method Record(c: Cmd<G>)
      modifies this
      ensures cmds == old(cmds) + [c]
    {
      cmds := cmds + [c];
    }

    /** `draw_mesh_instanced`. */
    method DrawMeshInstanced(mesh: Mesh, instances: Range, local: G)
      modifies this
      ensures cmds == old(cmds) + MeshCmds(mesh, instances, local)
    {
      Record(SetVertexBuffer(0, Vertices(mesh.vertices)));
      Record(SetIndexBuffer(mesh.indices));
      Record(SetBindGroup(1, local));
      Record(DrawIndexed(Range(0, mesh.numElements), 0, instances));
    }

    /** `draw_mesh`: one instance. */
    method DrawMesh(mesh: Mesh, local: G)
      modifies this
      ensures cmds == old(cmds) + MeshCmds(mesh, Range(0, 1), local)
    {
      DrawMeshInstanced(mesh, Range(0, 1), local);
    }

    /** `draw_model_instanced`: a loop over the meshes. */
    method DrawModelInstanced(model: Model, instances: Range, local: G)
      modifies this
      ensures cmds == old(cmds) + ModelCmds(model.meshes, instances, local)
    {
      var i := 0;
      while i < |model.meshes|
        invariant i <= |model.meshes|
        invariant cmds == old(cmds) + ModelCmds(model.meshes[..i], instances, local)
      {
        assert model.meshes[..i + 1][..i] == model.meshes[..i];
        DrawMeshInstanced(model.meshes[i], instances, local);
        i := i + 1;
      }
      assert model.meshes[..i] == model.meshes;
    }

    /** `draw_model`: one instance. */
    method DrawModel(model: Model, local: G)
      modifies this
      ensures cmds == old(cmds) + ModelCmds(model.meshes, Range(0, 1), local)
    {
      DrawModelInstanced(model, Range(0, 1), local);
    }
  }
}
