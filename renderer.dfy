/**
 * `ModelRenderer` (`src/engine/render/glft/renderer.rs`): draws a list of
 * `ModelObject`s. Each object gets a uniform buffer from the pool, a local
 * bind group and an instance buffer; the bind groups and instance buffers
 * are cached by the object's position in the list and made only once.
 *
 * A bind group is the uniform buffer and the texture view it binds, an
 * instance buffer is the raw instances put into it, and the render
 * encoder is the list of commands recorded on it.
 */
module Renderers {
  import opened Vec
  import opened Wrappers
  import opened Cameras
  import opened Instance
  import opened GltfModel
  import opened Uniforms
  import opened Seqs

  /** The texture view a local bind group binds: a material's diffuse texture or the off-screen view. */
  datatype View = TextureView(texture: Texture) | OffScreen

  /** A local bind group: the uniform buffer at binding 0 and the view at binding 1. */
  datatype BindGroup = BindGroup(buffer: UniformBuffer, view: View)

  /** What a bind group slot is given: the global bind group or a model's local one. */
  datatype Group = Global | Local(local: BindGroup)

  /** The view `render` binds for a model: the diffuse texture of the first material that has one, else the off-screen view. */
  function ViewOf(materials: seq<Material>): View
    decreases |materials|
  {
    if materials == [] then OffScreen
    else if materials[0].diffuseTexture.Some? then TextureView(materials[0].diffuseTexture.value)
    else ViewOf(materials[1..])
  }

  /**
   * A model binds a texture exactly when one of its materials has a diffuse
   * texture, and then it is that of the first such material.
   */
  lemma {:induction false} ViewOfFirst(materials: seq<Material>)
    ensures var v := ViewOf(materials);
      v.TextureView? <==> exists k :: 0 <= k < |materials| && materials[k].diffuseTexture.Some?
    ensures var v := ViewOf(materials);
      v.TextureView? ==> exists k :: 0 <= k < |materials| && materials[k].diffuseTexture == Some(v.texture) &&
                                     (forall j :: 0 <= j < k ==> materials[j].diffuseTexture.None?)
    decreases |materials|
  {
    if materials != [] && materials[0].diffuseTexture.None? {
      ViewOfFirst(materials[1..]);
      assert forall k :: 0 < k < |materials| ==> materials[k] == materials[1..][k - 1];
      var v := ViewOf(materials[1..]);
      if v.TextureView? {
        var k :| 0 <= k < |materials[1..]| && materials[1..][k].diffuseTexture == Some(v.texture) &&
                 (forall j :: 0 <= j < k ==> materials[1..][j].diffuseTexture.None?);
        assert materials[k + 1].diffuseTexture == Some(v.texture);
      }
    }
  }

  /** The instance data `render` uploads for a model: every instance turned raw, in order. */
  function RawInstances(instances: seq<GltfInstance>): (raw: seq<InstanceRaw>)
    ensures |raw| == |instances|
  {
    seq(|instances|, i requires 0 <= i < |instances| => ToRaw(instances[i]))
  }

  /** `len() as u32`: the count modulo 2^32. */
  function AsU32(n: nat): (r: nat)
    ensures r < 0x1_0000_0000 && (n < 0x1_0000_0000 ==> r == n)
  {
    n % 0x1_0000_0000
  }

  /**
   * A cache after `entry(i).or_insert_with(..)` for every `i < n`: an
   * index already present keeps its value and a missing one gets
   * `values[i]`.
   */
  function Cached<V>(m: map<nat, V>, values: seq<V>, n: nat): map<nat, V>
    requires n <= |values|
  {
    if n == 0 then m else OrInsert(Cached(m, values, n - 1), n - 1, values[n - 1])
  }

  /** `entry(k).or_insert_with(..)`: a present key keeps its value, a missing one gets `v`. */
  function OrInsert<V>(m: map<nat, V>, k: nat, v: V): (r: map<nat, V>)
    ensures k in r && r[k] == (if k in m then m[k] else v)
    ensures forall j :: j in m ==> j in r && r[j] == m[j]
    ensures forall j :: j in r ==> j in m || j == k
  {
    if k in m then m else m[k := v]
  }

  /** The cache holds the old indices and `0 .. n`; the old entries are kept and only missing ones are made. */
  lemma {:induction false} CachedEntries<V>(m: map<nat, V>, values: seq<V>, n: nat)
    requires n <= |values|
    ensures forall k: nat :: k in Cached(m, values, n) <==> k in m || k < n
    ensures forall k :: k in m ==> Cached(m, values, n)[k] == m[k]
    ensures forall i :: 0 <= i < n && i !in m ==> Cached(m, values, n)[i] == values[i]
  {
    if n > 0 {
      CachedEntries(m, values, n - 1);
    }
  }

  /** Every index below `n` is cached. */
  lemma CachedCovers<V>(m: map<nat, V>, values: seq<V>, n: nat)
    requires n <= |values|
    ensures forall i :: 0 <= i < n ==> i in Cached(m, values, n)
  {
    CachedEntries(m, values, n);
  }

  /** The bind group `render` would make for each object: its pool buffer and its view. */
  function BindGroupsFor(buffers: seq<UniformBuffer>, nodes: seq<ModelObject>): (r: seq<BindGroup>)
    requires |nodes| <= |buffers|
    ensures |r| == |nodes|
  {
    seq(|nodes|, i requires 0 <= i < |nodes| => BindGroup(buffers[i], ViewOf(nodes[i].model.materials)))
  }

  /** The instance data `render` would upload for each object. */
  function RawsFor(nodes: seq<ModelObject>): (r: seq<seq<InstanceRaw>>)
    ensures |r| == |nodes|
  {
    seq(|nodes|, i requires 0 <= i < |nodes| => RawInstances(nodes[i].instances))
  }

  /** Every bind group binds the buffer of its own index. */
  ghost predicate CoherentWith(groups: map<nat, BindGroup>, buffers: seq<UniformBuffer>) {
    forall k :: k in groups ==> k < |buffers| && groups[k].buffer == buffers[k]
  }

  /** Caching the bind groups for buffers a coherent cache already follows keeps it coherent. */
  lemma CachedCoherent(groups: map<nat, BindGroup>, buffers: seq<UniformBuffer>, nodes: seq<ModelObject>)
    requires |nodes| <= |buffers| && CoherentWith(groups, buffers)
    ensures CoherentWith(Cached(groups, BindGroupsFor(buffers, nodes), |nodes|), buffers)
  {
    CachedEntries(groups, BindGroupsFor(buffers, nodes), |nodes|);
  }

  /** The commands `render` records before drawing: the light pipeline, the render pipeline and the global bind group. */
  const Prelude: seq<Cmd<Group>> := [SetPipeline(LightPipeline), SetPipeline(RenderPipeline), SetBindGroup(0, Global)]

  /** The commands for object `i`: its instance buffer in slot 1, then its model drawn for all its instances with its local bind group. */
  function NodeCmds(node: ModelObject, i: nat, groups: map<nat, BindGroup>, raws: map<nat, seq<InstanceRaw>>): seq<Cmd<Group>>
    requires i in groups && i in raws
  {
    [SetVertexBuffer(1, Instances(raws[i]))]
      + ModelCmds(node.model.meshes, Range(0, AsU32(|node.instances|)), Local(groups[i]))
  }

  /** The commands of the drawing loop for the first `n` objects. */
  function DrawCmds(nodes: seq<ModelObject>, groups: map<nat, BindGroup>, raws: map<nat, seq<InstanceRaw>>, n: nat): seq<Cmd<Group>>
    requires n <= |nodes| && forall i :: 0 <= i < n ==> i in groups && i in raws
  {
    if n == 0 then []
    else DrawCmds(nodes, groups, raws, n - 1) + NodeCmds(nodes[n - 1], n - 1, groups, raws)
  }

  class ModelRenderer {
    const pool: UniformPool
    const cameraUniform: CameraUniform
    var localBindGroups: map<nat, BindGroup>
    var instanceBuffers: map<nat, seq<InstanceRaw>>

    ghost predicate Valid()
      reads this, pool
    {
      pool.Valid()
    }

    /** Every cached bind group binds the pool buffer of its own index. */
    ghost predicate Coherent()
      reads this, pool
    {
      CoherentWith(localBindGroups, pool.buffers)
    }

    /**
     * `ModelRenderer::new`: the camera uniform set from `camera` (`build`
     * is its view-projection matrix), an empty pool labelled "Locals" for
     * buffers the size of `Locals`, and nothing cached.
     */
    constructor (camera: Camera, build: Camera -> M4)
      ensures Valid() && Coherent() && fresh(pool) && fresh(cameraUniform)
      ensures pool.name == "Locals" && pool.size == LocalsSize && pool.buffers == []
      ensures cameraUniform.viewPosition == Point(camera.eye) && cameraUniform.viewProj == build(camera)
      ensures localBindGroups == map[] && instanceBuffers == map[]
    {
      var uniform := new CameraUniform();
      uniform.UpdateViewProj(camera, build);
      cameraUniform := uniform;
      pool := new UniformPool("Locals", LocalsSize);
      localBindGroups := map[];
      instanceBuffers := map[];
    }

    /** `update_camera`. */
    method UpdateCamera(camera: Camera, build: Camera -> M4)
      modifies cameraUniform
      ensures cameraUniform.viewPosition == Point(camera.eye) && cameraUniform.viewProj == build(camera)
    {
      cameraUniform.UpdateViewProj(camera, build);
    }

    /**
     * `render`: the pool grown to one buffer per object when it is too
     * small, each object's locals written into its buffer, its bind group
     * and instance buffer made if its index has none yet, then the
     * pipelines and global bind group set and every object drawn in order.
     *
     * The caches outlive a regrowth of the pool: a bind group cached
     * before it binds a buffer the pool no longer holds, so when the pool
     * was coherent and did not grow (or nothing was cached) it stays
     * coherent, and otherwise the old bind groups go stale.
     */
    method Render(enc: Encoder<Group>, nodes: seq<ModelObject>)
      requires Valid()
      modifies this, pool, pool.buffers, enc
      ensures Valid()
      ensures |old(pool.buffers)| < |nodes| ==>
        |pool.buffers| == |nodes| && forall i :: 0 <= i < |nodes| ==> fresh(pool.buffers[i])
      ensures |old(pool.buffers)| >= |nodes| ==> pool.buffers == old(pool.buffers)
      ensures forall i :: 0 <= i < |nodes| ==> pool.buffers[i].contents == Some(nodes[i].locals)
      ensures |old(pool.buffers)| >= |nodes| ==>
        forall i :: |nodes| <= i < |pool.buffers| ==> pool.buffers[i].contents == old(pool.buffers[i].contents)
      ensures localBindGroups == Cached(old(localBindGroups), BindGroupsFor(pool.buffers, nodes), |nodes|)
      ensures instanceBuffers == Cached(old(instanceBuffers), RawsFor(nodes), |nodes|)
      ensures forall i :: 0 <= i < |nodes| ==> i in localBindGroups && i in instanceBuffers
      ensures enc.cmds == old(enc.cmds) + Prelude + DrawCmds(nodes, localBindGroups, instanceBuffers, |nodes|)
      ensures old(Coherent()) && (|old(pool.buffers)| >= |nodes| || old(localBindGroups) == map[]) ==> Coherent()
      ensures |old(pool.buffers)| < |nodes| ==>
        forall k :: k in old(localBindGroups) ==> old(localBindGroups)[k].buffer !in pool.buffers
    {
      Upload(nodes);
      Draw(enc, nodes);
    }

    /** The part of `render` before any command is recorded: the pool grown if too small, then the first loop. */
    method Upload(nodes: seq<ModelObject>)
      requires Valid()
      modifies this, pool, pool.buffers
      ensures Valid()
      ensures |old(pool.buffers)| < |nodes| ==>
        |pool.buffers| == |nodes| && forall i :: 0 <= i < |nodes| ==> fresh(pool.buffers[i])
      ensures |old(pool.buffers)| >= |nodes| ==> pool.buffers == old(pool.buffers)
      ensures forall i :: 0 <= i < |nodes| ==> pool.buffers[i].contents == Some(nodes[i].locals)
      ensures |old(pool.buffers)| >= |nodes| ==>
        forall i :: |nodes| <= i < |pool.buffers| ==> pool.buffers[i].contents == old(pool.buffers[i].contents)
      ensures localBindGroups == Cached(old(localBindGroups), BindGroupsFor(pool.buffers, nodes), |nodes|)
      ensures instanceBuffers == Cached(old(instanceBuffers), RawsFor(nodes), |nodes|)
      ensures forall i :: 0 <= i < |nodes| ==> i in localBindGroups && i in instanceBuffers
      ensures old(Coherent()) && (|old(pool.buffers)| >= |nodes| || old(localBindGroups) == map[]) ==> Coherent()
      ensures |old(pool.buffers)| < |nodes| ==>
        forall k :: k in old(localBindGroups) ==> old(localBindGroups)[k].buffer !in pool.buffers
    {
      ghost var groups0 := localBindGroups;
      var grown := |pool.buffers| < |nodes|;
      if grown {
        pool.AllocBuffers(|nodes|);
      }
      Prepare(nodes);
      CachedCovers(groups0, BindGroupsFor(pool.buffers, nodes), |nodes|);
      CachedCovers(old(instanceBuffers), RawsFor(nodes), |nodes|);
      if !grown || groups0 == map[] {
        if old(Coherent()) {
          CachedCoherent(groups0, pool.buffers, nodes);
        }
      }
    }

    /** The first loop of `render`: locals written, bind groups and instance buffers made where missing. */
    method Prepare(nodes: seq<ModelObject>)
      requires Valid() && |nodes| <= |pool.buffers|
      modifies this, pool.buffers
      ensures Valid() && pool.buffers == old(pool.buffers)
      ensures forall i :: 0 <= i < |nodes| ==> pool.buffers[i].contents == Some(nodes[i].locals)
      ensures forall i :: |nodes| <= i < |pool.buffers| ==> pool.buffers[i].contents == old(pool.buffers[i].contents)
      ensures localBindGroups == Cached(old(localBindGroups), BindGroupsFor(pool.buffers, nodes), |nodes|)
      ensures instanceBuffers == Cached(old(instanceBuffers), RawsFor(nodes), |nodes|)
    {
      ghost var groups := BindGroupsFor(pool.buffers, nodes);
      ghost var raws := RawsFor(nodes);
      var i := 0;
      while i < |nodes|
        invariant i <= |nodes| && pool.buffers == old(pool.buffers)
        invariant forall j :: 0 <= j < i ==> pool.buffers[j].contents == Some(nodes[j].locals)
        invariant forall j :: i <= j < |pool.buffers| ==> pool.buffers[j].contents == old(pool.buffers[j].contents)
        invariant localBindGroups == Cached(old(localBindGroups), groups, i)
        invariant instanceBuffers == Cached(old(instanceBuffers), raws, i)
      {
        PrepareNode(nodes[i], i);
        assert groups[i] == BindGroup(pool.buffers[i], ViewOf(nodes[i].model.materials));
        assert raws[i] == RawInstances(nodes[i].instances);
        i := i + 1;
      }
    }

    /** One round of the first loop of `render`: object `i`'s locals written, its bind group and instance buffer made if missing. */
    method PrepareNode(node: ModelObject, i: nat)
      requires Valid() && i < |pool.buffers|
      modifies this, pool.buffers[i]
      ensures pool.buffers[i].contents == Some(node.locals)
      ensures forall j :: 0 <= j < |pool.buffers| && j != i ==> pool.buffers[j].contents == old(pool.buffers[j].contents)
      ensures localBindGroups == OrInsert(old(localBindGroups), i, BindGroup(pool.buffers[i], ViewOf(node.model.materials)))
      ensures instanceBuffers == OrInsert(old(instanceBuffers), i, RawInstances(node.instances))
    {
      var buffer := pool.buffers[i];
      buffer.Write(node.locals);
      if i !in localBindGroups {
        localBindGroups := localBindGroups[i := BindGroup(buffer, ViewOf(node.model.materials))];
      }
      if i !in instanceBuffers {
        instanceBuffers := instanceBuffers[i := RawInstances(node.instances)];
      }
    }

    /** The rest of `render`: the pipelines and the global bind group set, then the second loop, each object's instance buffer set and its model drawn. */
    method Draw(enc: Encoder<Group>, nodes: seq<ModelObject>)
      requires forall i :: 0 <= i < |nodes| ==> i in localBindGroups && i in instanceBuffers
      modifies enc
      ensures enc.cmds == old(enc.cmds) + Prelude + DrawCmds(nodes, localBindGroups, instanceBuffers, |nodes|)
    {
      enc.Record(SetPipeline(LightPipeline));
      enc.Record(SetPipeline(RenderPipeline));
      enc.Record(SetBindGroup(0, Global));
      ghost var start := enc.cmds;
      assert start == old(enc.cmds) + Prelude;
      var i := 0;
      while i < |nodes|
        invariant i <= |nodes|
        invariant enc.cmds == start + DrawCmds(nodes, localBindGroups, instanceBuffers, i)
      {
        ghost var drawn := DrawCmds(nodes, localBindGroups, instanceBuffers, i);
        DrawNode(enc, nodes[i], i);
        Assoc(start, drawn, NodeCmds(nodes[i], i, localBindGroups, instanceBuffers));
        i := i + 1;
      }
    }

    /** One round of the second loop of `render`: object `i`'s instance buffer set and its model drawn. */
    method DrawNode(enc: Encoder<Group>, node: ModelObject, i: nat)
      requires i in localBindGroups && i in instanceBuffers
      modifies enc
      ensures enc.cmds == old(enc.cmds) + NodeCmds(node, i, localBindGroups, instanceBuffers)
    {
      ghost var start := enc.cmds;
      var bind := SetVertexBuffer(1, Instances(instanceBuffers[i]));
      enc.Record(bind);
      enc.DrawModelInstanced(node.model, Range(0, AsU32(|node.instances|)), Local(localBindGroups[i]));
      Assoc(start, [bind], ModelCmds(node.model.meshes, Range(0, AsU32(|node.instances|)), Local(localBindGroups[i])));
    }
  }
}
