/**
 * The uniform buffer pool and the scene objects of the glTF renderer
 * (`src/engine/render/glft/mod.rs`).
 *
 * A GPU buffer is an object whose contents are the last uniform data
 * written into it; the device that creates buffers and the queue that
 * writes them are not modelled beyond that.
 */
module Uniforms {
  import opened Vec
  import opened Wrappers
  import GltfModel
  import Instance

  /** `Locals`: one model's uniform data, four vectors of four floats. */
  datatype Locals = Locals(position: V4, color: V4, normal: V4, lights: V4)

  /** `size_of::<Locals>()`: sixteen 4-byte floats. */
  const LocalsSize: nat := 16 * 4

  /** A uniform `wgpu::Buffer`: its label (`name`), its size in bytes, and what was last written into it. */
  class UniformBuffer {
    const name: string
    const size: nat
    var contents: Option<Locals>

    constructor (name: string, size: nat)
      ensures this.name == name && this.size == size && contents == None
    {
      this.name := name;
      this.size := size;
      contents := None;
    }

    /** `queue.write_buffer` at offset 0. */
    method Write(data: Locals)
      modifies this
      ensures contents == Some(data)
    {
      contents := Some(data);
    }
  }

  /** `UniformPool`: uniform buffers of one label and size, one per object drawn. */
  class UniformPool {
    const name: string
    const size: nat
    var buffers: seq<UniformBuffer>

    /** The buffers are distinct and all carry the pool's label and size. */
    ghost predicate Valid()
      reads this
    {
      && (forall i, j :: 0 <= i < j < |buffers| ==> buffers[i] != buffers[j])
      && (forall i :: 0 <= i < |buffers| ==> buffers[i].name == name && buffers[i].size == size)
    }

    /** `UniformPool::new`: no buffers yet. */
    constructor (name: string, size: nat)
      ensures Valid()
      ensures this.name == name && this.size == size && buffers == []
    {
      this.name := name;
      this.size := size;
      buffers := [];
    }

    /** `alloc_buffers`: the old buffers dropped and `count` new ones created, nothing written into them. */
    method AllocBuffers(count: nat)
      modifies this
      ensures Valid()
      ensures |buffers| == count
      ensures forall i :: 0 <= i < count ==> fresh(buffers[i]) && buffers[i].contents == None
    {
      buffers := [];
      var n := 0;
      while n < count
        invariant n <= count && |buffers| == n
        invariant Valid()
        invariant forall i :: 0 <= i < n ==> fresh(buffers[i]) && buffers[i].contents == None
      {
        var b := new UniformBuffer(name, size);
        buffers := buffers + [b];
        n := n + 1;
      }
    }

    /**
     * `update_uniform`: with no buffers it does nothing; otherwise it
     * writes buffer `index`, and an index past the end panics (`false`).
     * No other buffer changes.
     */
    method UpdateUniform(index: nat, data: Locals) returns (ok: bool)
      requires Valid()
      modifies buffers
      ensures ok <==> |buffers| == 0 || index < |buffers|
      ensures index < |buffers| ==> buffers[index].contents == Some(data)
      ensures forall i :: 0 <= i < |buffers| && i != index ==> buffers[i].contents == old(buffers[i].contents)
      ensures !ok ==> forall i :: 0 <= i < |buffers| ==> buffers[i].contents == old(buffers[i].contents)
    {
      if |buffers| > 0 {
        if index >= |buffers| {
          return false;
        }
        buffers[index].Write(data);
      }
      ok := true;
    }
  }

  /**
   * `ModelObject`: a model placed in the scene, with the index of its
   * parent node (a `u32`), its uniform data and its instances.
   */
  datatype ModelObject = ModelObject(
    parent: nat,
    locals: Locals,
    model: GltfModel.Model,
    instances: seq<Instance.GltfInstance>)
}
