/**
 * The vertex buffer layouts the engine's `Vertex::desc` implementations
 * return (`wgpu::VertexBufferLayout`): a stride, a step mode and the
 * attributes with their byte offsets, shader locations and formats.
 */
module VertexLayout {

  /** The `wgpu::VertexFormat`s in use: two, three or four 32-bit floats. */
  datatype Format = Float32x2 | Float32x3 | Float32x4

  /** `wgpu::VertexStepMode`. */
  datatype StepMode = PerVertex | PerInstance

  datatype Attr = Attr(offset: nat, location: nat, format: Format)

  datatype Layout = Layout(stride: nat, step: StepMode, attrs: seq<Attr>)

  /** The size in bytes of one attribute of a format. */
  function FormatSize(f: Format): (n: nat)
    ensures n % 4 == 0 && 8 <= n <= 16
  {
    match f
    case Float32x2 => 8
    case Float32x3 => 12
    case Float32x4 => 16
  }

  /** Where an attribute ends, in bytes from the start of the element. */
  function End(a: Attr): nat {
    a.offset + FormatSize(a.format)
  }

  /**
   * The attributes tile the element: the first starts at 0, each starts
   * where the previous one ends and the last ends at the stride, so no
   * two overlap and no byte is left over.
   */
  predicate Packed(l: Layout) {
    && |l.attrs| > 0
    && l.attrs[0].offset == 0
    && (forall i :: 0 < i < |l.attrs| ==> l.attrs[i].offset == End(l.attrs[i - 1]))
    && End(l.attrs[|l.attrs| - 1]) == l.stride
  }

  /** In a packed layout every attribute lies inside the element, and later attributes start further on. */
  lemma {:induction false} PackedInside(l: Layout, i: nat)
    requires Packed(l) && i < |l.attrs|
    ensures End(l.attrs[i]) <= l.stride
    ensures forall j :: 0 <= j < i ==> End(l.attrs[j]) <= l.attrs[i].offset
    decreases |l.attrs| - i
  {
    if i + 1 < |l.attrs| {
      PackedInside(l, i + 1);
    }
    forall j | 0 <= j < i ensures End(l.attrs[j]) <= l.attrs[i].offset {
      OffsetsGrow(l, j, i);
    }
  }

  /** In a packed layout an attribute ends no later than any later attribute starts. */
  lemma {:induction false} OffsetsGrow(l: Layout, j: nat, i: nat)
    requires Packed(l) && j < i < |l.attrs|
    ensures End(l.attrs[j]) <= l.attrs[i].offset
    decreases i - j
  {
    if j + 1 < i {
      OffsetsGrow(l, j + 1, i);
    }
  }

  /** Shader locations `from`, `from + 1`, ... in order. */
  predicate Locations(l: Layout, from: nat) {
    forall i :: 0 <= i < |l.attrs| ==> l.attrs[i].location == from + i
  }
}
