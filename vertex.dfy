/** Vertex layout description: the element formats a vertex attribute can use,
    their component counts and byte widths, and the `VertexInfo` builder that
    collects attributes in order together with a step mode. */
module VertexLayout {

  newtype u32 = x: int | 0 <= x < 0x1_0000_0000
  newtype i32 = x: int | -0x8000_0000 <= x < 0x8000_0000

  datatype Option<T> = None | Some(value: T)

  /** The scalar type a format is built from. */
  datatype ScalarKind = F32 | U8

  /** What a format name spells out: the scalar type, how many components
      and whether the `Norm` suffix is present. */
  datatype Layout = Layout(kind: ScalarKind, components: nat, normalized: bool)

  /** Width in bytes of one scalar of the given kind. */
  function ScalarBytes(k: ScalarKind): (n: nat)
    ensures n == 1 || n == 4
  {
    match k
    case F32 => 4
    case U8 => 1
  }

  datatype VertexFormat =
    | Float32
    | Float32x2
    | Float32x3
    | Float32x4
    | UInt8
    | UInt8Norm
    | UInt8x2
    | UInt8x2Norm
    | UInt8x3
    | UInt8x3Norm
    | UInt8x4
    | UInt8x4Norm
  {
    /** Number of scalar components of one value of this format. */
    function Size(): (r: i32)
      ensures 1 <= r <= 4
      ensures r as int == LayoutOf().components
    {
      match this
      case Float32 => 1
      case Float32x2 => 2
      case Float32x3 => 3
      case Float32x4 => 4
      case UInt8 => 1
      case UInt8Norm => 1
      case UInt8x2 => 2
      case UInt8x2Norm => 2
      case UInt8x3 => 3
      case UInt8x3Norm => 3
      case UInt8x4 => 4
      case UInt8x4Norm => 4
    }

    /** Number of bytes one value of this format occupies. */
    function Bytes(): (r: i32)
      ensures 1 <= r <= 16
      ensures r == Size() * ScalarBytes(LayoutOf().kind) as i32
    {
      match this
      case UInt8 | UInt8x2 | UInt8x3 | UInt8x4 => Size()
      case UInt8Norm | UInt8x2Norm | UInt8x3Norm | UInt8x4Norm => Size()
      case _ => Size() * 4
    }

    /** Whether the consuming backend maps the integer values to a unit range. */
    function Normalized(): (r: bool)
      ensures r == LayoutOf().normalized
      ensures r ==> Bytes() == Size()
    {
      match this
      case UInt8Norm | UInt8x2Norm | UInt8x3Norm | UInt8x4Norm => true
      case _ => false
    }

    /** The format's name read as scalar kind, component count and `Norm` flag. */
    function LayoutOf(): (l: Layout)
      ensures 1 <= l.components <= 4
      ensures l.normalized ==> l.kind == U8
    {
      match this
      case Float32 => Layout(F32, 1, false)
      case Float32x2 => Layout(F32, 2, false)
      case Float32x3 => Layout(F32, 3, false)
      case Float32x4 => Layout(F32, 4, false)
      case UInt8 => Layout(U8, 1, false)
      case UInt8Norm => Layout(U8, 1, true)
      case UInt8x2 => Layout(U8, 2, false)
      case UInt8x2Norm => Layout(U8, 2, true)
      case UInt8x3 => Layout(U8, 3, false)
      case UInt8x3Norm => Layout(U8, 3, true)
      case UInt8x4 => Layout(U8, 4, false)
      case UInt8x4Norm => Layout(U8, 4, true)
    }

    /** The format a layout names, if there is one. */
    static function FromLayout(l: Layout): (r: Option<VertexFormat>)
      ensures r.Some? <==> 1 <= l.components <= 4 && (l.normalized ==> l.kind == U8)
    {
      match l.kind
      case F32 =>
        if l.normalized then None
        else if l.components == 1 then Some(Float32)
        else if l.components == 2 then Some(Float32x2)
        else if l.components == 3 then Some(Float32x3)
        else if l.components == 4 then Some(Float32x4)
        else None
      case U8 =>
        if l.components == 1 then Some(if l.normalized then UInt8Norm else UInt8)
        else if l.components == 2 then Some(if l.normalized then UInt8x2Norm else UInt8x2)
        else if l.components == 3 then Some(if l.normalized then UInt8x3Norm else UInt8x3)
        else if l.components == 4 then Some(if l.normalized then UInt8x4Norm else UInt8x4)
        else None
    }
  }

  /** A layout names a format exactly when that format reads back as the layout:
      the twelve formats and the well-formed layouts are in one-to-one correspondence. */
  lemma LayoutIdentifiesFormat(f: VertexFormat, l: Layout)
    ensures VertexFormat.FromLayout(l) == Some(f) <==> f.LayoutOf() == l
  {
  }

  const UInt8Formats: seq<VertexFormat> :=
    [UInt8, UInt8Norm, UInt8x2, UInt8x2Norm, UInt8x3, UInt8x3Norm, UInt8x4, UInt8x4Norm]
  const Float32Formats: seq<VertexFormat> := [Float32, Float32x2, Float32x3, Float32x4]
  const NormFormats: seq<VertexFormat> := [UInt8Norm, UInt8x2Norm, UInt8x3Norm, UInt8x4Norm]
  const NonNormFormats: seq<VertexFormat> :=
    [UInt8, UInt8x2, UInt8x3, UInt8x4, Float32, Float32x2, Float32x3, Float32x4]

  /** Every 8-bit integer format, normalized or not, takes one byte per component. */
  lemma UInt8BytesMatchSize(f: VertexFormat)
    requires f in UInt8Formats
    ensures f.Bytes() == f.Size()
  {
  }

  /** Every 32-bit float format takes four bytes per component. */
  lemma Float32BytesAreSizeTimesFour(f: VertexFormat)
    requires f in Float32Formats
    ensures f.Bytes() == f.Size() * 4
  {
  }

  /** The formats divide into the two families, and nothing else. */
  lemma FormatsPartition(f: VertexFormat)
    ensures f in UInt8Formats <==> f !in Float32Formats
    ensures f in UInt8Formats <==> f.LayoutOf().kind == U8
  {
  }

  /** Normalized holds of the four `Norm` formats and of no other. */
  lemma NormalizedExactlyNormFormats(f: VertexFormat)
    ensures f.Normalized() <==> f in NormFormats
    ensures f in NonNormFormats <==> !f.Normalized()
  {
  }

  lemma Float32x3Facts()
    ensures Float32x3.Size() == 3 && Float32x3.Bytes() == 12 && !Float32x3.Normalized()
  {
  }

  /** A binding slot and the format of the data bound there. */
  datatype VertexAttr = VertexAttr(location: u32, format: VertexFormat)
  {
    static function New(location: u32, vertexData: VertexFormat): (a: VertexAttr)
      ensures a.location == location && a.format == vertexData
    {
      VertexAttr(location, vertexData)
    }
  }

  /** Whether attributes advance once per vertex or once per instance. */
  datatype VertexStepMode = Vertex | Instance
  {
    static function Default(): (m: VertexStepMode)
      ensures m.Vertex?
    {
      Vertex
    }
  }

  /** The ordered attributes of a vertex buffer and its step mode. Each builder
      call takes the value and returns the updated one. */
  datatype VertexInfo = VertexInfo(attrs: seq<VertexAttr>, stepMode: VertexStepMode)
  {
    static function New(): (r: VertexInfo)
      ensures r.attrs == [] && r.stepMode.Vertex?
    {
      VertexInfo([], VertexStepMode.Default())
    }

    /** Appends one attribute after the existing ones. */
    function Attr(location: u32, format: VertexFormat): (r: VertexInfo)
      ensures |r.attrs| == |attrs| + 1
      ensures r.attrs[..|attrs|] == attrs
      ensures r.attrs[|attrs|] == VertexAttr.New(location, format)
      ensures r.stepMode == stepMode
    {
      VertexInfo(attrs + [VertexAttr.New(location, format)], stepMode)
    }

    /** Replaces the step mode, keeping the attributes. */
    function StepMode(mode: VertexStepMode): (r: VertexInfo)
      ensures r.attrs == attrs && r.stepMode == mode
    {
      this.(stepMode := mode)
    }

    /** A chain of `Attr` calls, one per element of `specs`, left to right. */
    function AttrChain(specs: seq<VertexAttr>): VertexInfo
      decreases |specs|
    {
      if specs == [] then this
      else Attr(specs[0].location, specs[0].format).AttrChain(specs[1..])
    }
  }

  /** A chain of `Attr` calls appends exactly the given attributes, in the
      order they were supplied, and leaves the step mode alone. */
  lemma {:induction false} AttrChainAppendsInOrder(info: VertexInfo, specs: seq<VertexAttr>)
    ensures info.AttrChain(specs).attrs == info.attrs + specs
    ensures info.AttrChain(specs).stepMode == info.stepMode
    decreases |specs|
  {
    if specs != [] {
      var next := info.Attr(specs[0].location, specs[0].format);
      AttrChainAppendsInOrder(next, specs[1..]);
      assert next.attrs == info.attrs + [specs[0]];
      assert [specs[0]] + specs[1..] == specs;
      assert next.attrs + specs[1..] == info.attrs + specs;
    }
  }

  /** Where the step mode is set in a chain does not matter. */
  lemma StepModeCommutesWithAttr(info: VertexInfo, location: u32, format: VertexFormat, mode: VertexStepMode)
    ensures info.Attr(location, format).StepMode(mode) == info.StepMode(mode).Attr(location, format)
  {
  }
}
