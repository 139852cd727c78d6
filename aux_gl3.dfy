/**
 * The OpenGL 3 batching layer: vertex-buffer layouts, the buffers keyed by
 * (layout, primitive), the line and polygon builders that turn begin/vertex/end
 * calls into interleaved float records, and the draw-call setup of a buffer.
 * Float payloads are modelled as `real` and are only ever copied.
 */
module AuxGl3 {
  import opened GlTypes
  import opened LineRecords

  /** The interleaving schemes a VertexBuffer can hold (VertexBuffer::LAYOUT_*). */
  datatype Layout = Vtx | VtxNormal | VtxColor | VtxTexture0 | VtxNormalColor | VtxNormalTexture0

  /** Floats one attribute occupies inside a vertex record. */
  function Width(a: Attr): nat {
    match a
    case Vertex => 3
    case Normal => 3
    case Color => 4
    case TexCoord0 => 2
    case TexCoord1 => 2
  }

  /** The attributes a layout interleaves, in record order; the position always comes first. */
  function Components(layout: Layout): (cs: seq<Attr>)
    ensures |cs| >= 1 && cs[0] == Vertex
  {
    match layout
    case Vtx => [Vertex]
    case VtxNormal => [Vertex, Normal]
    case VtxColor => [Vertex, Color]
    case VtxTexture0 => [Vertex, TexCoord0]
    case VtxNormalColor => [Vertex, Normal, Color]
    case VtxNormalTexture0 => [Vertex, Normal, TexCoord0]
  }

  /** Floats taken by attributes laid end to end. */
  function RecordSize(cs: seq<Attr>): nat {
    if cs == [] then 0 else RecordSize(cs[..|cs| - 1]) + Width(cs[|cs| - 1])
  }

  /** Where attribute k of a record starts, in floats. */
  function OffsetOf(cs: seq<Attr>, k: nat): nat
    requires k <= |cs|
  {
    RecordSize(cs[..k])
  }

  /**
   * Floats per vertex, the divisor VertexBuffer::drawObject uses for each layout;
   * it is the size of the layout's record.
   */
  function Stride(layout: Layout): (s: nat)
    ensures s == RecordSize(Components(layout))
  {
    match layout
    case Vtx => assert [Vertex][..0] == []; 3
    case VtxNormal => assert [Vertex, Normal][..1] == [Vertex]; 6
    case VtxColor => assert [Vertex, Color][..1] == [Vertex]; 7
    case VtxTexture0 => assert [Vertex, TexCoord0][..1] == [Vertex]; 5
    case VtxNormalColor =>
      assert [Vertex, Normal, Color][..2] == [Vertex, Normal] && [Vertex, Normal][..1] == [Vertex]; 10
    case VtxNormalTexture0 =>
      assert [Vertex, Normal, TexCoord0][..2] == [Vertex, Normal] && [Vertex, Normal][..1] == [Vertex]; 8
  }

  /** In every layout the attributes after the position start at float 3, then 6. */
  lemma OffsetsOf(layout: Layout)
    ensures forall k :: 0 <= k < |Components(layout)| ==> OffsetOf(Components(layout), k) == 3 * k
  {
    var cs := Components(layout);
    assert cs[..0] == [];
    if |cs| >= 2 {
      assert cs[..1] == [Vertex];
      assert RecordSize([Vertex]) == RecordSize([]) + 3;
    }
    if |cs| == 3 {
      assert cs[..2] == [Vertex, Normal];
      assert [Vertex, Normal][..1] == [Vertex];
      assert RecordSize([Vertex, Normal]) == RecordSize([Vertex]) + 3;
    }
  }

  /** Exactly the two texture layouts carry a texture coordinate. */
  lemma TexturedLayouts(layout: Layout)
    ensures TexCoord0 in Components(layout) <==> layout == VtxTexture0 || layout == VtxNormalTexture0
  {
    var cs := Components(layout);
    if layout == VtxTexture0 || layout == VtxNormalTexture0 {
      assert cs[|cs| - 1] == TexCoord0;
    }
  }

  /** One glVertexAttribPointer call: attribute location, components, stride and offset (in floats). */
  datatype AttribPointer = AttribPointer(loc: Attr, size: nat, stride: nat, offset: nat)

  /**
   * What one draw of a buffer asks of the GL: the shader mode it selects, the
   * attributes it enables (in order), the pointers it sets, the single
   * glDrawArrays call, the attributes it disables afterwards and the shader
   * mode it leaves behind.
   */
  datatype DrawCall = DrawCall(
    mode: ShaderMode,
    enabled: seq<Attr>,
    pointers: seq<AttribPointer>,
    prim: Primitive,
    vertexCount: nat,
    disabled: seq<Attr>,
    modeAfter: ShaderMode)

  /**
   * The buffers of one drawable, keyed by (layout, primitive); `getBuffer`
   * creates an empty one on first use.
   */
  class BufferCollection {
    var buffers: map<(Layout, Primitive), seq<real>>

    constructor ()
      ensures buffers == map[]
    {
      buffers := map[];
    }

    /** The floats held under a key; a key never used holds nothing. */
    function Data(layout: Layout, prim: Primitive): seq<real>
      reads this
    {
      if (layout, prim) in buffers then buffers[(layout, prim)] else []
    }

    /**
     * getBuffer(layout, prim) followed by moving `data` onto the end of that
     * buffer's float array: the key exists afterwards, its array grows by
     * `data` at the end and no other buffer changes.
     */
    method Append(layout: Layout, prim: Primitive, data: seq<real>)
      modifies this
      ensures (layout, prim) in buffers
      ensures buffers == old(buffers)[(layout, prim) := old(Data(layout, prim)) + data]
      ensures forall l, p :: (l, p) != (layout, prim) ==> Data(l, p) == old(Data(l, p))
    {
      if (layout, prim) !in buffers {
        buffers := buffers[(layout, prim) := []];
      }
      buffers := buffers[(layout, prim) := buffers[(layout, prim)] + data];
    }
  }

  /** The buffer a LineBuilder flushes into: stippled lines never carry colour. */
  function LineTarget(hasColor: bool, hasStipple: bool): (l: Layout)
    ensures Stride(l) == if hasColor && !hasStipple then 7 else 3
    ensures (Color in Components(l)) <==> hasColor && !hasStipple
  {
    if hasStipple then Vtx else if hasColor then VtxColor else Vtx
  }

  /**
   * Turns glBegin/glVertex/glEnd-style line calls into GL_LINES records.
   * `verts` is the record of each vertex pushed since the last glEnd.
   */
  class LineBuilder {
    const parent: BufferCollection
    const renderAs: Primitive
    const hasColor: bool
    const hasStipple: bool
    var color: seq<real>
    var pts: seq<real>
    var count: nat
    ghost var verts: seq<seq<real>>

    /** Floats per record: position and RGBA when coloured and not stippled, position only otherwise. */
    function RecordLength(): nat {
      if hasColor && !hasStipple then 7 else 3
    }

    ghost predicate Valid()
      reads this
    {
      && |color| == 4
      && count == |verts|
      && Holds(verts, pts, RecordLength(), Strips(renderAs))
    }

    /** The record glVertex3d appends for a vertex at (x, y, z) with the current colour. */
    function Record(x: real, y: real, z: real): seq<real>
      reads this`color
    {
      [x, y, z] + if hasColor && !hasStipple then color else []
    }

    constructor (parent: BufferCollection, renderAs: Primitive, hasColor: bool, hasStipple: bool, color: seq<real>)
      requires |color| == 4
      ensures Valid()
      ensures this.parent == parent && this.renderAs == renderAs
      ensures this.hasColor == hasColor && this.hasStipple == hasStipple && this.color == color
      ensures pts == [] && count == 0 && verts == []
    {
      this.parent := parent;
      this.renderAs := renderAs;
      this.hasColor := hasColor;
      this.hasStipple := hasStipple;
      this.color := color;
      pts := [];
      count := 0;
      verts := [];
    }

    /**
     * Pushes one vertex. The old contents stay a prefix; in strip and loop mode,
     * from the third vertex on, a copy of the last record goes in first.
     */
    method GlVertex3d(x: real, y: real, z: real)
      requires Valid()
      modifies this`pts, this`count, this`verts
      ensures Valid()
      ensures verts == old(verts) + [Record(x, y, z)]
      ensures count == old(count) + 1
      ensures pts == old(pts)
        + (if Strips(renderAs) && old(count) >= 2 then old(pts)[|old(pts)| - RecordLength()..] else [])
        + Record(x, y, z)
    {
      var offset := if hasColor && !hasStipple then 7 else 3;
      ghost var vs, p0 := verts, pts;
      ghost var rec := Record(x, y, z);
      var p := pts;
      if count >= 2 && (renderAs == LineStrip || renderAs == LineLoop) {
        // strip mode: the previous vertex starts the new segment
        HasLastRecord(vs, p, offset, true);
        p := p + p[|p| - offset..];
      }
      ghost var p1 := p;
      p := p + [x, y, z];
      if hasColor && !hasStipple {
        p := p + color;
      }
      assert p == p1 + rec;
      PushRecord(vs, rec, offset, Strips(renderAs), p0, p);
      pts := p;
      count := count + 1;
      verts := vs + [rec];
    }

    /** Sets the current colour, alpha 1. */
    method GlColor3f(r: real, g: real, b: real)
      requires Valid()
      modifies this`color
      ensures Valid()
      ensures color == [r, g, b, 1.0]
    {
      color := [r, g, b, 1.0];
    }

    /** Sets the current colour from four components. */
    method GlColor4fv(c: seq<real>)
      requires Valid() && |c| >= 4
      modifies this`color
      ensures Valid()
      ensures color == c[..4]
    {
      color := [c[0], c[1], c[2], c[3]];
    }

    /**
     * Ends the primitive. Nothing is flushed when no vertex was pushed;
     * otherwise the flushed records (with a closing segment for a loop) go to
     * the end of exactly one GL_LINES buffer, and the builder is emptied.
     */
    method GlEnd()
      requires Valid()
      modifies this`pts, this`count, this`verts, parent
      ensures Valid()
      ensures pts == [] && count == 0 && verts == []
      ensures old(verts) == [] ==> parent.buffers == old(parent.buffers)
      ensures old(verts) != [] ==>
        var key := (LineTarget(hasColor, hasStipple), Lines);
        parent.buffers == old(parent.buffers)[key := old(parent.Data(key.0, key.1)) + Flatten(Flushed(old(verts), renderAs))]
    {
      var offset := if hasColor && !hasStipple then 7 else 3;
      DegenerateOnlyWhenEmpty(verts, offset, Strips(renderAs), renderAs == LineLoop);
      EmptyHolds<real>(offset, Strips(renderAs));
      if |pts| < 2 || (|pts| == 2 && renderAs == LineLoop) {
        pts := [];
        verts := [];
        return;
      }
      var out := ClosedPoints();
      // LineTarget's choice: stipple wins over colour
      var layout := if hasStipple then Vtx else if hasColor then VtxColor else Vtx;
      assert layout == LineTarget(hasColor, hasStipple);
      parent.Append(layout, Lines, out);
      pts := [];
      count := 0;
      verts := [];
    }

    /**
     * The floats glEnd moves out: the pending array, closed for a loop by
     * copying its last record and then its first record onto the end.
     */
    method ClosedPoints() returns (out: seq<real>)
      requires Valid() && verts != []
      ensures out == Flatten(Flushed(verts, renderAs))
    {
      var offset := if hasColor && !hasStipple then 7 else 3;
      out := pts;
      if renderAs == LineLoop {
        // close the loop: a copy of the last record, then of the first
        LoopClosingRecords(verts, offset);
        out := out + out[|out| - offset..];
        out := out + out[..offset];
      } else {
        assert Flushed(verts, renderAs) == Expand(verts, Strips(renderAs));
      }
    }
  }

  /** The buffer a PolyBuilder flushes into: every polygon record carries a normal. */
  function PolyLayout(useColor: bool, useColorTex: bool): (l: Layout)
    ensures |Components(l)| >= 2 && Components(l)[..2] == [Vertex, Normal]
    ensures (Color in Components(l)) <==> useColor
    ensures (TexCoord0 in Components(l)) <==> !useColor && useColorTex
    ensures Stride(l) == 6 + if useColor then 4 else if useColorTex then 2 else 0
  {
    if useColor then VtxNormalColor else if useColorTex then VtxNormalTexture0 else VtxNormal
  }

  /** Accumulates triangle and quad records (position, normal and colour or texture coordinate). */
  class PolyBuilder {
    const parent: BufferCollection
    const renderAs: Primitive
    const useColor: bool
    const useColorTex: bool
    var pts: seq<real>
    var count: nat
    /** Reports written to the error stream about kinds the builder cannot flush. */
    var warnings: nat

    constructor (parent: BufferCollection, renderAs: Primitive, useColor: bool, useColorTex: bool)
      ensures this.parent == parent && this.renderAs == renderAs
      ensures this.useColor == useColor && this.useColorTex == useColorTex
      ensures pts == [] && count == 0 && warnings == 0
    {
      this.parent := parent;
      this.renderAs := renderAs;
      this.useColor := useColor;
      this.useColorTex := useColorTex;
      pts := [];
      count := 0;
      warnings := 0;
    }

    /**
     * Ends the primitive. A kind other than triangles or quads is reported once
     * and changes nothing else, not even the pending data; otherwise the pending
     * data goes to the end of the (layout, kind) buffer and the builder is emptied.
     */
    method GlEnd()
      modifies this`pts, this`count, this`warnings, parent
      ensures !(renderAs == Triangles || renderAs == Quads) ==>
        pts == old(pts) && count == old(count) && parent.buffers == old(parent.buffers)
        && warnings == old(warnings) + 1
      ensures (renderAs == Triangles || renderAs == Quads) ==>
        var key := (PolyLayout(useColor, useColorTex), renderAs);
        && parent.buffers == old(parent.buffers)[key := old(parent.Data(key.0, key.1)) + old(pts)]
        && pts == [] && count == 0 && warnings == old(warnings)
    {
      var ptsStride := 6;
      var dstLayout := VtxNormal;
      if useColor {
        dstLayout := VtxNormalColor;
        ptsStride := ptsStride + 4;
      } else if useColorTex {
        dstLayout := VtxNormalTexture0;
        ptsStride := ptsStride + 2;
      }
      assert ptsStride == Stride(dstLayout);
      if renderAs != Triangles && renderAs != Quads {
        warnings := warnings + 1;
        return;
      }
      parent.Append(dstLayout, renderAs, pts);
      pts := [];
      count := 0;
    }
  }

  /**
   * One pointer per attribute of the layout, in record order: the attribute's
   * location (the position's for the normal of LAYOUT_VTX_NORMAL_TEXTURE0), its
   * width, the layout's stride (0 for position-only data) and its offset.
   */
  predicate PointersFor(layout: Layout, ps: seq<AttribPointer>) {
    var cs := Components(layout);
    && |ps| == |cs|
    && forall k :: 0 <= k < |ps| ==>
      ps[k] == AttribPointer(
        if layout == VtxNormalTexture0 && cs[k] == Normal then Vertex else cs[k],
        Width(cs[k]),
        if layout == Vtx then 0 else Stride(layout),
        OffsetOf(cs, k))
  }

  /**
   * The glVertexAttribPointer calls VertexBuffer::drawObject makes for each
   * layout, in order: one per attribute, at the attribute's offset, with the
   * layout's stride (0, "tightly packed", for position-only data). The
   * LAYOUT_VTX_NORMAL_TEXTURE0 case sets its offset-3 pointer on the position's
   * location, not the normal's.
   */
  function AttribPointers(layout: Layout): (ps: seq<AttribPointer>)
    ensures PointersFor(layout, ps)
  {
    OffsetsOf(layout);
    match layout
    case Vtx => [AttribPointer(Vertex, 3, 0, 0)]
    case VtxNormal => [AttribPointer(Vertex, 3, 6, 0), AttribPointer(Normal, 3, 6, 3)]
    case VtxColor => [AttribPointer(Vertex, 3, 7, 0), AttribPointer(Color, 4, 7, 3)]
    case VtxTexture0 => [AttribPointer(Vertex, 3, 5, 0), AttribPointer(TexCoord0, 2, 5, 3)]
    case VtxNormalColor =>
      [AttribPointer(Vertex, 3, 10, 0), AttribPointer(Normal, 3, 10, 3), AttribPointer(Color, 4, 10, 6)]
    case VtxNormalTexture0 =>
      [AttribPointer(Vertex, 3, 8, 0), AttribPointer(Vertex, 3, 8, 3), AttribPointer(TexCoord0, 2, 8, 6)]
  }

  /** The attributes drawObject disables after drawing, in call order: each one it enabled except the position. */
  function DisabledAfterDraw(layout: Layout): (ds: seq<Attr>)
    ensures multiset(ds) == multiset(Components(layout)[1..])
  {
    match layout
    case Vtx => []
    case VtxNormal => [Normal]
    case VtxColor => [Color]
    case VtxTexture0 => [TexCoord0]
    case VtxNormalColor => assert multiset([Color, Normal]) == multiset([Normal, Color]); [Color, Normal]
    case VtxNormalTexture0 => assert multiset([TexCoord0, Normal]) == multiset([Normal, TexCoord0]); [TexCoord0, Normal]
  }

  /** A GPU vertex buffer: the interleaved floats, and how many of them were last uploaded. */
  class VertexBuffer {
    const layout: Layout
    var ptData: seq<real>
    var bufferedSize: nat
    /** The floats the GPU holds, as last uploaded. */
    ghost var uploaded: seq<real>

    ghost predicate Valid()
      reads this
    {
      bufferedSize == |uploaded|
    }

    constructor (layout: Layout)
      ensures Valid()
      ensures this.layout == layout && ptData == [] && bufferedSize == 0
    {
      this.layout := layout;
      ptData := [];
      bufferedSize := 0;
      uploaded := [];
    }

    /** Uploads the floats verbatim; an empty array leaves the previous upload in place. */
    method BufferData()
      requires Valid()
      modifies this`bufferedSize, this`uploaded
      ensures Valid()
      ensures old(ptData) == [] ==> bufferedSize == old(bufferedSize) && uploaded == old(uploaded)
      ensures old(ptData) != [] ==> uploaded == ptData && bufferedSize == |ptData|
    {
      if ptData == [] {
        return;
      }
      bufferedSize := |ptData|;
      uploaded := ptData;
    }

    /**
     * The GL work of one draw. Nothing is issued before an upload. Otherwise the
     * texture shader mode is chosen exactly for layouts with a texture
     * coordinate; the layout's attributes are enabled in record order, one
     * pointer is set per attribute at its offset, one glDrawArrays covers
     * bufferedSize / stride vertices, and every attribute but the position is
     * disabled again. With LAYOUT_VTX_NORMAL_TEXTURE0 the pointer meant for the
     * normal is set on the position's location.
     */
    method DrawObject(renderAs: Primitive) returns (call: Option<DrawCall>)
      ensures call.None? <==> bufferedSize == 0
      ensures call.Some? ==>
        var c := call.value;
        var cs := Components(layout);
        && c.mode == (if TexCoord0 in cs then ModeColorTexture else ModeColor)
        && c.modeAfter == c.mode
        && c.prim == renderAs
        && c.vertexCount == bufferedSize / Stride(layout)
        && c.enabled == cs
        && c.disabled == DisabledAfterDraw(layout)
        && multiset(c.disabled) == multiset(cs[1..])
        && PointersFor(layout, c.pointers)
    {
      if bufferedSize == 0 {
        return None;
      }
      TexturedLayouts(layout);
      var mode := if layout == VtxTexture0 || layout == VtxNormalTexture0 then ModeColorTexture else ModeColor;
      call := Some(DrawCall(mode, Components(layout), AttribPointers(layout),
        renderAs, bufferedSize / Stride(layout), DisabledAfterDraw(layout), mode));
    }
  }

  /** Pre-rasterised glyph geometry for one string, drawn in screen space. */
  class TextBuffer {
    const handle: nat
    const rastX: real
    const rastY: real
    const rastZ: real
    /** Vertices to draw: two triangles per character. */
    const size: nat

    /**
     * `text` is the string as the bytes it is stored in (UTF-8 for non-ASCII
     * characters), so six vertices are counted per byte; `glyphs` is the
     * buffer handle the font service returns for it.
     */
    constructor (x: real, y: real, z: real, text: seq<bv8>, glyphs: nat)
      ensures rastX == x && rastY == y && rastZ == z && handle == glyphs
      ensures size == |text| * 6
    {
      handle := glyphs;
      rastX, rastY, rastZ := x, y, z;
      size := |text| * 6;
    }

    /**
     * The GL work of drawing the text: the text shader mode at the anchor,
     * 2 position and 2 texture floats per vertex, one triangle draw of every
     * glyph vertex, both attributes disabled again and the colour mode restored.
     */
    method DrawObject() returns (call: DrawCall)
      ensures call.mode == ModeRenderText(rastX, rastY, rastZ) && call.modeAfter == ModeColor
      ensures call.prim == Triangles && call.vertexCount == size
      ensures call.enabled == [Vertex, TexCoord1] && multiset(call.disabled) == multiset(call.enabled)
      ensures call.pointers == [AttribPointer(Vertex, 2, 4, 0), AttribPointer(TexCoord1, 2, 4, 2)]
    {
      call := DrawCall(ModeRenderText(rastX, rastY, rastZ), [Vertex, TexCoord1],
        [AttribPointer(Vertex, 2, 4, 0), AttribPointer(TexCoord1, 2, 4, 2)],
        Triangles, size, [Vertex, TexCoord1], ModeColor);
    }
  }

}
