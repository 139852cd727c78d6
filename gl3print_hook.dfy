/**
 * The draw hook that routes a draw call through transform feedback so that
 * its geometry reaches the vector exporter instead of the screen. The OpenGL
 * context it drives is a class of its own, holding the few pieces of GL state
 * the hook touches and the exporter's primitive list.
 */
module Gl3PrintHook {
  import opened GlTypes
  import opened Gl3Print

  /** sizeof(FeedbackVertex): nine 4-byte floats, no padding. */
  const FeedbackVertexBytes: nat := FeedbackVertexFloats * 4

  /** The GL state the hook reads and writes, plus what the exporter has collected. */
  class GlContext {
    /** Buffer names generated and not yet deleted. */
    var live: set<nat>
    /** GL_RASTERIZER_DISCARD. */
    var rasterizerDiscard: bool
    /** The primitive mode of an active transform-feedback capture, if any. */
    var capture: Option<Primitive>
    /** The buffer bound to GL_TRANSFORM_FEEDBACK_BUFFER (binding point 0). */
    var feedbackBinding: nat
    /** Bytes allocated for the bound feedback buffer. */
    var feedbackBytes: nat
    /** The primitives handed to the exporter, in order. */
    var exported: seq<Gl2psPrimitive>
    /** Diagnostics written to the error stream. */
    var warnings: nat

    constructor ()
      ensures live == {} && !rasterizerDiscard && capture == None
      ensures feedbackBinding == 0 && feedbackBytes == 0 && exported == [] && warnings == 0
    {
      live := {};
      rasterizerDiscard := false;
      capture := None;
      feedbackBinding := 0;
      feedbackBytes := 0;
      exported := [];
      warnings := 0;
    }
  }

  /** The primitives one captured draw of `shape` hands to the exporter. */
  function Exported(shape: Primitive, buf: seq<FeedbackVertex>, count: nat, clipOn: bool, vp: Viewport): (s: seq<Gl2psPrimitive>)
    requires shape == Triangles ==> count % 3 == 0 && Captured(buf, count)
    requires shape == Lines ==> count % 2 == 0 && Captured(buf, count)
    ensures forall k :: 0 <= k < |s| ==> s[k].kind == (if shape == Lines then Gl2psLine else Gl2psTriangle)
  {
    if shape == Triangles then TriangleStream(buf, count, clipOn, vp)
    else if shape == Lines then LineStream(buf, count, clipOn, vp)
    else []
  }

  /**
   * Every primitive a captured draw exports has the kind the draw asked for,
   * and a draw that is neither triangles nor lines exports nothing.
   */
  lemma ExportedKinds(shape: Primitive, buf: seq<FeedbackVertex>, count: nat, clipOn: bool, vp: Viewport)
    requires shape == Triangles ==> count % 3 == 0 && Captured(buf, count)
    requires shape == Lines ==> count % 2 == 0 && Captured(buf, count)
    ensures var s := Exported(shape, buf, count, clipOn, vp);
      && (shape != Triangles && shape != Lines ==> s == [])
      && (shape == Triangles ==> forall k :: 0 <= k < |s| ==> s[k].kind == Gl2psTriangle)
      && (shape == Lines ==> forall k :: 0 <= k < |s| ==> s[k].kind == Gl2psLine)
      && (!clipOn && shape == Triangles ==> |s| == count / 3)
      && (!clipOn && shape == Lines ==> |s| == count / 2)
  {
    if shape == Triangles {
      TriangleStreamLength(buf, count, clipOn, vp);
    } else if shape == Lines {
      LineStreamLength(buf, count, clipOn, vp);
    }
  }

  /** GL2PSFeedbackHook: owns one transform-feedback buffer name (0 once moved from). */
  class FeedbackHook {
    var feedbackBuf: nat

    /** The name the hook holds is 0 or still generated. */
    predicate HoldsLive(ctx: GlContext)
      reads this, ctx
    {
      feedbackBuf == 0 || feedbackBuf in ctx.live
    }

    /** glGenBuffers: `name` is the fresh non-zero name the context hands out. */
    constructor (ctx: GlContext, name: nat)
      requires name != 0 && name !in ctx.live
      modifies ctx`live
      ensures feedbackBuf == name && ctx.live == old(ctx.live) + {name}
      ensures HoldsLive(ctx)
    {
      feedbackBuf := name;
      ctx.live := ctx.live + {name};
    }

    /** The destructor deletes the name unless the hook was moved from. */
    method Destroy(ctx: GlContext)
      modifies ctx`live
      ensures ctx.live == if feedbackBuf != 0 then old(ctx.live) - {feedbackBuf} else old(ctx.live)
      ensures feedbackBuf != 0 ==> feedbackBuf !in ctx.live
    {
      if feedbackBuf != 0 {
        ctx.live := ctx.live - {feedbackBuf};
      }
    }

    /** The move constructor takes the other hook's name and leaves it holding 0. */
    constructor Move(ctx: GlContext, other: FeedbackHook)
      requires other.HoldsLive(ctx)
      modifies other
      ensures feedbackBuf == old(other.feedbackBuf) && other.feedbackBuf == 0
      ensures HoldsLive(ctx) && other.HoldsLive(ctx)
    {
      feedbackBuf := other.feedbackBuf;
      other.feedbackBuf := 0;
    }

    /**
     * Move assignment. Self-assignment changes nothing. Otherwise the name
     * moves over and the source holds 0; the name this hook held before is
     * not deleted, so it stays generated with no hook holding it.
     */
    method MoveAssign(ctx: GlContext, other: FeedbackHook)
      requires HoldsLive(ctx) && other.HoldsLive(ctx)
      modifies this, other
      ensures other == this ==> feedbackBuf == old(feedbackBuf)
      ensures other != this ==> feedbackBuf == old(other.feedbackBuf) && other.feedbackBuf == 0
      ensures HoldsLive(ctx) && other.HoldsLive(ctx)
      ensures other != this && old(feedbackBuf) != 0 && old(feedbackBuf) != old(other.feedbackBuf) ==>
        old(feedbackBuf) in ctx.live && feedbackBuf != old(feedbackBuf) && other.feedbackBuf != old(feedbackBuf)
    {
      if other != this {
        feedbackBuf := other.feedbackBuf;
        other.feedbackBuf := 0;
      }
    }

    /**
     * Before a draw of `count` vertices: size the feedback buffer for one
     * FeedbackVertex per vertex, bind it, stop rasterising and start
     * capturing `shape`.
     */
    method PreDraw(ctx: GlContext, shape: Primitive, count: nat)
      modifies ctx`feedbackBinding, ctx`feedbackBytes, ctx`rasterizerDiscard, ctx`capture
      ensures ctx.feedbackBinding == feedbackBuf
      ensures ctx.feedbackBytes == count * FeedbackVertexBytes
      ensures ctx.rasterizerDiscard && ctx.capture == Some(shape)
    {
      var bufSize := count * FeedbackVertexBytes;
      ctx.feedbackBinding := feedbackBuf;
      ctx.feedbackBytes := bufSize;
      ctx.rasterizerDiscard := true;
      ctx.capture := Some(shape);
    }

    /**
     * After the draw: stop capturing, rasterise again, read back the
     * `count` captured vertices `mapped` and hand them to the triangle or
     * line reconstruction; any other shape only warns.
     */
    method PostDraw(ctx: GlContext, shape: Primitive, count: nat, mapped: seq<FeedbackVertex>, clipOn: bool, vp: Viewport)
      requires shape == Triangles ==> count % 3 == 0 && Captured(mapped, count)
      requires shape == Lines ==> count % 2 == 0 && Captured(mapped, count)
      modifies ctx`rasterizerDiscard, ctx`capture, ctx`exported, ctx`warnings
      ensures !ctx.rasterizerDiscard && ctx.capture == None
      ensures ctx.exported == old(ctx.exported) + Exported(shape, mapped, count, clipOn, vp)
      ensures ctx.warnings == old(ctx.warnings) + (if shape == Triangles || shape == Lines then 0 else 1)
    {
      ctx.capture := None;
      ctx.rasterizerDiscard := false;
      if shape == Triangles {
        var prims := ProcessTriangleTransformFeedback(mapped, count, clipOn, vp);
        ctx.exported := ctx.exported + prims;
      } else if shape == Lines {
        var prims := ProcessLineTransformFeedback(mapped, count, clipOn, vp);
        ctx.exported := ctx.exported + prims;
      } else {
        // neither triangles nor lines: one diagnostic, nothing exported
        ctx.warnings := ctx.warnings + 1;
      }
    }

    /** Text is not captured: only rasterisation is switched off around it. */
    method PreDrawText(ctx: GlContext)
      modifies ctx`rasterizerDiscard
      ensures ctx.rasterizerDiscard
    {
      ctx.rasterizerDiscard := true;
    }

    method PostDrawText(ctx: GlContext)
      modifies ctx`rasterizerDiscard
      ensures !ctx.rasterizerDiscard
    {
      ctx.rasterizerDiscard := false;
    }
  }

}
