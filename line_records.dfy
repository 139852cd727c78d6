/**
 * The record bookkeeping behind LineBuilder: a builder keeps one flat float
 * array, made of fixed-size vertex records, and turns connected polylines into
 * independent segments by repeating records.
 */
module LineRecords {
  import opened GlTypes

  /** Every record in `rs` has exactly `n` floats. */
  predicate Uniform<T>(rs: seq<seq<T>>, n: nat) {
    forall k :: 0 <= k < |rs| ==> |rs[k]| == n
  }

  /** The records laid end to end in one flat array, the last record at the end. */
  function Flatten<T>(rs: seq<seq<T>>): seq<T> {
    if rs == [] then [] else Flatten(rs[..|rs| - 1]) + rs[|rs| - 1]
  }

  /**
   * The records a builder holds after the vertices `vs` were pushed one by one:
   * in strip mode, every vertex from the third on is preceded by a copy of the
   * vertex before it, so that each consecutive pair of records is one segment.
   */
  function Expand<T>(vs: seq<T>, strip: bool): seq<T> {
    if vs == [] then []
    else
      var init := vs[..|vs| - 1];
      if strip && |init| >= 2 then Expand(init, strip) + [init[|init| - 1], vs[|vs| - 1]]
      else Expand(init, strip) + [vs[|vs| - 1]]
  }

  /** The flat array `p` holds exactly the records of the vertices `vs`, each `n` floats long. */
  ghost predicate Holds<T>(vs: seq<seq<T>>, p: seq<T>, n: nat, strip: bool) {
    Uniform(vs, n) && p == Flatten(Expand(vs, strip))
  }

  /** Whether a primitive kind makes the builder repeat records (GL_LINE_STRIP, GL_LINE_LOOP). */
  predicate Strips(kind: Primitive) {
    kind == LineStrip || kind == LineLoop
  }

  /**
   * The records a line builder hands to its buffer at the end of a primitive:
   * the expanded records, and for a loop a closing segment from the last vertex
   * back to the first.
   */
  function Flushed<T>(vs: seq<T>, kind: Primitive): seq<T> {
    var e := Expand(vs, Strips(kind));
    if kind == LineLoop && vs != [] then e + [vs[|vs| - 1], vs[0]] else e
  }

  lemma FlattenSnoc<T>(rs: seq<seq<T>>, r: seq<T>)
    ensures Flatten(rs + [r]) == Flatten(rs) + r
  {
    assert (rs + [r])[..|rs + [r]| - 1] == rs;
  }

  lemma {:induction false} FlattenLength<T>(rs: seq<seq<T>>, n: nat)
    requires Uniform(rs, n)
    ensures |Flatten(rs)| == |rs| * n
  {
    if rs != [] {
      var init := rs[..|rs| - 1];
      FlattenLength(init, n);
      assert Flatten(rs) == Flatten(init) + rs[|rs| - 1];
      assert |rs| * n == |init| * n + n;
    }
  }

  /** The last `n` floats of the flat array are the last record. */
  lemma FlattenLast<T>(rs: seq<seq<T>>, n: nat)
    requires Uniform(rs, n) && rs != []
    ensures |Flatten(rs)| >= n
    ensures Flatten(rs)[|Flatten(rs)| - n..] == rs[|rs| - 1]
  {
    var init := Flatten(rs[..|rs| - 1]);
    assert Flatten(rs) == init + rs[|rs| - 1];
  }

  /** The first `n` floats of the flat array are the first record. */
  lemma {:induction false} FlattenFirst<T>(rs: seq<seq<T>>, n: nat)
    requires Uniform(rs, n) && rs != []
    ensures |Flatten(rs)| >= n
    ensures Flatten(rs)[..n] == rs[0]
  {
    var init := rs[..|rs| - 1];
    if init == [] {
      assert Flatten(rs) == [] + rs[0];
    } else {
      FlattenFirst(init, n);
      assert Flatten(rs) == Flatten(init) + rs[|rs| - 1];
      assert Flatten(rs)[..n] == Flatten(init)[..n];
    }
  }

  /** How many records the builder holds after n pushes: 2n - 2 in strip mode (n >= 2), n otherwise. */
  lemma {:induction false} ExpandLength<T>(vs: seq<T>, strip: bool)
    ensures |Expand(vs, strip)| == if strip && |vs| >= 2 then 2 * |vs| - 2 else |vs|
  {
    if vs != [] {
      ExpandLength(vs[..|vs| - 1], strip);
    }
  }

  /** Expansion only repeats vertices; it never makes up new ones. */
  lemma {:induction false} ExpandElements<T>(vs: seq<T>, strip: bool)
    ensures forall x :: x in Expand(vs, strip) ==> x in vs
  {
    if vs != [] {
      var init := vs[..|vs| - 1];
      ExpandElements(init, strip);
      forall x | x in init ensures x in vs {
        var k :| 0 <= k < |init| && init[k] == x;
        assert vs[k] == x;
      }
    }
  }

  lemma ExpandUniform<T>(vs: seq<seq<T>>, strip: bool, n: nat)
    requires Uniform(vs, n)
    ensures Uniform(Expand(vs, strip), n)
  {
    ExpandElements(vs, strip);
    var e := Expand(vs, strip);
    forall k | 0 <= k < |e| ensures |e[k]| == n {
      assert e[k] in vs;
    }
  }

  /** The newest record is always the last pushed vertex. */
  lemma ExpandLast<T>(vs: seq<T>, strip: bool)
    requires vs != []
    ensures Expand(vs, strip) != []
    ensures Expand(vs, strip)[|Expand(vs, strip)| - 1] == vs[|vs| - 1]
  {
  }

  /** The oldest record is always the first pushed vertex. */
  lemma {:induction false} ExpandFirst<T>(vs: seq<T>, strip: bool)
    requires vs != []
    ensures Expand(vs, strip) != [] && Expand(vs, strip)[0] == vs[0]
  {
    var init := vs[..|vs| - 1];
    if init != [] {
      ExpandFirst(init, strip);
    }
  }

  /** Without strip mode the records are the vertices as pushed. */
  lemma {:induction false} ExpandDiscrete<T>(vs: seq<T>)
    ensures Expand(vs, false) == vs
  {
    if vs != [] {
      ExpandDiscrete(vs[..|vs| - 1]);
      assert vs == vs[..|vs| - 1] + [vs[|vs| - 1]];
    }
  }

  /** In strip mode, record pair k is the segment from vertex k to vertex k + 1. */
  lemma {:induction false} ExpandSegments<T>(vs: seq<T>)
    requires |vs| >= 2
    ensures |Expand(vs, true)| == 2 * |vs| - 2
    ensures forall k :: 0 <= k < |vs| - 1 ==>
      Expand(vs, true)[2 * k] == vs[k] && Expand(vs, true)[2 * k + 1] == vs[k + 1]
  {
    var init := vs[..|vs| - 1];
    var e := Expand(vs, true);
    ExpandLength(vs, true);
    if |vs| == 2 {
      assert init == [vs[0]];
      assert Expand(init, true) == [vs[0]];
    } else {
      ExpandSegments(init);
      var ei := Expand(init, true);
      assert e == ei + [init[|init| - 1], vs[|vs| - 1]];
      forall k | 0 <= k < |vs| - 1
        ensures e[2 * k] == vs[k] && e[2 * k + 1] == vs[k + 1]
      {
        if k < |init| - 1 {
          assert e[2 * k] == ei[2 * k] && e[2 * k + 1] == ei[2 * k + 1];
        }
      }
    }
  }

  /** Other kinds flush the vertices as pushed. */
  lemma FlushedDiscrete<T>(vs: seq<T>, kind: Primitive)
    requires !Strips(kind)
    ensures Flushed(vs, kind) == vs
  {
    ExpandDiscrete(vs);
  }

  /** A strip of n >= 2 vertices flushes n - 1 segments, vertex k to vertex k + 1. */
  lemma FlushedStrip<T>(vs: seq<T>)
    requires |vs| >= 2
    ensures |Flushed(vs, LineStrip)| == 2 * (|vs| - 1)
    ensures forall k :: 0 <= k < |vs| - 1 ==>
      Flushed(vs, LineStrip)[2 * k] == vs[k] && Flushed(vs, LineStrip)[2 * k + 1] == vs[k + 1]
  {
    ExpandSegments(vs);
  }

  /**
   * A loop of n >= 2 vertices flushes n segments: vertex k to vertex k + 1,
   * then a closing one from the last vertex back to the first.
   */
  lemma FlushedLoop<T>(vs: seq<T>)
    requires |vs| >= 2
    ensures |Flushed(vs, LineLoop)| == 2 * |vs|
    ensures forall k :: 0 <= k < |vs| - 1 ==>
      Flushed(vs, LineLoop)[2 * k] == vs[k] && Flushed(vs, LineLoop)[2 * k + 1] == vs[k + 1]
    ensures Flushed(vs, LineLoop)[2 * |vs| - 2] == vs[|vs| - 1]
    ensures Flushed(vs, LineLoop)[2 * |vs| - 1] == vs[0]
  {
    ExpandSegments(vs);
    var e := Expand(vs, true);
    var f := e + [vs[|vs| - 1], vs[0]];
    assert Flushed(vs, LineLoop) == f;
    forall k | 0 <= k < |vs| - 1
      ensures f[2 * k] == vs[k] && f[2 * k + 1] == vs[k + 1]
    {
      assert f[2 * k] == e[2 * k] && f[2 * k + 1] == e[2 * k + 1];
    }
  }

  /**
   * A single vertex is not dropped: it is flushed as one record, or as three
   * (the vertex, then a closing pair) for a loop.
   */
  lemma FlushedSingle<T>(v: T, kind: Primitive)
    ensures Flushed([v], kind) == if kind == LineLoop then [v, v, v] else [v]
  {
    assert [v][..0] == [];
    assert Expand([v], Strips(kind)) == Expand([], Strips(kind)) + [v];
  }

  /**
   * The emptiness test of LineBuilder::glEnd compares the number of floats with 2.
   * With records of at least 3 floats this is true exactly when no vertex was pushed.
   */
  lemma DegenerateOnlyWhenEmpty<T>(vs: seq<seq<T>>, n: nat, strip: bool, loop: bool)
    requires n >= 3 && Uniform(vs, n)
    ensures var m := |Flatten(Expand(vs, strip))|; (m < 2 || (m == 2 && loop)) <==> vs == []
  {
    ExpandUniform(vs, strip, n);
    ExpandLength(vs, strip);
    FlattenLength(Expand(vs, strip), n);
    var e := |Expand(vs, strip)|;
    assert e >= 1 ==> e * n >= n;
  }

  /**
   * Closing a loop by copying the last record and then the first record of
   * the flat array yields the flat form of the loop's flushed records.
   */
  lemma LoopClosingRecords<T>(vs: seq<seq<T>>, n: nat)
    requires Uniform(vs, n) && vs != []
    ensures var p := Flatten(Expand(vs, true));
      && |p| >= n
      && var q := p + p[|p| - n..];
      q + q[..n] == Flatten(Flushed(vs, LineLoop))
  {
    var e := Expand(vs, true);
    var p := Flatten(e);
    ExpandUniform(vs, true, n);
    ExpandLast(vs, true);
    ExpandFirst(vs, true);
    FlattenLast(e, n);
    FlattenFirst(e, n);
    var q := p + p[|p| - n..];
    assert q[..n] == p[..n];
    FlattenSnoc(e, vs[|vs| - 1]);
    FlattenSnoc(e + [vs[|vs| - 1]], vs[0]);
    assert e + [vs[|vs| - 1]] + [vs[0]] == Flushed(vs, LineLoop);
  }

  /**
   * Pushing one more record: when the flat array `p2` is `p` followed, in strip
   * mode from the third vertex on, by a copy of its own last `n` floats, and
   * then by the record, it is the flat form of the records after the push.
   */
  lemma PushRecord<T>(vs: seq<seq<T>>, r: seq<T>, n: nat, strip: bool, p: seq<T>, p2: seq<T>)
    requires Holds(vs, p, n, strip) && |r| == n
    requires strip && |vs| >= 2 ==> |p| >= n
    requires p2 == p + (if strip && |vs| >= 2 then p[|p| - n..] else []) + r
    ensures Holds(vs + [r], p2, n, strip)
  {
    var e := Expand(vs, strip);
    var vs' := vs + [r];
    assert vs'[..|vs'| - 1] == vs;
    if strip && |vs| >= 2 {
      var last := vs[|vs| - 1];
      ExpandUniform(vs, strip, n);
      ExpandLast(vs, strip);
      FlattenLast(e, n);
      assert Expand(vs', strip) == e + [last, r];
      assert e + [last, r] == (e + [last]) + [r];
      FlattenSnoc(e, last);
      FlattenSnoc(e + [last], r);
    } else {
      assert Expand(vs', strip) == e + [r];
      FlattenSnoc(e, r);
    }
  }

  /** An empty builder: no vertex, no floats. */
  lemma EmptyHolds<T>(n: nat, strip: bool)
    ensures Holds<T>([], [], n, strip)
  {
  }

  /** Strip mode from the third vertex on: the flat array holds at least one whole record. */
  lemma HasLastRecord<T>(vs: seq<seq<T>>, p: seq<T>, n: nat, strip: bool)
    requires Holds(vs, p, n, strip) && strip && |vs| >= 2
    ensures |p| >= n
  {
    ExpandUniform(vs, strip, n);
    FlattenLast(Expand(vs, strip), n);
  }
}
