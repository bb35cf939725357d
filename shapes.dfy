/** The 2D shape templates of shapes.py and the in-place scaling of a shape
    instance.

    A template is a flat list of vertices, every three consecutive vertices
    forming one triangle; a vertex is a list of coordinates. */
module Shapes {
  type Coords = seq<real>
  type Vertices = seq<Coords>

  /** The classes of shapes.py; each names the template it copies. */
  datatype ShapeClass = BasicShape | Tris2D | Quad2D | Rect2D | Cross2D

  // ---------------------------------------------------------------------
  // The class-level templates
  // ---------------------------------------------------------------------

  function TrisVertices(): Vertices {
    [[0.0, 0.0], [0.0, 1.0], [1.0, 1.0]]
  }

  /** Quad2D is built from Tris2D: its three vertices, then its last vertex,
      the point (last x, first y), and its first vertex. */
  function QuadVertices(): Vertices {
    var t := TrisVertices();
    t + [t[|t| - 1], [t[|t| - 1][0], t[0][1]], t[0]]
  }

  function RectVertices(): Vertices {
    [[-0.5, -1.0], [-0.5, 1.0], [0.5, 1.0],
     [0.5, 1.0], [0.5, -1.0], [-0.5, -1.0]]
  }

  /** The horizontal bar that Cross2D adds to the vertical Rect2D bar. */
  function CrossBarVertices(): Vertices {
    [[-1.0, -0.5], [-1.0, 0.5], [1.0, 0.5],
     [1.0, 0.5], [1.0, -0.5], [-1.0, -0.5]]
  }

  function CrossVertices(): Vertices {
    RectVertices() + CrossBarVertices()
  }

  /** The `vertices` class attribute of each class. */
  function Template(c: ShapeClass): Vertices {
    match c
    case BasicShape => []
    case Tris2D => TrisVertices()
    case Quad2D => QuadVertices()
    case Rect2D => RectVertices()
    case Cross2D => CrossVertices()
  }

  // ---------------------------------------------------------------------
  // Scaling
  // ---------------------------------------------------------------------

  /** Every coordinate of one vertex multiplied by `f`. */
  function ScaledCoords(v: Coords, f: real): Coords {
    seq(|v|, j requires 0 <= j < |v| => v[j] * f)
  }

  /** Every coordinate of every vertex multiplied by `f`: the effect of
      `BasicShape.scale(f)`. */
  function Scaled(vs: Vertices, f: real): Vertices {
    seq(|vs|, i requires 0 <= i < |vs| => ScaledCoords(vs[i], f))
  }

  /** Scaling keeps the vertex count and every vertex's dimension, and
      replaces each coordinate `co` with `co * f`. */
  lemma ScaledShape(vs: Vertices, f: real)
    ensures |Scaled(vs, f)| == |vs|
    ensures forall i :: 0 <= i < |vs| ==> |Scaled(vs, f)[i]| == |vs[i]|
    ensures forall i, j :: 0 <= i < |vs| && 0 <= j < |vs[i]| ==> Scaled(vs, f)[i][j] == vs[i][j] * f
  {
  }

  /** Scaling by `a` and then by `b` is scaling by `a * b`. */
  lemma ScaleCompose(vs: Vertices, a: real, b: real)
    ensures Scaled(Scaled(vs, a), b) == Scaled(vs, a * b)
  {
    forall i | 0 <= i < |vs|
      ensures Scaled(Scaled(vs, a), b)[i] == Scaled(vs, a * b)[i]
    {
      forall j | 0 <= j < |vs[i]|
        ensures Scaled(Scaled(vs, a), b)[i][j] == Scaled(vs, a * b)[i][j]
      {
        assert (vs[i][j] * a) * b == vs[i][j] * (a * b);
      }
    }
  }

  /** Scaling by 1.0 changes nothing. */
  lemma ScaleIdentity(vs: Vertices)
    ensures Scaled(vs, 1.0) == vs
  {
    forall i | 0 <= i < |vs|
      ensures Scaled(vs, 1.0)[i] == vs[i]
    {
      assert ScaledCoords(vs[i], 1.0) == vs[i];
    }
  }

  /** Scaling by a non-zero factor and then by its inverse restores the
      original vertices. */
  lemma ScaleRoundTrip(vs: Vertices, f: real)
    requires f != 0.0
    ensures Scaled(Scaled(vs, f), 1.0 / f) == vs
  {
    var g := 1.0 / f;
    ScaleCompose(vs, f, g);
    assert f * g == 1.0;
    calc {
      Scaled(Scaled(vs, f), g);
      Scaled(vs, f * g);
      Scaled(vs, 1.0);
      { ScaleIdentity(vs); }
      vs;
    }
  }

  // ---------------------------------------------------------------------
  // Triangle lists
  // ---------------------------------------------------------------------

  /** Every vertex has exactly two coordinates. */
  predicate Planar(vs: Vertices) {
    forall i :: 0 <= i < |vs| ==> |vs[i]| == 2
  }

  /** The three vertices of triangle `t` are pairwise distinct. */
  predicate TriangleDistinct(vs: Vertices, t: nat)
    requires 3 * t + 3 <= |vs|
  {
    vs[3 * t] != vs[3 * t + 1] && vs[3 * t + 1] != vs[3 * t + 2] && vs[3 * t] != vs[3 * t + 2]
  }

  /** A well-formed triangle list: whole triangles only, none degenerate in
      the sense of repeating a vertex. */
  ghost predicate TriangleList(vs: Vertices) {
    && |vs| % 3 == 0
    && forall t: nat :: 3 * t + 3 <= |vs| ==> TriangleDistinct(vs, t)
  }

  /** The vertex count of every template: 0, 3, 6, 6 and 12. */
  lemma TemplateSizes()
    ensures |Template(BasicShape)| == 0 && |Template(Tris2D)| == 3
    ensures |Template(Quad2D)| == 6 && |Template(Rect2D)| == 6
    ensures |Template(Cross2D)| == 12
  {
  }

  /** Quad2D's vertices, written out: the unit square as two triangles. */
  lemma QuadLiteral()
    ensures QuadVertices() == [[0.0, 0.0], [0.0, 1.0], [1.0, 1.0],
                               [1.0, 1.0], [1.0, 0.0], [0.0, 0.0]]
    ensures QuadVertices()[..3] == TrisVertices()
  {
  }

  /** Cross2D is the Rect2D bar followed by the horizontal bar. */
  lemma CrossExtendsRect()
    ensures CrossVertices()[..6] == RectVertices()
    ensures CrossVertices()[6..] == CrossBarVertices()
  {
    assert |RectVertices()| == 6;
  }

  lemma SixTriangleList(vs: Vertices)
    requires |vs| == 6
    requires vs[0] != vs[1] && vs[1] != vs[2] && vs[0] != vs[2]
    requires vs[3] != vs[4] && vs[4] != vs[5] && vs[3] != vs[5]
    ensures TriangleList(vs)
  {
    forall t: nat | 3 * t + 3 <= |vs| ensures TriangleDistinct(vs, t) {
      assert t == 0 || t == 1;
    }
  }

  /** Every template is a list of whole triangles with two coordinates per
      vertex, and no triangle repeats a vertex. */
  lemma TemplatesWellFormed(c: ShapeClass)
    ensures |Template(c)| % 3 == 0
    ensures Planar(Template(c))
    ensures TriangleList(Template(c))
  {
    var vs := Template(c);
    match c
    case BasicShape =>
    case Tris2D =>
      forall t: nat | 3 * t + 3 <= |vs| ensures TriangleDistinct(vs, t) {
        assert t == 0;
        assert vs[0][1] != vs[1][1] && vs[1][0] != vs[2][0] && vs[0][0] != vs[2][0];
      }
    case Quad2D =>
      QuadLiteral();
      assert vs[0][1] != vs[1][1] && vs[1][0] != vs[2][0] && vs[0][0] != vs[2][0];
      assert vs[3][1] != vs[4][1] && vs[4][0] != vs[5][0] && vs[3][0] != vs[5][0];
      SixTriangleList(vs);
    case Rect2D =>
      assert vs[0][1] != vs[1][1] && vs[1][0] != vs[2][0] && vs[0][0] != vs[2][0];
      assert vs[3][1] != vs[4][1] && vs[4][0] != vs[5][0] && vs[3][0] != vs[5][0];
      SixTriangleList(vs);
    case Cross2D =>
      forall t: nat | 3 * t + 3 <= |vs| ensures TriangleDistinct(vs, t) {
        assert t == 0 || t == 1 || t == 2 || t == 3;
        if t == 0 {
          assert vs[0][1] != vs[1][1] && vs[1][0] != vs[2][0] && vs[0][0] != vs[2][0];
        } else if t == 1 {
          assert vs[3][1] != vs[4][1] && vs[4][0] != vs[5][0] && vs[3][0] != vs[5][0];
        } else if t == 2 {
          assert vs[6][1] != vs[7][1] && vs[7][0] != vs[8][0] && vs[6][0] != vs[8][0];
        } else {
          assert vs[9][1] != vs[10][1] && vs[10][0] != vs[11][0] && vs[9][0] != vs[11][0];
        }
      }
  }

  /** Scaling by a non-zero factor keeps distinct vertices distinct. */
  lemma ScaleKeepsDistinct(v: Coords, w: Coords, f: real)
    requires f != 0.0 && v != w
    ensures ScaledCoords(v, f) != ScaledCoords(w, f)
  {
    if |v| == |w| {
      var j :| 0 <= j < |v| && v[j] != w[j];
      assert ScaledCoords(v, f)[j] == v[j] * f;
      assert ScaledCoords(w, f)[j] == w[j] * f;
      assert (v[j] * f) / f == v[j] && (w[j] * f) / f == w[j];
    }
  }

  /** Scaling a well-formed triangle list by a non-zero factor gives a
      well-formed triangle list. */
  lemma ScaleKeepsTriangleList(vs: Vertices, f: real)
    requires f != 0.0 && TriangleList(vs)
    ensures TriangleList(Scaled(vs, f))
  {
    var s := Scaled(vs, f);
    forall t: nat | 3 * t + 3 <= |s| ensures TriangleDistinct(s, t) {
      assert TriangleDistinct(vs, t);
      ScaleKeepsDistinct(vs[3 * t], vs[3 * t + 1], f);
      ScaleKeepsDistinct(vs[3 * t + 1], vs[3 * t + 2], f);
      ScaleKeepsDistinct(vs[3 * t], vs[3 * t + 2], f);
    }
  }

  // ---------------------------------------------------------------------
  // Shape instances
  // ---------------------------------------------------------------------

  /** An instance of one of the shape classes: its own copy of the class
      template, which `Scale` rewrites in place. The template itself is a
      value and cannot be changed through an instance. */
  class Shape {
    const shapeClass: ShapeClass
    var vertices: Vertices

    /** `BasicShape.__init__(scale)`: copy the class template, then scale it. */
    constructor (shapeClass: ShapeClass, factor: real := 1.0)
      ensures this.shapeClass == shapeClass
      ensures vertices == Scaled(Template(shapeClass), factor)
    {
      this.shapeClass := shapeClass;
      vertices := Template(shapeClass);
      new;
      Scale(factor);
    }

    /** `BasicShape.scale(factor)`: multiply every coordinate of every vertex
        by `factor`, one coordinate at a time. */
    method Scale(factor: real)
      modifies this
      ensures vertices == Scaled(old(vertices), factor)
    {
      var i := 0;
      while i < |vertices|
        invariant 0 <= i <= |vertices| == |old(vertices)|
        invariant forall k :: 0 <= k < i ==> vertices[k] == ScaledCoords(old(vertices)[k], factor)
        invariant forall k :: i <= k < |vertices| ==> vertices[k] == old(vertices)[k]
      {
        var j := 0;
        while j < |vertices[i]|
          invariant |vertices| == |old(vertices)| && i < |vertices|
          invariant 0 <= j <= |vertices[i]| == |old(vertices)[i]|
          invariant forall k :: 0 <= k < i ==> vertices[k] == ScaledCoords(old(vertices)[k], factor)
          invariant forall k :: i < k < |vertices| ==> vertices[k] == old(vertices)[k]
          invariant forall m :: 0 <= m < j ==> vertices[i][m] == old(vertices)[i][m] * factor
          invariant forall m :: j <= m < |vertices[i]| ==> vertices[i][m] == old(vertices)[i][m]
        {
          vertices := vertices[i := vertices[i][j := vertices[i][j] * factor]];
          j := j + 1;
        }
        assert forall m :: 0 <= m < |vertices[i]| ==> vertices[i][m] == ScaledCoords(old(vertices)[i], factor)[m];
        assert vertices[i] == ScaledCoords(old(vertices)[i], factor);
        i := i + 1;
      }
    }
  }

  /** Two successive `scale` calls on one instance act as one call with the
      product of the factors. */
  method ScaleTwice(s: Shape, a: real, b: real)
    modifies s
    ensures s.vertices == Scaled(old(s.vertices), a * b)
  {
    s.Scale(a);
    s.Scale(b);
    ScaleCompose(old(s.vertices), a, b);
  }
}
