/**
 * The viewer widget (glwidget.cpp): three rotation angles, the current
 * molecule, and the display list holding its compiled scene. OpenGL is the
 * command log of GLCommands; display lists are a map from list names to
 * their recorded bodies; glGenLists draws names from a counter, but callers
 * are promised only a non-zero name not in use; Qt's update() is counted.
 */
module GLView {
  import opened Outcomes
  import opened MoleculeData
  import opened GLCommands

  // ---------------------------------------------------------------------
  // The compiled scene: one line segment per bond
  // ---------------------------------------------------------------------

  function Position(a: Atom): Point
  {
    Point(a.x, a.y, a.z)
  }

  /** The glVertex calls of makeObject's loop for the first `n` bonds: both ends of each, in bond order. */
  function BondVertices(atoms: seq<Atom>, bonds: seq<Bond>, n: nat): (vs: seq<GLCommand>)
    requires BondsWithin(bonds, |atoms|) && n <= |bonds|
    ensures |vs| == 2 * n
  {
    if n == 0 then []
    else
      BondVertices(atoms, bonds, n - 1) +
      [Vertex(Position(atoms[bonds[n - 1].a])), Vertex(Position(atoms[bonds[n - 1].b]))]
  }

  /** The body of the display list makeObject compiles: white lines through the bond vertices. */
  function Scene(m: Molecule): seq<GLCommand>
    requires ValidMolecule(m)
  {
    [Color(1.0, 1.0, 1.0), Begin(Lines)] + BondVertices(m.atoms, m.bonds, |m.bonds|) + [End]
  }

  /** A line segment of a GL_LINES primitive. */
  datatype Segment = Segment(from: Point, to: Point)

  /** The points passed to glVertex, in order. */
  function VertexPoints(cs: seq<GLCommand>): seq<Point>
  {
    if cs == [] then []
    else if cs[0].Vertex? then [cs[0].p] + VertexPoints(cs[1..])
    else VertexPoints(cs[1..])
  }

  /** GL_LINES: each consecutive pair of vertices is one segment; an odd last vertex is dropped. */
  function Pairs(ps: seq<Point>): seq<Segment>
    decreases |ps|
  {
    if |ps| < 2 then [] else [Segment(ps[0], ps[1])] + Pairs(ps[2..])
  }

  /** The segment each bond should appear as: from its atom a to its atom b. */
  function BondSegments(atoms: seq<Atom>, bonds: seq<Bond>): (r: seq<Segment>)
    requires BondsWithin(bonds, |atoms|)
    ensures |r| == |bonds|
  {
    seq(|bonds|, j requires 0 <= j < |bonds| =>
      Segment(Position(atoms[bonds[j].a]), Position(atoms[bonds[j].b])))
  }

  lemma {:induction false} VertexPointsAppend(a: seq<GLCommand>, b: seq<GLCommand>)
    ensures VertexPoints(a + b) == VertexPoints(a) + VertexPoints(b)
    decreases |a|
  {
    if a == [] {
      assert a + b == b;
    } else {
      assert (a + b)[0] == a[0];
      assert (a + b)[1..] == a[1..] + b;
      VertexPointsAppend(a[1..], b);
    }
  }

  lemma {:induction false} PairsAppend(ps: seq<Point>, p: Point, q: Point)
    requires |ps| % 2 == 0
    ensures Pairs(ps + [p, q]) == Pairs(ps) + [Segment(p, q)]
    decreases |ps|
  {
    if ps == [] {
      assert ps + [p, q] == [p, q];
    } else {
      assert (ps + [p, q])[2..] == ps[2..] + [p, q];
      PairsAppend(ps[2..], p, q);
    }
  }

  lemma VertexPointsPair(p: Point, q: Point)
    ensures VertexPoints([Vertex(p), Vertex(q)]) == [p, q]
  {
    assert [Vertex(p), Vertex(q)][1..] == [Vertex(q)];
    assert VertexPoints([Vertex(q)]) == [q];
  }

  lemma BondSegmentsPrefix(atoms: seq<Atom>, bonds: seq<Bond>, n: nat)
    requires BondsWithin(bonds, |atoms|) && 0 < n <= |bonds|
    ensures BondSegments(atoms, bonds)[..n] ==
      BondSegments(atoms, bonds)[..n - 1] +
      [Segment(Position(atoms[bonds[n - 1].a]), Position(atoms[bonds[n - 1].b]))]
  {
  }

  lemma {:induction false} BondVerticesSegments(atoms: seq<Atom>, bonds: seq<Bond>, n: nat)
    requires BondsWithin(bonds, |atoms|) && n <= |bonds|
    ensures |VertexPoints(BondVertices(atoms, bonds, n))| == 2 * n
    ensures Pairs(VertexPoints(BondVertices(atoms, bonds, n))) == BondSegments(atoms, bonds)[..n]
  {
    if n > 0 {
      var p, q := Position(atoms[bonds[n - 1].a]), Position(atoms[bonds[n - 1].b]);
      var init := BondVertices(atoms, bonds, n - 1);
      BondVerticesSegments(atoms, bonds, n - 1);
      VertexPointsAppend(init, [Vertex(p), Vertex(q)]);
      VertexPointsPair(p, q);
      assert (2 * (n - 1)) % 2 == 0;
      PairsAppend(VertexPoints(init), p, q);
      BondSegmentsPrefix(atoms, bonds, n);
    }
  }

  /**
   * Drawn as GL_LINES, the compiled scene is exactly one segment per bond, in
   * bond order, from the bond's atom a to its atom b: 2 vertices per bond.
   */
  lemma SceneSegments(m: Molecule)
    requires ValidMolecule(m)
    ensures |VertexPoints(Scene(m))| == 2 * |m.bonds|
    ensures Pairs(VertexPoints(Scene(m))) == BondSegments(m.atoms, m.bonds)
  {
    var vs := BondVertices(m.atoms, m.bonds, |m.bonds|);
    BondVerticesSegments(m.atoms, m.bonds, |m.bonds|);
    assert BondSegments(m.atoms, m.bonds)[..|m.bonds|] == BondSegments(m.atoms, m.bonds);
    VertexPointsAppend([Color(1.0, 1.0, 1.0), Begin(Lines)], vs);
    VertexPointsAppend([Color(1.0, 1.0, 1.0), Begin(Lines)] + vs, [End]);
    assert VertexPoints([Color(1.0, 1.0, 1.0), Begin(Lines)]) == [];
    assert VertexPoints([End]) == [];
    assert VertexPoints(Scene(m)) == VertexPoints(vs);
  }

  /** The scene has no glNewList/glEndList of its own, so compiling it executes nothing. */
  lemma SceneHasNoBrackets(m: Molecule)
    requires ValidMolecule(m)
    ensures forall i :: 0 <= i < |Scene(m)| ==> !ListBracket(Scene(m)[i])
  {
    var vs := BondVertices(m.atoms, m.bonds, |m.bonds|);
    BondVerticesAreVertices(m.atoms, m.bonds, |m.bonds|);
    assert forall i :: 2 <= i < 2 + |vs| ==> Scene(m)[i] == vs[i - 2];
  }

  lemma {:induction false} BondVerticesAreVertices(atoms: seq<Atom>, bonds: seq<Bond>, n: nat)
    requires BondsWithin(bonds, |atoms|) && n <= |bonds|
    ensures forall i :: 0 <= i < 2 * n ==> BondVertices(atoms, bonds, n)[i].Vertex?
  {
    if n > 0 {
      BondVerticesAreVertices(atoms, bonds, n - 1);
    }
  }

  // ---------------------------------------------------------------------
  // paintGL and resizeGL
  // ---------------------------------------------------------------------

  /** The commands of paintGL: clear, translate back 10 units, rotate about X, Y, Z, replay the scene. */
  function Frame(xRot: int, yRot: int, zRot: int, list: nat): seq<GLCommand>
  {
    [Clear(true, true), LoadIdentity, Translate(0.0, 0.0, -10.0),
     Rotate(xRot, 1.0, 0.0, 0.0), Rotate(yRot, 0.0, 1.0, 0.0), Rotate(zRot, 0.0, 0.0, 1.0),
     CallList(list)]
  }

  /** The model-view chain of a frame, outermost factor first. */
  function FrameTransform(xRot: int, yRot: int, zRot: int): seq<Transform>
  {
    [Translation(0.0, 0.0, -10.0), Rotation(xRot, 1.0, 0.0, 0.0), Rotation(yRot, 0.0, 1.0, 0.0),
     Rotation(zRot, 0.0, 0.0, 1.0)]
  }

  /**
   * A frame replays `list` exactly once, under translate(0,0,-10) then
   * rotations by xRot about X, yRot about Y and zRot about Z, whatever the
   * model-view matrix held before; projection and viewport are untouched.
   */
  lemma FrameDraws(p: Pipeline, xRot: int, yRot: int, zRot: int, list: nat)
    requires p.mode == ModelView && !p.compiling
    ensures var q := Run(p, Frame(xRot, yRot, zRot, list));
      q.drawn == p.drawn + [Draw(FrameTransform(xRot, yRot, zRot), list)] &&
      q.modelView == FrameTransform(xRot, yRot, zRot) &&
      q.mode == ModelView && q.projection == p.projection && q.viewport == p.viewport && !q.compiling
  {
    var cs := Frame(xRot, yRot, zRot, list);
    var p1 := Execute(Execute(p, cs[0]), cs[1]);
    assert Run(p, cs) == Run(p1, cs[2..]);
    var p2 := Execute(Execute(p1, cs[2]), cs[3]);
    assert Run(p1, cs[2..]) == Run(p2, cs[4..]);
    var p3 := Execute(Execute(p2, cs[4]), cs[5]);
    assert Run(p2, cs[4..]) == Run(p3, cs[6..]);
    assert p3.modelView == FrameTransform(xRot, yRot, zRot);
  }

  function Min(a: int, b: int): int
  {
    if a <= b then a else b
  }

  /**
   * The viewport of resizeGL: a square of side min(width, height) centred in
   * the window. Both offsets are non-negative, so C++'s truncating division
   * agrees with Dafny's.
   */
  function SquareViewport(width: int, height: int): (r: Rect)
    ensures r.width == r.height == Min(width, height)
    ensures 0 <= r.x && r.x + r.width + r.x <= width <= r.x + r.width + r.x + 1
    ensures 0 <= r.y && r.y + r.height + r.y <= height <= r.y + r.height + r.y + 1
    ensures r.x == 0 || r.y == 0
  {
    var side := Min(width, height);
    Rect((width - side) / 2, (height - side) / 2, side, side)
  }

  /** The square viewport is the largest square that fits the window. */
  lemma SquareViewportLargest(width: int, height: int, x: int, y: int, side: int)
    requires 0 <= x && x + side <= width && 0 <= y && y + side <= height
    ensures side <= SquareViewport(width, height).width
  {
  }

  /** The commands of resizeGL. */
  function Resize(width: int, height: int): seq<GLCommand>
  {
    [Viewport(SquareViewport(width, height)), SetMatrixMode(Projection), LoadIdentity,
     Perspective(45, width, height, 0.01, 1000.0), SetMatrixMode(ModelView)]
  }

  /**
   * After a resize the viewport is the centred square, the projection is
   * exactly the 45-degree perspective for the window's aspect, the matrix
   * mode is model-view again and the model-view matrix is untouched.
   */
  lemma ResizeSetsProjection(p: Pipeline, width: int, height: int)
    requires !p.compiling
    ensures var q := Run(p, Resize(width, height));
      q.viewport == Some(SquareViewport(width, height)) &&
      q.projection == [PerspectiveProjection(45, width, height, 0.01, 1000.0)] &&
      q.mode == ModelView && q.modelView == p.modelView && q.drawn == p.drawn && !q.compiling
  {
    var cs := Resize(width, height);
    var p1 := Execute(Execute(p, cs[0]), cs[1]);
    assert Run(p, cs) == Run(p1, cs[2..]);
    var p2 := Execute(Execute(p1, cs[2]), cs[3]);
    assert Run(p1, cs[2..]) == Run(p2, cs[4..]);
  }

  /** The commands of initializeGL, given the list name makeObject obtains. */
  function Initialize(list: nat, scene: seq<GLCommand>): seq<GLCommand>
  {
    [ClearColor(0.0, 0.0, 0.0, 1.0)] + Compile(list, scene) +
    [ShadeModel(Flat), Enable(DepthTest), Enable(CullFace)]
  }

  /**
   * On a fresh context, initialising, resizing and painting draws the cached
   * scene once, under the frame transform, in the centred square viewport
   * with the perspective projection.
   */
  lemma FirstFrame(m: Molecule, list: nat, width: int, height: int, xRot: int, yRot: int, zRot: int)
    requires ValidMolecule(m)
    ensures var q := Run(InitialPipeline(), Initialize(list, Scene(m)) + Resize(width, height) + Frame(xRot, yRot, zRot, list));
      q.drawn == [Draw(FrameTransform(xRot, yRot, zRot), list)] &&
      q.viewport == Some(SquareViewport(width, height)) &&
      q.projection == [PerspectiveProjection(45, width, height, 0.01, 1000.0)]
  {
    var p0 := InitialPipeline();
    var p1 := Run(p0, [ClearColor(0.0, 0.0, 0.0, 1.0)]);
    assert p1 == p0;
    SceneHasNoBrackets(m);
    CompileLeavesPipeline(p1, list, Scene(m));
    var tail := [ShadeModel(Flat), Enable(DepthTest), Enable(CullFace)];
    assert Run(p0, tail) == p0;
    RunAppend(p0, [ClearColor(0.0, 0.0, 0.0, 1.0)], Compile(list, Scene(m)));
    RunAppend(p0, [ClearColor(0.0, 0.0, 0.0, 1.0)] + Compile(list, Scene(m)), tail);
    assert Run(p0, Initialize(list, Scene(m))) == p0;
    RunAppend(p0, Initialize(list, Scene(m)), Resize(width, height));
    ResizeSetsProjection(p0, width, height);
    var p2 := Run(p0, Resize(width, height));
    RunAppend(p0, Initialize(list, Scene(m)) + Resize(width, height), Frame(xRot, yRot, zRot, list));
    FrameDraws(p2, xRot, yRot, zRot, list);
  }

  // ---------------------------------------------------------------------
  // The widget
  // ---------------------------------------------------------------------

  class GLWidget {
    /** `object`: the display list holding the compiled scene, 0 while there is none. */
    var obj: nat
    var xRot: int
    var yRot: int
    var zRot: int
    var molecule: Molecule
    /** Every OpenGL command issued so far, oldest first. */
    var log: seq<GLCommand>
    /** The display lists OpenGL holds, by name. */
    var lists: map<nat, seq<GLCommand>>
    /** Bookkeeping for glGenLists: every name in use is below it; names start at 1. */
    var nextList: nat
    /** How many redraws update() has requested. */
    var updates: nat

    /** Every list name OpenGL holds was handed out by glGenLists. */
    ghost predicate ListsValid()
      reads this
    {
      0 < nextList && forall l :: l in lists ==> 0 < l < nextList
    }

    /** A cached scene, when there is one, is the compiled current molecule. */
    ghost predicate CacheCurrent()
      reads this
      requires ValidMolecule(molecule)
    {
      obj != 0 ==> obj in lists && lists[obj] == Scene(molecule)
    }

    ghost predicate Valid()
      reads this
    {
      ValidMolecule(molecule) && ListsValid() && CacheCurrent()
    }

    /**
     * GLWidget(parent): no cached scene, all angles 0, then setMolecule with
     * the molecule read at start-up (`initial`).
     */
    constructor (initial: Molecule)
      requires ValidMolecule(initial)
      ensures Valid()
      ensures obj == 0 && xRot == 0 && yRot == 0 && zRot == 0
      ensures molecule == initial && log == [] && lists == map[] && updates == 1
    {
      molecule := EmptyMolecule();
      obj := 0;
      xRot, yRot, zRot := 0, 0, 0;
      log, lists, nextList, updates := [], map[], 1, 0;
      new;
      SetMolecule(initial);
    }

    /** setXRot: stores the angle and requests a redraw; nothing else changes. */
    method SetXRot(value: int)
      requires Valid()
      modifies this`xRot, this`updates
      ensures Valid()
      ensures xRot == value && updates == old(updates) + 1
    {
      xRot := value;
      updates := updates + 1;
    }

    /** setYRot: stores the angle and requests a redraw; nothing else changes. */
    method SetYRot(value: int)
      requires Valid()
      modifies this`yRot, this`updates
      ensures Valid()
      ensures yRot == value && updates == old(updates) + 1
    {
      yRot := value;
      updates := updates + 1;
    }

    /** setZRot: stores the angle and requests a redraw; nothing else changes. */
    method SetZRot(value: int)
      requires Valid()
      modifies this`zRot, this`updates
      ensures Valid()
      ensures zRot == value && updates == old(updates) + 1
    {
      zRot := value;
      updates := updates + 1;
    }

    /**
     * glGenLists(1): a non-zero name OpenGL does not hold. Which one is not
     * promised, so a name deleted earlier may come back.
     */
    method GenList() returns (list: nat)
      requires ListsValid()
      modifies this`nextList
      ensures ListsValid()
      ensures list != 0 && list !in lists && list < nextList
    {
      list := nextList;
      nextList := nextList + 1;
    }

    /** The body makeObject issues between glNewList and glEndList, vertices bond by bond. */
    method EmitScene()
      requires ValidMolecule(molecule)
      modifies this`log
      ensures log == old(log) + Scene(molecule)
    {
      var atoms, bonds := molecule.atoms, molecule.bonds;
      log := log + [Color(1.0, 1.0, 1.0), Begin(Lines)];
      var i := 0;
      while i < |bonds|
        invariant 0 <= i <= |bonds|
        invariant log == old(log) + [Color(1.0, 1.0, 1.0), Begin(Lines)] + BondVertices(atoms, bonds, i)
      {
        var bond := bonds[i];
        log := log + [Vertex(Position(atoms[bond.a])), Vertex(Position(atoms[bond.b]))];
        i := i + 1;
      }
      log := log + [End];
    }

    /**
     * makeObject: obtains an unused list name and compiles the current
     * molecule's scene into it.
     */
    method MakeObject() returns (list: nat)
      requires ValidMolecule(molecule) && ListsValid()
      modifies this`log, this`lists, this`nextList
      ensures ListsValid()
      ensures list != 0 && list !in old(lists)
      ensures log == old(log) + Compile(list, Scene(molecule))
      ensures lists == old(lists)[list := Scene(molecule)]
    {
      list := GenList();
      log := log + [NewList(list)];
      EmitScene();
      log := log + [EndList];
      lists := lists[list := Scene(molecule)];
    }

    /**
     * setMolecule: always replaces the molecule; the cached scene is deleted
     * and rebuilt only when there is one, so an absent cache stays absent.
     */
    method SetMolecule(m: Molecule)
      requires Valid() && ValidMolecule(m)
      modifies this`molecule, this`obj, this`log, this`lists, this`nextList, this`updates
      ensures Valid()
      ensures molecule == m && updates == old(updates) + 1
      ensures (obj == 0) == (old(obj) == 0)
      ensures old(obj) == 0 ==> log == old(log) && lists == old(lists) && nextList == old(nextList)
      ensures old(obj) != 0 ==>
        obj !in old(lists) - {old(obj)} &&
        log == old(log) + [DeleteLists(old(obj), 1)] + Compile(obj, Scene(m)) &&
        lists == (old(lists) - {old(obj)})[obj := Scene(m)]
    {
      molecule := m;
      if obj != 0 {
        log := log + [DeleteLists(obj, 1)];
        lists := lists - {obj};
        obj := MakeObject();
      }
      updates := updates + 1;
    }

    /** initializeGL: black clear colour, compile the cache, flat shading, depth test, culling. */
    method InitializeGL()
      requires Valid()
      modifies this`obj, this`log, this`lists, this`nextList
      ensures Valid()
      ensures obj != 0 && obj !in old(lists)
      ensures log == old(log) + Initialize(obj, Scene(molecule))
      ensures lists == old(lists)[obj := Scene(molecule)]
    {
      log := log + [ClearColor(0.0, 0.0, 0.0, 1.0)];
      obj := MakeObject();
      log := log + [ShadeModel(Flat), Enable(DepthTest), Enable(CullFace)];
    }

    /** paintGL: issues one frame for the current angles and cached scene. */
    method PaintGL()
      requires Valid()
      modifies this`log
      ensures Valid()
      ensures log == old(log) + Frame(xRot, yRot, zRot, obj)
    {
      log := log + [Clear(true, true), LoadIdentity, Translate(0.0, 0.0, -10.0)];
      log := log + [Rotate(xRot, 1.0, 0.0, 0.0), Rotate(yRot, 0.0, 1.0, 0.0), Rotate(zRot, 0.0, 0.0, 1.0)];
      log := log + [CallList(obj)];
    }

    /** resizeGL: the centred square viewport and a 45-degree perspective for the window. */
    method ResizeGL(width: int, height: int)
      requires Valid()
      modifies this`log
      ensures Valid()
      ensures log == old(log) + Resize(width, height)
    {
      var side := if width <= height then width else height;
      log := log + [Viewport(Rect((width - side) / 2, (height - side) / 2, side, side))];
      log := log + [SetMatrixMode(Projection), LoadIdentity];
      log := log + [Perspective(45, width, height, 0.01, 1000.0), SetMatrixMode(ModelView)];
    }

    /** ~GLWidget: deletes the cached list (deleting name 0 deletes nothing). */
    method Destroy()
      requires Valid()
      modifies this`log, this`lists
      ensures log == old(log) + [DeleteLists(obj, 1)]
      ensures lists == old(lists) - {obj}
      ensures obj == 0 ==> lists == old(lists)
    {
      log := log + [DeleteLists(obj, 1)];
      lists := lists - {obj};
    }
  }
}
