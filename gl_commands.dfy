/**
 * The part of OpenGL 1.x that the viewer widget uses, as an abstract command
 * language. The widget does not draw: it appends these commands to a log.
 * `Execute` gives them the meaning the widget relies on (the current matrix
 * mode, the model-view and projection matrices as the chains of transforms
 * multiplied into them, the viewport, display-list compile mode, and the
 * display lists replayed under a given model-view chain). Colours, vertices
 * and enabled capabilities do not change this state.
 */
module GLCommands {
  import opened Outcomes

  datatype Capability = DepthTest | CullFace
  datatype MatrixMode = ModelView | Projection
  datatype Primitive = Lines
  datatype Shading = Flat

  /** A point in model coordinates, as passed to glVertex. */
  datatype Point = Point(x: real, y: real, z: real)

  /** A viewport rectangle in window pixels: lower-left corner and size. */
  datatype Rect = Rect(x: int, y: int, width: int, height: int)

  /** One factor multiplied into the current matrix. */
  datatype Transform =
    | Translation(dx: real, dy: real, dz: real)
    | Rotation(degrees: int, ax: real, ay: real, az: real)
      // gluPerspective; the aspect ratio is kept as the width/height pair it is computed from
    | PerspectiveProjection(fovy: int, aspectWidth: int, aspectHeight: int, zNear: real, zFar: real)

  datatype GLCommand =
    | ClearColor(red: real, green: real, blue: real, alpha: real)
    | ShadeModel(shading: Shading)
    | Enable(capability: Capability)
    | Clear(colorBuffer: bool, depthBuffer: bool)
    | LoadIdentity
    | Translate(dx: real, dy: real, dz: real)
    | Rotate(degrees: int, ax: real, ay: real, az: real)
    | Perspective(fovy: int, aspectWidth: int, aspectHeight: int, zNear: real, zFar: real)
    | SetMatrixMode(mode: MatrixMode)
    | Viewport(rect: Rect)
    | NewList(list: nat)              // glNewList(list, GL_COMPILE)
    | EndList
    | CallList(list: nat)
    | DeleteLists(first: nat, range: nat)
    | Color(red: real, green: real, blue: real)
    | Begin(primitive: Primitive)
    | Vertex(p: Point)
    | End

  /** A display list replayed under the model-view chain current at the call. */
  datatype Draw = Draw(modelView: seq<Transform>, list: nat)

  datatype Pipeline = Pipeline(
    mode: MatrixMode,
    modelView: seq<Transform>,
    projection: seq<Transform>,
    viewport: Option<Rect>,
    compiling: bool,
    drawn: seq<Draw>)

  /** The state of a fresh context: model-view mode, identity matrices. */
  function InitialPipeline(): (p: Pipeline)
    ensures p.mode == ModelView && p.modelView == [] && p.projection == []
    ensures p.viewport == None && !p.compiling && p.drawn == []
  {
    Pipeline(ModelView, [], [], None, false, [])
  }

  /** Multiplies `t` into the matrix selected by the current mode. */
  function MultMatrix(p: Pipeline, t: Transform): Pipeline
  {
    if p.mode == ModelView then p.(modelView := p.modelView + [t])
    else p.(projection := p.projection + [t])
  }

  /** The effect of one command; between NewList and EndList commands are only recorded. */
  function Execute(p: Pipeline, c: GLCommand): Pipeline
  {
    if p.compiling then
      (if c.EndList? then p.(compiling := false) else p)
    else
      match c
      case NewList(_) => p.(compiling := true)
      case LoadIdentity =>
        if p.mode == ModelView then p.(modelView := []) else p.(projection := [])
      case Translate(dx, dy, dz) => MultMatrix(p, Translation(dx, dy, dz))
      case Rotate(d, ax, ay, az) => MultMatrix(p, Rotation(d, ax, ay, az))
      case Perspective(f, w, h, n, r) => MultMatrix(p, PerspectiveProjection(f, w, h, n, r))
      case SetMatrixMode(m) => p.(mode := m)
      case Viewport(r) => p.(viewport := Some(r))
      case CallList(l) => p.(drawn := p.drawn + [Draw(p.modelView, l)])
      case _ => p
  }

  /** The effect of a command sequence, first command first. */
  function Run(p: Pipeline, cs: seq<GLCommand>): Pipeline
    decreases |cs|
  {
    if cs == [] then p else Run(Execute(p, cs[0]), cs[1..])
  }

  lemma {:induction false} RunAppend(p: Pipeline, a: seq<GLCommand>, b: seq<GLCommand>)
    ensures Run(p, a + b) == Run(Run(p, a), b)
    decreases |a|
  {
    if a == [] {
      assert a + b == b;
    } else {
      assert (a + b)[0] == a[0];
      assert (a + b)[1..] == a[1..] + b;
      RunAppend(Execute(p, a[0]), a[1..], b);
    }
  }

  /** Commands that open or close a display list. */
  predicate ListBracket(c: GLCommand)
  {
    c.NewList? || c.EndList?
  }

  /** A display-list definition: glNewList(list, GL_COMPILE), the body, glEndList. */
  function Compile(list: nat, body: seq<GLCommand>): (cs: seq<GLCommand>)
    ensures |cs| == |body| + 2 && cs[0] == NewList(list) && cs[|cs| - 1] == EndList
  {
    [NewList(list)] + body + [EndList]
  }

  /** While compiling, commands other than EndList change nothing. */
  lemma {:induction false} RunRecorded(p: Pipeline, body: seq<GLCommand>)
    requires p.compiling
    requires forall i :: 0 <= i < |body| ==> !body[i].EndList?
    ensures Run(p, body) == p
  {
    if body != [] {
      assert !body[0].EndList?;
      RunRecorded(p, body[1..]);
    }
  }

  /**
   * Defining a display list executes none of its body: the pipeline is as
   * before, however the body would have changed it.
   */
  lemma CompileLeavesPipeline(p: Pipeline, list: nat, body: seq<GLCommand>)
    requires !p.compiling
    requires forall i :: 0 <= i < |body| ==> !ListBracket(body[i])
    ensures Run(p, Compile(list, body)) == p
  {
    var q := p.(compiling := true);
    assert Run(p, [NewList(list)]) == q;
    RunRecorded(q, body);
    assert Run(q, [EndList]) == p;
    RunAppend(p, [NewList(list)], body);
    RunAppend(p, [NewList(list)] + body, [EndList]);
  }
}
