# qanachem core in Dafny

A model of the core of qanachem, a Qt/OpenGL viewer for molecules stored in a
MOL-style text file. It covers three files:

- the molecule data types (`molecule.h`);
- the file reader (`molecule.cpp`): the empty molecule, the `readFields` field
  splitter, and the constructor that reads name, comment, counts, atoms and
  bonds and computes the mass centre;
- the viewer widget's own logic (`glwidget.cpp`): the three rotation angles,
  the current molecule, the display list caching the compiled scene, and the
  commands it issues to OpenGL when it initialises, paints, resizes, compiles
  the scene or is destroyed.

Files and modules:

- `outcomes.dfy` (`Outcomes`): `Option` and `Result`.
- `molecule_data.dfy` (`MoleculeData`): `BondType`, `Atom`, `Bond`,
  `Molecule`. Bonds hold 0-based atom indices instead of pointers, under the
  invariant `ValidMolecule`.
- `molecule_file.dfy` (`MoleculeFile`): the splitter, the file layout, and the
  reader.
  - The reader is an imperative method, `Parse`, with two loop methods,
    `ReadAtoms` and `ReadBonds`.
  - Each is proved against the functional specification `Decode` (the
    molecule a well-formed file describes) and `Faulty` (what a reported
    error says about the file).
  - A file is the sequence of its lines as a line reader returns them. Each
    line keeps its terminator, so the last field of a line keeps its `"\n"`,
    as in the source. Reading past the last line gives `""`.
  - `toInt` and `toDouble` are function parameters.
- `gl_commands.dfy` (`GLCommands`): the OpenGL calls the widget makes, as a
  datatype of commands. It also has a small interpreter, `Execute`/`Run`,
  which gives them the meaning the widget relies on:
  - the matrix mode;
  - the model-view and projection matrices, as chains of factors;
  - the viewport;
  - display-list compile mode;
  - the lists replayed and the model-view chain each was replayed under.
- `gl_widget.dfy` (`GLView`): the compiled scene and its meaning as GL_LINES
  segments, the frame and resize command sequences, and the class `GLWidget`.
  - The class has the source's fields: `obj` for `object`, `xRot`, `yRot`,
    `zRot` and `molecule`.
  - It also has the OpenGL state it changes: the command `log`, the display
    lists (`lists`), the `glGenLists` counter and the number of `update()`
    requests.

## Model

| member | source | states |
|---|---|---|
| `MoleculeData.Ordinal` | molecule.h:7-14 | the five bond types have ordinals below 5 |
| `MoleculeData.OrdinalValues` | molecule.h:7-14 | the enumerators' values are their declaration positions: none 0, single 1, double 2, triple 3, aromatic 4 |
| `MoleculeData.BondTypeOf` | molecule.h:7-14 | an integer code names a bond type exactly when it is 0..4, and that type's ordinal is the code |
| `MoleculeData.OrdinalRoundTrip` | molecule.h:7-14 | converting a bond type to its ordinal and back gives the same type |
| `MoleculeData.OrdinalInjective` | molecule.h:7-14 | distinct bond types have distinct ordinals |
| `MoleculeData.EmptyMolecule` | molecule.cpp:6-9 | the default molecule has no atoms, no bonds, mass centre (0,0,0), and satisfies the bond invariant |
| `MoleculeFile.SplitParts` | molecule.cpp:13 | splitting at a separator loses nothing (joining the parts restores the line) and no part contains the separator |
| `MoleculeFile.NonEmptyMembers` | molecule.cpp:13 | skipping empty parts keeps exactly the non-empty ones |
| `MoleculeFile.ReadFields` | molecule.cpp:11-14 | the definition of readFields (split at spaces, empty parts skipped); its meaning is stated by `ReadFieldsTokens`, `ReadFieldsContent` and `ReadFieldsJoin` |
| `MoleculeFile.ReadFieldsTokens` | molecule.cpp:11-14 | no field returned by readFields is empty or contains a space |
| `MoleculeFile.ReadFieldsContent` | molecule.cpp:11-14 | the fields, concatenated, are exactly the line's non-space characters in order |
| `MoleculeFile.ReadFieldsJoin` | molecule.cpp:11-14 | non-empty space-free fields written with single spaces read back as the same fields |
| `MoleculeFile.BondLine` | molecule.cpp:29-59 | every bond line comes after every atom line |
| `MoleculeFile.AtomOf` | molecule.cpp:33-37 | the definition of one atom from its line's fields (x, y, z converted, field 3 the element); its meaning in the file is stated by `DecodeLayout` and `ReadAtoms` |
| `MoleculeFile.BondOf` | molecule.cpp:54-56 | a bond's indices are its line's 1-based atom numbers minus one, below the atom count; its type code is field 2, whatever its value |
| `MoleculeFile.ReadBond` | molecule.cpp:51-56 | one bond line gives its bond exactly when it has three fields, both atom numbers are in [1, atomCnt], any type code being stored; otherwise an error naming that line and what is wrong with it |
| `MoleculeFile.DecodeAtoms` | molecule.cpp:29-40 | as many atoms as the atom loop runs |
| `MoleculeFile.DecodeBonds` | molecule.cpp:49-59 | as many bonds as the bond loop runs, every index within the atoms read |
| `MoleculeFile.Decode` | molecule.cpp:16-60 | a well-formed file gives the declared numbers of atoms and bonds and a molecule satisfying the bond invariant |
| `MoleculeFile.SumAppend` | molecule.cpp:41-43 | adding an atom adds its coordinate to the running sum |
| `MoleculeFile.ReadAtoms` | molecule.cpp:28-44 | the atom loop succeeds exactly when every atom line has four fields; it then returns the atoms in file order, atom i from atom line i, and the coordinate sums; otherwise it names a short atom line |
| `MoleculeFile.ReadBonds` | molecule.cpp:49-59 | the bond loop succeeds exactly when every bond line is well-formed; it then returns the bonds in file order, bond j from bond line j; otherwise the error names a faulty bond line truthfully |
| `MoleculeFile.Parse` | molecule.cpp:16-60 | reading succeeds exactly when the file is well-formed; success yields exactly `Decode` of the lines; every error truthfully names what is wrong |
| `MoleculeFile.DecodeLayout` | molecule.cpp:20-58 | name and comment are lines 0 and 1; counts come from line 3; atom i comes from atom line i; bond j's 1-based atom numbers and type code come from bond line j |
| `MoleculeFile.DecodeMassCenter` | molecule.cpp:28-47 | with a positive count, the mass centre on each axis is the coordinate sum divided by the number of atoms (the mean); a negative count reads no atoms and gives centre 0 |
| `MoleculeFile.MeanWithinBounds` | molecule.cpp:45-47 | the mean of coordinates lies between any lower and upper bound of them |
| `MoleculeFile.DecodeMassCenterWithin` | molecule.cpp:41-47 | the mass centre of a read molecule lies inside its atoms' bounding box |
| `GLCommands.CompileLeavesPipeline` | glwidget.cpp:75-86 | compiling a display list (GL_COMPILE) executes none of its body |
| `GLView.Scene` | glwidget.cpp:77-84 | the definition of the list body makeObject compiles (white, GL_LINES, two vertices per bond, end); its meaning is stated by `SceneSegments` and `SceneHasNoBrackets` |
| `GLView.BondVertices` | glwidget.cpp:79-83 | makeObject's loop issues two vertices per bond |
| `GLView.BondVerticesSegments` | glwidget.cpp:78-84 | the vertices for the first n bonds, drawn as GL_LINES, are the first n bond segments |
| `GLView.SceneSegments` | glwidget.cpp:77-84 | the compiled scene has 2 × bond count vertices; drawn as GL_LINES it is exactly one segment per bond, in bond order, from atom a to atom b |
| `GLView.SceneHasNoBrackets` | glwidget.cpp:77-84 | the scene body opens and closes no display list |
| `GLView.Frame` | glwidget.cpp:47-53 | the definition of the commands of one paintGL; their meaning is stated by `FrameDraws` |
| `GLView.FrameDraws` | glwidget.cpp:45-54 | a frame replays the cached list once, under translate (0,0,−10), then rotation by xRot about X, yRot about Y and zRot about Z, whatever the model-view matrix held; projection and viewport are unchanged |
| `GLView.SquareViewport` | glwidget.cpp:92-94 | the viewport is a square of side min(width, height); its offsets are non-negative; it is centred (margins equal, or differing by one pixel); it fits the window; one offset is 0 |
| `GLView.SquareViewportLargest` | glwidget.cpp:92-94 | no larger square fits the window |
| `GLView.Resize` | glwidget.cpp:92-101 | the definition of the commands of one resizeGL; their meaning is stated by `SquareViewport` and `ResizeSetsProjection` |
| `GLView.ResizeSetsProjection` | glwidget.cpp:90-102 | after a resize the viewport is the centred square and the projection is exactly the 45° perspective for width/height with near 0.01 and far 1000; the mode is back to model-view and the model-view matrix is untouched |
| `GLView.Initialize` | glwidget.cpp:38-42 | the definition of the commands of initializeGL for a given list name and scene; their meaning is stated by `FirstFrame` |
| `GLView.FirstFrame` | glwidget.cpp:36-101 | on a fresh context, initialising, resizing and painting draw the cached scene once, under the frame transform, in the square viewport with the perspective projection |
| `GLView.GLWidget.constructor` | glwidget.cpp:3-10 | no cached scene, all angles 0, the start-up molecule stored, one redraw requested |
| `GLView.GLWidget.SetXRot` | glwidget.cpp:12-16 | stores the angle and requests a redraw; its frame allows no other change |
| `GLView.GLWidget.SetYRot` | glwidget.cpp:18-22 | stores the angle and requests a redraw; its frame allows no other change |
| `GLView.GLWidget.SetZRot` | glwidget.cpp:24-28 | stores the angle and requests a redraw; its frame allows no other change |
| `GLView.GLWidget.GenList` | glwidget.cpp:74 | the new list name is non-zero and not in use (it may be a name deleted earlier) |
| `GLView.GLWidget.EmitScene` | glwidget.cpp:77-84 | the loop issues exactly the scene of the current molecule |
| `GLView.GLWidget.MakeObject` | glwidget.cpp:72-88 | a non-zero list name not in use is returned; the list is defined as the current molecule's scene; the log gains exactly that definition |
| `GLView.GLWidget.SetMolecule` | glwidget.cpp:56-65 | always replaces the molecule and requests a redraw; an existing cache is deleted and rebuilt under a non-zero name not otherwise in use (possibly the same name), and an absent cache stays absent with no GL call; the cache always matches the molecule |
| `GLView.GLWidget.InitializeGL` | glwidget.cpp:36-43 | black clear colour; compiles the cache from the current molecule; flat shading; depth test; face culling |
| `GLView.GLWidget.PaintGL` | glwidget.cpp:45-54 | issues one frame for the current angles and cached list; keeps the widget invariant |
| `GLView.GLWidget.ResizeGL` | glwidget.cpp:90-102 | issues the square viewport, then the projection reset and perspective, and returns to model-view mode; keeps the widget invariant |
| `GLView.GLWidget.Destroy` | glwidget.cpp:30-34 | deletes the cached list (deleting name 0 removes nothing) |

## Left out

- File access (`QFile` open and `readLine`) is not modelled. The file is given as its lines. An unreadable file reads as no lines, which ends in `TooFewFields(3)`.
- `QString::toInt` and `QString::toDouble` are parameters. Coordinates are `real`, so double rounding is not modelled. Neither is the float narrowing of `glVertex3f`.
- `MoleculeFile.Parse` is stronger than the source at the places where the source does not check its input:
  - a line with too few fields is the error `TooFewFields`, where the source indexes past the end of its field list;
  - an atom count of 0 is the error `NoAtoms`, where the source divides by zero and stores NaN;
  - a bond atom number outside [1, atomCnt] is the error `BondIndexOutOfRange`, where the source forms a pointer outside the atom list.
- A bond keeps its type as the integer code read from field 2, unchecked, as the source stores it; nothing reads it back. `MoleculeData.BondTypeOf` names the enumerator for codes 0..4. A code outside the enumeration's value range, which C++ does not define, is stored like any other.
- Bond endpoints are indices, not pointers, so sharing of atom storage between copies of a molecule is not modelled.
- This version of qanachem does not do the following, and neither does the model:
  - the source does not map bond codes 6→single and 7→double;
  - it does not split legacy concatenated counts;
  - it does not reject a bond whose two ends are the same atom;
  - it does not give centroid (0,0,0) for zero atoms;
  - it rotates about X, then Y, then Z, with no scale, pan or centroid translation.
- A negative atom or bond count runs its loop zero times, as in the source. A negative atom count gives mass centre 0.
- `GLView.GLWidget.constructor` takes the molecule read at start-up as a parameter, because the source reads the fixed file `molecules/cyanocobalamin.mol`. It requires that the molecule satisfies the bond invariant, which every successful `Parse` guarantees.
- `GLView.GLWidget.GenList` always succeeds: a `glGenLists` failure (name 0) is not modelled. Its body draws names from a counter, but its contract promises only a non-zero name not in use, so callers may not assume a deleted name is never handed out again.
- `GLView.ResizeSetsProjection` keeps the aspect ratio as the pair (width, height). The floating-point ratio is not computed, so its special values are not modelled: infinite for height 0 and width > 0, and NaN for width 0 and height 0.
- Qt's event loop, `update()` beyond counting the requests, `makeCurrent`, and the actual rasterisation by OpenGL are not modelled. The OpenGL state is only what `GLCommands.Execute` records.
- `updateStuff` is not modelled because its body is empty.
- `setScale`, `renderImage`, `scale`, `massCenterX` and `massCenterY` are declared in `glwidget.h` but have no definition in the source. They are not modelled.
- `mainwindow.cpp`, `mainwindow.h` and `ui_mainwindow.h` are window setup, the timer, the file dialog and generated layout. They are not part of this model.
