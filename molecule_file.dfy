/**
 * The MOL-style file reader of molecule.cpp: the field splitter and the
 * constructor that builds a molecule from the lines of a file.
 *
 * A file is the sequence of its lines as a line reader returns them (a
 * line keeps its terminator); reading past the last line gives an empty
 * line. Text-to-number conversion is a library call and is a parameter:
 * `toInt` for integers and `toReal` for coordinates.
 */
module MoleculeFile {
  import opened Outcomes
  import opened MoleculeData

  // ---------------------------------------------------------------------
  // Splitting a line into fields
  // ---------------------------------------------------------------------

  /** The parts separated by `sep`, joined back with `sep`. */
  function Join(parts: seq<string>, sep: char): string
  {
    if |parts| == 0 then ""
    else if |parts| == 1 then parts[0]
    else parts[0] + [sep] + Join(parts[1..], sep)
  }

  /** `s` with every occurrence of `c` removed. */
  function Without(s: string, c: char): string
  {
    if s == [] then ""
    else (if s[0] == c then "" else [s[0]]) + Without(s[1..], c)
  }

  /** All strings of `parts`, concatenated. */
  function Flatten(parts: seq<string>): string
  {
    if parts == [] then "" else parts[0] + Flatten(parts[1..])
  }

  /**
   * Splitting at every `sep`, keeping empty parts: the pieces between the
   * separators, in order.
   */
  function Split(s: string, sep: char): seq<string>
  {
    SplitFrom(s, sep, "")
  }

  /** Splitting the rest `s` of a string whose current, unfinished part is `cur`. */
  function SplitFrom(s: string, sep: char, cur: string): seq<string>
  {
    if s == [] then [cur]
    else if s[0] == sep then [cur] + SplitFrom(s[1..], sep, "")
    else SplitFrom(s[1..], sep, cur + [s[0]])
  }

  /** The non-empty parts, in their original order. */
  function NonEmpty(parts: seq<string>): seq<string>
  {
    if parts == [] then []
    else (if parts[0] == "" then [] else [parts[0]]) + NonEmpty(parts[1..])
  }

  /** Filtering keeps exactly the non-empty parts. */
  lemma {:induction false} NonEmptyMembers(parts: seq<string>)
    ensures forall p :: p in NonEmpty(parts) <==> p in parts && p != ""
  {
    if parts != [] {
      NonEmptyMembers(parts[1..]);
      assert forall p :: p in parts <==> p == parts[0] || p in parts[1..];
    }
  }

  /** readFields: the line split at single spaces, empty fields dropped. */
  function ReadFields(line: string): (fields: seq<string>)
  {
    NonEmpty(Split(line, ' '))
  }

  lemma {:induction false} SplitFromParts(s: string, sep: char, cur: string)
    requires sep !in cur
    ensures Join(SplitFrom(s, sep, cur), sep) == cur + s
    ensures forall p :: p in SplitFrom(s, sep, cur) ==> sep !in p
  {
    if s == [] {
      assert cur + s == cur;
    } else if s[0] == sep {
      SplitFromParts(s[1..], sep, "");
      assert cur + s == cur + [sep] + s[1..];
    } else {
      SplitFromParts(s[1..], sep, cur + [s[0]]);
      assert cur + s == cur + [s[0]] + s[1..];
    }
  }

  /** Joining the parts back with the separator restores the string; no part holds a separator. */
  lemma SplitParts(s: string, sep: char)
    ensures Join(Split(s, sep), sep) == s
    ensures forall p :: p in Split(s, sep) ==> sep !in p
  {
    SplitFromParts(s, sep, "");
  }

  /** No field is empty or contains a space. */
  lemma ReadFieldsTokens(line: string)
    ensures forall f :: f in ReadFields(line) ==> f != "" && ' ' !in f
  {
    SplitParts(line, ' ');
    NonEmptyMembers(Split(line, ' '));
  }

  lemma {:induction false} FlattenAppend(p: seq<string>, q: seq<string>)
    ensures Flatten(p + q) == Flatten(p) + Flatten(q)
  {
    if p != [] {
      assert (p + q)[1..] == p[1..] + q;
      FlattenAppend(p[1..], q);
    } else {
      assert p + q == q;
    }
  }

  lemma {:induction false} FlattenNonEmpty(parts: seq<string>)
    ensures Flatten(NonEmpty(parts)) == Flatten(parts)
  {
    if parts != [] {
      FlattenNonEmpty(parts[1..]);
      var head: seq<string> := if parts[0] == "" then [] else [parts[0]];
      FlattenAppend(head, NonEmpty(parts[1..]));
    }
  }

  lemma {:induction false} WithoutAppend(s: string, t: string, c: char)
    ensures Without(s + t, c) == Without(s, c) + Without(t, c)
  {
    if s != [] {
      assert (s + t)[1..] == s[1..] + t;
      WithoutAppend(s[1..], t, c);
    } else {
      assert s + t == t;
    }
  }

  lemma {:induction false} FlattenSplitFrom(s: string, sep: char, cur: string)
    ensures Flatten(SplitFrom(s, sep, cur)) == cur + Without(s, sep)
  {
    if s == [] {
      assert Flatten([cur]) == cur + Flatten([]);
    } else if s[0] == sep {
      FlattenSplitFrom(s[1..], sep, "");
      assert Flatten([cur] + SplitFrom(s[1..], sep, "")) == cur + Flatten(SplitFrom(s[1..], sep, ""));
    } else {
      FlattenSplitFrom(s[1..], sep, cur + [s[0]]);
    }
  }

  /**
   * The fields of a line are exactly its characters other than spaces, in
   * order: nothing is lost, added or reordered.
   */
  lemma ReadFieldsContent(line: string)
    ensures Flatten(ReadFields(line)) == Without(line, ' ')
  {
    FlattenNonEmpty(Split(line, ' '));
    FlattenSplitFrom(line, ' ', "");
  }

  lemma {:induction false} SplitFromNoSeparator(t: string, sep: char, cur: string)
    requires sep !in t
    ensures SplitFrom(t, sep, cur) == [cur + t]
  {
    if t == [] {
      assert cur + t == cur;
    } else {
      SplitFromNoSeparator(t[1..], sep, cur + [t[0]]);
      assert cur + [t[0]] + t[1..] == cur + t;
    }
  }

  lemma {:induction false} SplitFromAfterPart(t: string, sep: char, u: string, cur: string)
    requires sep !in t
    ensures SplitFrom(t + [sep] + u, sep, cur) == [cur + t] + SplitFrom(u, sep, "")
  {
    if t == [] {
      assert t + [sep] + u == [sep] + u;
      assert ([sep] + u)[1..] == u;
      assert cur + t == cur;
    } else {
      assert (t + [sep] + u)[1..] == t[1..] + [sep] + u;
      SplitFromAfterPart(t[1..], sep, u, cur + [t[0]]);
      assert cur + [t[0]] + t[1..] == cur + t;
    }
  }

  lemma {:induction false} SplitJoin(parts: seq<string>, sep: char)
    requires |parts| >= 1
    requires forall p :: p in parts ==> sep !in p
    ensures Split(Join(parts, sep), sep) == parts
  {
    if |parts| == 1 {
      SplitFromNoSeparator(parts[0], sep, "");
      assert "" + parts[0] == parts[0];
    } else {
      assert forall p :: p in parts[1..] ==> p in parts;
      SplitJoin(parts[1..], sep);
      assert parts[0] in parts;
      SplitFromAfterPart(parts[0], sep, Join(parts[1..], sep), "");
      assert "" + parts[0] == parts[0];
      assert [parts[0]] + parts[1..] == parts;
    }
  }

  lemma {:induction false} NonEmptyKeeps(parts: seq<string>)
    requires forall p :: p in parts ==> p != ""
    ensures NonEmpty(parts) == parts
  {
    if parts != [] {
      assert forall p :: p in parts[1..] ==> p in parts;
      NonEmptyKeeps(parts[1..]);
      assert parts[0] in parts;
      assert [parts[0]] + parts[1..] == parts;
    }
  }

  /**
   * Round trip: fields that are non-empty and hold no space, written on a
   * line separated by single spaces, are read back as the same fields.
   */
  lemma ReadFieldsJoin(fields: seq<string>)
    requires forall f :: f in fields ==> f != "" && ' ' !in f
    ensures ReadFields(Join(fields, ' ')) == fields
  {
    if fields == [] {
      assert Split("", ' ') == [""];
    } else {
      SplitJoin(fields, ' ');
      NonEmptyKeeps(fields);
    }
  }

  // ---------------------------------------------------------------------
  // File layout
  // ---------------------------------------------------------------------

  /** Line `k` of the file; a line past the end reads as empty. */
  function LineAt(lines: seq<string>, k: nat): string
  {
    if k < |lines| then lines[k] else ""
  }

  function Fields(lines: seq<string>, k: nat): seq<string>
  {
    ReadFields(LineAt(lines, k))
  }

  const NameLine: nat := 0
  const CommentLine: nat := 1
  /** The counts line; line 2 is read and ignored. */
  const CountsLine: nat := 3
  const FirstAtomLine: nat := 4

  /** How often `for (int i = 0; i < n; ++i)` runs its body. */
  function Iterations(n: int): nat
  {
    if n > 0 then n else 0
  }

  predicate CountsOk(lines: seq<string>)
  {
    |Fields(lines, CountsLine)| >= 2
  }

  function AtomCount(lines: seq<string>, toInt: string -> int): int
    requires CountsOk(lines)
  {
    toInt(Fields(lines, CountsLine)[0])
  }

  function BondCount(lines: seq<string>, toInt: string -> int): int
    requires CountsOk(lines)
  {
    toInt(Fields(lines, CountsLine)[1])
  }

  /** The line of atom `i`: the atom lines follow the counts line. */
  function AtomLine(i: nat): nat
  {
    FirstAtomLine + i
  }

  /** The line of bond `j`: the bond lines follow all `atomCnt` atom lines. */
  function BondLine(atomCnt: int, j: nat): (k: nat)
    ensures forall i :: 0 <= i < Iterations(atomCnt) ==> AtomLine(i) < k
  {
    FirstAtomLine + Iterations(atomCnt) + j
  }

  /** The atom described by the fields of an atom line. */
  function AtomOf(f: seq<string>, toReal: string -> real): Atom
    requires |f| >= 4
  {
    Atom(toReal(f[0]), toReal(f[1]), toReal(f[2]), f[3])
  }

  /** A bond line has three fields and 1-based atom numbers in [1, atomCnt]; any type code is stored. */
  predicate BondFieldsOk(f: seq<string>, toInt: string -> int, atomCnt: int)
  {
    |f| >= 3 &&
    1 <= toInt(f[0]) <= atomCnt && 1 <= toInt(f[1]) <= atomCnt
  }

  /** The bond described by the fields of a bond line, with 0-based atom indices. */
  function BondOf(f: seq<string>, toInt: string -> int, atomCnt: int): (b: Bond)
    requires BondFieldsOk(f, toInt, atomCnt)
    ensures b.a + 1 == toInt(f[0]) && b.b + 1 == toInt(f[1])
    ensures b.typeCode == toInt(f[2])
    ensures b.a < atomCnt && b.b < atomCnt
  {
    Bond(toInt(f[0]) - 1, toInt(f[1]) - 1, toInt(f[2]))
  }

  // ---------------------------------------------------------------------
  // The mass centre
  // ---------------------------------------------------------------------

  datatype Axis = X | Y | Z

  function Coord(a: Atom, axis: Axis): real
  {
    match axis
    case X => a.x
    case Y => a.y
    case Z => a.z
  }

  function MassCenter(m: Molecule, axis: Axis): real
  {
    match axis
    case X => m.massCenterX
    case Y => m.massCenterY
    case Z => m.massCenterZ
  }

  /** The sum of the atoms' coordinates along `axis`. */
  function Sum(atoms: seq<Atom>, axis: Axis): real
  {
    if atoms == [] then 0.0
    else Sum(atoms[..|atoms| - 1], axis) + Coord(atoms[|atoms| - 1], axis)
  }

  lemma SumAppend(atoms: seq<Atom>, a: Atom, axis: Axis)
    ensures Sum(atoms + [a], axis) == Sum(atoms, axis) + Coord(a, axis)
  {
    assert (atoms + [a])[..|atoms|] == atoms;
  }

  lemma {:induction false} SumAtLeast(atoms: seq<Atom>, axis: Axis, lo: real)
    requires forall i :: 0 <= i < |atoms| ==> lo <= Coord(atoms[i], axis)
    ensures |atoms| as real * lo <= Sum(atoms, axis)
  {
    if atoms != [] {
      var init := atoms[..|atoms| - 1];
      assert forall i :: 0 <= i < |init| ==> init[i] == atoms[i];
      SumAtLeast(init, axis, lo);
      var n := |init| as real;
      assert |atoms| as real * lo == n * lo + lo;
    }
  }

  lemma {:induction false} SumAtMost(atoms: seq<Atom>, axis: Axis, hi: real)
    requires forall i :: 0 <= i < |atoms| ==> Coord(atoms[i], axis) <= hi
    ensures Sum(atoms, axis) <= |atoms| as real * hi
  {
    if atoms != [] {
      var init := atoms[..|atoms| - 1];
      assert forall i :: 0 <= i < |init| ==> init[i] == atoms[i];
      SumAtMost(init, axis, hi);
      var n := |init| as real;
      assert |atoms| as real * hi == n * hi + hi;
    }
  }

  /**
   * The mean of the coordinates lies between any lower and upper bound of
   * them: the mass centre is inside the atoms' bounding box.
   */
  lemma MeanWithinBounds(atoms: seq<Atom>, axis: Axis, lo: real, hi: real)
    requires atoms != []
    requires forall a :: a in atoms ==> lo <= Coord(a, axis) <= hi
    ensures lo <= Sum(atoms, axis) / |atoms| as real <= hi
  {
    forall i | 0 <= i < |atoms|
      ensures lo <= Coord(atoms[i], axis) <= hi
    {
      assert atoms[i] in atoms;
    }
    SumAtLeast(atoms, axis, lo);
    SumAtMost(atoms, axis, hi);
    var s, n := Sum(atoms, axis), |atoms| as real;
    QuotientBounds(s, n, lo, hi);
  }

  lemma QuotientBounds(s: real, n: real, lo: real, hi: real)
    requires n > 0.0 && n * lo <= s <= n * hi
    ensures lo <= s / n <= hi
  {
    var q := s / n;
    assert s == q * n;
    assert n * lo <= n * q <= n * hi;
  }

  // ---------------------------------------------------------------------
  // The whole file
  // ---------------------------------------------------------------------

  /** Why a file cannot be read; line numbers count from 0. */
  datatype ParseError =
    | TooFewFields(line: nat)
    | NoAtoms
    | BondIndexOutOfRange(line: nat)

  /**
   * The file can be read: the counts line has two fields, the atom count is
   * not zero, every atom line has four fields and every bond line is
   * well-formed.
   */
  predicate WellFormed(lines: seq<string>, toInt: string -> int)
  {
    CountsOk(lines) &&
    var n := AtomCount(lines, toInt);
    var m := BondCount(lines, toInt);
    n != 0 &&
    (forall i :: 0 <= i < Iterations(n) ==> |Fields(lines, AtomLine(i))| >= 4) &&
    (forall j :: 0 <= j < Iterations(m) ==> BondFieldsOk(Fields(lines, BondLine(n, j)), toInt, n))
  }

  /** The atoms described by the first `Iterations(atomCnt)` atom lines, in file order. */
  function DecodeAtoms(lines: seq<string>, toReal: string -> real, atomCnt: int): (atoms: seq<Atom>)
    requires forall i :: 0 <= i < Iterations(atomCnt) ==> |Fields(lines, AtomLine(i))| >= 4
    ensures |atoms| == Iterations(atomCnt)
  {
    seq(Iterations(atomCnt), i requires 0 <= i < Iterations(atomCnt) => AtomOf(Fields(lines, AtomLine(i)), toReal))
  }

  /** The bonds described by the `Iterations(bondCnt)` bond lines after the atom lines, in file order. */
  function DecodeBonds(lines: seq<string>, toInt: string -> int, atomCnt: int, bondCnt: int): (bonds: seq<Bond>)
    requires forall j :: 0 <= j < Iterations(bondCnt) ==> BondFieldsOk(Fields(lines, BondLine(atomCnt, j)), toInt, atomCnt)
    ensures |bonds| == Iterations(bondCnt)
    ensures BondsWithin(bonds, Iterations(atomCnt))
  {
    seq(Iterations(bondCnt), j requires 0 <= j < Iterations(bondCnt) =>
      BondOf(Fields(lines, BondLine(atomCnt, j)), toInt, atomCnt))
  }

  /** The molecule a well-formed file describes. */
  function Decode(lines: seq<string>, toInt: string -> int, toReal: string -> real): (m: Molecule)
    requires WellFormed(lines, toInt)
    ensures |m.atoms| == Iterations(AtomCount(lines, toInt))
    ensures |m.bonds| == Iterations(BondCount(lines, toInt))
    ensures ValidMolecule(m)
  {
    var n := AtomCount(lines, toInt);
    var atoms := DecodeAtoms(lines, toReal, n);
    var bonds := DecodeBonds(lines, toInt, n, BondCount(lines, toInt));
    Molecule(LineAt(lines, NameLine), LineAt(lines, CommentLine), atoms, bonds,
      Sum(atoms, X) / n as real, Sum(atoms, Y) / n as real, Sum(atoms, Z) / n as real)
  }

  /** The error names a line (or the count) that really is at fault. */
  predicate Faulty(lines: seq<string>, toInt: string -> int, e: ParseError)
  {
    if !CountsOk(lines) then e == TooFewFields(CountsLine)
    else
      var n := AtomCount(lines, toInt);
      var m := BondCount(lines, toInt);
      match e
      case NoAtoms => n == 0
      case TooFewFields(k) =>
        ShortAtomLine(lines, n, k) || (InBondLines(n, m, k) && BondFault(Fields(lines, k), toInt, n, e))
      case BondIndexOutOfRange(k) => InBondLines(n, m, k) && BondFault(Fields(lines, k), toInt, n, e)
  }

  /** An atom line with too few fields, among the first `Iterations(atomCnt)`. */
  predicate ShortAtomLine(lines: seq<string>, atomCnt: int, k: nat)
  {
    AtomLine(0) <= k < AtomLine(Iterations(atomCnt)) && |Fields(lines, k)| < 4
  }

  /**
   * The atom loop of Molecule(fname): reads `atomCnt` atom lines in order,
   * splitting each with `readFields`, appending each atom and adding its
   * coordinates to the running sums. Parse passes ReadFields; the loop's
   * proof does not depend on how a line is split.
   */
  method ReadAtoms(lines: seq<string>, readFields: string -> seq<string>, toReal: string -> real, atomCnt: int)
    returns (r: Result<seq<Atom>, ParseError>, sumX: real, sumY: real, sumZ: real)
    ensures r.Ok? <==> forall i :: 0 <= i < Iterations(atomCnt) ==> |readFields(LineAt(lines, AtomLine(i)))| >= 4
    ensures r.Ok? ==> |r.value| == Iterations(atomCnt)
    ensures r.Ok? ==> forall i :: 0 <= i < |r.value| ==>
      r.value[i] == AtomOf(readFields(LineAt(lines, AtomLine(i))), toReal)
    ensures r.Ok? ==> sumX == Sum(r.value, X) && sumY == Sum(r.value, Y) && sumZ == Sum(r.value, Z)
    ensures r.Err? ==> r.error.TooFewFields? && AtomLine(0) <= r.error.line < AtomLine(Iterations(atomCnt)) &&
                       |readFields(LineAt(lines, r.error.line))| < 4
  {
    var atoms: seq<Atom> := [];
    sumX, sumY, sumZ := 0.0, 0.0, 0.0;
    var i := 0;
    while i < atomCnt
      invariant 0 <= i <= Iterations(atomCnt)
      invariant forall k :: 0 <= k < i ==> |readFields(LineAt(lines, AtomLine(k)))| >= 4
      invariant |atoms| == i
      invariant forall k :: 0 <= k < i ==> atoms[k] == AtomOf(readFields(LineAt(lines, AtomLine(k))), toReal)
      invariant sumX == Sum(atoms, X) && sumY == Sum(atoms, Y) && sumZ == Sum(atoms, Z)
    {
      var fields := readFields(LineAt(lines, AtomLine(i)));
      if |fields| < 4 {
        return Err(TooFewFields(AtomLine(i))), sumX, sumY, sumZ;
      }
      var atom := Atom(toReal(fields[0]), toReal(fields[1]), toReal(fields[2]), fields[3]);
      SumAppend(atoms, atom, X);
      SumAppend(atoms, atom, Y);
      SumAppend(atoms, atom, Z);
      atoms := atoms + [atom];
      sumX, sumY, sumZ := sumX + atom.x, sumY + atom.y, sumZ + atom.z;
      i := i + 1;
    }
    r := Ok(atoms);
  }

  /** A bond line among the `Iterations(bondCnt)` after the atom lines. */
  predicate InBondLines(atomCnt: int, bondCnt: int, k: nat)
  {
    BondLine(atomCnt, 0) <= k < BondLine(atomCnt, Iterations(bondCnt))
  }

  /** The error `e` says truly what is wrong with the fields `f` of a bond line. */
  predicate BondFault(f: seq<string>, toInt: string -> int, atomCnt: int, e: ParseError)
  {
    match e
    case TooFewFields(_) => |f| < 3
    case BondIndexOutOfRange(_) => |f| >= 3 && !(1 <= toInt(f[0]) <= atomCnt && 1 <= toInt(f[1]) <= atomCnt)
    case NoAtoms => false
  }

  /** The body of the bond loop for one line: its bond, or what is wrong with it. */
  function ReadBond(f: seq<string>, line: nat, toInt: string -> int, atomCnt: int): (r: Result<Bond, ParseError>)
    ensures r.Ok? <==> BondFieldsOk(f, toInt, atomCnt)
    ensures r.Ok? ==> r.value == BondOf(f, toInt, atomCnt)
    ensures r.Err? ==> BondFault(f, toInt, atomCnt, r.error) && r.error.line == line
  {
    if |f| < 3 then Err(TooFewFields(line))
    else
      var a := toInt(f[0]);
      var b := toInt(f[1]);
      if !(1 <= a <= atomCnt && 1 <= b <= atomCnt) then Err(BondIndexOutOfRange(line))
      else Ok(Bond(a - 1, b - 1, toInt(f[2])))
  }

  /**
   * The bond loop of Molecule(fname): reads `bondCnt` bond lines in order,
   * splitting each with `readFields`, turning the 1-based atom numbers into
   * indices and appending each bond.
   */
  method ReadBonds(lines: seq<string>, readFields: string -> seq<string>, toInt: string -> int,
                   atomCnt: int, bondCnt: int)
    returns (r: Result<seq<Bond>, ParseError>)
    ensures r.Ok? <==> forall j :: 0 <= j < Iterations(bondCnt) ==>
      BondFieldsOk(readFields(LineAt(lines, BondLine(atomCnt, j))), toInt, atomCnt)
    ensures r.Ok? ==> |r.value| == Iterations(bondCnt)
    ensures r.Ok? ==> forall j :: 0 <= j < |r.value| ==>
      r.value[j] == BondOf(readFields(LineAt(lines, BondLine(atomCnt, j))), toInt, atomCnt)
    ensures r.Err? ==> !r.error.NoAtoms? && InBondLines(atomCnt, bondCnt, r.error.line) &&
                       BondFault(readFields(LineAt(lines, r.error.line)), toInt, atomCnt, r.error)
  {
    var bonds: seq<Bond> := [];
    var j := 0;
    while j < bondCnt
      invariant 0 <= j <= Iterations(bondCnt)
      invariant forall k :: 0 <= k < j ==> BondFieldsOk(readFields(LineAt(lines, BondLine(atomCnt, k))), toInt, atomCnt)
      invariant |bonds| == j
      invariant forall k :: 0 <= k < j ==> bonds[k] == BondOf(readFields(LineAt(lines, BondLine(atomCnt, k))), toInt, atomCnt)
    {
      var line := BondLine(atomCnt, j);
      var bond := ReadBond(readFields(LineAt(lines, line)), line, toInt, atomCnt);
      if bond.Err? {
        return Err(bond.error);
      }
      bonds := bonds + [bond.value];
      j := j + 1;
    }
    r := Ok(bonds);
  }

  /**
   * Molecule(fname): reads name, comment and an ignored line, the counts,
   * then the atom lines, divides the coordinate sums by the atom count, and
   * reads the bond lines.
   */
  method Parse(lines: seq<string>, toInt: string -> int, toReal: string -> real)
    returns (r: Result<Molecule, ParseError>)
    ensures r.Ok? <==> WellFormed(lines, toInt)
    ensures r.Ok? ==> r.value == Decode(lines, toInt, toReal)
    ensures r.Err? ==> Faulty(lines, toInt, r.error)
  {
    var name := LineAt(lines, NameLine);
    var comment := LineAt(lines, CommentLine);

    var info := ReadFields(LineAt(lines, CountsLine));
    if |info| < 2 {
      return Err(TooFewFields(CountsLine));
    }
    var atomCnt := toInt(info[0]);
    var bondCnt := toInt(info[1]);

    var atomsRead, sumX, sumY, sumZ := ReadAtoms(lines, ReadFields, toReal, atomCnt);
    if atomsRead.Err? {
      return Err(atomsRead.error);
    }
    if atomCnt == 0 {
      return Err(NoAtoms);
    }
    var massCenterX := sumX / atomCnt as real;
    var massCenterY := sumY / atomCnt as real;
    var massCenterZ := sumZ / atomCnt as real;

    var bondsRead := ReadBonds(lines, ReadFields, toInt, atomCnt, bondCnt);
    if bondsRead.Err? {
      return Err(bondsRead.error);
    }
    r := Ok(Molecule(name, comment, atomsRead.value, bondsRead.value, massCenterX, massCenterY, massCenterZ));
    assert atomsRead.value == DecodeAtoms(lines, toReal, atomCnt);
    assert bondsRead.value == DecodeBonds(lines, toInt, atomCnt, bondCnt);
  }

  // ---------------------------------------------------------------------
  // What a successful read promises
  // ---------------------------------------------------------------------

  /**
   * A well-formed file gives exactly as many atoms and bonds as its counts
   * line declares (a negative count reads no lines), atom i read from atom
   * line i and bond j from bond line j, and the first two lines as name and
   * comment.
   */
  lemma DecodeLayout(lines: seq<string>, toInt: string -> int, toReal: string -> real)
    requires WellFormed(lines, toInt)
    ensures var m := Decode(lines, toInt, toReal);
      var n := AtomCount(lines, toInt);
      |m.atoms| == Iterations(n) && |m.bonds| == Iterations(BondCount(lines, toInt)) &&
      m.name == LineAt(lines, NameLine) && m.comment == LineAt(lines, CommentLine) &&
      (forall i :: 0 <= i < |m.atoms| ==> m.atoms[i] == AtomOf(Fields(lines, AtomLine(i)), toReal)) &&
      (forall j :: 0 <= j < |m.bonds| ==>
        var f := Fields(lines, BondLine(n, j));
        m.bonds[j].a + 1 == toInt(f[0]) && m.bonds[j].b + 1 == toInt(f[1]) &&
        m.bonds[j].typeCode == toInt(f[2]))
  {
  }

  /**
   * The mass centre is the mean of the atom positions along each axis; a
   * negative atom count reads no atoms and leaves the centre at 0.
   */
  lemma DecodeMassCenter(lines: seq<string>, toInt: string -> int, toReal: string -> real, axis: Axis)
    requires WellFormed(lines, toInt)
    ensures var m := Decode(lines, toInt, toReal);
      (AtomCount(lines, toInt) > 0 ==> MassCenter(m, axis) == Sum(m.atoms, axis) / |m.atoms| as real) &&
      (AtomCount(lines, toInt) < 0 ==> m.atoms == [] && MassCenter(m, axis) == 0.0)
  {
  }

  /** The mass centre of a read molecule lies within the bounds of its atoms' coordinates. */
  lemma DecodeMassCenterWithin(lines: seq<string>, toInt: string -> int, toReal: string -> real,
                               axis: Axis, lo: real, hi: real)
    requires WellFormed(lines, toInt)
    requires AtomCount(lines, toInt) > 0
    requires forall a :: a in Decode(lines, toInt, toReal).atoms ==> lo <= Coord(a, axis) <= hi
    ensures lo <= MassCenter(Decode(lines, toInt, toReal), axis) <= hi
  {
    var m := Decode(lines, toInt, toReal);
    DecodeMassCenter(lines, toInt, toReal, axis);
    MeanWithinBounds(m.atoms, axis, lo, hi);
  }
}
