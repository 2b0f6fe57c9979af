/**
 * The molecule data model of molecule.h: bond types, atoms, bonds and the
 * molecule record. Bonds name their atoms by 0-based index into the
 * molecule's atom sequence instead of holding addresses into it.
 */
module MoleculeData {
  import opened Outcomes

  /** The five bond types, in declaration order. */
  datatype BondType = NoBond | Single | Double | Triple | Aromatic

  /** The enumerator's integer value: its position in the declaration. */
  function Ordinal(t: BondType): (n: nat)
    ensures n < 5
  {
    match t
    case NoBond => 0
    case Single => 1
    case Double => 2
    case Triple => 3
    case Aromatic => 4
  }

  /** The bond type whose integer value is `code`, if there is one. */
  function BondTypeOf(code: int): (r: Option<BondType>)
    ensures r.Some? <==> 0 <= code < 5
    ensures r.Some? ==> Ordinal(r.value) == code
  {
    if code == 0 then Some(NoBond)
    else if code == 1 then Some(Single)
    else if code == 2 then Some(Double)
    else if code == 3 then Some(Triple)
    else if code == 4 then Some(Aromatic)
    else None
  }

  /** Converting a bond type to its integer value and back gives it back. */
  lemma OrdinalRoundTrip(t: BondType)
    ensures BondTypeOf(Ordinal(t)) == Some(t)
  {
  }

  /** The enumerators' values in declaration order: none 0, single 1, double 2, triple 3, aromatic 4. */
  lemma OrdinalValues()
    ensures Ordinal(NoBond) == 0 && Ordinal(Single) == 1 && Ordinal(Double) == 2
    ensures Ordinal(Triple) == 3 && Ordinal(Aromatic) == 4
  {
  }

  /** Distinct bond types have distinct integer values. */
  lemma OrdinalInjective(s: BondType, t: BondType)
    requires Ordinal(s) == Ordinal(t)
    ensures s == t
  {
    OrdinalRoundTrip(s);
    OrdinalRoundTrip(t);
  }

  /** An atom: three coordinates and an element symbol. */
  datatype Atom = Atom(x: real, y: real, z: real, element: string)

  /**
   * A bond between the atoms at indices `a` and `b`. The type is kept as the
   * integer stored in the bond's `type` member, which need not be one of the
   * enumerators; `BondTypeOf(typeCode)` names the bond type when it is.
   */
  datatype Bond = Bond(a: nat, b: nat, typeCode: int)

  /** A molecule: name, comment, atoms and bonds in file order, and the mass centre. */
  datatype Molecule = Molecule(
    name: string,
    comment: string,
    atoms: seq<Atom>,
    bonds: seq<Bond>,
    massCenterX: real,
    massCenterY: real,
    massCenterZ: real)

  /** Every bond names two atoms among the first `n`. */
  predicate BondsWithin(bonds: seq<Bond>, n: nat)
  {
    forall j :: 0 <= j < |bonds| ==> bonds[j].a < n && bonds[j].b < n
  }

  /** The invariant that replaces the source's pointers: every bond endpoint is an atom of the molecule. */
  predicate ValidMolecule(m: Molecule)
  {
    BondsWithin(m.bonds, |m.atoms|)
  }

  /** The default-constructed molecule. */
  function EmptyMolecule(): (m: Molecule)
    ensures m.atoms == [] && m.bonds == []
    ensures m.massCenterX == 0.0 && m.massCenterY == 0.0 && m.massCenterZ == 0.0
    ensures ValidMolecule(m)
  {
    Molecule("", "", [], [], 0.0, 0.0, 0.0)
  }
}
