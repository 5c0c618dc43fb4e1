/** Per-atom PDB annotation: the occupancy and B-factor columns of a structure's
    PDB records are overwritten with per-residue pore-lining and pore-facing
    means. */
module PdbIo {
  import opened Wrappers

  /** The record kind of a PDB line. */
  datatype PdbRecordType = AtomRecord | HetatmRecord | OtherRecord

  /** The per-atom PDB record (the fields of t_pdbinfo that the model tracks). */
  datatype PdbInfo = PdbInfo(recordType: PdbRecordType, atomnr: int, altloc: char, atomnm: string,
                             occup: real, bfac: real, anisotropic: bool)

  /** std::out_of_range, thrown by the bounds-checked access to the pore-facing means. */
  datatype PdbError = PoreFacingOutOfRange(atom: nat, resind: int)

  /** The first n characters of s, or all of s when it is shorter (a bounded string copy). */
  function Truncate(s: string, n: nat): (t: string)
    ensures t <= s
    ensures |t| == if |s| <= n then |s| else n
  {
    if |s| <= n then s else s[..n]
  }

  /** The record created for atom i when the structure has no PDB records yet. */
  function NewRecord(i: nat, atomName: string): PdbInfo {
    PdbInfo(AtomRecord, i + 1, ' ', Truncate(atomName, 5), 0.0, 0.0, false)
  }

  /** The records created for a structure without PDB records. */
  function FreshRecords(atomName: seq<string>): seq<PdbInfo> {
    seq(|atomName|, i requires 0 <= i < |atomName| => NewRecord(i, atomName[i]))
  }

  /**
   * Whether the residue has been measured. The residue index is compared as an
   * unsigned size, so a negative index counts as out of range.
   */
  predicate Measured(resind: int, poreLining: seq<real>) {
    0 <= resind < |poreLining|
  }

  /** Whether annotating this atom reaches past the end of the pore-facing means. */
  predicate Faults(resind: int, poreLining: seq<real>, poreFacing: seq<real>) {
    Measured(resind, poreLining) && resind >= |poreFacing|
  }

  /** Index of the first atom whose annotation faults, or the number of atoms. */
  function FirstFault(resind: seq<int>, poreLining: seq<real>, poreFacing: seq<real>): (k: nat)
    ensures k <= |resind|
    ensures forall j :: 0 <= j < k ==> !Faults(resind[j], poreLining, poreFacing)
    ensures k < |resind| ==> Faults(resind[k], poreLining, poreFacing)
  {
    if resind == [] then 0
    else if Faults(resind[0], poreLining, poreFacing) then 0
    else 1 + FirstFault(resind[1..], poreLining, poreFacing)
  }

  /** One record annotated with its residue's means, or zeroed when the residue is unmeasured. */
  function Annotated(rec: PdbInfo, resind: int, poreLining: seq<real>, poreFacing: seq<real>): PdbInfo
    requires !Faults(resind, poreLining, poreFacing)
  {
    if Measured(resind, poreLining) then rec.(occup := poreLining[resind], bfac := poreFacing[resind])
    else rec.(occup := 0.0, bfac := 0.0)
  }

  /**
   * The records after annotation: atoms before the first fault are annotated,
   * the faulting atom has only its occupancy set, later atoms are untouched.
   */
  function PoreFacingRecords(base: seq<PdbInfo>, resind: seq<int>, poreLining: seq<real>, poreFacing: seq<real>)
    : seq<PdbInfo>
    requires |base| == |resind|
  {
    var k := FirstFault(resind, poreLining, poreFacing);
    seq(|base|, i requires 0 <= i < |base| =>
      if i < k then Annotated(base[i], resind[i], poreLining, poreFacing)
      else if i == k then base[i].(occup := poreLining[resind[i]])
      else base[i])
  }

  /** Annotation keeps the number of records and changes no field but occupancy and B-factor. */
  lemma PoreFacingChangesOnlyOccupBfac(base: seq<PdbInfo>, resind: seq<int>, poreLining: seq<real>, poreFacing: seq<real>)
    requires |base| == |resind|
    ensures var recs := PoreFacingRecords(base, resind, poreLining, poreFacing);
            |recs| == |base| &&
            forall i :: 0 <= i < |base| ==> recs[i] == base[i].(occup := recs[i].occup, bfac := recs[i].bfac)
  {
  }

  /** Annotation fails exactly when some measured residue has no pore-facing mean. */
  lemma PoreFacingFaultsIff(resind: seq<int>, poreLining: seq<real>, poreFacing: seq<real>)
    ensures FirstFault(resind, poreLining, poreFacing) < |resind|
            <==> exists i :: 0 <= i < |resind| && 0 <= resind[i] < |poreLining| && resind[i] >= |poreFacing|
  {
  }

  /**
   * Without a fault, an atom of an unmeasured residue gets occupancy and
   * B-factor zero, and an atom of a measured residue gets that residue's
   * pore-lining mean as occupancy and pore-facing mean as B-factor.
   */
  lemma PoreFacingValues(base: seq<PdbInfo>, resind: seq<int>, poreLining: seq<real>, poreFacing: seq<real>, i: nat)
    requires |base| == |resind| && i < |base|
    requires FirstFault(resind, poreLining, poreFacing) == |resind|
    ensures var rec := PoreFacingRecords(base, resind, poreLining, poreFacing)[i];
            && (!(0 <= resind[i] < |poreLining|) ==> rec.occup == 0.0 && rec.bfac == 0.0)
            && (0 <= resind[i] < |poreLining| ==>
                  resind[i] < |poreFacing| && rec.occup == poreLining[resind[i]] && rec.bfac == poreFacing[resind[i]])
  {
  }

  /** Without a fault, atoms of the same residue get the same occupancy and B-factor. */
  lemma PoreFacingSameResidue(base: seq<PdbInfo>, resind: seq<int>, poreLining: seq<real>, poreFacing: seq<real>,
                              i: nat, j: nat)
    requires |base| == |resind| && i < |base| && j < |base|
    requires FirstFault(resind, poreLining, poreFacing) == |resind|
    requires resind[i] == resind[j]
    ensures var recs := PoreFacingRecords(base, resind, poreLining, poreFacing);
            recs[i].occup == recs[j].occup && recs[i].bfac == recs[j].bfac
  {
    PoreFacingValues(base, resind, poreLining, poreFacing, i);
    PoreFacingValues(base, resind, poreLining, poreFacing, j);
  }

  /** The pore-facing means are only reached after the bounds check on the pore-lining means. */
  lemma {:induction false} EqualLengthsNeverFault(resind: seq<int>, poreLining: seq<real>, poreFacing: seq<real>)
    requires |poreFacing| >= |poreLining|
    ensures FirstFault(resind, poreLining, poreFacing) == |resind|
  {
    if resind != [] {
      EqualLengthsNeverFault(resind[1..], poreLining, poreFacing);
    }
  }

  /** The created records are ATOM records numbered from one, with blank altloc, zero occupancy and B-factor. */
  lemma FreshRecordFields(atomName: seq<string>, i: nat)
    requires i < |atomName|
    ensures var rec := FreshRecords(atomName)[i];
            && rec.recordType == AtomRecord && rec.atomnr == i + 1 && rec.altloc == ' '
            && rec.occup == 0.0 && rec.bfac == 0.0 && !rec.anisotropic
            && rec.atomnm <= atomName[i]
            && |rec.atomnm| == (if |atomName[i]| <= 5 then |atomName[i]| else 5)
  {
  }

  /** Creates one default ATOM record per atom. */
  method NewRecords(atomName: seq<string>) returns (info: array<PdbInfo>)
    ensures fresh(info) && info[..] == FreshRecords(atomName)
  {
    info := new PdbInfo[|atomName|];
    var i := 0;
    while i < |atomName|
      invariant 0 <= i <= |atomName|
      invariant forall j :: 0 <= j < i ==> info[j] == NewRecord(j, atomName[j])
    {
      info[i] := NewRecord(i, atomName[i]);
      i := i + 1;
    }
  }

  /**
   * Annotates the records in place, atom by atom, stopping at the first atom
   * of a measured residue that has no pore-facing mean.
   */
  method AnnotateRecords(info: array<PdbInfo>, resind: seq<int>, poreLining: seq<real>, poreFacing: seq<real>)
    returns (r: Outcome<PdbError>)
    requires info.Length == |resind|
    modifies info
    ensures info[..] == PoreFacingRecords(old(info[..]), resind, poreLining, poreFacing)
    ensures var k := FirstFault(resind, poreLining, poreFacing);
            (k == |resind| ==> r == Pass) && (k < |resind| ==> r == Fail(PoreFacingOutOfRange(k, resind[k])))
  {
    ghost var base := info[..];
    ghost var k := FirstFault(resind, poreLining, poreFacing);
    var i := 0;
    while i < info.Length
      invariant 0 <= i <= info.Length && i <= k
      invariant forall j :: 0 <= j < i ==> info[j] == Annotated(base[j], resind[j], poreLining, poreFacing)
      invariant forall j :: i <= j < info.Length ==> info[j] == base[j]
    {
      var ri := resind[i];
      if ri < 0 || ri >= |poreLining| {
        info[i] := info[i].(occup := 0.0, bfac := 0.0);
      } else {
        info[i] := info[i].(occup := poreLining[ri]);
        if ri >= |poreFacing| {
          assert info[..] == PoreFacingRecords(base, resind, poreLining, poreFacing);
          return Fail(PoreFacingOutOfRange(i, ri));
        }
        info[i] := info[i].(bfac := poreFacing[ri]);
      }
      i := i + 1;
    }
    assert info[..] == PoreFacingRecords(base, resind, poreLining, poreFacing);
    r := Pass;
  }

  class PdbStructure {
    /** Atom names, residue index per atom, and the PDB records (absent when null). */
    var atomName: seq<string>
    var resind: seq<int>
    var pdbinfo: array?<PdbInfo>

    ghost predicate Valid()
      reads this
    {
      |resind| == |atomName| && (pdbinfo != null ==> pdbinfo.Length == |atomName|)
    }

    /** The records before annotation: the existing ones, or those created for the atoms. */
    ghost function BaseRecords(): seq<PdbInfo>
      reads this, pdbinfo
    {
      if pdbinfo == null then FreshRecords(atomName) else pdbinfo[..]
    }

    /**
     * Sets occupancy and B-factor of every atom to its residue's pore-lining and
     * pore-facing means, creating the PDB records first if there are none.
     */
    method SetPoreFacing(poreLining: seq<real>, poreFacing: seq<real>) returns (r: Outcome<PdbError>)
      requires Valid()
      modifies this`pdbinfo, pdbinfo
      ensures Valid() && pdbinfo != null
      ensures old(pdbinfo) != null ==> pdbinfo == old(pdbinfo)
      ensures old(pdbinfo) == null ==> fresh(pdbinfo)
      ensures pdbinfo[..] == PoreFacingRecords(old(BaseRecords()), resind, poreLining, poreFacing)
      ensures var k := FirstFault(resind, poreLining, poreFacing);
              (k == |resind| ==> r == Pass) && (k < |resind| ==> r == Fail(PoreFacingOutOfRange(k, resind[k])))
    {
      var info: array<PdbInfo>;
      if pdbinfo == null {
        info := NewRecords(atomName);
        pdbinfo := info;
      } else {
        info := pdbinfo;
      }
      r := AnnotateRecords(info, resind, poreLining, poreFacing);
    }
  }
}
