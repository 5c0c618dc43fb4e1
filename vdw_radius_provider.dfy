/** Van der Waals radius lookup: a table of (atom name, residue name, radius)
    records, filled from a JSON document, and a lookup that resolves the radius
    of an atom through a fixed fallback chain (exact residue, generic residue
    "???", element symbol, default radius). */
module VdwRadius {
  import opened Wrappers

  /** One row of the lookup table. */
  datatype VdwRadiusRecord = VdwRadiusRecord(atmName: string, resName: string, vdwRad: real)

  /** The runtime errors the provider throws. */
  datatype ProviderError =
    | NegativeDefaultRadius
    | NoJsonObject
    | NoVdwRadiiArray
    | NoAtomName
    | NoResName
    | NoVdwr
    | NoRadiusFound(atmName: string, resName: string)

  /** The residue name that matches any residue. */
  const GenericResName: string := "???"

  /*
   * The JSON document, reduced to what the loader inspects: the root is an
   * object or not; a root member is an array or not; an array entry is an
   * object whose fields are strings, numbers or anything else.
   */
  datatype JsonField = JsonString(str: string) | JsonNumber(num: real) | JsonOther
  datatype JsonEntry = JsonEntry(fields: map<string, JsonField>)
  datatype JsonMember = JsonArray(entries: seq<JsonEntry>) | JsonNonArray
  datatype JsonDocument = NonObjectDocument | ObjectDocument(members: map<string, JsonMember>)

  predicate HasStringField(e: JsonEntry, key: string) {
    key in e.fields && e.fields[key].JsonString?
  }

  predicate HasNumberField(e: JsonEntry, key: string) {
    key in e.fields && e.fields[key].JsonNumber?
  }

  /** The error an entry raises when loaded, checked in the loader's order. */
  function EntryError(e: JsonEntry): Option<ProviderError> {
    if !HasStringField(e, "atomname") then Some(NoAtomName)
    else if !HasStringField(e, "resname") then Some(NoResName)
    else if !HasNumberField(e, "vdwr") then Some(NoVdwr)
    else None
  }

  /** The record a well-formed entry becomes. */
  function EntryRecord(e: JsonEntry): VdwRadiusRecord
    requires EntryError(e) == None
  {
    VdwRadiusRecord(e.fields["atomname"].str, e.fields["resname"].str, e.fields["vdwr"].num)
  }

  /** Index of the first entry that aborts the load, or the number of entries. */
  function FirstBadEntry(entries: seq<JsonEntry>): (k: nat)
    ensures k <= |entries|
    ensures forall j :: 0 <= j < k ==> EntryError(entries[j]) == None
    ensures k < |entries| ==> EntryError(entries[k]).Some?
  {
    if entries == [] then 0
    else if EntryError(entries[0]).Some? then 0
    else 1 + FirstBadEntry(entries[1..])
  }

  /** The table a load leaves behind: the records of the entries before the first bad one. */
  function LoadedTable(entries: seq<JsonEntry>): seq<VdwRadiusRecord> {
    seq(FirstBadEntry(entries), i requires 0 <= i < FirstBadEntry(entries) => EntryRecord(entries[i]))
  }

  /** The JSON entry that describes a record (the inverse direction of the loader). */
  function RecordEntry(rec: VdwRadiusRecord): JsonEntry {
    JsonEntry(map["atomname" := JsonString(rec.atmName),
                  "resname" := JsonString(rec.resName),
                  "vdwr" := JsonNumber(rec.vdwRad)])
  }

  function TableEntries(table: seq<VdwRadiusRecord>): seq<JsonEntry> {
    seq(|table|, i requires 0 <= i < |table| => RecordEntry(table[i]))
  }

  /** Writing a table out as JSON entries and loading them back gives the same table. */
  lemma {:induction false} LoadTableEntries(table: seq<VdwRadiusRecord>)
    ensures LoadedTable(TableEntries(table)) == table
  {
    var entries := TableEntries(table);
    forall i | 0 <= i < |entries| ensures EntryError(entries[i]) == None {
      assert entries[i] == RecordEntry(table[i]);
    }
    NoBadEntry(entries);
    forall i | 0 <= i < |table| ensures LoadedTable(entries)[i] == table[i] {
      assert entries[i] == RecordEntry(table[i]);
    }
  }

  lemma {:induction false} NoBadEntry(entries: seq<JsonEntry>)
    requires forall i :: 0 <= i < |entries| ==> EntryError(entries[i]) == None
    ensures FirstBadEntry(entries) == |entries|
  {
    if entries != [] {
      NoBadEntry(entries[1..]);
    }
  }

  /** The records whose atom name is `atmName`, in table order. */
  function AtomNameMatches(table: seq<VdwRadiusRecord>, atmName: string): (m: seq<VdwRadiusRecord>)
    ensures |m| <= |table|
    ensures m == [] <==> forall i :: 0 <= i < |table| ==> table[i].atmName != atmName
  {
    if table == [] then []
    else if table[0].atmName == atmName then [table[0]] + AtomNameMatches(table[1..], atmName)
    else AtomNameMatches(table[1..], atmName)
  }

  /**
   * The matches are exactly the table records with the atom name. (Kept apart
   * from the function's contract: stated there, the membership clauses feed
   * each other in every proof that mentions the function.)
   */
  lemma {:induction false} AtomNameMatchesMembers(table: seq<VdwRadiusRecord>, atmName: string)
    ensures var m := AtomNameMatches(table, atmName);
            && (forall k :: 0 <= k < |m| ==> m[k].atmName == atmName && m[k] in table)
            && (forall rec :: rec in table && rec.atmName == atmName ==> rec in m)
  {
    if table != [] {
      AtomNameMatchesMembers(table[1..], atmName);
      assert table == [table[0]] + table[1..];
    }
  }

  /** Appending a record to the table appends it to the matches when its atom name matches. */
  lemma {:induction false} AtomNameMatchesAppend(table: seq<VdwRadiusRecord>, rec: VdwRadiusRecord, atmName: string)
    ensures AtomNameMatches(table + [rec], atmName)
         == AtomNameMatches(table, atmName) + (if rec.atmName == atmName then [rec] else [])
  {
    if table != [] {
      assert (table + [rec])[1..] == table[1..] + [rec];
      AtomNameMatchesAppend(table[1..], rec, atmName);
    }
  }

  /** Index of the first record whose residue name is `resName`, or the number of records. */
  function FirstResNameMatch(records: seq<VdwRadiusRecord>, resName: string): (k: nat)
    ensures k <= |records|
    ensures k < |records| ==> records[k].resName == resName
    ensures forall j :: 0 <= j < k ==> records[j].resName != resName
  {
    if records == [] then 0
    else if records[0].resName == resName then 0
    else 1 + FirstResNameMatch(records[1..], resName)
  }

  /** The radius of the first record with the residue name, else of the first generic one. */
  function ResidueRadius(matches: seq<VdwRadiusRecord>, resName: string): Option<real> {
    var exact := FirstResNameMatch(matches, resName);
    if exact < |matches| then Some(matches[exact].vdwRad)
    else
      var generic := FirstResNameMatch(matches, GenericResName);
      if generic < |matches| then Some(matches[generic].vdwRad) else None
  }

  /** The default radius, available only once it has been set to a non-negative value. */
  function DefaultRadius(defRad: real, atmName: string, resName: string): Result<real, ProviderError> {
    if defRad >= 0.0 then Success(defRad) else Failure(NoRadiusFound(atmName, resName))
  }

  function UpperChar(c: char): char {
    if 'a' <= c <= 'z' then (c as int - 32) as char else c
  }

  /** Upper-cases the ASCII letters of a string, leaving every other character alone. */
  function ToUpper(s: string): string {
    seq(|s|, i requires 0 <= i < |s| => UpperChar(s[i]))
  }

  /** The radius lookup: atom name first, element symbol only when the atom name is unknown. */
  function Lookup(table: seq<VdwRadiusRecord>, defRad: real, atmName: string, resName: string, elemSym: string)
    : Result<real, ProviderError>
  {
    var atmMatches := AtomNameMatches(table, atmName);
    if |atmMatches| > 0 then
      match ResidueRadius(atmMatches, resName)
      case Some(r) => Success(r)
      case None => DefaultRadius(defRad, atmName, resName)
    else
      var elemMatches := AtomNameMatches(table, ToUpper(elemSym));
      if |elemMatches| > 0 then
        match ResidueRadius(elemMatches, resName)
        case Some(r) => Success(r)
        case None => DefaultRadius(defRad, atmName, resName)
      else
        DefaultRadius(defRad, atmName, resName)
  }

  /*
   * An independent statement of the lookup, directly over the table.
   */

  predicate HasAtomName(table: seq<VdwRadiusRecord>, atmName: string) {
    exists i :: 0 <= i < |table| && table[i].atmName == atmName
  }

  /** The radius of the first record, in table order, with this atom and residue name. */
  function FirstRadiusWith(table: seq<VdwRadiusRecord>, atmName: string, resName: string): (r: Option<real>)
    ensures r.None? <==> forall i :: 0 <= i < |table| ==> table[i].atmName != atmName || table[i].resName != resName
    ensures r.Some? ==> exists i :: 0 <= i < |table| && table[i].atmName == atmName
                                     && table[i].resName == resName && table[i].vdwRad == r.value
  {
    if table == [] then None
    else if table[0].atmName == atmName && table[0].resName == resName then Some(table[0].vdwRad)
    else FirstRadiusWith(table[1..], atmName, resName)
  }

  /** Scanning the atom-name matches for a residue finds the first table record with both names. */
  lemma {:induction false} FirstResNameMatchOfMatches(table: seq<VdwRadiusRecord>, atmName: string, resName: string)
    ensures var m := AtomNameMatches(table, atmName);
            var k := FirstResNameMatch(m, resName);
            FirstRadiusWith(table, atmName, resName) == if k < |m| then Some(m[k].vdwRad) else None
  {
    if table != [] {
      FirstResNameMatchOfMatches(table[1..], atmName, resName);
      var rest := AtomNameMatches(table[1..], atmName);
      if table[0].atmName == atmName {
        var m := [table[0]] + rest;
        assert m[1..] == rest;
      }
    }
  }

  /** The fallback chain for one name: exact residue, then the generic residue. */
  function ChainFor(table: seq<VdwRadiusRecord>, name: string, resName: string): Option<real> {
    match FirstRadiusWith(table, name, resName)
    case Some(r) => Some(r)
    case None => FirstRadiusWith(table, name, GenericResName)
  }

  /**
   * Lookup precedence: a record with the exact atom and residue name wins, then
   * one with the atom name and the generic residue, then the default. The
   * upper-cased element symbol is tried, in the same order, only when no record
   * has the atom name at all; a known atom name with no usable residue goes
   * straight to the default.
   */
  lemma LookupPrecedence(table: seq<VdwRadiusRecord>, defRad: real, atmName: string, resName: string, elemSym: string)
    ensures Lookup(table, defRad, atmName, resName, elemSym) ==
      var name := if HasAtomName(table, atmName) then atmName else ToUpper(elemSym);
      match ChainFor(table, name, resName)
      case Some(r) => Success(r)
      case None => DefaultRadius(defRad, atmName, resName)
  {
    if HasAtomName(table, atmName) {
      ChainForMatches(table, atmName, resName);
    } else {
      ChainForMatches(table, ToUpper(elemSym), resName);
    }
  }

  /** For any name, the fallback chain over the table is the residue scan over that name's matches. */
  lemma ChainForMatches(table: seq<VdwRadiusRecord>, name: string, resName: string)
    ensures ChainFor(table, name, resName) == ResidueRadius(AtomNameMatches(table, name), resName)
  {
    FirstResNameMatchOfMatches(table, name, resName);
    FirstResNameMatchOfMatches(table, name, GenericResName);
  }

  /** Every radius the lookup returns is the radius of some table record or the set default. */
  lemma LookupOrigin(table: seq<VdwRadiusRecord>, defRad: real, atmName: string, resName: string, elemSym: string)
    ensures var r := Lookup(table, defRad, atmName, resName, elemSym);
            r.Success? ==> (exists i :: 0 <= i < |table| && table[i].vdwRad == r.value)
                           || (r.value == defRad && defRad >= 0.0)
  {
    LookupPrecedence(table, defRad, atmName, resName, elemSym);
  }

  /** The lookup fails only when the chain finds nothing and no default is set, and then names the atom. */
  lemma LookupFailure(table: seq<VdwRadiusRecord>, defRad: real, atmName: string, resName: string, elemSym: string)
    ensures var name := if HasAtomName(table, atmName) then atmName else ToUpper(elemSym);
            Lookup(table, defRad, atmName, resName, elemSym).Failure? <==> ChainFor(table, name, resName).None? && defRad < 0.0
    ensures Lookup(table, defRad, atmName, resName, elemSym).Failure? ==>
              Lookup(table, defRad, atmName, resName, elemSym).error == NoRadiusFound(atmName, resName)
  {
    LookupPrecedence(table, defRad, atmName, resName, elemSym);
  }

  /*
   * The topology the radii are looked up for: per atom its name, its residue
   * index and its element symbol, and per residue its name.
   */
  datatype Topology = Topology(atomName: seq<string>, atomResind: seq<nat>, atomElem: seq<string>,
                               resName: seq<string>)
  {
    predicate ValidAtom(id: int) {
      0 <= id < |atomName| && id < |atomResind| && id < |atomElem| && atomResind[id] < |resName|
    }
  }

  /** The lookup for one atom of the topology. */
  function AtomRadius(table: seq<VdwRadiusRecord>, defRad: real, top: Topology, id: int): Result<real, ProviderError>
    requires top.ValidAtom(id)
  {
    Lookup(table, defRad, top.atomName[id], top.resName[top.atomResind[id]], top.atomElem[id])
  }

  /** The lookup result of every mapped atom, in order. */
  function AtomRadii(table: seq<VdwRadiusRecord>, defRad: real, top: Topology, ids: seq<int>)
    : (rs: seq<Result<real, ProviderError>>)
    requires forall i :: 0 <= i < |ids| ==> top.ValidAtom(ids[i])
    ensures |rs| == |ids|
  {
    if ids == [] then []
    else [AtomRadius(table, defRad, top, ids[0])] + AtomRadii(table, defRad, top, ids[1..])
  }

  /** Entry i of the results is the lookup of mapped atom i. */
  lemma {:induction false} AtomRadiiAt(table: seq<VdwRadiusRecord>, defRad: real, top: Topology, ids: seq<int>, i: nat)
    requires forall j :: 0 <= j < |ids| ==> top.ValidAtom(ids[j])
    requires i < |ids|
    ensures AtomRadii(table, defRad, top, ids)[i] == AtomRadius(table, defRad, top, ids[i])
  {
    if i > 0 {
      AtomRadiiAt(table, defRad, top, ids[1..], i - 1);
    }
  }

  /** The map built by storing vals[j] under keys[j] in order, a repeated key keeping its latest value. */
  function MapOf(keys: seq<int>, vals: seq<real>): map<int, real>
    requires |keys| == |vals|
  {
    if keys == [] then map[]
    else MapOf(keys[..|keys| - 1], vals[..|vals| - 1])[keys[|keys| - 1] := vals[|vals| - 1]]
  }

  /** The map holds exactly the keys, each with the value stored under one of its occurrences. */
  lemma {:induction false} MapOfEntries(keys: seq<int>, vals: seq<real>)
    requires |keys| == |vals|
    ensures forall k :: k in MapOf(keys, vals) <==> k in keys
    ensures forall k :: k in MapOf(keys, vals) ==>
              exists j :: 0 <= j < |keys| && keys[j] == k && MapOf(keys, vals)[k] == vals[j]
  {
    if keys != [] {
      var n := |keys| - 1;
      MapOfEntries(keys[..n], vals[..n]);
      assert keys == keys[..n] + [keys[n]];
      forall k | k in MapOf(keys, vals)
        ensures exists j :: 0 <= j < |keys| && keys[j] == k && MapOf(keys, vals)[k] == vals[j]
      {
        if k != keys[n] {
          assert k in MapOf(keys[..n], vals[..n]);
          var j :| 0 <= j < n && keys[..n][j] == k && MapOf(keys[..n], vals[..n])[k] == vals[..n][j];
          assert keys[j] == k && vals[j] == vals[..n][j];
        }
      }
    }
  }

  /** When every lookup succeeds, the map built from the radii holds each id's own lookup result. */
  lemma RadiiMapValues(table: seq<VdwRadiusRecord>, defRad: real, top: Topology, ids: seq<int>, rads: seq<real>)
    requires forall j :: 0 <= j < |ids| ==> top.ValidAtom(ids[j])
    requires |rads| == |ids|
    requires forall j :: 0 <= j < |ids| ==> AtomRadii(table, defRad, top, ids)[j] == Success(rads[j])
    ensures forall id :: id in MapOf(ids, rads) <==> id in ids
    ensures forall id :: id in MapOf(ids, rads) ==>
              top.ValidAtom(id) && AtomRadius(table, defRad, top, id) == Success(MapOf(ids, rads)[id])
  {
    MapOfEntries(ids, rads);
    forall id | id in MapOf(ids, rads)
      ensures top.ValidAtom(id) && AtomRadius(table, defRad, top, id) == Success(MapOf(ids, rads)[id])
    {
      var j :| 0 <= j < |ids| && ids[j] == id && MapOf(ids, rads)[id] == rads[j];
      AtomRadiiAt(table, defRad, top, ids, j);
    }
  }

  class VdwRadiusProvider {
    var defRad: real
    var table: seq<VdwRadiusRecord>

    /** A fresh provider has an empty table and no default radius. */
    constructor ()
      ensures defRad == -1.0 && table == []
    {
      defRad := -1.0;
      table := [];
    }

    method SetDefaultVdwRadius(newDefRad: real) returns (r: Outcome<ProviderError>)
      modifies this`defRad
      ensures newDefRad >= 0.0 ==> r == Pass && defRad == newDefRad
      ensures newDefRad < 0.0 ==> r == Fail(NegativeDefaultRadius) && defRad == old(defRad)
    {
      if newDefRad >= 0.0 {
        defRad := newDefRad;
        r := Pass;
      } else {
        r := Fail(NegativeDefaultRadius);
      }
    }

    /**
     * Replaces the table with the records of the document's "vdwradii" array.
     * A malformed root leaves the table alone; a malformed entry stops the load
     * with the records of the entries before it in the table.
     */
    method LookupTableFromJson(doc: JsonDocument) returns (r: Outcome<ProviderError>)
      modifies this`table
      ensures doc.NonObjectDocument? ==> r == Fail(NoJsonObject) && table == old(table)
      ensures doc.ObjectDocument? && !("vdwradii" in doc.members && doc.members["vdwradii"].JsonArray?) ==>
                r == Fail(NoVdwRadiiArray) && table == old(table)
      ensures doc.ObjectDocument? && "vdwradii" in doc.members && doc.members["vdwradii"].JsonArray? ==>
                var entries := doc.members["vdwradii"].entries;
                var k := FirstBadEntry(entries);
                table == LoadedTable(entries) &&
                (k == |entries| ==> r == Pass) &&
                (k < |entries| ==> r == Fail(EntryError(entries[k]).value))
    {
      if doc.NonObjectDocument? {
        return Fail(NoJsonObject);
      }
      if !("vdwradii" in doc.members && doc.members["vdwradii"].JsonArray?) {
        return Fail(NoVdwRadiiArray);
      }
      var entries := doc.members["vdwradii"].entries;
      table := [];
      var i := 0;
      while i < |entries|
        invariant 0 <= i <= |entries|
        invariant forall j :: 0 <= j < i ==> EntryError(entries[j]) == None
        invariant |table| == i
        invariant forall j :: 0 <= j < i ==> table[j] == EntryRecord(entries[j])
      {
        var e := entries[i];
        if !HasStringField(e, "atomname") {
          return Fail(NoAtomName);
        }
        if !HasStringField(e, "resname") {
          return Fail(NoResName);
        }
        if !HasNumberField(e, "vdwr") {
          return Fail(NoVdwr);
        }
        table := table + [VdwRadiusRecord(e.fields["atomname"].str, e.fields["resname"].str, e.fields["vdwr"].num)];
        i := i + 1;
      }
      r := Pass;
    }

    /** The table records with this atom name, in table order. */
    method MatchAtmName(atmName: string) returns (matches: seq<VdwRadiusRecord>)
      ensures matches == AtomNameMatches(table, atmName)
    {
      matches := [];
      var i := 0;
      while i < |table|
        invariant 0 <= i <= |table|
        invariant matches == AtomNameMatches(table[..i], atmName)
      {
        AtomNameMatchesAppend(table[..i], table[i], atmName);
        assert table[..i + 1] == table[..i] + [table[i]];
        if table[i].atmName == atmName {
          matches := matches + [table[i]];
        }
        i := i + 1;
      }
      assert table[..i] == table;
    }

    /** Position of the first record with this residue name; the number of records when there is none. */
    static method MatchResName(resName: string, records: seq<VdwRadiusRecord>) returns (k: nat)
      ensures k <= |records|
      ensures k < |records| ==> records[k].resName == resName
      ensures forall j :: 0 <= j < k ==> records[j].resName != resName
    {
      k := 0;
      while k < |records|
        invariant k <= |records|
        invariant forall j :: 0 <= j < k ==> records[j].resName != resName
      {
        if records[k].resName == resName {
          return;
        }
        k := k + 1;
      }
    }

    /** Resolves the radius of one atom by the lookup chain. */
    method VdwRadiusForAtom(atmName: string, resName: string, elemSym: string) returns (r: Result<real, ProviderError>)
      ensures r == Lookup(table, defRad, atmName, resName, elemSym)
    {
      var atmNameMatches := MatchAtmName(atmName);
      if |atmNameMatches| > 0 {
        r := ResolveResidue(atmNameMatches, atmName, resName);
      } else {
        var elemNameMatches := MatchAtmName(ToUpper(elemSym));
        if |elemNameMatches| > 0 {
          r := ResolveResidue(elemNameMatches, atmName, resName);
        } else {
          r := ReturnDefaultRadius(atmName, resName);
        }
      }
    }

    /** The residue stage of the chain, shared by the atom-name and element branches. */
    method ResolveResidue(matches: seq<VdwRadiusRecord>, atmName: string, resName: string)
      returns (r: Result<real, ProviderError>)
      ensures r == match ResidueRadius(matches, resName)
                   case Some(rad) => Success(rad)
                   case None => DefaultRadius(defRad, atmName, resName)
    {
      var k := MatchResName(resName, matches);
      SameFirstMatch(matches, resName, k);
      if k == |matches| {
        k := MatchResName(GenericResName, matches);
        SameFirstMatch(matches, GenericResName, k);
        if k == |matches| {
          r := ReturnDefaultRadius(atmName, resName);
        } else {
          r := Success(matches[k].vdwRad);
        }
      } else {
        r := Success(matches[k].vdwRad);
      }
    }

    method ReturnDefaultRadius(atmName: string, resName: string) returns (r: Result<real, ProviderError>)
      ensures r.Success? <==> defRad >= 0.0
      ensures r.Success? ==> r.value == defRad
      ensures r.Failure? ==> r.error == NoRadiusFound(atmName, resName)
    {
      if defRad >= 0.0 {
        r := Success(defRad);
      } else {
        r := Failure(NoRadiusFound(atmName, resName));
      }
    }

    /** The radius of mapped atom i, looked up by its atom name, residue name and element symbol. */
    method RadiusOfMappedAtom(top: Topology, mappedIds: seq<int>, i: nat) returns (rad: Result<real, ProviderError>)
      requires forall j :: 0 <= j < |mappedIds| ==> top.ValidAtom(mappedIds[j])
      requires i < |mappedIds|
      ensures rad == AtomRadii(table, defRad, top, mappedIds)[i]
    {
      var id := mappedIds[i];
      rad := VdwRadiusForAtom(top.atomName[id], top.resName[top.atomResind[id]], top.atomElem[id]);
      AtomRadiiAt(table, defRad, top, mappedIds, i);
    }

    /**
     * Radii of the mapped atoms of a topology, keyed by atom id. The first atom
     * whose lookup fails aborts the whole call with that lookup's error.
     */
    method VdwRadiiForTopology(top: Topology, mappedIds: seq<int>) returns (r: Result<map<int, real>, ProviderError>)
      requires forall i :: 0 <= i < |mappedIds| ==> top.ValidAtom(mappedIds[i])
      ensures var rs := AtomRadii(table, defRad, top, mappedIds);
              && (r.Success? <==> forall i :: 0 <= i < |rs| ==> rs[i].Success?)
              && (r.Failure? ==> exists k :: 0 <= k < |rs| && (forall j :: 0 <= j < k ==> rs[j].Success?)
                                             && rs[k] == Failure(r.error))
      ensures r.Success? ==> forall id :: id in r.value <==> id in mappedIds
      ensures r.Success? ==> forall id :: id in r.value ==>
                top.ValidAtom(id) && AtomRadius(table, defRad, top, id) == Success(r.value[id])
    {
      ghost var rs := AtomRadii(table, defRad, top, mappedIds);
      var radii: map<int, real> := map[];
      ghost var rads: seq<real> := [];
      var i := 0;
      while i < |mappedIds|
        invariant 0 <= i <= |mappedIds|
        invariant |rads| == i
        invariant forall j :: 0 <= j < i ==> rs[j] == Success(rads[j])
        invariant radii == MapOf(mappedIds[..i], rads)
      {
        var id := mappedIds[i];
        var rad := RadiusOfMappedAtom(top, mappedIds, i);
        if rad.Failure? {
          return Failure(rad.error);
        }
        assert mappedIds[..i + 1][..i] == mappedIds[..i];
        radii := radii[id := rad.value];
        rads := rads + [rad.value];
        i := i + 1;
      }
      assert mappedIds[..i] == mappedIds;
      RadiiMapValues(table, defRad, top, mappedIds, rads);
      r := Success(radii);
    }
  }

  /** Any index with the first-match property is the one FirstResNameMatch computes. */
  lemma SameFirstMatch(records: seq<VdwRadiusRecord>, resName: string, k: nat)
    requires k <= |records|
    requires k < |records| ==> records[k].resName == resName
    requires forall j :: 0 <= j < k ==> records[j].resName != resName
    ensures k == FirstResNameMatch(records, resName)
  {
  }
}
