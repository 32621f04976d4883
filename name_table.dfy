/**
 * The records of a font's `name` table as the scripts see them, and the
 * rewrite both scripts apply to them, stated on values.
 *
 * The records are objects owned by the font container; the scripts only
 * assign the `string` field of existing records (here `text`, since
 * `string` is a type name in Dafny).
 */
module NameTable {

  /** The nameIDs the scripts rewrite: family, subfamily, full name, PostScript name. */
  const FamilyID: int := 1
  const SubfamilyID: int := 2
  const FullNameID: int := 4
  const PostScriptNameID: int := 6

  /** One name record: its role, the platform variant it is encoded for, and its text. */
  class NameRecord {
    var nameID: int
    var platformID: int
    var platEncID: int
    var langID: int
    var text: string

    constructor (nameID: int, platformID: int, platEncID: int, langID: int, text: string)
      ensures this.nameID == nameID && this.platformID == platformID
      ensures this.platEncID == platEncID && this.langID == langID && this.text == text
    {
      this.nameID := nameID;
      this.platformID := platformID;
      this.platEncID := platEncID;
      this.langID := langID;
      this.text := text;
    }
  }

  /** The contents of a record at one moment. */
  datatype RecordView = RecordView(nameID: int, platformID: int, platEncID: int, langID: int, text: string)

  function View(r: NameRecord): RecordView
    reads r
  {
    RecordView(r.nameID, r.platformID, r.platEncID, r.langID, r.text)
  }

  /** The contents of a list of records, in list order. */
  function Views(rs: seq<NameRecord>): (vs: seq<RecordView>)
    reads rs
    ensures |vs| == |rs|
    ensures forall i :: 0 <= i < |rs| ==> vs[i] == View(rs[i])
  {
    if rs == [] then [] else [View(rs[0])] + Views(rs[1..])
  }

  /** The four strings a rename writes, one per rewritten nameID. */
  datatype NewNames = NewNames(family: string, subfamily: string, fullName: string, postscriptName: string)

  predicate IsRewritten(nameID: int) {
    nameID == FamilyID || nameID == SubfamilyID || nameID == FullNameID || nameID == PostScriptNameID
  }

  /** The text the rename loop leaves in a record, keyed on its nameID alone. */
  function RenamedText(nameID: int, text: string, names: NewNames): string {
    if nameID == FamilyID then names.family
    else if nameID == SubfamilyID then names.subfamily
    else if nameID == FullNameID then names.fullName
    else if nameID == PostScriptNameID then names.postscriptName
    else text
  }

  /** What the rename loop does to one record: only its text may change. */
  function Rewrite(v: RecordView, names: NewNames): RecordView {
    v.(text := RenamedText(v.nameID, v.text, names))
  }

  /**
   * The body of the rename loop: the record's text becomes the name for its
   * nameID when that is 1, 2, 4 or 6, and stays as it was otherwise.
   */
  method RenameRecord(record: NameRecord, names: NewNames)
    modifies record`text
    ensures record.text == RenamedText(record.nameID, old(record.text), names)
  {
    if record.nameID == 1 {
      record.text := names.family;
    } else if record.nameID == 2 {
      record.text := names.subfamily;
    } else if record.nameID == 4 {
      record.text := names.fullName;
    } else if record.nameID == 6 {
      record.text := names.postscriptName;
    }
  }

  /** What the rename loop does to a whole list of records. */
  function RewriteAll(vs: seq<RecordView>, names: NewNames): (ws: seq<RecordView>)
    ensures |ws| == |vs|
  {
    if vs == [] then [] else [Rewrite(vs[0], names)] + RewriteAll(vs[1..], names)
  }

  /** The rewrite of a list rewrites each record on its own. */
  lemma {:induction false} RewriteAllAt(vs: seq<RecordView>, names: NewNames)
    ensures forall i :: 0 <= i < |vs| ==> RewriteAll(vs, names)[i] == Rewrite(vs[i], names)
  {
    if vs != [] {
      RewriteAllAt(vs[1..], names);
      assert forall i :: 1 <= i < |vs| ==> RewriteAll(vs, names)[i] == RewriteAll(vs[1..], names)[i - 1];
    }
  }

  /**
   * The rewrite keeps the list's length and order and every record's
   * nameID, platform, encoding and language; each record with nameID
   * 1, 2, 4 or 6 then holds the family, subfamily, full or PostScript name,
   * whatever its platform, and every other record is unchanged.
   */
  lemma {:induction false} RewriteAllSpec(vs: seq<RecordView>, names: NewNames)
    ensures forall i :: 0 <= i < |vs| ==>
      var w := RewriteAll(vs, names)[i];
      w.nameID == vs[i].nameID && w.platformID == vs[i].platformID &&
      w.platEncID == vs[i].platEncID && w.langID == vs[i].langID &&
      (vs[i].nameID == FamilyID ==> w.text == names.family) &&
      (vs[i].nameID == SubfamilyID ==> w.text == names.subfamily) &&
      (vs[i].nameID == FullNameID ==> w.text == names.fullName) &&
      (vs[i].nameID == PostScriptNameID ==> w.text == names.postscriptName) &&
      (!IsRewritten(vs[i].nameID) ==> w == vs[i])
  {
    RewriteAllAt(vs, names);
  }

  /** All records that share a rewritten nameID end up with the same text. */
  lemma RewriteAllConsistent(vs: seq<RecordView>, names: NewNames, i: int, j: int)
    requires 0 <= i < |vs| && 0 <= j < |vs|
    requires vs[i].nameID == vs[j].nameID && IsRewritten(vs[i].nameID)
    ensures RewriteAll(vs, names)[i].text == RewriteAll(vs, names)[j].text
  {
    RewriteAllSpec(vs, names);
  }

  /** Renaming twice with the same names is the same as renaming once. */
  lemma {:induction false} RewriteAllIdempotent(vs: seq<RecordView>, names: NewNames)
    ensures RewriteAll(RewriteAll(vs, names), names) == RewriteAll(vs, names)
  {
    if vs != [] {
      RewriteAllIdempotent(vs[1..], names);
    }
  }
}
