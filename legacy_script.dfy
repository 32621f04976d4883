/**
 * fontnameFromFilename.py, the older script: the font name is split at its
 * first space only, and a name without a space is an error.
 */
module LegacyScript {
  import opened Results
  import opened PosixPath
  import opened Strings
  import opened NameTable

  /** The parser's tuple: (family, family without spaces, variant, variant without spaces). */
  type FontData = (string, string, string, string)

  /**
   * `_simplifyFontPath`: the basename without its extension, when that
   * extension is exactly `.ttf` or `.otf`; otherwise the error that names the
   * extension-less basename.
   */
  function SimplifyFontPath(fontFilepath: string): (r: Result<string>)
    ensures r.Ok? ==>
      Basename(fontFilepath) == r.value + ".ttf" || Basename(fontFilepath) == r.value + ".otf"
    ensures r.Ok? ==> '/' !in r.value && exists k :: 0 <= k < |r.value| && r.value[k] != '.'
    ensures r.Err? ==> r.error == NotFontFile(SplitExt(Basename(fontFilepath)).0)
  {
    var base := Basename(fontFilepath);
    var fileWithExt := SplitExt(base);
    if fileWithExt.1 != ".ttf" && fileWithExt.1 != ".otf" then
      Err(NotFontFile(fileWithExt.0))
    else
      FontExtension(base, fileWithExt.1);
      Ok(fileWithExt.0)
  }

  /**
   * Every path whose last component is a name with some character other
   * than a dot, followed by `.ttf` or `.otf`, is accepted, and its result is
   * that name.
   */
  lemma SimplifyFontPathAccepts(fontFilepath: string, name: string, ext: string)
    requires ext == ".ttf" || ext == ".otf"
    requires Basename(fontFilepath) == name + ext
    requires exists k :: 0 <= k < |name| && name[k] != '.'
    ensures SimplifyFontPath(fontFilepath) == Ok(name)
  {
    var b := Basename(fontFilepath);
    assert b[..|b| - 4] == name && b[|b| - 4..] == ext;
    var k :| 0 <= k < |name| && name[k] != '.';
    assert b[k] == name[k];
    FontExtension(b, ext);
  }

  /**
   * `_splitAndGetDataFromFontname`: cut the simplified name at its first
   * space. Fails when the path is not a font file, or with the IndexError
   * of `split_fontname[1]` when the name holds no space.
   */
  function SplitAndGetDataFromFontname(fontFilename: string): (r: Result<FontData>)
    ensures SimplifyFontPath(fontFilename).Err? ==> r == Err(SimplifyFontPath(fontFilename).error)
    ensures SimplifyFontPath(fontFilename).Ok? ==>
      var name := SimplifyFontPath(fontFilename).value;
      (r.Err? <==> ' ' !in name) &&
      (r.Err? ==> r.error == IndexOutOfRange) &&
      (r.Ok? ==>
        var (family, nospacesFamily, variant, nospacesVariant) := r.value;
        family + " " + variant == name && ' ' !in family && nospacesFamily == family &&
        ' ' !in nospacesVariant && nospacesVariant == RemoveSpaces(variant))
  {
    var simplifiedFontname :- SimplifyFontPath(fontFilename);
    var splitFontname := SplitOnce(simplifiedFontname);
    var fontFamily := splitFontname[0];
    var nospacesFontFamily := RemoveSpaces(fontFamily);
    if |splitFontname| < 2 then
      Err(IndexOutOfRange)
    else
      var variant := splitFontname[1];
      var nospacesVariant := RemoveSpaces(variant);
      Ok((fontFamily, nospacesFontFamily, variant, nospacesVariant))
  }

  /** The four strings `_renameSingleFont` writes, built from the parser's tuple. */
  function NamesFor(newNames: FontData): NewNames {
    NewNames(newNames.0, newNames.2, newNames.0 + " " + newNames.2, newNames.1 + "-" + newNames.3)
  }

  /**
   * `_renameSingleFont`: assign the text of every record whose nameID is 1,
   * 2, 4 or 6, in list order, through the references the font shares.
   */
  method RenameSingleFont(namerecord: seq<NameRecord>, newNames: FontData)
    modifies namerecord`text
    ensures Views(namerecord) == RewriteAll(old(Views(namerecord)), NamesFor(newNames))
  {
    var fullFontname := newNames.0 + " " + newNames.2;
    var postscriptFullFontname := newNames.1 + "-" + newNames.3;
    var names := NewNames(newNames.0, newNames.2, fullFontname, postscriptFullFontname);
    ghost var done: set<NameRecord> := {};
    for i := 0 to |namerecord|
      invariant forall k :: 0 <= k < i ==> namerecord[k] in done
      invariant forall k :: 0 <= k < |namerecord| ==>
        namerecord[k].text ==
          if namerecord[k] in done then RenamedText(namerecord[k].nameID, old(namerecord[k].text), names)
          else old(namerecord[k].text)
    {
      RenameRecord(namerecord[i], names);
      done := done + {namerecord[i]};
    }
    RewriteAllAt(old(Views(namerecord)), names);
  }

  /**
   * The names a parsed path yields: the family is the text before the first
   * space, the variant the text after it, the full name the whole
   * extension-less basename, and the PostScript name the family, a hyphen
   * and the variant with its spaces removed, holding no space.
   */
  lemma NamesFromPath(fontFilename: string)
    requires SplitAndGetDataFromFontname(fontFilename).Ok?
    ensures var name := SimplifyFontPath(fontFilename).value;
      var cut := FirstIndex(name, ' ');
      var names := NamesFor(SplitAndGetDataFromFontname(fontFilename).value);
      cut < |name| &&
      names == NewNames(name[..cut], name[cut + 1..], name, name[..cut] + "-" + RemoveSpaces(name[cut + 1..])) &&
      ' ' !in names.postscriptName
  {
    var data := SplitAndGetDataFromFontname(fontFilename).value;
    FirstSpaceAfterHead(data.0, data.2);
  }

  /**
   * After a rename driven by a parsed path, the full name (nameID 4) is the
   * extension-less basename, the family (nameID 1) is its text before the
   * first space, the variant (nameID 2) the text after it, and the
   * PostScript name (nameID 6) is the family, a hyphen and the rest of the
   * name with its spaces removed.
   */
  lemma RenamedFromPath(fontFilename: string, records: seq<RecordView>)
    requires SplitAndGetDataFromFontname(fontFilename).Ok?
    ensures var name := SimplifyFontPath(fontFilename).value;
      var cut := FirstIndex(name, ' ');
      var after := RewriteAll(records, NamesFor(SplitAndGetDataFromFontname(fontFilename).value));
      cut < |name| &&
      forall i :: 0 <= i < |records| ==>
        (records[i].nameID == FamilyID ==> after[i].text == name[..cut]) &&
        (records[i].nameID == SubfamilyID ==> after[i].text == name[cut + 1..]) &&
        (records[i].nameID == FullNameID ==> after[i].text == name) &&
        (records[i].nameID == PostScriptNameID ==>
           after[i].text == name[..cut] + "-" + RemoveSpaces(name[cut + 1..]) && ' ' !in after[i].text)
  {
    NamesFromPath(fontFilename);
    RewriteAllSpec(records, NamesFor(SplitAndGetDataFromFontname(fontFilename).value));
  }
}
