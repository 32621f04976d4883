/**
 * fontname-from-filename.py, the newer script: the font name is split on
 * every space, the first `FONT_FAMILY_WORD_COUNT` words form the family and
 * the rest the variant. Parsing never fails once the extension is accepted.
 */
module Script {
  import opened Results
  import opened PosixPath
  import opened Strings
  import opened NameTable

  /** `FONT_FAMILY_WORD_COUNT`: how many leading words make up the family name. */
  const FontFamilyWordCount: nat := 1

  /**
   * The parser's dict. Its key set is always exactly `family`,
   * `nospaces_family`, `variant` and `nospaces_variant`, so it is a record here.
   */
  datatype Fontnames = Fontnames(family: string, nospacesFamily: string, variant: string, nospacesVariant: string)

  /**
   * `_getBasenameIfValid`: the basename without its extension, when that
   * extension is exactly `.ttf` or `.otf`; otherwise the error that names the
   * whole path.
   */
  function GetBasenameIfValid(filepath: string): (r: Result<string>)
    ensures r.Ok? ==> Basename(filepath) == r.value + ".ttf" || Basename(filepath) == r.value + ".otf"
    ensures r.Ok? ==> '/' !in r.value && exists k :: 0 <= k < |r.value| && r.value[k] != '.'
    ensures r.Err? ==> r.error == NotFontFile(filepath)
  {
    var base := Basename(filepath);
    var fileWithExt := SplitExt(base);
    if fileWithExt.1 != ".ttf" && fileWithExt.1 != ".otf" then
      Err(NotFontFile(filepath))
    else
      FontExtension(base, fileWithExt.1);
      Ok(fileWithExt.0)
  }

  /**
   * The body of `_splitAndGetDataFromFontname` with the word count as a
   * parameter: the family joins the first `familyWordCount` words (all of
   * them when there are fewer), the variant joins the rest, and the
   * space-free copies drop every space.
   */
  function SplitFontname(simplifiedFontname: string, familyWordCount: nat): (fontnames: Fontnames)
    ensures fontnames.nospacesFamily == RemoveSpaces(fontnames.family)
    ensures fontnames.nospacesVariant == RemoveSpaces(fontnames.variant)
    ensures ' ' !in fontnames.nospacesFamily && ' ' !in fontnames.nospacesVariant
  {
    var splitFontname := Split(simplifiedFontname);
    var cut := if familyWordCount < |splitFontname| then familyWordCount else |splitFontname|;
    var family := Join(splitFontname[..cut]);
    var variant := Join(splitFontname[cut..]);
    Fontnames(family, RemoveSpaces(family), variant, RemoveSpaces(variant))
  }

  /**
   * The family's words are exactly the name's first `familyWordCount`
   * words (or all of them), and when words are left over, the variant's
   * words are exactly those.
   */
  lemma FamilyIsLeadingWords(name: string, familyWordCount: nat)
    requires familyWordCount >= 1
    ensures var words := Split(name);
      var fontnames := SplitFontname(name, familyWordCount);
      Split(fontnames.family) == (if familyWordCount < |words| then words[..familyWordCount] else words) &&
      (familyWordCount < |words| ==> Split(fontnames.variant) == words[familyWordCount..])
  {
    var words := Split(name);
    if familyWordCount < |words| {
      SplitJoin(words[..familyWordCount]);
      SplitJoin(words[familyWordCount..]);
    } else {
      assert words[..|words|] == words;
      SplitJoin(words);
    }
  }

  /** With more words than the family takes, family, space and variant rebuild the name. */
  lemma SplitFontnameRoundTrip(name: string, familyWordCount: nat)
    requires familyWordCount >= 1 && |Split(name)| > familyWordCount
    ensures var fontnames := SplitFontname(name, familyWordCount);
      fontnames.family + " " + fontnames.variant == name
  {
    var words := Split(name);
    assert words == words[..familyWordCount] + words[familyWordCount..];
    JoinAppend(words[..familyWordCount], words[familyWordCount..]);
    JoinSplit(name);
  }

  /** With no more words than the family takes, the family is the whole name and the variant is empty. */
  lemma ShortNameHasEmptyVariant(name: string, familyWordCount: nat)
    requires |Split(name)| <= familyWordCount
    ensures var fontnames := SplitFontname(name, familyWordCount);
      fontnames.family == name && fontnames.variant == ""
  {
    var words := Split(name);
    assert words[..|words|] == words;
    JoinSplit(name);
  }

  /**
   * A four-word name such as `Roboto Mono Bold Italic`, with one family
   * word: the family is the first word, the variant the other three, and the
   * PostScript name is `Roboto-MonoBoldItalic`.
   */
  lemma FourWordsOneFamilyWord(a: string, b: string, c: string, d: string)
    requires ' ' !in a && ' ' !in b && ' ' !in c && ' ' !in d
    ensures var fontnames := SplitFontname(Join([a, b, c, d]), 1);
      fontnames == Fontnames(a, a, Join([b, c, d]), b + c + d) &&
      NamesFor(fontnames).postscriptName == a + "-" + (b + c + d)
  {
    var words := [a, b, c, d];
    SplitJoin(words);
    assert words[..1] == [a] && words[1..] == [b, c, d];
    RemoveSpacesThreeWords(b, c, d);
  }

  /** Dropping the spaces of three space-free words joined by spaces concatenates them. */
  lemma RemoveSpacesThreeWords(b: string, c: string, d: string)
    requires ' ' !in b && ' ' !in c && ' ' !in d
    ensures RemoveSpaces(Join([b, c, d])) == b + c + d
  {
    assert [b, c, d][1..] == [c, d] && [c, d][1..] == [d];
    assert Join([c, d]) == c + " " + d;
    assert Join([b, c, d]) == b + " " + Join([c, d]);
    RemoveSpacesAround(c, d);
    RemoveSpacesAround(b, Join([c, d]));
    assert b + (c + d) == b + c + d;
  }

  /**
   * A four-word name such as `Source Sans Pro Bold`, with two family
   * words: the family is the first two words, the variant the last two, and
   * the PostScript name is `SourceSans-ProBold`.
   */
  lemma FourWordsTwoFamilyWords(a: string, b: string, c: string, d: string)
    requires ' ' !in a && ' ' !in b && ' ' !in c && ' ' !in d
    ensures var fontnames := SplitFontname(Join([a, b, c, d]), 2);
      fontnames == Fontnames(a + " " + b, a + b, c + " " + d, c + d) &&
      NamesFor(fontnames).postscriptName == a + b + "-" + (c + d)
  {
    var words := [a, b, c, d];
    var fontnames := SplitFontname(Join(words), 2);
    assert fontnames.family == Join([a, b]) && fontnames.variant == Join([c, d]) by {
      SplitJoin(words);
      assert words[..2] == [a, b] && words[2..] == [c, d];
    }
    assert fontnames.family == a + " " + b && fontnames.variant == c + " " + d by {
      assert [a, b][1..] == [b] && [c, d][1..] == [d];
      assert Join([b]) == b && Join([d]) == d;
    }
    assert fontnames.nospacesFamily == a + b && fontnames.nospacesVariant == c + d by {
      RemoveSpacesAround(a, b);
      RemoveSpacesAround(c, d);
    }
  }

  /**
   * With one family word, the family is the name's first word and the
   * variant the other words joined by spaces; a name with a
   * space is rebuilt by family, space and variant, and a name without one is
   * all family with an empty variant.
   */
  lemma FirstWordIsFamily(name: string)
    ensures var fontnames := SplitFontname(name, FontFamilyWordCount);
      fontnames.family == Split(name)[0] && fontnames.variant == Join(Split(name)[1..]) &&
      (' ' in name ==> fontnames.family + " " + fontnames.variant == name) &&
      (' ' !in name ==> fontnames.family == name && fontnames.variant == "")
  {
    var words := Split(name);
    assert words[..1] == [words[0]];
    if ' ' in name {
      SplitFontnameRoundTrip(name, FontFamilyWordCount);
    } else {
      ShortNameHasEmptyVariant(name, FontFamilyWordCount);
    }
  }

  /**
   * `_splitAndGetDataFromFontname`: fails only when the path is not a font
   * file. The family is the name's first word, so it holds no space and
   * equals its space-free copy; a name with a space is rebuilt by family,
   * space and variant, and a name without one has an empty variant.
   */
  function SplitAndGetDataFromFontname(fontFilename: string): (r: Result<Fontnames>)
    ensures r.Ok? <==> GetBasenameIfValid(fontFilename).Ok?
    ensures r.Err? ==> r.error == NotFontFile(fontFilename)
    ensures r.Ok? ==>
      var name := GetBasenameIfValid(fontFilename).value;
      var fontnames := r.value;
      fontnames.family == Split(name)[0] && ' ' !in fontnames.family &&
      fontnames.nospacesFamily == fontnames.family &&
      fontnames.nospacesVariant == RemoveSpaces(fontnames.variant) &&
      (' ' in name ==> fontnames.family + " " + fontnames.variant == name) &&
      (' ' !in name ==> fontnames.family == name && fontnames.variant == "")
  {
    var simplifiedFontname :- GetBasenameIfValid(fontFilename);
    FirstWordIsFamily(simplifiedFontname);
    Ok(SplitFontname(simplifiedFontname, FontFamilyWordCount))
  }

  /** The four strings `_renameSingleFont` writes, built from the parser's dict. */
  function NamesFor(newNames: Fontnames): NewNames
  {
    NewNames(newNames.family, newNames.variant,
             newNames.family + " " + newNames.variant,
             newNames.nospacesFamily + "-" + newNames.nospacesVariant)
  }

  /**
   * `_renameSingleFont`: assign the text of every record whose nameID is 1,
   * 2, 4 or 6, in list order, through the references the font shares.
   */
  method RenameSingleFont(namerecord: seq<NameRecord>, newNames: Fontnames)
    modifies namerecord`text
    ensures Views(namerecord) == RewriteAll(old(Views(namerecord)), NamesFor(newNames))
  {
    var fullFontname := newNames.family + " " + newNames.variant;
    var postscriptFullFontname := newNames.nospacesFamily + "-" + newNames.nospacesVariant;
    var names := NewNames(newNames.family, newNames.variant, fullFontname, postscriptFullFontname);
    ghost var done: set<NameRecord> := {};
    for i := 0 to |namerecord|
      invariant forall k :: 0 <= k < i ==> namerecord[k] in done
      invariant forall k :: 0 <= k < |namerecord| ==>
        namerecord[k].text ==
          if namerecord[k] in done then RenamedText(namerecord[k].nameID, old(namerecord[k].text), names)
          else old(namerecord[k].text)
    {
      RenameRecord(namerecord[i], names);
      done := done + {namerecord[i]};
    }
    RewriteAllAt(old(Views(namerecord)), names);
  }

  /**
   * With an empty variant the names are written as plain concatenation: the
   * full name keeps a trailing space and the PostScript name a trailing
   * hyphen.
   */
  lemma EmptyVariantNames(name: string, familyWordCount: nat)
    requires |Split(name)| <= familyWordCount
    ensures var names := NamesFor(SplitFontname(name, familyWordCount));
      names.family == name && names.subfamily == "" &&
      names.fullName == name + " " && names.postscriptName == RemoveSpaces(name) + "-"
  {
    ShortNameHasEmptyVariant(name, familyWordCount);
  }

  /**
   * The names an accepted path yields: the family is the name's first word,
   * the variant the other words joined by spaces, the full name the
   * extension-less basename (with a trailing space when it holds no space),
   * and the PostScript name the first word, a hyphen and the other words with
   * their spaces removed, holding no space.
   */
  lemma NamesFromPath(fontFilename: string)
    requires SplitAndGetDataFromFontname(fontFilename).Ok?
    ensures var name := GetBasenameIfValid(fontFilename).value;
      var words := Split(name);
      var names := NamesFor(SplitAndGetDataFromFontname(fontFilename).value);
      names == NewNames(words[0], Join(words[1..]), if ' ' in name then name else name + " ",
                        words[0] + "-" + RemoveSpaces(Join(words[1..]))) &&
      ' ' !in names.postscriptName
  {
    var name := GetBasenameIfValid(fontFilename).value;
    var fontnames := SplitAndGetDataFromFontname(fontFilename).value;
    var words := Split(name);
    assert fontnames == SplitFontname(name, FontFamilyWordCount);
    FirstWordIsFamily(name);
    assert fontnames.family == words[0] && fontnames.nospacesFamily == words[0];
    assert fontnames.variant == Join(words[1..]);
    if ' ' !in name {
      assert fontnames.variant == "";
      assert name + " " + "" == name + " ";
    }
  }

  /**
   * After a rename driven by a path the newer script accepts, the family
   * (nameID 1) is the name's first word, the variant (nameID 2) the other
   * words joined by spaces, and the full name (nameID 4) the extension-less
   * basename when it holds a space and that basename with a trailing space
   * otherwise; the PostScript name (nameID 6) is the first word, a hyphen
   * and the other words with their spaces removed, and never holds a space.
   */
  lemma RenamedFromPath(fontFilename: string, records: seq<RecordView>)
    requires SplitAndGetDataFromFontname(fontFilename).Ok?
    ensures var name := GetBasenameIfValid(fontFilename).value;
      var words := Split(name);
      var after := RewriteAll(records, NamesFor(SplitAndGetDataFromFontname(fontFilename).value));
      forall i :: 0 <= i < |records| ==>
        (records[i].nameID == FamilyID ==> after[i].text == words[0]) &&
        (records[i].nameID == SubfamilyID ==> after[i].text == Join(words[1..])) &&
        (records[i].nameID == FullNameID ==> after[i].text == if ' ' in name then name else name + " ") &&
        (records[i].nameID == PostScriptNameID ==>
           after[i].text == words[0] + "-" + RemoveSpaces(Join(words[1..])) && ' ' !in after[i].text)
  {
    NamesFromPath(fontFilename);
    RewriteAllSpec(records, NamesFor(SplitAndGetDataFromFontname(fontFilename).value));
  }
}
