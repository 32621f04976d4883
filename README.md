# Font name from filename, in Dafny

Two versions of a small command-line tool are modelled here. Each takes the path of
a TrueType or OpenType font file. It turns the file's name into a family name and a
variant name. It then writes four records of the font's `name` table:

- the family (nameID 1);
- the subfamily or variant (nameID 2);
- the full name, which is the family, a space and the variant (nameID 4);
- the PostScript name, which is the family without spaces, a hyphen and the variant
  without spaces (nameID 6).

Every record with one of those nameIDs is rewritten, whatever platform, encoding or
language it is for. All other records are left alone.

- `fontnameFromFilename.py` is the older script. It splits the name at its first
  space. A name without a space stops it with an `IndexError`, which the model
  represents as `Err(IndexOutOfRange)`.
- `fontname-from-filename.py` is the newer script. It splits the name on every
  space. The first `FONT_FAMILY_WORD_COUNT` words (1) form the family and the rest
  form the variant. Once the path has been accepted, parsing never fails.

Both scripts accept a path only when `os.path.splitext(os.path.basename(path))` gives
exactly `.ttf` or `.otf` as the extension.

Modules:

- `Results` holds the error outcomes that stop the scripts.
- `PosixPath` models `rfind`, `basename` and `splitext` for POSIX paths.
- `Strings` models `split(" ")`, `split(" ", 1)`, `" ".join` and `replace(" ", "")`,
  together with their round-trip lemmas.
- `NameTable` holds the record objects, the rewrite loop's body, and the rewrite
  stated on values.
- `LegacyScript` models the older script.
- `Script` models the newer script.
- `Versions` relates the two scripts.

`RenameSingleFont` mutates shared `NameRecord` objects in place, as the scripts do.
Its postcondition ties the records' new contents to the value-level `RewriteAll`,
which stays correct even when one record object appears twice in the list. The
lemmas about `RewriteAll` then state what the rename guarantees.

## Model

| member | source | states |
|---|---|---|
| PosixPath.LastIndex | fontnameFromFilename.py:109 | the result is -1 or the index of a `c`, and no `c` comes after it |
| PosixPath.Basename | fontnameFromFilename.py:109 | the result holds no `/`, is a suffix of the path, and is preceded by a `/` when shorter than the path |
| PosixPath.SplitExt | fontname-from-filename.py:110 | root and extension concatenate back to the path; a non-empty extension starts with its only `.`, holds no `/`, and follows a non-dot character of the last component; the extension is empty only when the last component has no `.` or only dots before its last `.` |
| PosixPath.FontExtension | fontnameFromFilename.py:109-111 | on a component without `/`, the extension is `.ttf`/`.otf` exactly when the name ends in it after at least one non-dot character; the root is then the name minus those four characters |
| LegacyScript.SimplifyFontPath | fontnameFromFilename.py:107-115 | success: the basename is the result plus `.ttf` or `.otf`, and the result holds no `/` and has a non-dot character; failure: the error names the extension-less basename |
| LegacyScript.SimplifyFontPathAccepts | fontnameFromFilename.py:109-115 | every basename of the form name + `.ttf`/`.otf` whose name has a non-dot character is accepted, and the result is that name |
| Strings.FirstIndex | fontnameFromFilename.py:93 | the result is the position of the first `c`, or the length when there is none |
| Strings.SplitOnce | fontnameFromFilename.py:93 | one piece (the whole string) exactly when there is no space; otherwise a space-free head, then a space, then the tail rebuild the string |
| Strings.FirstSpaceAfterHead | fontnameFromFilename.py:93-97 | in head + space + tail with a space-free head, the first space sits right after the head, so the cut gives back head and tail |
| Strings.FirstSpaceUnique | fontnameFromFilename.py:93-97 | a string has only one decomposition into space-free head, space and tail |
| Strings.RemoveSpaces | fontnameFromFilename.py:96-98 | the result holds no space, is no longer than the input, and equals an input that holds no space |
| Strings.RemoveSpacesAppend | fontname-from-filename.py:71-74 | removing spaces distributes over concatenation |
| Strings.RemoveSpacesAround | fontname-from-filename.py:71-74 | removing spaces from `a b` gives the space-free `a` followed by the space-free `b` |
| Strings.RemoveSpacesKeepsOthers | fontname-from-filename.py:71-74 | every character other than a space keeps its number of occurrences |
| Strings.Split | fontname-from-filename.py:67 | there is at least one word, no word holds a space, and there is exactly one word when the string has no space |
| Strings.JoinSplit | fontname-from-filename.py:67-73 | joining the words of a split with single spaces gives back the string |
| Strings.SplitPrefix | fontname-from-filename.py:67 | a space-free prefix is glued onto the first word of the split |
| Strings.SplitJoin | fontname-from-filename.py:67-73 | splitting a join of space-free words gives back those words |
| Strings.JoinAppend | fontname-from-filename.py:70-73 | joining two non-empty word lists equals joining each and putting a space between |
| Strings.SplitOnceAgrees | fontnameFromFilename.py:93-97 | the head of `split(" ", 1)` is the first word of `split(" ")`, and the tail is the join of the remaining words |
| LegacyScript.SplitAndGetDataFromFontname | fontnameFromFilename.py:85-104 | a path error propagates; otherwise the parse fails (IndexError) exactly when the name has no space; on success the family is space-free and equals its space-free copy, family + space + variant is the name, and the variant's copy is the variant without spaces |
| NameTable.Views | fontnameFromFilename.py:57 | the contents of the record list, one per record, in order |
| NameTable.RenameRecord | fontname-from-filename.py:97-104 | a record's text becomes the family, variant, full or PostScript name for nameID 1, 2, 4 or 6 and is unchanged otherwise |
| LegacyScript.RenameSingleFont | fontnameFromFilename.py:66-82 | the records afterwards are exactly `RewriteAll` of their old contents with family, variant, `family variant` and `nospacesFamily-nospacesVariant` |
| NameTable.RewriteAll | fontname-from-filename.py:96-104 | the rewrite keeps the number of records |
| NameTable.RewriteAllAt | fontname-from-filename.py:96-104 | the rewrite treats each record on its own, at the same position |
| NameTable.RewriteAllSpec | fontname-from-filename.py:96-104 | every record keeps nameID, platform, encoding and language; nameID 1/2/4/6 records hold the family, subfamily, full and PostScript names whatever their platform; all other records are unchanged |
| NameTable.RewriteAllConsistent | fontname-from-filename.py:86-87 | records sharing a rewritten nameID (one per encoding) end with the same text |
| NameTable.RewriteAllIdempotent | fontname-from-filename.py:96-104 | renaming twice with the same names equals renaming once |
| LegacyScript.NamesFromPath | fontnameFromFilename.py:71-104 | for an accepted, parsed path the names are: the text before the first space, the text after it, the whole name, and the head + `-` + the space-free tail, which holds no space |
| LegacyScript.RenamedFromPath | fontnameFromFilename.py:66-104 | after a rename driven by a parsed path, every nameID 1/2/4/6 record holds the head, the tail, the whole name, and the space-free PostScript name |
| Script.GetBasenameIfValid | fontname-from-filename.py:107-113 | success: the basename is the result plus `.ttf` or `.otf`, and the result holds no `/` and has a non-dot character; failure: the error names the whole path |
| Script.SplitFontname | fontname-from-filename.py:67-74 | both space-free copies are the family and variant with their spaces removed, and hold no space |
| Script.FamilyIsLeadingWords | fontname-from-filename.py:67-73 | the family's words are the name's first `familyWordCount` words (or all of them); leftover words are exactly the variant's words |
| Script.SplitFontnameRoundTrip | fontname-from-filename.py:67-73 | with more words than the family takes, family + space + variant is the name |
| Script.ShortNameHasEmptyVariant | fontname-from-filename.py:69-73 | with no more words than the family takes (fewer too), parsing still succeeds: the family is the whole name and the variant is empty |
| Script.FourWordsOneFamilyWord | fontname-from-filename.py:67-94 | for four space-free words and one family word (like `Roboto Mono Bold Italic`), the family is the first word, the variant the other three, and the PostScript name is `a-bcd` |
| Script.RemoveSpacesThreeWords | fontname-from-filename.py:73-74 | dropping the spaces of three space-free words joined by spaces gives their concatenation |
| Script.FourWordsTwoFamilyWords | fontname-from-filename.py:67-94 | for four space-free words and two family words, the family is `a b`, the variant `c d`, and the PostScript name is `ab-cd` |
| Script.FirstWordIsFamily | fontname-from-filename.py:21 | with one family word, the family is the first word; a name with a space is rebuilt from family + space + variant, and one without is all family with an empty variant |
| Script.SplitAndGetDataFromFontname | fontname-from-filename.py:58-80 | succeeds exactly when the path is accepted, with the error naming the path otherwise; the family is the first word and holds no space; the round trip or the empty variant holds as above |
| Script.RenameSingleFont | fontname-from-filename.py:83-104 | the records afterwards are exactly `RewriteAll` of their old contents with the dict's family, variant, `family variant` and `nospaces_family-nospaces_variant` |
| Script.EmptyVariantNames | fontname-from-filename.py:91-94 | with an empty variant, the full name keeps a trailing space and the PostScript name a trailing hyphen |
| Script.NamesFromPath | fontname-from-filename.py:64-94 | for an accepted path the names are: the first word, the other words joined by spaces, the name (with a trailing space when it holds no space), and the first word + `-` + the other words without spaces, which holds no space |
| Script.RenamedFromPath | fontname-from-filename.py:58-104 | after a rename driven by an accepted path, nameID 1 holds the first word, nameID 2 the remaining words joined by spaces, nameID 4 the name (with a trailing space when it has no space), and nameID 6 the first word, `-` and the remaining words without spaces, which holds no space |
| Versions.ScriptsAgree | fontname-from-filename.py:64-74 | both scripts accept the same paths with the same name; where the older parse succeeds, the newer gives the same four strings and names; where the older fails for want of a space, the newer succeeds with an empty variant |

## Left out

- `main` and `_writeNoArgsError` are not modelled: argument handling, the loop over paths, messages on standard error, and `sys.exit`. The model represents a stop with an error as an `Err` result.
- `_fileExists` is not modelled, because it queries the file system.
- Loading and saving fonts through fontTools is not modelled (`TTFont`, `the_font['name'].names`, `save`), nor the older script's `_makeNameRecords` wrapper. The record list is an input.
- The wording of error messages is not modelled. Errors carry only the text they name. The newer script's handler formats its message with `{e:!s}`; that handler cannot be reached, because slicing never raises `IndexError`.
- Windows paths are not modelled. `os.path` is modelled in its POSIX form only: `/` is the separator and there is no drive or alternate separator.
- The newer script's result dict is modelled as a record with four fields. Its keys are always exactly `family`, `nospaces_family`, `variant` and `nospaces_variant`.
- The records' `string` attribute is called `text`, because `string` is a type name in Dafny.
- Script.SplitAndGetDataFromFontname: a name with fewer words than `FONT_FAMILY_WORD_COUNT` is not rejected. The slice clamps, so the family is the whole name and the variant is empty.
- Script.FourWordsOneFamilyWord: concrete filenames such as `Roboto Mono Bold Italic` and `Inter.ttf` are stated over any space-free words, not as string literals. `Script.EmptyVariantNames` covers the `Inter` case.
- The encodings of record text are not modelled. Names are character sequences.
