/**
 * How the two scripts relate.
 */
module Versions {
  import opened Results
  import opened Strings
  import LegacyScript
  import Script

  /**
   * Both scripts accept the same paths and derive the same name from them.
   * Wherever the older parser succeeds, the newer one (with one family
   * word) yields the same four strings and so writes the same names; where
   * the older one fails for want of a space, the newer one succeeds with an
   * empty variant.
   */
  lemma ScriptsAgree(fontFilename: string)
    ensures LegacyScript.SimplifyFontPath(fontFilename).Ok? == Script.GetBasenameIfValid(fontFilename).Ok?
    ensures LegacyScript.SimplifyFontPath(fontFilename).Ok? ==>
              LegacyScript.SimplifyFontPath(fontFilename).value == Script.GetBasenameIfValid(fontFilename).value
    ensures var legacy := LegacyScript.SplitAndGetDataFromFontname(fontFilename);
      var current := Script.SplitAndGetDataFromFontname(fontFilename);
      (legacy.Ok? ==>
         current.Ok? &&
         current.value == Script.Fontnames(legacy.value.0, legacy.value.1, legacy.value.2, legacy.value.3) &&
         Script.NamesFor(current.value) == LegacyScript.NamesFor(legacy.value)) &&
      (legacy == Err(IndexOutOfRange) ==> current.Ok? && current.value.variant == "")
  {
    var simplified := LegacyScript.SimplifyFontPath(fontFilename);
    if simplified.Ok? {
      var name := simplified.value;
      var words := Split(name);
      SplitOnceAgrees(name);
      Script.FirstWordIsFamily(name);
      if ' ' in name {
        assert Script.SplitFontname(name, Script.FontFamilyWordCount).variant == Join(words[1..]);
      }
    }
  }
}
