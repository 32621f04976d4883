/**
 * The parts of Python's `os.path` (POSIX flavour, separator `/`, extension
 * separator `.`) that both scripts use to turn a path into a font name:
 * `str.rfind`, `basename` and `splitext`.
 */
module PosixPath {

  /** `s.rfind(c)`: the index of the last `c` in `s`, or -1 when there is none. */
  function LastIndex(s: string, c: char): (i: int)
    ensures -1 <= i < |s|
    ensures i >= 0 ==> s[i] == c
    ensures forall k :: i < k < |s| ==> s[k] != c
  {
    if |s| == 0 then -1
    else if s[|s| - 1] == c then |s| - 1
    else LastIndex(s[..|s| - 1], c)
  }

  /** `os.path.basename(p)`: the text after the last `/`. */
  function Basename(p: string): (b: string)
    ensures '/' !in b
    ensures |b| <= |p| && p[|p| - |b|..] == b
    ensures |b| < |p| ==> p[|p| - |b| - 1] == '/'
  {
    p[LastIndex(p, '/') + 1..]
  }

  /**
   * `os.path.splitext(p)`: the extension starts at the last `.` after the
   * last `/`, unless only dots precede that `.` in the last component, in
   * which case the extension is empty.
   */
  function SplitExt(p: string): (r: (string, string))
    ensures r.0 + r.1 == p
    ensures r.1 != "" ==> r.1[0] == '.' && '.' !in r.1[1..] && '/' !in r.1
    ensures r.1 != "" ==> exists k :: LastIndex(p, '/') < k < |r.0| && r.0[k] != '.'
    ensures r.1 == "" ==> forall k :: LastIndex(p, '/') < k < LastIndex(p, '.') ==> p[k] == '.'
  {
    var sep := LastIndex(p, '/');
    var dot := LastIndex(p, '.');
    if dot > sep && exists k | sep + 1 <= k < dot :: p[k] != '.' then
      (p[..dot], p[dot..])
    else
      (p, "")
  }

  /**
   * On a component without `/`, `splitext` yields the four-character
   * extension `e` exactly when the name ends in `e` and something other than
   * a dot stands before it; the root is then the name without `e`.
   */
  lemma FontExtension(b: string, e: string)
    requires '/' !in b
    requires e == ".ttf" || e == ".otf"
    ensures SplitExt(b).1 == e <==>
              |b| >= 4 && b[|b| - 4..] == e && exists k :: 0 <= k < |b| - 4 && b[k] != '.'
    ensures SplitExt(b).1 == e ==> SplitExt(b).0 == b[..|b| - 4]
    ensures SplitExt(b).1 == e ==> exists k :: 0 <= k < |SplitExt(b).0| && SplitExt(b).0[k] != '.'
  {
    var sep := LastIndex(b, '/');
    assert sep == -1;
    var r := SplitExt(b);
    if r.1 == e {
      assert |r.0| == |b| - 4 && b[..|r.0|] == r.0;
      assert b[|b| - 4..] == e;
    }
    if |b| >= 4 && b[|b| - 4..] == e && exists k :: 0 <= k < |b| - 4 && b[k] != '.' {
      var dot := LastIndex(b, '.');
      assert b[|b| - 4] == e[0] == '.';
      assert b[|b| - 3] == e[1] && b[|b| - 2] == e[2] && b[|b| - 1] == e[3];
      assert dot == |b| - 4;
    }
  }
}
