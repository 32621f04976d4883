/**
 * The Python string operations the filename parsers use, on a single space
 * separator: `s.split(" ")`, `s.split(" ", 1)`, `" ".join(ts)` and
 * `s.replace(" ", "")`.
 */
module Strings {

  /** `s.replace(" ", "")`: `s` with every space removed. */
  function RemoveSpaces(s: string): (r: string)
    ensures ' ' !in r
    ensures |r| <= |s|
    ensures ' ' !in s ==> r == s
  {
    if s == [] then []
    else (if s[0] == ' ' then [] else [s[0]]) + RemoveSpaces(s[1..])
  }

  /** Removing spaces keeps every other character, in order. */
  lemma {:induction false} RemoveSpacesAppend(a: string, b: string)
    ensures RemoveSpaces(a + b) == RemoveSpaces(a) + RemoveSpaces(b)
  {
    if a == [] {
      assert a + b == b;
    } else {
      assert (a + b)[0] == a[0] && (a + b)[1..] == a[1..] + b;
      RemoveSpacesAppend(a[1..], b);
    }
  }

  /** Removing spaces from two pieces around a space concatenates their space-free forms. */
  lemma RemoveSpacesAround(a: string, b: string)
    ensures RemoveSpaces(a + " " + b) == RemoveSpaces(a) + RemoveSpaces(b)
  {
    RemoveSpacesAppend(a + " ", b);
    RemoveSpacesAppend(a, " ");
    assert RemoveSpaces(" ") == [] + RemoveSpaces(" "[1..]);
    assert " "[1..] == [];
    assert RemoveSpaces(a) + RemoveSpaces(" ") == RemoveSpaces(a);
  }

  /** Removing spaces changes no count of any character but the space. */
  lemma {:induction false} RemoveSpacesKeepsOthers(s: string, c: char)
    requires c != ' '
    ensures multiset(RemoveSpaces(s))[c] == multiset(s)[c]
  {
    if s != [] {
      RemoveSpacesKeepsOthers(s[1..], c);
      assert s == [s[0]] + s[1..];
    }
  }

  /** `s.split(" ")`: the pieces between single spaces, empty pieces included. */
  function Split(s: string): (ts: seq<string>)
    ensures |ts| >= 1
    ensures forall i :: 0 <= i < |ts| ==> ' ' !in ts[i]
    ensures (|ts| == 1) == (' ' !in s)
  {
    if s == [] then [""]
    else
      var rest := Split(s[1..]);
      if s[0] == ' ' then [""] + rest
      else [[s[0]] + rest[0]] + rest[1..]
  }

  /** `" ".join(ts)`; the empty list joins to the empty string. */
  function Join(ts: seq<string>): string
  {
    if ts == [] then ""
    else if |ts| == 1 then ts[0]
    else ts[0] + " " + Join(ts[1..])
  }

  /** Joining the pieces of a split gives the string back. */
  lemma {:induction false} JoinSplit(s: string)
    ensures Join(Split(s)) == s
  {
    if s != [] {
      var rest := Split(s[1..]);
      JoinSplit(s[1..]);
      if s[0] == ' ' {
        assert ([""] + rest)[1..] == rest;
      } else {
        var ts := [[s[0]] + rest[0]] + rest[1..];
        assert ts[1..] == rest[1..];
        if |rest| > 1 {
          assert Join(rest) == rest[0] + " " + Join(rest[1..]);
        }
      }
    }
  }

  /** Splitting a space-free prefix off a string only extends the first piece. */
  lemma {:induction false} SplitPrefix(t: string, s: string)
    requires ' ' !in t
    ensures Split(t + s) == [t + Split(s)[0]] + Split(s)[1..]
  {
    if t == [] {
      assert t + s == s && t + Split(s)[0] == Split(s)[0];
    } else {
      assert (t + s)[0] == t[0] && (t + s)[1..] == t[1..] + s;
      SplitPrefix(t[1..], s);
      assert [t[0]] + (t[1..] + Split(s)[0]) == t + Split(s)[0];
    }
  }

  /** Splitting a join of space-free pieces gives the pieces back. */
  lemma {:induction false} SplitJoin(ts: seq<string>)
    requires |ts| >= 1
    requires forall i :: 0 <= i < |ts| ==> ' ' !in ts[i]
    ensures Split(Join(ts)) == ts
  {
    if |ts| == 1 {
      SplitPrefix(ts[0], "");
      assert ts[0] + "" == ts[0];
    } else {
      SplitJoin(ts[1..]);
      var rest := Join(ts[1..]);
      assert ts[0] + " " + rest == ts[0] + (" " + rest);
      SplitPrefix(ts[0], " " + rest);
      assert (" " + rest)[1..] == rest;
      assert Split(" " + rest) == [""] + ts[1..];
      assert ts[0] + "" == ts[0];
      assert ts == [ts[0]] + ts[1..];
    }
  }

  /** Joining two non-empty lists puts one space between their joins. */
  lemma {:induction false} JoinAppend(a: seq<string>, b: seq<string>)
    requires |a| >= 1 && |b| >= 1
    ensures Join(a + b) == Join(a) + " " + Join(b)
  {
    if |a| > 1 {
      assert (a + b)[1..] == a[1..] + b;
      JoinAppend(a[1..], b);
    } else {
      assert (a + b)[1..] == b;
    }
  }

  /** The index of the first `c` in `s`, or `|s|` when there is none. */
  function FirstIndex(s: string, c: char): (i: nat)
    ensures i <= |s|
    ensures c !in s[..i]
    ensures i < |s| ==> s[i] == c
  {
    if s == [] || s[0] == c then 0
    else
      assert s[1..][..FirstIndex(s[1..], c)] == s[1..1 + FirstIndex(s[1..], c)];
      1 + FirstIndex(s[1..], c)
  }

  /** In a name cut at a space after a space-free head, that space is the first one. */
  lemma FirstSpaceAfterHead(head: string, tail: string)
    requires ' ' !in head
    ensures var s := head + " " + tail;
      FirstIndex(s, ' ') == |head| && s[..|head|] == head && s[|head| + 1..] == tail
  {
    var s := head + " " + tail;
    assert s[|head|] == ' ';
    assert s[..|head|] == head;
  }

  /**
   * `s.split(" ", 1)`: one piece when `s` holds no space, otherwise the text
   * before the first space and everything after it.
   */
  function SplitOnce(s: string): (parts: seq<string>)
    ensures |parts| == 1 || |parts| == 2
    ensures (|parts| == 1) == (' ' !in s)
    ensures |parts| == 1 ==> parts[0] == s
    ensures |parts| == 2 ==> ' ' !in parts[0] && parts[0] + " " + parts[1] == s
  {
    var i := FirstIndex(s, ' ');
    if i == |s| then [s]
    else
      assert s == s[..i] + " " + s[i + 1..];
      [s[..i], s[i + 1..]]
  }

  /** A string splits at most one way into a space-free head, a space and a tail. */
  lemma FirstSpaceUnique(t1: string, u1: string, t2: string, u2: string)
    requires ' ' !in t1 && ' ' !in t2
    requires t1 + " " + u1 == t2 + " " + u2
    ensures t1 == t2 && u1 == u2
  {
    var s := t1 + " " + u1;
    assert s[|t1|] == ' ';
    assert (t2 + " " + u2)[|t2|] == ' ';
    assert t1 == s[..|t1|] == t2;
    assert u1 == s[|t1| + 1..] == u2;
  }

  /**
   * The one-cut split agrees with the full split: its head is the first
   * piece, and its tail is the rest of the pieces rejoined.
   */
  lemma SplitOnceAgrees(s: string)
    ensures SplitOnce(s)[0] == Split(s)[0]
    ensures |SplitOnce(s)| == 2 ==> SplitOnce(s)[1] == Join(Split(s)[1..])
  {
    var ts := Split(s);
    var parts := SplitOnce(s);
    JoinSplit(s);
    if |ts| > 1 {
      assert ' ' !in ts[0];
      assert Join(ts) == ts[0] + " " + Join(ts[1..]);
      FirstSpaceUnique(parts[0], parts[1], ts[0], Join(ts[1..]));
    }
  }
}
