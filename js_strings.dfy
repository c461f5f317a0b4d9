/** The two JavaScript string built-ins the add-point form relies on:
    `String.prototype.split` with a one-character separator and
    `String.prototype.trim`. */
module JsStrings {

  /** The characters `trim` removes: the ECMAScript WhiteSpace set (tab, vertical
      tab, form feed, space, no-break space, byte-order mark and the other Unicode
      space separators) and the LineTerminator set. */
  predicate IsJsWhitespace(c: char): (b: bool)
    ensures c == ' ' || c == '\t' || c == '\n' || c == '\r' ==> b
    ensures b ==> c != ',' && !('0' <= c <= '9') && !('a' <= c <= 'z') && !('A' <= c <= 'Z')
  {
    || c == '\t' || c == '\U{000B}' || c == '\U{000C}' || c == ' '
    || c == '\U{00A0}' || c == '\U{FEFF}' || c == '\U{1680}'
    || ('\U{2000}' <= c <= '\U{200A}')
    || c == '\U{202F}' || c == '\U{205F}' || c == '\U{3000}'
    || c == '\n' || c == '\r' || c == '\U{2028}' || c == '\U{2029}'
  }

  /** Number of occurrences of `c` in `s`. */
  function Occurrences(s: string, c: char): nat {
    if s == [] then 0 else (if s[0] == c then 1 else 0) + Occurrences(s[1..], c)
  }

  /** `s.split(sep)`: the maximal pieces between separators, empty pieces kept;
      there is always at least one piece (`"".split(",")` is `[""]`). */
  function Split(s: string, sep: char): (pieces: seq<string>)
    ensures |pieces| >= 1
  {
    if s == [] then [""]
    else
      var rest := Split(s[1..], sep);
      if s[0] == sep then [""] + rest
      else [[s[0]] + rest[0]] + rest[1..]
  }

  /** `pieces.join(sep)`, the inverse of `Split`. */
  function Join(pieces: seq<string>, sep: char): string
    requires |pieces| >= 1
  {
    if |pieces| == 1 then pieces[0] else pieces[0] + [sep] + Join(pieces[1..], sep)
  }

  /** Splitting yields one more piece than there are separators. */
  lemma {:induction false} SplitCount(s: string, sep: char)
    ensures |Split(s, sep)| == Occurrences(s, sep) + 1
  {
    if s != [] {
      SplitCount(s[1..], sep);
    }
  }

  /** No piece contains the separator. */
  lemma {:induction false} SplitPiecesFree(s: string, sep: char)
    ensures forall i :: 0 <= i < |Split(s, sep)| ==> sep !in Split(s, sep)[i]
  {
    if s != [] {
      SplitPiecesFree(s[1..], sep);
      var rest := Split(s[1..], sep);
      if s[0] != sep {
        assert sep !in rest[0];
        assert sep !in [s[0]] + rest[0];
      }
    }
  }

  /** Joining a list with a known first piece. */
  lemma JoinCons(p: string, rest: seq<string>, sep: char)
    requires |rest| >= 1
    ensures Join([p] + rest, sep) == p + [sep] + Join(rest, sep)
  {
    assert ([p] + rest)[1..] == rest;
  }

  /** Putting a character in front of the first piece puts it in front of the join. */
  lemma JoinPrepend(c: char, pieces: seq<string>, sep: char)
    requires |pieces| >= 1
    ensures Join([[c] + pieces[0]] + pieces[1..], sep) == [c] + Join(pieces, sep)
  {
    if |pieces| > 1 {
      JoinCons([c] + pieces[0], pieces[1..], sep);
      assert ([c] + pieces[0]) + [sep] + Join(pieces[1..], sep)
          == [c] + (pieces[0] + [sep] + Join(pieces[1..], sep));
    }
  }

  /** Joining the pieces back restores the input: the pieces are the input's
      segments, complete and in order. */
  lemma {:induction false} SplitJoin(s: string, sep: char)
    ensures Join(Split(s, sep), sep) == s
  {
    if s != [] {
      SplitJoin(s[1..], sep);
      var rest := Split(s[1..], sep);
      if s[0] == sep {
        JoinCons("", rest, sep);
      } else {
        JoinPrepend(s[0], rest, sep);
      }
      assert [s[0]] + s[1..] == s;
    }
  }

  /** Index of the first character of `s` not of class `isSpace` (|s| if none). */
  function TrimStartIndex(s: string, isSpace: char -> bool): (a: nat)
    ensures a <= |s|
    ensures forall k :: 0 <= k < a ==> isSpace(s[k])
    ensures a < |s| ==> !isSpace(s[a])
  {
    if s != [] && isSpace(s[0]) then 1 + TrimStartIndex(s[1..], isSpace) else 0
  }

  /** One past the last character of `s` at or after `lo` not of class
      `isSpace` (`lo` if none). */
  function TrimEndIndex(s: string, lo: nat, isSpace: char -> bool): (e: nat)
    requires lo <= |s|
    ensures lo <= e <= |s|
    ensures forall k :: e <= k < |s| ==> isSpace(s[k])
    ensures e > lo ==> !isSpace(s[e - 1])
  {
    if |s| > lo && isSpace(s[|s| - 1]) then TrimEndIndex(s[..|s| - 1], lo, isSpace) else |s|
  }

  /** `s` with its leading and trailing characters of class `isSpace` removed:
      no longer than `s`, and neither starting nor ending with such a character. */
  function Trim(s: string, isSpace: char -> bool): (r: string)
    ensures |r| <= |s|
    ensures r == [] || (!isSpace(r[0]) && !isSpace(r[|r| - 1]))
  {
    var a := TrimStartIndex(s, isSpace);
    var e := TrimEndIndex(s, a, isSpace);
    assert a < e ==> s[a..e][0] == s[a] && s[a..e][e - a - 1] == s[e - 1];
    s[a..e]
  }

  /** `s.trim()`: what is left keeps no JavaScript whitespace at either end. */
  function JsTrim(s: string): (r: string)
    ensures |r| <= |s|
    ensures r == [] || (!IsJsWhitespace(r[0]) && !IsJsWhitespace(r[|r| - 1]))
  {
    Trim(s, IsJsWhitespace)
  }

  /** Trimming keeps the infix of `s` that follows its leading spaces. */
  lemma TrimIsInfix(s: string, isSpace: char -> bool)
    ensures var r, i := Trim(s, isSpace), TrimStartIndex(s, isSpace);
      i + |r| <= |s| && r == s[i..i + |r|]
  {
    var i := TrimStartIndex(s, isSpace);
    var e := TrimEndIndex(s, i, isSpace);
    assert |Trim(s, isSpace)| == e - i;
  }

  /** Everything trimming removes is space: the characters before the kept
      infix and those after it. */
  lemma TrimRemovesSpaces(s: string, isSpace: char -> bool)
    ensures var r, i := Trim(s, isSpace), TrimStartIndex(s, isSpace);
      && (forall k :: 0 <= k < i ==> isSpace(s[k]))
      && (forall k :: i + |r| <= k < |s| ==> isSpace(s[k]))
  {
    var i := TrimStartIndex(s, isSpace);
    var e := TrimEndIndex(s, i, isSpace);
    assert |Trim(s, isSpace)| == e - i;
  }

  /** Trimming twice is trimming once. */
  lemma TrimIdempotent(s: string, isSpace: char -> bool)
    ensures Trim(Trim(s, isSpace), isSpace) == Trim(s, isSpace)
  {
    var r := Trim(s, isSpace);
    assert TrimStartIndex(r, isSpace) == 0;
    assert TrimEndIndex(r, 0, isSpace) == |r|;
    assert r[0..|r|] == r;
  }

  /** Trimming removes characters only: a character absent from `s` is absent
      from its trim. */
  lemma TrimKeepsAbsent(s: string, isSpace: char -> bool, c: char)
    requires c !in s
    ensures c !in Trim(s, isSpace)
  {
  }
}
