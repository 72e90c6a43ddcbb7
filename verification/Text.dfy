/** The string operations the program leans on, over ASCII letter case. */
module Text {

  /** White space as Go's unicode.IsSpace counts it. */
  predicate GoSpace(c: char) {
    || '\t' <= c <= '\r' || c == ' ' || c == '\U{85}' || c == '\U{A0}'
    || c == '\U{1680}' || '\U{2000}' <= c <= '\U{200A}' || c == '\U{2028}' || c == '\U{2029}'
    || c == '\U{202F}' || c == '\U{205F}' || c == '\U{3000}'
  }

  /** Python's str.isspace adds the four ASCII information separators. */
  predicate PythonSpace(c: char) {
    GoSpace(c) || '\U{1C}' <= c <= '\U{1F}'
  }

  function TrimLeft(space: char -> bool, s: string): string {
    if s != [] && space(s[0]) then TrimLeft(space, s[1..]) else s
  }

  function TrimRight(space: char -> bool, s: string): string {
    if s != [] && space(s[|s| - 1]) then TrimRight(space, s[..|s| - 1]) else s
  }

  function Trim(space: char -> bool, s: string): string {
    TrimRight(space, TrimLeft(space, s))
  }

  /** strings.TrimSpace */
  function GoTrim(s: string): string { Trim(GoSpace, s) }

  /** str.strip */
  function Strip(s: string): string { Trim(PythonSpace, s) }

  predicate Blank(s: string) { Strip(s) == "" }

  function LowerChar(c: char): char {
    if 'A' <= c <= 'Z' then c - 'A' + 'a' else c
  }

  function Lower(s: string): (r: string)
    ensures |r| == |s|
  {
    seq(|s|, i requires 0 <= i < |s| => LowerChar(s[i]))
  }

  predicate OccursAt(s: string, part: string, i: int) {
    0 <= i <= |s| - |part| && s[i..i + |part|] == part
  }

  /** strings.Contains, and Python's in on strings. */
  predicate Contains(s: string, part: string) {
    exists i :: 0 <= i <= |s| - |part| && OccursAt(s, part, i)
  }

  function Join(parts: seq<string>, sep: char): string {
    if parts == [] then []
    else if |parts| == 1 then parts[0]
    else Join(parts[..|parts| - 1], sep) + [sep] + parts[|parts| - 1]
  }

  /** strings.Split and str.split on one character: the pieces between separators. */
  function Split(s: string, sep: char): (r: seq<string>)
    ensures |r| >= 1
  {
    if s == [] then [[]]
    else
      var before, last := Split(s[..|s| - 1], sep), s[|s| - 1];
      if last == sep then before + [[]]
      else before[..|before| - 1] + [before[|before| - 1] + [last]]
  }

  lemma {:induction false} SplitJoins(s: string, sep: char)
    ensures Join(Split(s, sep), sep) == s
  {
    hide Split, Join;
    if s == [] {
      SplitNothing(sep);
    } else {
      var before, last := Split(s[..|s| - 1], sep), s[|s| - 1];
      SplitLast(s, sep);
      SplitJoins(s[..|s| - 1], sep);
      if last == sep {
        JoinSnoc(before, [], sep);
      } else {
        JoinGrowsLast(before, last, sep);
      }
    }
  }

  lemma SplitNothing(sep: char)
    ensures Join(Split([], sep), sep) == []
  {
  }

  lemma SplitLast(s: string, sep: char)
    requires s != []
    ensures var before, last := Split(s[..|s| - 1], sep), s[|s| - 1];
            Split(s, sep) == if last == sep then before + [[]]
                             else before[..|before| - 1] + [before[|before| - 1] + [last]]
  {
  }

  lemma JoinSnoc(parts: seq<string>, last: string, sep: char)
    requires parts != []
    ensures Join(parts + [last], sep) == Join(parts, sep) + [sep] + last
  {
    assert (parts + [last])[..|parts|] == parts;
  }

  /** A character added to the last part is added to the join. */
  lemma JoinGrowsLast(parts: seq<string>, c: char, sep: char)
    requires parts != []
    ensures var n := |parts| - 1;
            Join(parts[..n] + [parts[n] + [c]], sep) == Join(parts, sep) + [c]
  {
    var n := |parts| - 1;
    if n > 0 {
      JoinSnoc(parts[..n], parts[n] + [c], sep);
      assert Join(parts[..n], sep) + [sep] + (parts[n] + [c]) == Join(parts[..n], sep) + [sep] + parts[n] + [c];
    }
  }
}
