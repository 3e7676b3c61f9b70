/** Splitting the formatted label text into display lines: the maximal runs of
    characters other than CR and LF (what `text.match(/[^\r\n]+/g)` returns),
    each trimmed of surrounding white space; a text with no such run cannot be
    shown. */
module TextLines {
  import opened Wrappers

  /** The error raised when the text has nothing to show ("No text to show."). */
  datatype LabelError = NoTextToShow

  predicate IsLineBreak(c: char)
  {
    c == '\r' || c == '\n'
  }

  /** The characters `String.prototype.trim` removes: ECMAScript white space
      (tab, vertical tab, form feed, the Unicode space separators, the byte
      order mark) and line terminators. */
  predicate IsSpace(c: char)
  {
    c == '\t' || c == '\U{000B}' || c == '\U{000C}' || c == ' ' || c == '\U{00A0}'
    || c == '\U{1680}' || ('\U{2000}' <= c <= '\U{200A}') || c == '\U{202F}'
    || c == '\U{205F}' || c == '\U{3000}' || c == '\U{FEFF}'
    || c == '\n' || c == '\r' || c == '\U{2028}' || c == '\U{2029}'
  }

  predicate NoLineBreak(s: string)
  {
    forall i :: 0 <= i < |s| ==> !IsLineBreak(s[i])
  }

  /** Length of the leading run of non-break characters. */
  function RunLength(s: string): (n: nat)
    ensures n <= |s|
    ensures NoLineBreak(s[..n])
    ensures n < |s| ==> IsLineBreak(s[n])
  {
    if s == [] || IsLineBreak(s[0]) then 0
    else
      var m := RunLength(s[1..]);
      assert s[1..][..m] == s[1..m + 1];
      1 + m
  }

  /** The maximal non-empty runs of non-break characters, in order. */
  function Runs(s: string): (rs: seq<string>)
    decreases |s|
    ensures |rs| <= |s|
  {
    if s == [] then []
    else if IsLineBreak(s[0]) then Runs(s[1..])
    else
      var n := RunLength(s);
      [s[..n]] + Runs(s[n..])
  }

  /** Every run is non-empty and holds no line break. */
  lemma {:induction false} RunsAreLines(s: string)
    decreases |s|
    ensures forall k :: 0 <= k < |Runs(s)| ==> Runs(s)[k] != [] && NoLineBreak(Runs(s)[k])
  {
    if s == [] {
    } else if IsLineBreak(s[0]) {
      RunsAreLines(s[1..]);
    } else {
      RunsAreLines(s[RunLength(s)..]);
    }
  }

  /** There is no run exactly when every character is a line break. */
  lemma {:induction false} RunsEmptyIff(s: string)
    decreases |s|
    ensures Runs(s) == [] <==> forall i :: 0 <= i < |s| ==> IsLineBreak(s[i])
  {
    if s != [] && IsLineBreak(s[0]) {
      RunsEmptyIff(s[1..]);
      if forall i :: 0 <= i < |s[1..]| ==> IsLineBreak(s[1..][i]) {
        forall i | 0 <= i < |s| ensures IsLineBreak(s[i]) {
          if i > 0 { assert s[i] == s[1..][i - 1]; }
        }
      }
    }
  }

  /** A non-empty text without line breaks is a single run... */
  lemma RunsOfLine(s: string)
    requires s != [] && NoLineBreak(s)
    ensures Runs(s) == [s]
  {
    assert RunLength(s) == |s|;
    assert s[..|s|] == s;
  }

  /** ...and a line break splits the runs: together with `Runs([]) == []` these
      two facts determine `Runs` on every text. */
  lemma {:induction false} RunsSplit(a: string, b: char, c: string)
    requires IsLineBreak(b)
    decreases |a|
    ensures Runs(a + [b] + c) == Runs(a) + Runs(c)
  {
    var s := a + [b] + c;
    if a == [] {
      assert s[1..] == c;
    } else if IsLineBreak(a[0]) {
      assert s[1..] == a[1..] + [b] + c;
      RunsSplit(a[1..], b, c);
    } else {
      var n := RunLength(s);
      var m := RunLength(a);
      assert s == a + ([b] + c);
      RunLengthPrefix(a, [b] + c);
      assert n == m;
      assert s[..n] == a[..m];
      assert s[n..] == a[m..] + [b] + c;
      RunsSplit(a[m..], b, c);
    }
  }

  /** The leading run of `a + t` stops inside `a` when `t` starts with a break. */
  lemma {:induction false} RunLengthPrefix(a: string, t: string)
    requires t != [] && IsLineBreak(t[0])
    decreases |a|
    ensures RunLength(a + t) == RunLength(a)
  {
    if a != [] && !IsLineBreak(a[0]) {
      assert (a + t)[1..] == a[1..] + t;
      RunLengthPrefix(a[1..], t);
    } else if a == [] {
      assert a + t == t;
    }
  }

  /** Leading white space removed. */
  function TrimStart(s: string): (r: string)
    ensures |r| <= |s| && r == s[|s| - |r|..]
    ensures forall i :: 0 <= i < |s| - |r| ==> IsSpace(s[i])
    ensures r == [] || !IsSpace(r[0])
  {
    if s != [] && IsSpace(s[0]) then TrimStart(s[1..]) else s
  }

  /** Trailing white space removed. */
  function TrimEnd(s: string): (r: string)
    ensures |r| <= |s| && r == s[..|r|]
    ensures forall i :: |r| <= i < |s| ==> IsSpace(s[i])
    ensures r == [] || !IsSpace(r[|r| - 1])
  {
    if s != [] && IsSpace(s[|s| - 1]) then TrimEnd(s[..|s| - 1]) else s
  }

  /** `String.prototype.trim`. */
  function Trim(s: string): (r: string)
    ensures |r| <= |s|
  {
    TrimEnd(TrimStart(s))
  }

  /** `Trim` keeps a contiguous middle part of the text, starting after the
      leading white space, and drops only white space on either side. */
  lemma TrimKeepsMiddle(s: string)
    ensures var i := |s| - |TrimStart(s)|; var r := Trim(s);
      0 <= i <= i + |r| <= |s| && r == s[i..i + |r|]
      && (forall k :: 0 <= k < i ==> IsSpace(s[k]))
      && (forall k :: i + |r| <= k < |s| ==> IsSpace(s[k]))
  {
    var t := TrimStart(s);
    var r := TrimEnd(t);
    var i := |s| - |t|;
    SliceOfSuffix(s, i, |r|);
    SpacesAfterPrefix(s, i, |r|);
  }

  lemma SliceOfSuffix(s: string, i: nat, m: nat)
    requires i + m <= |s|
    ensures s[i..][..m] == s[i..i + m]
  {
  }

  lemma SpacesAfterPrefix(s: string, i: nat, m: nat)
    requires i + m <= |s|
    requires forall k :: m <= k < |s[i..]| ==> IsSpace(s[i..][k])
    ensures forall k :: i + m <= k < |s| ==> IsSpace(s[k])
  {
    forall k | i + m <= k < |s| ensures IsSpace(s[k]) {
      assert s[k] == s[i..][k - i];
    }
  }

  /** What `Trim` keeps neither starts nor ends with white space. */
  lemma TrimmedEnds(s: string)
    ensures Trim(s) == [] || (!IsSpace(Trim(s)[0]) && !IsSpace(Trim(s)[|Trim(s)| - 1]))
  {
    var t := TrimStart(s);
    var r := TrimEnd(t);
    if r != [] {
      assert r == t[..|r|];
      assert r[0] == t[0];
    }
  }

  /** Trimming twice is trimming once. */
  lemma TrimIdempotent(s: string)
    ensures Trim(Trim(s)) == Trim(s)
  {
    TrimmedEnds(s);
    var r := Trim(s);
    assert TrimStart(r) == r;
    assert TrimEnd(r) == r;
  }

  /** `text.match(/[^\r\n]+/g)` followed by the loop that trims every match in
      place; fails exactly when the text consists of line breaks only. */
  method ExtractLines(text: string) returns (r: Result<seq<string>, LabelError>)
    ensures r.Err? <==> forall i :: 0 <= i < |text| ==> IsLineBreak(text[i])
    ensures r.Err? ==> r.error == NoTextToShow
    ensures r.Ok? ==> |r.value| == |Runs(text)| > 0
    ensures r.Ok? ==> forall k :: 0 <= k < |r.value| ==> r.value[k] == Trim(Runs(text)[k])
  {
    RunsEmptyIff(text);
    var lines := Runs(text);
    if |lines| == 0 {
      return Err(NoTextToShow);
    }
    var i := 0;
    while i < |lines|
      invariant 0 <= i <= |lines| == |Runs(text)|
      invariant forall k :: 0 <= k < i ==> lines[k] == Trim(Runs(text)[k])
      invariant forall k :: i <= k < |lines| ==> lines[k] == Runs(text)[k]
    {
      lines := lines[i := Trim(lines[i])];
      i := i + 1;
    }
    return Ok(lines);
  }

  /** Every stored line is a trimmed run: it holds no line break. */
  lemma TrimmedRunsHaveNoBreak(text: string, k: nat)
    requires k < |Runs(text)|
    ensures NoLineBreak(Trim(Runs(text)[k]))
  {
    RunsAreLines(text);
    var run := Runs(text)[k];
    assert NoLineBreak(run);
    TrimKeepsMiddle(run);
    NoBreakInSlice(run, |run| - |TrimStart(run)|, |Trim(run)|);
  }

  lemma NoBreakInSlice(s: string, i: nat, m: nat)
    requires i + m <= |s| && NoLineBreak(s)
    ensures NoLineBreak(s[i..i + m])
  {
    var t := s[i..i + m];
    forall j | 0 <= j < |t| ensures !IsLineBreak(t[j]) {
      assert t[j] == s[i + j];
    }
  }
}
