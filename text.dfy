/**
 * The two string operations the schema layer relies on: Python's `str.strip()`
 * and `re.split(r',\s+', s)`, written directly over character sequences.
 */
module Text {

  /** Python's `str.isspace()` for one character; the regex class `\s` on str
      patterns matches exactly the same characters. */
  predicate IsSpace(c: char) {
    ('\t' <= c <= '\r') || ('\U{1C}' <= c <= ' ') || c == '\U{85}' || c == '\U{A0}'
    || c == '\U{1680}' || ('\U{2000}' <= c <= '\U{200A}') || c == '\U{2028}' || c == '\U{2029}'
    || c == '\U{202F}' || c == '\U{205F}' || c == '\U{3000}'
  }

  predicate AllSpace(s: string) {
    forall k | 0 <= k < |s| :: IsSpace(s[k])
  }

  // ---------------------------------------------------------------- strip

  /** The end of the run of whitespace starting at `from`: where `lstrip` (and a
      greedy `\s+`) stops. */
  function SpaceRunEnd(s: string, from: nat): (j: nat)
    requires from <= |s|
    ensures from <= j <= |s|
    ensures forall k | from <= k < j :: IsSpace(s[k])
    ensures j == |s| || !IsSpace(s[j])
    decreases |s| - from
  {
    if from < |s| && IsSpace(s[from]) then SpaceRunEnd(s, from + 1) else from
  }

  /** The start of the run of whitespace ending at `upto`: where `rstrip` stops. */
  function SpaceRunStart(s: string, upto: nat): (i: nat)
    requires upto <= |s|
    ensures i <= upto
    ensures forall k | i <= k < upto :: IsSpace(s[k])
    ensures i == 0 || !IsSpace(s[i - 1])
  {
    if upto > 0 && IsSpace(s[upto - 1]) then SpaceRunStart(s, upto - 1) else upto
  }

  /** `s.strip()`: what is left of `s` once the leading and the trailing
      whitespace are dropped. The result neither starts nor ends with
      whitespace, is empty exactly when `s` is all whitespace, and otherwise is
      the infix of `s` outside of which every character is whitespace. */
  function Strip(s: string): (r: string)
    ensures r == [] || (!IsSpace(r[0]) && !IsSpace(r[|r| - 1]))
    ensures r == [] <==> AllSpace(s)
    ensures r != [] ==>
      var i, j := SpaceRunEnd(s, 0), SpaceRunStart(s, |s|);
      i < j && r == s[i..j]
      && (forall k | 0 <= k < i :: IsSpace(s[k]))
      && (forall k | j <= k < |s| :: IsSpace(s[k]))
  {
    var i := SpaceRunEnd(s, 0);
    if i == |s| then [] else
      var j := SpaceRunStart(s, |s|);
      assert !IsSpace(s[i]);
      assert i < j;
      s[i..j]
  }

  /** A string without surrounding whitespace is its own strip. */
  lemma StripIdentity(s: string)
    requires s == [] || (!IsSpace(s[0]) && !IsSpace(s[|s| - 1]))
    ensures Strip(s) == s
  {
  }

  // ---------------------------------------------------------------- re.split(r',\s+', s)

  /** The pattern `,\s+` can start matching at index `i`. */
  predicate SeparatorAt(s: string, i: int) {
    0 <= i && i + 1 < |s| && s[i] == ',' && IsSpace(s[i + 1])
  }

  predicate HasSeparator(s: string) {
    exists i | 0 <= i < |s| :: SeparatorAt(s, i)
  }

  /** A whole match of `,\s+`: a comma and then one or more whitespace characters. */
  predicate IsSeparator(t: string) {
    |t| >= 2 && t[0] == ',' && AllSpace(t[1..])
  }

  /** The leftmost index at or after `from` where a match starts, or `|s|`. */
  function FindSeparator(s: string, from: nat): (i: nat)
    requires from <= |s|
    ensures from <= i <= |s|
    ensures i < |s| ==> SeparatorAt(s, i)
    ensures forall k | from <= k < i :: !SeparatorAt(s, k)
    decreases |s| - from
  {
    if from == |s| then |s|
    else if SeparatorAt(s, from) then from
    else FindSeparator(s, from + 1)
  }

  /** The pieces `re.split` returns, with the separators it matched between them. */
  datatype Pieces = Pieces(parts: seq<string>, seps: seq<string>)

  /** `re.split(r',\s+', s)`: scan left to right for the leftmost match, let `\s+`
      take the whole whitespace run, cut, and go on after the match. */
  function SplitWithSeparators(s: string): (p: Pieces)
    ensures |p.parts| == |p.seps| + 1
    ensures p.parts[0] <= s
    decreases |s|
  {
    var i := FindSeparator(s, 0);
    if i == |s| then Pieces([s], [])
    else
      var j := SpaceRunEnd(s, i + 1);
      var rest := SplitWithSeparators(s[j..]);
      Pieces([s[..i]] + rest.parts, [s[i..j]] + rest.seps)
  }

  function ReSplit(s: string): (r: seq<string>)
    ensures |r| >= 1 && r[0] <= s
  {
    SplitWithSeparators(s).parts
  }

  /** Puts the pieces back together with the separators between them. */
  function Join(parts: seq<string>, seps: seq<string>): string
    requires |parts| == |seps| + 1
    decreases |seps|
  {
    if seps == [] then parts[0] else parts[0] + seps[0] + Join(parts[1..], seps[1..])
  }

  ghost predicate AllSeparators(seps: seq<string>) {
    forall k | 0 <= k < |seps| :: IsSeparator(seps[k])
  }

  ghost predicate NoPartHasSeparator(parts: seq<string>) {
    forall k | 0 <= k < |parts| :: !HasSeparator(parts[k])
  }

  /** Every piece after the first is empty or starts with a non-whitespace character. */
  ghost predicate LaterPartsStartClean(parts: seq<string>) {
    forall k | 1 <= k < |parts| :: parts[k] == [] || !IsSpace(parts[k][0])
  }

  /** What `re.split(r',\s+', s)` guarantees about its pieces: they and the
      matched separators rebuild `s`; no piece contains a match (leftmost
      matching); no piece after a separator starts with whitespace (`\s+` is
      greedy). */
  ghost predicate IsRegexSplit(s: string, p: Pieces) {
    && |p.parts| == |p.seps| + 1
    && Join(p.parts, p.seps) == s
    && AllSeparators(p.seps)
    && NoPartHasSeparator(p.parts)
    && LaterPartsStartClean(p.parts)
  }

  lemma PrefixBeforeFirstMatch(s: string, i: nat)
    requires i <= |s|
    requires forall k | 0 <= k < i :: !SeparatorAt(s, k)
    ensures !HasSeparator(s[..i])
  {
    forall k | 0 <= k < i ensures !SeparatorAt(s[..i], k) {
      assert !SeparatorAt(s, k);
    }
  }

  lemma MatchIsSeparator(s: string, i: nat, j: nat)
    requires SeparatorAt(s, i) && i + 1 < j <= |s|
    requires forall k | i + 1 <= k < j :: IsSpace(s[k])
    ensures IsSeparator(s[i..j])
  {
    assert s[i..j][1..] == s[i + 1..j];
  }

  lemma ConsParts(head: string, sep: string, tail: Pieces)
    requires |tail.parts| == |tail.seps| + 1
    requires IsSeparator(sep) && AllSeparators(tail.seps)
    requires !HasSeparator(head) && NoPartHasSeparator(tail.parts)
    requires LaterPartsStartClean(tail.parts)
    requires tail.parts[0] == [] || !IsSpace(tail.parts[0][0])
    ensures AllSeparators([sep] + tail.seps)
    ensures NoPartHasSeparator([head] + tail.parts)
    ensures LaterPartsStartClean([head] + tail.parts)
  {
    var parts, seps := [head] + tail.parts, [sep] + tail.seps;
    forall k | 1 <= k < |seps| ensures IsSeparator(seps[k]) { assert seps[k] == tail.seps[k - 1]; }
    forall k | 1 <= k < |parts| ensures !HasSeparator(parts[k]) { assert parts[k] == tail.parts[k - 1]; }
    forall k | 1 <= k < |parts| ensures parts[k] == [] || !IsSpace(parts[k][0]) {
      assert parts[k] == tail.parts[k - 1];
    }
  }

  /** `re.split(r',\s+', s)` produces a regex split of `s`. */
  lemma {:induction false} SplitIsRegexSplit(s: string)
    ensures IsRegexSplit(s, SplitWithSeparators(s))
    decreases |s|
  {
    var i := FindSeparator(s, 0);
    if i == |s| {
      PrefixBeforeFirstMatch(s, |s|);
      assert s[..|s|] == s;
    } else {
      var j := SpaceRunEnd(s, i + 1);
      SplitIsRegexSplit(s[j..]);
      SplitStep(s, i, j);
    }
  }

  /** One cut of the split: the piece before the first match, the match, and
      a regex split of what follows make a regex split of the whole. */
  lemma SplitStep(s: string, i: nat, j: nat)
    requires i == FindSeparator(s, 0) && i < |s|
    requires i + 1 <= |s| && j == SpaceRunEnd(s, i + 1)
    requires IsRegexSplit(s[j..], SplitWithSeparators(s[j..]))
    ensures IsRegexSplit(s, SplitWithSeparators(s))
  {
    var rest := SplitWithSeparators(s[j..]);
    assert SplitWithSeparators(s) == Pieces([s[..i]] + rest.parts, [s[i..j]] + rest.seps);
    SplitStepPieces(s, i, j, rest);
    JoinCons(s[..i], s[i..j], rest.parts, rest.seps);
    ThreeSlices(s, i, j);
  }

  lemma ThreeSlices(s: string, i: nat, j: nat)
    requires i <= j <= |s|
    ensures s == s[..i] + s[i..j] + s[j..]
  {
  }

  lemma SplitStepPieces(s: string, i: nat, j: nat, rest: Pieces)
    requires i == FindSeparator(s, 0) && i < |s|
    requires i + 1 <= |s| && j == SpaceRunEnd(s, i + 1)
    requires rest == SplitWithSeparators(s[j..]) && IsRegexSplit(s[j..], rest)
    ensures AllSeparators([s[i..j]] + rest.seps)
    ensures NoPartHasSeparator([s[..i]] + rest.parts)
    ensures LaterPartsStartClean([s[..i]] + rest.parts)
  {
    PrefixBeforeFirstMatch(s, i);
    MatchIsSeparator(s, i, j);
    assert rest.parts[0] == [] || !IsSpace(rest.parts[0][0]) by {
      if rest.parts[0] != [] { assert rest.parts[0][0] == s[j..][0] == s[j]; }
    }
    ConsParts(s[..i], s[i..j], rest);
  }

  lemma JoinCons(head: string, sep: string, parts: seq<string>, seps: seq<string>)
    requires |parts| == |seps| + 1
    ensures Join([head] + parts, [sep] + seps) == head + sep + Join(parts, seps)
  {
    assert ([head] + parts)[1..] == parts && ([sep] + seps)[1..] == seps;
  }

  /** Splitting leaves exactly one piece iff the input holds no match. */
  lemma SplitSingle(s: string)
    ensures ReSplit(s) == [s] <==> !HasSeparator(s)
  {
    var i := FindSeparator(s, 0);
    if i < |s| {
      assert SeparatorAt(s, i);
      assert |ReSplit(s)| >= 2;
    }
  }

  /** A string made of separator-joined pieces starts cleanly if its first piece does. */
  lemma JoinStartsClean(parts: seq<string>, seps: seq<string>)
    requires |parts| == |seps| + 1
    requires forall k | 0 <= k < |seps| :: IsSeparator(seps[k])
    requires parts[0] == [] || !IsSpace(parts[0][0])
    ensures Join(parts, seps) == [] || !IsSpace(Join(parts, seps)[0])
  {
    if seps != [] {
      if parts[0] == [] {
        assert Join(parts, seps)[0] == seps[0][0];
      } else {
        assert Join(parts, seps)[0] == parts[0][0];
      }
    }
  }

  /** The first match in `head + sep + rest` is the separator `sep`. */
  lemma FirstMatchAfterHead(s: string, head: string, sep: string, rest: string)
    requires s == head + sep + rest
    requires !HasSeparator(head) && IsSeparator(sep)
    ensures FindSeparator(s, 0) == |head|
  {
    var a := |head|;
    assert SeparatorAt(s, a) by { assert s[a] == sep[0] && s[a + 1] == sep[1..][0]; }
    forall k | 0 <= k < a ensures !SeparatorAt(s, k) {
      if k + 1 < a {
        assert s[..a] == head;
        assert SeparatorAt(s, k) ==> SeparatorAt(head, k);
      } else {
        assert s[k + 1] == s[a];
      }
    }
  }

  /** The whitespace run after the comma of `sep` ends where `sep` does. */
  lemma RunEndsAfterSeparator(s: string, head: string, sep: string, rest: string)
    requires s == head + sep + rest
    requires IsSeparator(sep) && (rest == [] || !IsSpace(rest[0]))
    ensures SpaceRunEnd(s, |head| + 1) == |head| + |sep|
  {
    var a, b := |head|, |head| + |sep|;
    forall k | a + 1 <= k < b ensures IsSpace(s[k]) {
      assert s[k] == sep[1..][k - a - 1];
    }
    assert b == |s| || !IsSpace(s[b]) by {
      if b < |s| { assert s[b] == rest[0]; }
    }
  }

  lemma TailIsRegexSplit(s: string, p: Pieces)
    requires IsRegexSplit(s, p) && p.seps != []
    ensures IsRegexSplit(Join(p.parts[1..], p.seps[1..]), Pieces(p.parts[1..], p.seps[1..]))
  {
    var tail := Pieces(p.parts[1..], p.seps[1..]);
    forall k | 1 <= k < |tail.parts| ensures tail.parts[k] == [] || !IsSpace(tail.parts[k][0]) {
      assert tail.parts[k] == p.parts[k + 1];
    }
    forall k | 0 <= k < |tail.seps| ensures IsSeparator(tail.seps[k]) {
      assert tail.seps[k] == p.seps[k + 1];
    }
    forall k | 0 <= k < |tail.parts| ensures !HasSeparator(tail.parts[k]) {
      assert tail.parts[k] == p.parts[k + 1];
    }
  }

  /** The regex split is the only decomposition with the properties of
      IsRegexSplit, so those properties specify `re.split(r',\s+', s)` fully. */
  lemma {:induction false} SplitUnique(s: string, p: Pieces)
    requires IsRegexSplit(s, p)
    ensures p == SplitWithSeparators(s)
    decreases |p.seps|
  {
    if p.seps == [] {
      assert s == p.parts[0];
      assert !HasSeparator(s);
      var i := FindSeparator(s, 0);
      assert i < |s| ==> SeparatorAt(s, i);
    } else {
      var head, sep := p.parts[0], p.seps[0];
      var tail := Pieces(p.parts[1..], p.seps[1..]);
      var rest := Join(tail.parts, tail.seps);
      assert s == head + sep + rest;
      TailIsRegexSplit(s, p);
      assert IsSeparator(sep) && !HasSeparator(head);
      FirstMatchAfterHead(s, head, sep, rest);
      assert tail.parts[0] == p.parts[1];
      JoinStartsClean(tail.parts, tail.seps);
      RunEndsAfterSeparator(s, head, sep, rest);
      var a, b := |head|, |head| + |sep|;
      assert s[..a] == head && s[a..b] == sep && s[b..] == rest;
      SplitUnique(rest, tail);
      assert p.parts == [head] + tail.parts && p.seps == [sep] + tail.seps;
    }
  }
}
