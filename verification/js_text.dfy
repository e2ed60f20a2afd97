/**
 A small model of the JavaScript string operations the deployment script
 relies on: the whitespace trim of a regular expression `\s`, `split` on a
 one-character separator, and a prefix strip. JavaScript strings are
 sequences of UTF-16 code units, so that is what a `JsString` is here.
 */
module JsText {

  /** An optional value: `None` stands for JavaScript's `undefined`/`null`. */
  datatype Option<+T> = None | Some(value: T)

  /** One UTF-16 code unit. */
  newtype CodeUnit = x: int | 0 <= x < 0x1_0000

  type JsString = seq<CodeUnit>

  const Tab: CodeUnit := 0x09
  const Newline: CodeUnit := 0x0A
  const At: CodeUnit := 0x40
  const Caret: CodeUnit := 0x5E

  /** The code points matched by `\s`: the WhiteSpace and LineTerminator
      productions of ECMAScript (sections 12.2 and 12.3 of ECMA-262). */
  predicate IsWhitespace(c: CodeUnit) {
    || c == 0x09 || c == 0x0A || c == 0x0B || c == 0x0C || c == 0x0D
    || c == 0x20 || c == 0xA0 || c == 0x1680
    || (0x2000 <= c <= 0x200A)
    || c == 0x2028 || c == 0x2029 || c == 0x202F || c == 0x205F
    || c == 0x3000 || c == 0xFEFF
  }

  predicate AllWhitespace(s: JsString) {
    forall i :: 0 <= i < |s| ==> IsWhitespace(s[i])
  }

  /** Length of the longest all-whitespace prefix. */
  function LeadingWhitespace(s: JsString): nat {
    if |s| == 0 || !IsWhitespace(s[0]) then 0
    else 1 + LeadingWhitespace(s[1..])
  }

  /** The prefix it measures is whitespace, and it stops at the first unit
      that is not. */
  lemma {:induction false} LeadingWhitespaceIsMaximal(s: JsString)
    ensures LeadingWhitespace(s) <= |s|
    ensures AllWhitespace(s[..LeadingWhitespace(s)])
    ensures LeadingWhitespace(s) == |s| || !IsWhitespace(s[LeadingWhitespace(s)])
  {
    if |s| > 0 && IsWhitespace(s[0]) {
      LeadingWhitespaceIsMaximal(s[1..]);
      var n := LeadingWhitespace(s);
      assert s[..n] == [s[0]] + s[1..][..n - 1];
    }
  }

  /** Length of the longest all-whitespace suffix. */
  function TrailingWhitespace(s: JsString): nat {
    if |s| == 0 || !IsWhitespace(s[|s| - 1]) then 0
    else 1 + TrailingWhitespace(s[..|s| - 1])
  }

  /** The suffix it measures is whitespace, and it stops at the last unit
      that is not. */
  lemma {:induction false} TrailingWhitespaceIsMaximal(s: JsString)
    ensures TrailingWhitespace(s) <= |s|
    ensures AllWhitespace(s[|s| - TrailingWhitespace(s)..])
    ensures TrailingWhitespace(s) == |s| || !IsWhitespace(s[|s| - TrailingWhitespace(s) - 1])
  {
    if |s| > 0 && IsWhitespace(s[|s| - 1]) {
      var init := s[..|s| - 1];
      TrailingWhitespaceIsMaximal(init);
      var n := TrailingWhitespace(s);
      assert s[|s| - n..] == init[|init| - (n - 1)..] + [s[|s| - 1]];
    }
  }

  /** `r` is what remains of `s` once its leading and trailing whitespace is
      removed: a slice of `s`, everything cut off is whitespace, and `r`
      neither starts nor ends with whitespace. */
  ghost predicate IsTrimOf(r: JsString, s: JsString) {
    && (r == [] || (!IsWhitespace(r[0]) && !IsWhitespace(r[|r| - 1])))
    && exists i :: 0 <= i <= |s| - |r|
         && s[i..i + |r|] == r
         && AllWhitespace(s[..i])
         && AllWhitespace(s[i + |r|..])
  }

  /** `s.replace(/^\s+|\s+$/g, '')`: strip leading and trailing whitespace. */
  function Trim(s: JsString): JsString {
    var a := LeadingWhitespace(s);
    LeadingWhitespaceIsMaximal(s);
    var rest := s[a..];
    var b := TrailingWhitespace(rest);
    TrailingWhitespaceIsMaximal(rest);
    rest[..|rest| - b]
  }

  /** The trim removes exactly the whitespace at both ends. */
  lemma TrimIsTrimOf(s: JsString)
    ensures IsTrimOf(Trim(s), s)
  {
    var a := LeadingWhitespace(s);
    LeadingWhitespaceIsMaximal(s);
    var rest := s[a..];
    var b := TrailingWhitespace(rest);
    TrailingWhitespaceIsMaximal(rest);
    var r := rest[..|rest| - b];
    assert |r| == |s| - a - b;
    assert s[a..a + |r|] == r;
    assert AllWhitespace(s[..a]);
    SuffixOfSlice(s, a, b);
    if r != [] {
      assert r[0] == s[a];
      assert r[|r| - 1] == rest[|rest| - b - 1];
    }
  }

  lemma SuffixOfSlice(s: JsString, a: nat, b: nat)
    requires a <= |s| && b <= |s| - a
    requires AllWhitespace(s[a..][|s| - a - b..])
    ensures AllWhitespace(s[|s| - b..])
  {
    assert s[|s| - b..] == s[a..][|s| - a - b..];
  }

  /** Text made of whitespace alone trims to the empty text. */
  lemma TrimOfBlank(s: JsString)
    requires AllWhitespace(s)
    ensures Trim(s) == []
  {
    TrimIsTrimOf(s);
  }

  lemma {:induction false} TrimIdempotent(s: JsString)
    ensures Trim(Trim(s)) == Trim(s)
  {
    var r := Trim(s);
    TrimIsTrimOf(s);
    if r != [] {
      assert LeadingWhitespace(r) == 0;
      assert TrailingWhitespace(r) == 0;
      assert r[0..][..|r| - 0] == r;
    }
  }

  /** `s.split(sep)` for a one-unit separator: the maximal separator-free
      pieces of `s`, in order. Like JavaScript, the empty string splits into
      one empty piece, and a separator at either end yields an empty piece. */
  function Split(s: JsString, sep: CodeUnit): (parts: seq<JsString>)
    ensures |parts| >= 1
    ensures |parts| == 1 <==> sep !in s
    decreases |s|
  {
    if |s| == 0 then [[]]
    else
      var rest := Split(s[1..], sep);
      if s[0] == sep then [[]] + rest
      else [[s[0]] + rest[0]] + rest[1..]
  }

  /** No piece holds the separator, and every unit of a piece comes from the
      text. */
  lemma {:induction false} SplitPieces(s: JsString, sep: CodeUnit)
    ensures forall k :: 0 <= k < |Split(s, sep)| ==> sep !in Split(s, sep)[k]
    ensures forall k, c :: 0 <= k < |Split(s, sep)| && c in Split(s, sep)[k] ==> c in s
    decreases |s|
  {
    if |s| > 0 {
      SplitPieces(s[1..], sep);
      assert forall c :: c in s[1..] ==> c in s;
      var rest := Split(s[1..], sep);
      var parts := Split(s, sep);
      if s[0] == sep {
        assert parts[1..] == rest;
      } else {
        assert parts[1..] == rest[1..];
      }
    }
  }

  /** `parts.join(sep)`, the inverse of `Split`. */
  function Join(parts: seq<JsString>, sep: CodeUnit): JsString
    requires |parts| >= 1
  {
    if |parts| == 1 then parts[0]
    else parts[0] + [sep] + Join(parts[1..], sep)
  }

  lemma {:induction false} SplitThenJoin(s: JsString, sep: CodeUnit)
    ensures Join(Split(s, sep), sep) == s
    decreases |s|
  {
    if |s| > 0 {
      var rest := Split(s[1..], sep);
      SplitThenJoin(s[1..], sep);
      if s[0] == sep {
        assert Split(s, sep)[1..] == rest;
      } else {
        var parts := Split(s, sep);
        if |rest| == 1 {
          assert parts == [[s[0]] + rest[0]];
        } else {
          assert parts[1..] == rest[1..];
          assert Join(rest, sep) == rest[0] + [sep] + Join(rest[1..], sep);
        }
        assert s == [s[0]] + s[1..];
      }
    }
  }

  /** Splitting a separator-free piece followed by more text. */
  lemma {:induction false} SplitAfterPiece(p: JsString, rest: JsString, sep: CodeUnit)
    requires sep !in p
    ensures Split(p + rest, sep) == [p + Split(rest, sep)[0]] + Split(rest, sep)[1..]
    decreases |p|
  {
    if |p| > 0 {
      assert (p + rest)[1..] == p[1..] + rest;
      SplitAfterPiece(p[1..], rest, sep);
      assert [p[0]] + (p[1..] + Split(rest, sep)[0]) == p + Split(rest, sep)[0];
    } else {
      assert p + rest == rest;
      var parts := Split(rest, sep);
      assert parts == [parts[0]] + parts[1..];
      assert p + parts[0] == parts[0];
    }
  }

  lemma {:induction false} JoinThenSplit(parts: seq<JsString>, sep: CodeUnit)
    requires |parts| >= 1
    requires forall k :: 0 <= k < |parts| ==> sep !in parts[k]
    ensures Split(Join(parts, sep), sep) == parts
    decreases |parts|
  {
    if |parts| == 1 {
      SplitAfterPiece(parts[0], [], sep);
      assert parts[0] + [] == parts[0];
    } else {
      var tail := Join(parts[1..], sep);
      JoinThenSplit(parts[1..], sep);
      assert parts[0] + [sep] + tail == parts[0] + ([sep] + tail);
      SplitAfterPiece(parts[0], [sep] + tail, sep);
      assert ([sep] + tail)[1..] == tail;
      assert Split([sep] + tail, sep) == [[]] + Split(tail, sep);
      assert parts[0] + [] == parts[0];
      assert parts == [parts[0]] + parts[1..];
    }
  }

  predicate StartsWith(s: JsString, prefix: JsString) {
    |prefix| <= |s| && s[..|prefix|] == prefix
  }

  /** `s.replace(/^prefix/g, '')`: the anchored pattern can only match at
      index 0, so at most one copy of `prefix` is removed. */
  function StripPrefix(s: JsString, prefix: JsString): (r: JsString)
    ensures StartsWith(s, prefix) ==> prefix + r == s
    ensures !StartsWith(s, prefix) ==> r == s
  {
    if StartsWith(s, prefix) then s[|prefix|..] else s
  }
}
