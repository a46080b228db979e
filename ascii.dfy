/**
 * The string primitives the components rely on, restricted to ASCII:
 * `toLowerCase`, `toUpperCase` of one character, `trim` and `includes`.
 * Characters outside ASCII are left unchanged by the case maps and are never white space.
 */
module Ascii {

  /** White space and line terminators removed by `String.prototype.trim`, in their ASCII range. */
  predicate IsSpace(c: char) {
    c == ' ' || c == '\t' || c == '\n' || c == '\U{B}' || c == '\U{C}' || c == '\r'
  }

  predicate AllSpace(s: string) {
    forall i :: 0 <= i < |s| ==> IsSpace(s[i])
  }

  predicate IsUpper(c: char) { 'A' <= c <= 'Z' }

  predicate IsLower(c: char) { 'a' <= c <= 'z' }

  function LowerChar(c: char): char {
    if IsUpper(c) then (c as int + 32) as char else c
  }

  function UpperChar(c: char): char {
    if IsLower(c) then (c as int - 32) as char else c
  }

  /** `s.toLowerCase()`: every character mapped on its own. */
  function ToLower(s: string): (r: string)
    ensures |r| == |s|
    ensures forall i :: 0 <= i < |s| ==> r[i] == LowerChar(s[i])
  {
    seq(|s|, i requires 0 <= i < |s| => LowerChar(s[i]))
  }

  lemma ToLowerIdempotent(s: string)
    ensures ToLower(ToLower(s)) == ToLower(s)
  {
  }

  lemma ToLowerAppend(a: string, b: string)
    ensures ToLower(a + b) == ToLower(a) + ToLower(b)
  {
  }

  /** Lowering leaves white space alone and never creates any. */
  lemma ToLowerKeepsSpace(s: string)
    ensures AllSpace(ToLower(s)) <==> AllSpace(s)
    ensures AllSpace(s) ==> ToLower(s) == s
  {
  }

  /** `s.trimStart()`. */
  function TrimStart(s: string): string {
    if |s| > 0 && IsSpace(s[0]) then TrimStart(s[1..]) else s
  }

  /** `s.trimEnd()`. */
  function TrimEnd(s: string): string {
    if |s| > 0 && IsSpace(s[|s| - 1]) then TrimEnd(s[..|s| - 1]) else s
  }

  /** `trimStart` drops the leading white space and nothing else. */
  lemma {:induction false} TrimStartDrops(s: string)
    ensures |TrimStart(s)| <= |s| && TrimStart(s) == s[|s| - |TrimStart(s)|..]
    ensures TrimStart(s) == [] || !IsSpace(TrimStart(s)[0])
    ensures AllSpace(s[..|s| - |TrimStart(s)|])
  {
    if |s| > 0 && IsSpace(s[0]) {
      TrimStartDrops(s[1..]);
      var k := |s| - |TrimStart(s)|;
      assert s[..k] == [s[0]] + s[1..][..k - 1];
    }
  }

  /** `trimEnd` drops the trailing white space and nothing else. */
  lemma {:induction false} TrimEndDrops(s: string)
    ensures |TrimEnd(s)| <= |s| && TrimEnd(s) == s[..|TrimEnd(s)|]
    ensures TrimEnd(s) == [] || !IsSpace(TrimEnd(s)[|TrimEnd(s)| - 1])
    ensures AllSpace(s[|TrimEnd(s)|..])
  {
    if |s| > 0 && IsSpace(s[|s| - 1]) {
      TrimEndDrops(s[..|s| - 1]);
      var k := |TrimEnd(s)|;
      assert s[k..] == s[..|s| - 1][k..] + [s[|s| - 1]];
    }
  }

  /** `s.trim()`. */
  function Trim(s: string): string {
    TrimEnd(TrimStart(s))
  }

  /** The form every command and message is compared in: `s.toLowerCase().trim()`. */
  function Normalize(s: string): string {
    Trim(ToLower(s))
  }

  /** `!s.trim()`: the string is empty once trimmed. */
  predicate IsBlank(s: string) {
    Trim(s) == []
  }

  lemma {:induction false} TrimStartSkipsSpace(p: string, s: string)
    requires AllSpace(p)
    ensures TrimStart(p + s) == TrimStart(s)
  {
    if p != [] {
      assert (p + s)[0] == p[0] && IsSpace(p[0]);
      assert (p + s)[1..] == p[1..] + s;
      assert TrimStart(p + s) == TrimStart(p[1..] + s);
      TrimStartSkipsSpace(p[1..], s);
    } else {
      assert p + s == s;
    }
  }

  lemma {:induction false} TrimEndSkipsSpace(s: string, q: string)
    requires AllSpace(q)
    ensures TrimEnd(s + q) == TrimEnd(s)
  {
    if q != [] {
      assert (s + q)[|s + q| - 1] == q[|q| - 1] && IsSpace(q[|q| - 1]);
      assert (s + q)[..|s + q| - 1] == s + q[..|q| - 1];
      assert TrimEnd(s + q) == TrimEnd(s + q[..|q| - 1]);
      TrimEndSkipsSpace(s, q[..|q| - 1]);
    } else {
      assert s + q == s;
    }
  }

  /**
   * Trim is characterised by its result: whenever `s` is white space, then `r`, then white space,
   * with `r` empty or starting and ending in a non-space character, `Trim(s)` is `r`.
   */
  lemma TrimUnique(s: string, p: string, r: string, q: string)
    requires s == p + r + q && AllSpace(p) && AllSpace(q)
    requires r == [] || (!IsSpace(r[0]) && !IsSpace(r[|r| - 1]))
    ensures Trim(s) == r
  {
    assert s == p + (r + q);
    TrimStartSkipsSpace(p, r + q);
    if r == [] {
      assert r + q == q;
      TrimStartSkipsSpace(q, []);
      assert q + [] == q;
    } else {
      TrimEndSkipsSpace(r, q);
    }
  }

  /** A string is its prefix, then a prefix `r` of its suffix `t`, then the rest of `t`. */
  lemma SliceParts(s: string, t: string, r: string)
    requires |t| <= |s| && t == s[|s| - |t|..] && |r| <= |t| && r == t[..|r|]
    ensures s == s[..|s| - |t|] + r + t[|r|..]
    ensures r != [] ==> r[0] == t[0]
  {
    assert t == r + t[|r|..];
    assert s == s[..|s| - |t|] + t;
  }

  /** The decomposition `TrimUnique` asks for exists for every string. */
  lemma TrimSplits(s: string) returns (p: string, q: string)
    ensures s == p + Trim(s) + q && AllSpace(p) && AllSpace(q)
    ensures Trim(s) == [] || (!IsSpace(Trim(s)[0]) && !IsSpace(Trim(s)[|Trim(s)| - 1]))
  {
    var t := TrimStart(s);
    var r := TrimEnd(t);
    TrimStartDrops(s);
    TrimEndDrops(t);
    SliceParts(s, t, r);
    p := s[..|s| - |t|];
    q := t[|r|..];
  }

  lemma TrimIdempotent(s: string)
    ensures Trim(Trim(s)) == Trim(s)
  {
    var r := Trim(s);
    var p, q := TrimSplits(s);
    assert r == [] + r + [];
    TrimUnique(r, [], r, []);
  }

  /** `!s.trim()` holds exactly for strings made only of white space. */
  lemma BlankIffAllSpace(s: string)
    ensures IsBlank(s) <==> AllSpace(s)
  {
    var p, q := TrimSplits(s);
    if AllSpace(s) {
      TrimUnique(s, s, [], []);
    }
  }

  /** Surrounding white space does not change the trimmed string. */
  lemma TrimIgnoresPadding(p: string, s: string, q: string)
    requires AllSpace(p) && AllSpace(q)
    ensures Trim(p + s + q) == Trim(s)
  {
    var p', q' := TrimSplits(s);
    assert p + s + q == (p + p') + Trim(s) + (q' + q);
    TrimUnique(p + s + q, p + p', Trim(s), q' + q);
  }

  /** Trimming a lowered string gives a lowered string. */
  lemma TrimOfLowered(s: string)
    ensures ToLower(Trim(ToLower(s))) == Trim(ToLower(s))
  {
    var x := ToLower(s);
    var p, q := TrimSplits(x);
    var r := Trim(x);
    ToLowerIdempotent(s);
    forall i | 0 <= i < |r|
      ensures ToLower(r)[i] == r[i]
    {
      assert r[i] == x[|p| + i];
      assert LowerChar(x[|p| + i]) == ToLower(x)[|p| + i];
    }
  }

  lemma NormalizeIdempotent(s: string)
    ensures Normalize(Normalize(s)) == Normalize(s)
  {
    TrimOfLowered(s);
    TrimIdempotent(ToLower(s));
  }

  /** Normalising ignores letter case and surrounding white space. */
  lemma NormalizeIgnoresCaseAndPadding(p: string, s: string, q: string)
    requires AllSpace(p) && AllSpace(q)
    ensures Normalize(p + ToLower(s) + q) == Normalize(s)
  {
    ToLowerAppend(p + ToLower(s), q);
    ToLowerAppend(p, ToLower(s));
    ToLowerKeepsSpace(p);
    ToLowerKeepsSpace(q);
    ToLowerIdempotent(s);
    TrimIgnoresPadding(p, ToLower(s), q);
  }

  /** Trimming before normalising changes nothing. */
  lemma NormalizeOfTrim(s: string)
    ensures Normalize(Trim(s)) == Normalize(s)
  {
    var p, q := TrimSplits(s);
    var r := Trim(s);
    ToLowerAppend(p + r, q);
    ToLowerAppend(p, r);
    ToLowerKeepsSpace(p);
    ToLowerKeepsSpace(q);
    TrimIgnoresPadding(ToLower(p), ToLower(r), ToLower(q));
  }

  /** `t` occurs in `s` starting at index `i`. */
  predicate OccursAt(s: string, t: string, i: int) {
    0 <= i && i + |t| <= |s| && s[i..i + |t|] == t
  }

  /** `s.includes(t)`: tries every start position from the left. */
  predicate Contains(s: string, t: string)
    decreases |s|
  {
    (|t| <= |s| && s[..|t|] == t) || (|s| > 0 && Contains(s[1..], t))
  }

  /** An occurrence in the tail is an occurrence one place further right in the string. */
  lemma OccursShift(s: string, t: string, i: nat)
    requires |s| > 0
    ensures OccursAt(s[1..], t, i) <==> OccursAt(s, t, i + 1)
  {
    if i + 1 + |t| <= |s| {
      assert s[1..][i..i + |t|] == s[i + 1..i + 1 + |t|];
    }
  }

  lemma {:induction false} ContainsIffOccurs(s: string, t: string)
    ensures Contains(s, t) <==> exists i :: OccursAt(s, t, i)
    decreases |s|
  {
    if |t| <= |s| && s[..|t|] == t {
      assert OccursAt(s, t, 0);
    } else if |s| > 0 {
      ContainsIffOccurs(s[1..], t);
      if exists i :: OccursAt(s[1..], t, i) {
        var i :| OccursAt(s[1..], t, i);
        OccursShift(s, t, i);
      }
      if exists i :: OccursAt(s, t, i) {
        var i :| OccursAt(s, t, i);
        assert i != 0;
        OccursShift(s, t, i - 1);
      }
    } else {
      assert !exists i :: OccursAt(s, t, i);
    }
  }
}
