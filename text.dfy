/** String helpers shared by the Python and JavaScript models.
    Strings are `seq<char>`; case mapping is modelled on ASCII letters only. */
module Text {

  predicate IsUpper(c: char) { 'A' <= c <= 'Z' }
  predicate IsLower(c: char) { 'a' <= c <= 'z' }
  predicate IsLetter(c: char) { IsUpper(c) || IsLower(c) }
  predicate IsDigit(c: char) { '0' <= c <= '9' }

  /** JavaScript's `\w` class (without the `u` flag). */
  predicate IsWordChar(c: char) { IsLetter(c) || IsDigit(c) || c == '_' }

  /** JavaScript's WhiteSpace and LineTerminator code points: the set that
      both `String.prototype.trim` and the regular-expression class `\s` use. */
  predicate IsJsSpace(c: char) {
    var n := c as int;
    n == 0x09 || n == 0x0A || n == 0x0B || n == 0x0C || n == 0x0D || n == 0x20 ||
    n == 0xA0 || n == 0x1680 || (0x2000 <= n <= 0x200A) || n == 0x2028 ||
    n == 0x2029 || n == 0x202F || n == 0x205F || n == 0x3000 || n == 0xFEFF
  }

  function LowerChar(c: char): char {
    if IsUpper(c) then (c as int - 'A' as int + 'a' as int) as char else c
  }

  function UpperChar(c: char): char {
    if IsLower(c) then (c as int - 'a' as int + 'A' as int) as char else c
  }

  /** `str.lower()` / `String.prototype.toLowerCase()` on ASCII. */
  function ToLower(s: string): (r: string)
    ensures |r| == |s|
    ensures forall i :: 0 <= i < |s| ==> r[i] == LowerChar(s[i])
  {
    seq(|s|, i requires 0 <= i < |s| => LowerChar(s[i]))
  }

  /** `sub` occurs in `s` at position `i`. */
  predicate StartsAt(s: string, i: nat, sub: string) {
    i + |sub| <= |s| && s[i..i + |sub|] == sub
  }

  /** Substring containment: Python's `sub in s`, JavaScript's `s.includes(sub)`. */
  predicate Contains(s: string, sub: string) {
    exists i: nat :: i <= |s| && StartsAt(s, i, sub)
  }

  lemma ContainsLeft(a: string, b: string, sub: string)
    requires Contains(a, sub)
    ensures Contains(a + b, sub)
  {
    var i: nat :| i <= |a| && StartsAt(a, i, sub);
    assert (a + b)[i..i + |sub|] == a[i..i + |sub|];
    assert StartsAt(a + b, i, sub);
  }

  lemma ContainsRight(a: string, b: string, sub: string)
    requires Contains(b, sub)
    ensures Contains(a + b, sub)
  {
    var i: nat :| i <= |b| && StartsAt(b, i, sub);
    assert (a + b)[|a| + i..|a| + i + |sub|] == b[i..i + |sub|];
    assert StartsAt(a + b, |a| + i, sub);
  }

  predicate EndsWith(s: string, suffix: string) {
    |suffix| <= |s| && s[|s| - |suffix|..] == suffix
  }

  /** Drops leading JavaScript white space. */
  function TrimLeft(s: string): (r: string)
    ensures |r| <= |s| && r == s[|s| - |r|..]
    ensures r == [] || !IsJsSpace(r[0])
    ensures forall i :: 0 <= i < |s| - |r| ==> IsJsSpace(s[i])
  {
    if s != [] && IsJsSpace(s[0]) then TrimLeft(s[1..]) else s
  }

  /** Drops trailing JavaScript white space. */
  function TrimRight(s: string): (r: string)
    ensures |r| <= |s| && r == s[..|r|]
    ensures r == [] || !IsJsSpace(r[|r| - 1])
    ensures forall i :: |r| <= i < |s| ==> IsJsSpace(s[i])
  {
    if s != [] && IsJsSpace(s[|s| - 1]) then TrimRight(s[..|s| - 1]) else s
  }

  /** `String.prototype.trim()`: a contiguous piece of the input with no
      white space at either end. */
  function Trim(s: string): (r: string)
    ensures |r| <= |s|
    ensures r == [] || (!IsJsSpace(r[0]) && !IsJsSpace(r[|r| - 1]))
    ensures forall c :: c in r ==> c in s
  {
    var l := TrimLeft(s);
    var r := TrimRight(l);
    assert forall c :: c in l ==> c in s;
    assert forall c :: c in r ==> c in l;
    r
  }

  /** Trimming yields the empty string exactly when the input is all white space. */
  lemma TrimEmptyIff(s: string)
    ensures Trim(s) == [] <==> forall i :: 0 <= i < |s| ==> IsJsSpace(s[i])
  {
    var l := TrimLeft(s);
    if Trim(s) == [] {
      assert l == [];
    }
  }

  /** Python's `s.replace(pat, rep)`: every non-overlapping occurrence, left to right. */
  function ReplaceAll(s: string, pat: string, rep: string): string
    requires pat != []
    decreases |s|
  {
    if |s| < |pat| then s
    else if s[0] == pat[0] && s[..|pat|] == pat then rep + ReplaceAll(s[|pat|..], pat, rep)
    else [s[0]] + ReplaceAll(s[1..], pat, rep)
  }

  /** Replacing skips a prefix that cannot start an occurrence. */
  lemma {:induction false} ReplaceSkip(p: string, q: string, pat: string, rep: string)
    requires pat != [] && pat[0] !in p
    ensures ReplaceAll(p + q, pat, rep) == p + ReplaceAll(q, pat, rep)
    decreases |p|
  {
    if p != [] {
      var s := p + q;
      if |s| >= |pat| {
        assert s[..|pat|][0] == p[0] != pat[0];
        assert s[1..] == p[1..] + q;
        ReplaceSkip(p[1..], q, pat, rep);
      } else {
        assert |q| < |pat|;
      }
    } else {
      assert p + q == q;
    }
  }

  /** A string in which the pattern's first character never occurs is left alone. */
  lemma ReplaceAbsent(s: string, pat: string, rep: string)
    requires pat != [] && pat[0] !in s
    ensures ReplaceAll(s, pat, rep) == s
  {
    ReplaceSkip(s, [], pat, rep);
    assert s + [] == s;
  }

  /** Replacing introduces no character that is in neither the input nor the replacement. */
  lemma {:induction false} ReplaceChars(s: string, pat: string, rep: string, c: char)
    requires pat != [] && c !in s && c !in rep
    ensures c !in ReplaceAll(s, pat, rep)
    decreases |s|
  {
    if |s| >= |pat| {
      if s[0] == pat[0] && s[..|pat|] == pat {
        assert forall x :: x in s[|pat|..] ==> x in s;
        ReplaceChars(s[|pat|..], pat, rep, c);
      } else {
        assert forall x :: x in s[1..] ==> x in s;
        ReplaceChars(s[1..], pat, rep, c);
      }
    }
  }

  /** Python's `str.title()`: the first letter of each run of letters upper-case,
      the others lower-case; other characters are left alone. */
  function TitleFrom(s: string, afterLetter: bool): string {
    if s == [] then []
    else
      var c := s[0];
      [if !IsLetter(c) then c else if afterLetter then LowerChar(c) else UpperChar(c)]
        + TitleFrom(s[1..], IsLetter(c))
  }

  function Title(s: string): string {
    TitleFrom(s, false)
  }

  /** Title-casing a word of lower-case letters capitalises its first letter only. */
  lemma TitleWord(p: string)
    requires p != [] && forall i :: 0 <= i < |p| ==> IsLower(p[i])
    ensures Title(p) == [UpperChar(p[0])] + p[1..]
  {
    TitleLowerTail(p[1..]);
  }

  lemma {:induction false} TitleLowerTail(p: string)
    requires forall i :: 0 <= i < |p| ==> IsLower(p[i])
    ensures TitleFrom(p, true) == p
  {
    if p != [] {
      TitleLowerTail(p[1..]);
    }
  }

  /** Title-casing changes letters only. */
  lemma {:induction false} TitleChars(s: string, afterLetter: bool, c: char)
    requires c !in s && !IsLetter(c)
    ensures c !in TitleFrom(s, afterLetter)
  {
    if s != [] {
      assert forall x :: x in s[1..] ==> x in s;
      TitleChars(s[1..], IsLetter(s[0]), c);
    }
  }

  /** `sep.join(parts)` / `parts.join(sep)`. */
  function Join(parts: seq<string>, sep: string): string {
    if parts == [] then []
    else if |parts| == 1 then parts[0]
    else parts[0] + sep + Join(parts[1..], sep)
  }

  /** The text after the last `d` of `s`, or all of `s` when it has none:
      Python's `s.split(d)[-1]`. */
  function AfterLast(s: string, d: char): (r: string)
    ensures d !in r
    ensures |r| <= |s| && r == s[|s| - |r|..]
    ensures |r| < |s| ==> s[|s| - |r| - 1] == d
  {
    if s == [] then []
    else if s[|s| - 1] == d then []
    else AfterLast(s[..|s| - 1], d) + [s[|s| - 1]]
  }
}
