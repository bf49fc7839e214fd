/** The client-side onboarding form handler (static/js/secure-form.js):
    the input sanitiser, the two validators, the collection of the form's
    entries into one object, the required-field check, the rules that show
    and hide form sections, the plan taken from the URL, and the file filter. */
module SecureForm {
  import opened Outcomes
  import opened Text

  /** The JavaScript values that reach the handler. */
  datatype JsValue =
    | JsUndefined
    | JsNull
    | JsStr(s: string)
    | JsBool(b: bool)
    | JsFile(name: string)

  /** `String(v)` for the values that `toString` and `Array.prototype.join` meet here. */
  function JsToString(v: JsValue): string {
    match v
    case JsUndefined => "undefined"
    case JsNull => "null"
    case JsStr(s) => s
    case JsBool(b) => if b then "true" else "false"
    case JsFile(_) => "[object File]"
  }

  // ---------------------------------------------------------------------
  // sanitizeInput

  /** `.replace(/[<>]/g, '')`. */
  function StripAngles(s: string): (r: string)
    ensures |r| <= |s|
    ensures forall c :: c in r <==> c in s && c != '<' && c != '>'
  {
    if s == [] then []
    else (if s[0] == '<' || s[0] == '>' then [] else [s[0]]) + StripAngles(s[1..])
  }

  /** The keyword `kw` (lower case) occurs at `i`, ignoring ASCII case, as the `i` flag does. */
  predicate KeywordAt(s: string, i: nat, kw: string) {
    i + |kw| <= |s| && forall k :: 0 <= k < |kw| ==> LowerChar(s[i + k]) == kw[k]
  }

  /** `.replace(/kw/gi, '')` for a literal keyword `kw` written in lower case:
      one left-to-right pass that drops each match and resumes after it. */
  function RemoveKeyword(s: string, kw: string): (r: string)
    requires kw != []
    ensures |r| <= |s|
    ensures forall c :: c in r ==> c in s
    decreases |s|
  {
    if s == [] then []
    else if KeywordAt(s, 0, kw) then RemoveKeyword(s[|kw|..], kw)
    else [s[0]] + RemoveKeyword(s[1..], kw)
  }

  /** Length of the longest prefix of `s` made of `\w` characters. */
  function WordRun(s: string): (n: nat)
    ensures n <= |s|
    ensures forall i :: 0 <= i < n ==> IsWordChar(s[i])
    ensures n < |s| ==> !IsWordChar(s[n])
  {
    if s != [] && IsWordChar(s[0]) then 1 + WordRun(s[1..]) else 0
  }

  /** Length of the longest prefix of `s` made of `\s` characters. */
  function SpaceRun(s: string): (n: nat)
    ensures n <= |s|
    ensures forall i :: 0 <= i < n ==> IsJsSpace(s[i])
    ensures n < |s| ==> !IsJsSpace(s[n])
  {
    if s != [] && IsJsSpace(s[0]) then 1 + SpaceRun(s[1..]) else 0
  }

  /** `s[..n]` spells `/on\w+\s*=/i` with a `\w+` part `w` characters long. */
  predicate HandlerShape(s: string, w: nat, n: nat) {
    1 <= w && 3 + w <= n <= |s| &&
    LowerChar(s[0]) == 'o' && LowerChar(s[1]) == 'n' &&
    (forall i :: 2 <= i < 2 + w ==> IsWordChar(s[i])) &&
    (forall i :: 2 + w <= i < n - 1 ==> IsJsSpace(s[i])) &&
    s[n - 1] == '='
  }

  /** `s[..n]` is a match of `/on\w+\s*=/i` anchored at the start of `s`. */
  ghost predicate HandlerPattern(s: string, n: nat) {
    exists w: nat :: HandlerShape(s, w, n)
  }

  /** Length of the match of `/on\w+\s*=/i` at the start of `s`, or 0 when
      there is none. A match, when there is one, has only one possible
      length: `=` is neither a word character nor white space. */
  function HandlerMatch(s: string): (n: nat)
    ensures n == 0 || (4 <= n <= |s| && s[n - 1] == '=' && LowerChar(s[0]) == 'o' && LowerChar(s[1]) == 'n')
  {
    if |s| >= 2 && LowerChar(s[0]) == 'o' && LowerChar(s[1]) == 'n' then
      var w := WordRun(s[2..]);
      if w == 0 then 0
      else
        var sp := SpaceRun(s[2 + w..]);
        if 2 + w + sp < |s| && s[2 + w + sp] == '=' then
          3 + w + sp
        else 0
    else 0
  }

  /** The length found is a match, and the only one: a match, when there is
      one, has a single possible length, since `=` is neither a word character
      nor white space. */
  lemma HandlerMatchExact(s: string)
    ensures HandlerMatch(s) > 0 ==> HandlerPattern(s, HandlerMatch(s))
    ensures forall m: nat :: HandlerPattern(s, m) ==> m == HandlerMatch(s)
  {
    HandlerShapesForced(s);
    var n := HandlerMatch(s);
    if n > 0 {
      var w := WordRun(s[2..]);
      var sp := SpaceRun(s[2 + w..]);
      assert forall i :: 2 <= i < 2 + w ==> s[i] == s[2..][i - 2];
      assert forall i :: 2 + w <= i < 2 + w + sp ==> s[i] == s[2 + w..][i - 2 - w];
      assert HandlerShape(s, w, n);
    }
  }

  /** Every match has its `\w+` part as long as the run of word characters and
      its `\s*` part as long as the run of white space that follows. */
  lemma HandlerShapesForced(s: string)
    ensures forall w: nat, n: nat :: HandlerShape(s, w, n) ==>
      w == WordRun(s[2..]) && n == 3 + w + SpaceRun(s[2 + w..])
  {
    forall w: nat, n: nat | HandlerShape(s, w, n) ensures w == WordRun(s[2..]) && n == 3 + w + SpaceRun(s[2 + w..]) {
      HandlerShapeForced(s, w, n);
    }
  }

  lemma HandlerShapeForced(s: string, w: nat, n: nat)
    requires HandlerShape(s, w, n)
    ensures w == WordRun(s[2..]) && n == 3 + w + SpaceRun(s[2 + w..])
  {
    var t := s[2..];
    assert forall i :: 0 <= i < w ==> IsWordChar(t[i]);
    assert !IsWordChar(t[w]);
    var u := s[2 + w..];
    assert forall i :: 0 <= i < n - 3 - w ==> IsJsSpace(u[i]);
    assert !IsJsSpace(u[n - 3 - w]);
  }

  /** `.replace(/on\w+\s*=/gi, '')`. */
  function RemoveHandlers(s: string): (r: string)
    ensures |r| <= |s|
    ensures forall c :: c in r ==> c in s
    decreases |s|
  {
    if s == [] then []
    else
      var n := HandlerMatch(s);
      if n > 0 then RemoveHandlers(s[n..]) else [s[0]] + RemoveHandlers(s[1..])
  }

  /** The string case of `sanitizeInput`: the four replacements in order, then `trim()`.
      The result holds no angle bracket, has no white space at either end,
      uses only characters of the input and is never longer than it. */
  function SanitizeText(s: string): (r: string)
    ensures '<' !in r && '>' !in r
    ensures r == [] || (!IsJsSpace(r[0]) && !IsJsSpace(r[|r| - 1]))
    ensures |r| <= |s|
    ensures forall c :: c in r ==> c in s
  {
    var a := StripAngles(s);
    var b := RemoveKeyword(a, "javascript:");
    var c := RemoveKeyword(b, "vbscript:");
    var d := RemoveHandlers(c);
    Trim(d)
  }

  /** `sanitizeInput`: strings are sanitised, every other value is returned as it is. */
  function Sanitize(v: JsValue): (r: JsValue)
    ensures !v.JsStr? ==> r == v
    ensures v.JsStr? ==> r.JsStr? && '<' !in r.s && '>' !in r.s && |r.s| <= |v.s|
  {
    if v.JsStr? then JsStr(SanitizeText(v.s)) else v
  }

  lemma {:induction false} StripAnglesKeeps(s: string)
    requires '<' !in s && '>' !in s
    ensures StripAngles(s) == s
  {
    if s != [] {
      StripAnglesKeeps(s[1..]);
      assert s == [s[0]] + s[1..];
    }
  }

  lemma {:induction false} StripAnglesAppend(x: string, y: string)
    ensures StripAngles(x + y) == StripAngles(x) + StripAngles(y)
  {
    if x != [] {
      var h := if x[0] == '<' || x[0] == '>' then [] else [x[0]];
      assert (x + y)[0] == x[0];
      assert (x + y)[1..] == x[1..] + y;
      StripAnglesAppend(x[1..], y);
      calc {
        StripAngles(x + y);
        h + StripAngles(x[1..] + y);
        h + (StripAngles(x[1..]) + StripAngles(y));
        (h + StripAngles(x[1..])) + StripAngles(y);
      }
    } else {
      assert x + y == y;
    }
  }

  /** Where no window of the first `n` positions spells the keyword, those
      characters are kept and the pass resumes at `n`. */
  lemma {:induction false} RemoveKeywordKeepsPrefix(s: string, kw: string, n: nat)
    requires kw != [] && n <= |s|
    requires forall i :: 0 <= i < n ==> !KeywordAt(s, i, kw)
    ensures RemoveKeyword(s, kw) == s[..n] + RemoveKeyword(s[n..], kw)
  {
    if n > 0 {
      assert !KeywordAt(s, 0, kw);
      forall i | 0 <= i < n - 1 ensures !KeywordAt(s[1..], i, kw) {
        assert !KeywordAt(s, i + 1, kw);
        if KeywordAt(s[1..], i, kw) {
          forall k | 0 <= k < |kw| ensures LowerChar(s[i + 1 + k]) == kw[k] {
            assert s[1..][i + k] == s[i + 1 + k];
          }
        }
      }
      RemoveKeywordKeepsPrefix(s[1..], kw, n - 1);
      assert s[1..][n - 1..] == s[n..];
      assert s[..n] == [s[0]] + s[1..][..n - 1];
    }
  }

  /** A keyword occurrence `m` with no match starting before it is dropped,
      and the pass resumes right after it. */
  lemma RemoveKeywordDrops(p: string, m: string, q: string, kw: string)
    requires kw != [] && |m| == |kw|
    requires KeywordAt(p + m + q, |p|, kw)
    requires forall i :: 0 <= i < |p| ==> !KeywordAt(p + m + q, i, kw)
    ensures RemoveKeyword(p + m + q, kw) == p + RemoveKeyword(q, kw)
  {
    RemoveKeywordKeepsPrefix(p + m + q, kw, |p|);
    ThreeSplit(p, m, q);
    KeywordAtSuffix(p + m + q, |p|, kw);
  }

  /** A match at position `i` is a match at the start of the text from `i`. */
  lemma KeywordAtSuffix(s: string, i: nat, kw: string)
    requires KeywordAt(s, i, kw)
    ensures KeywordAt(s[i..], 0, kw)
  {
    forall k | 0 <= k < |kw| ensures LowerChar(s[i..][k]) == kw[k] {
      assert s[i..][k] == s[i + k];
    }
  }

  /** Text shorter than the keyword passes through unchanged. */
  lemma RemoveKeywordShort(s: string, kw: string)
    requires kw != [] && |s| < |kw|
    ensures RemoveKeyword(s, kw) == s
  {
    RemoveKeywordKeepsPrefix(s, kw, |s|);
    assert s[|s|..] == [];
  }

  /** Text in which one of the keyword's letters never occurs passes through unchanged. */
  lemma RemoveKeywordAbsent(s: string, kw: string, k: nat)
    requires k < |kw| && forall i :: 0 <= i < |s| ==> LowerChar(s[i]) != kw[k]
    ensures RemoveKeyword(s, kw) == s
  {
    forall i | 0 <= i < |s| ensures !KeywordAt(s, i, kw) {
      if i + |kw| <= |s| { assert LowerChar(s[i + k]) != kw[k]; }
    }
    RemoveKeywordKeepsPrefix(s, kw, |s|);
    assert s[..|s|] == s && s[|s|..] == [];
  }

  /** Text without an `o` or `O` holds no event-handler pattern. */
  lemma {:induction false} RemoveHandlersKeeps(s: string)
    requires forall i :: 0 <= i < |s| ==> LowerChar(s[i]) != 'o'
    ensures RemoveHandlers(s) == s
  {
    if s != [] {
      RemoveHandlersKeeps(s[1..]);
      assert s == [s[0]] + s[1..];
    }
  }

  /** Where no handler match starts in the first `n` positions, those
      characters are kept and the pass resumes at `n`. */
  lemma {:induction false} RemoveHandlersKeepsPrefix(s: string, n: nat)
    requires n <= |s|
    requires forall i :: 0 <= i < n ==> HandlerMatch(s[i..]) == 0
    ensures RemoveHandlers(s) == s[..n] + RemoveHandlers(s[n..])
  {
    if n > 0 {
      var t := s[1..];
      assert HandlerMatch(s[0..]) == 0;
      assert s[0..] == s;
      assert RemoveHandlers(s) == [s[0]] + RemoveHandlers(t);
      forall i | 0 <= i < n - 1 ensures HandlerMatch(t[i..]) == 0 {
        assert t[i..] == s[i + 1..];
      }
      RemoveHandlersKeepsPrefix(t, n - 1);
      HeadSplit(s, n, RemoveHandlers(t[n - 1..]));
    }
  }

  /** Splitting off the first character commutes with cutting at `n`. */
  lemma HeadSplit(s: string, n: nat, rest: string)
    requires 0 < n <= |s|
    ensures s[1..][n - 1..] == s[n..]
    ensures [s[0]] + (s[1..][..n - 1] + rest) == s[..n] + rest
  {
    assert s[..n] == [s[0]] + s[1..][..n - 1];
  }

  /** A handler pattern `m` with no match starting before it is dropped, and
      the pass resumes right after it. */
  lemma RemoveHandlersDrops(p: string, m: string, q: string)
    requires HandlerPattern(m, |m|)
    requires forall i :: 0 <= i < |p| ==> HandlerMatch((p + m + q)[i..]) == 0
    ensures RemoveHandlers(p + m + q) == p + RemoveHandlers(q)
  {
    RemoveHandlersKeepsPrefix(p + m + q, |p|);
    ThreeSplit(p, m, q);
    HandlerMatchOfPrefix(m, q);
  }

  lemma ThreeSplit(p: string, m: string, q: string)
    ensures (p + m + q)[..|p|] == p && (p + m + q)[|p|..] == m + q && (m + q)[|m|..] == q
  {
  }

  /** A match that `m` spells from its start to its end is the match of `m + q`. */
  lemma HandlerMatchOfPrefix(m: string, q: string)
    requires HandlerPattern(m, |m|)
    ensures HandlerMatch(m + q) == |m| > 0
  {
    var u := m + q;
    var w: nat :| HandlerShape(m, w, |m|);
    assert forall i :: 0 <= i < |m| ==> u[i] == m[i];
    assert HandlerShape(u, w, |m|);
    HandlerMatchExact(u);
  }

  lemma KeywordAtStart(u: string, kw: string, q: string)
    requires u == kw + q
    requires forall k :: 0 <= k < |kw| ==> LowerChar(kw[k]) == kw[k]
    ensures KeywordAt(u, 0, kw)
  {
    forall k | 0 <= k < |kw| ensures LowerChar(u[k]) == kw[k] {
      assert u[k] == kw[k];
    }
  }

  lemma RemoveKeywordRejoins(s: string, p: string, kw: string, q: string)
    requires kw != [] && s == p + kw + q && p + q == kw && |q| < |kw|
    requires forall k :: 0 <= k < |kw| ==> LowerChar(kw[k]) == kw[k]
    requires forall i :: 0 <= i < |p| ==> !KeywordAt(s, i, kw)
    ensures RemoveKeyword(s, kw) == kw
  {
    RemoveKeywordKeepsPrefix(s, kw, |p|);
    ThreeSplit(p, kw, q);
    KeywordAtStart(kw + q, kw, q);
    RemoveKeywordShort(q, kw);
  }

  lemma TrimKeeps(s: string)
    requires s == [] || (!IsJsSpace(s[0]) && !IsJsSpace(s[|s| - 1]))
    ensures Trim(s) == s
  {
  }

  /** From position `i` on, `s` holds only lower-case characters that are
      neither angle brackets nor `b` nor `o`, and never the character `c`. */
  predicate QuietFrom(s: string, c: char, i: nat)
    decreases |s| - i
  {
    i >= |s| ||
    (LowerChar(s[i]) == s[i] && s[i] != '<' && s[i] != '>' && s[i] != 'b' && s[i] != 'o' && s[i] != c &&
     QuietFrom(s, c, i + 1))
  }

  lemma {:induction false} QuietFromAll(s: string, c: char, i: nat)
    requires QuietFrom(s, c, i)
    ensures forall k :: i <= k < |s| ==>
      LowerChar(s[k]) == s[k] && s[k] != '<' && s[k] != '>' && s[k] != 'b' && s[k] != 'o' && s[k] != c
    decreases |s| - i
  {
    if i < |s| {
      QuietFromAll(s, c, i + 1);
    }
  }

  /** A lower-case keyword without angle brackets whose first letter occurs
      nowhere else, cut into `p` and `q` and wrapped around itself: the
      keyword pass drops the inner keyword only, and its neighbours join into
      a new one. */
  lemma RejoinedKeyword(p: string, q: string, kw: string)
    requires p + q == kw && p != [] && q != []
    requires LowerChar(kw[0]) == kw[0] && kw[0] != '<' && kw[0] != '>' && QuietFrom(kw, kw[0], 1)
    ensures StripAngles(p + kw + q) == p + kw + q
    ensures RemoveKeyword(p + kw + q, kw) == kw
  {
    QuietFromAll(kw, kw[0], 1);
    var s := p + kw + q;
    forall i | 0 <= i < |p| ensures !KeywordAt(s, i, kw) {
      if i + |kw| <= |s| {
        var k := |p| - i;
        assert s[i + k] == kw[0];
        assert LowerChar(s[i + k]) != kw[k];
      }
    }
    assert '<' !in kw && '>' !in kw;
    assert '<' !in s && '>' !in s;
    StripAnglesKeeps(s);
    RemoveKeywordRejoins(s, p, kw, q);
  }

  lemma JavascriptShape(t: string)
    requires t == "javascript:"
    ensures t[0] == 'j' && QuietFrom(t, 'j', 1)
  {
    assert QuietFrom("javascript:", 'j', 1);
  }

  /** `javascript:` is left alone by the passes after the first. */
  lemma JavascriptPasses(t: string)
    requires t == "javascript:"
    ensures RemoveKeyword(t, "vbscript:") == t && RemoveHandlers(t) == t && Trim(t) == t
  {
    JavascriptShape(t);
    QuietFromAll(t, 'j', 1);
    RemoveKeywordAbsent(t, "vbscript:", 1);
    RemoveHandlersKeeps(t);
    TrimKeeps(t);
  }

  /** Wherever `javascript:` is cut strictly inside, the two pieces around
      the keyword sanitise to the keyword itself. */
  lemma SanitizeRejoined(p: string, q: string, t: string)
    requires t == "javascript:" && p + q == t && p != [] && q != []
    ensures SanitizeText(p + t + q) == t
  {
    JavascriptShape(t);
    JavascriptPasses(t);
    RejoinedKeyword(p, q, t);
    SanitizeSteps(p + t + q, p + t + q, t, t, t);
  }

  /** The four passes of the sanitiser, each given by its result. */
  lemma SanitizeSteps(s: string, a: string, b: string, c: string, d: string)
    requires StripAngles(s) == a && RemoveKeyword(a, "javascript:") == b
    requires RemoveKeyword(b, "vbscript:") == c && RemoveHandlers(c) == d
    ensures SanitizeText(s) == Trim(d)
  {
  }

  lemma KeywordAlone(t: string)
    requires t == "javascript:"
    ensures RemoveKeyword(t, t) == []
  {
    assert KeywordAt(t, 0, t);
    assert t[|t|..] == [];
  }

  lemma SanitizeKeywordAlone(t: string)
    requires t == "javascript:"
    ensures SanitizeText(t) == []
  {
    StripAnglesKeeps(t);
    KeywordAlone(t);
    var c := RemoveKeyword([], "vbscript:");
    assert c == [];
    assert RemoveHandlers(c) == [];
    TrimKeeps([]);
  }

  /** Sanitising twice differs from sanitising once, for instance on
      `javajavascript:script:`. */
  lemma SanitizeNotIdempotent(p: string, q: string, t: string)
    requires t == "javascript:" && p + q == t && p != [] && q != []
    ensures SanitizeText(p + t + q) == t && SanitizeText(SanitizeText(p + t + q)) == []
  {
    SanitizeRejoined(p, q, t);
    SanitizeKeywordAlone(t);
  }

  lemma BracketsOnly()
    ensures StripAngles("<") == [] && StripAngles(">") == [] && StripAngles("</") == "/"
  {
    assert "</"[1..] == "/";
  }

  /** An element written as `<name>body</name>` loses only its four brackets. */
  lemma TagStripped(name: string, body: string)
    requires '<' !in name && '>' !in name && '<' !in body && '>' !in body
    ensures StripAngles("<" + name + ">" + body + "</" + name + ">") == name + body + "/" + name
  {
    StripAnglesKeeps(name);
    StripAnglesKeeps(body);
    BracketsOnly();
    var x1 := "<" + name;
    StripAnglesAppend("<", name);
    assert StripAngles(x1) == name;
    var x2 := x1 + ">";
    StripAnglesAppend(x1, ">");
    assert StripAngles(x2) == name;
    var x3 := x2 + body;
    StripAnglesAppend(x2, body);
    var x4 := x3 + "</";
    StripAnglesAppend(x3, "</");
    var x5 := x4 + name;
    StripAnglesAppend(x4, name);
    StripAnglesAppend(x5, ">");
    assert StripAngles(x5 + ">") == StripAngles(x5);
  }

  /** Text that none of the three patterns can start in: no `j`, `v` or `o` in any case. */
  predicate Inert(s: string) {
    forall i :: 0 <= i < |s| ==> LowerChar(s[i]) != 'j' && LowerChar(s[i]) != 'v' && LowerChar(s[i]) != 'o'
  }

  /** An element `<name>body</name>` whose text holds no `j`, `v` or `o` is left
      as inert text: its brackets go, its words stay. `<script>alert(1)</script>`
      is one such element. */
  lemma SanitizeTag(name: string, body: string)
    requires '<' !in name && '>' !in name && '<' !in body && '>' !in body
    requires Inert(name) && Inert(body)
    requires name != [] && !IsJsSpace(name[0]) && !IsJsSpace(name[|name| - 1])
    ensures SanitizeText("<" + name + ">" + body + "</" + name + ">") == name + body + "/" + name
  {
    TagStripped(name, body);
    var a := name + body + "/" + name;
    forall i | 0 <= i < |a| ensures LowerChar(a[i]) != 'j' && LowerChar(a[i]) != 'v' && LowerChar(a[i]) != 'o' {
      if i < |name| {
        assert a[i] == name[i];
      } else if i < |name| + |body| {
        assert a[i] == body[i - |name|];
      } else if i > |name| + |body| {
        assert a[i] == name[i - |name| - |body| - 1];
      }
    }
    RemoveKeywordAbsent(a, "javascript:", 0);
    RemoveKeywordAbsent(a, "vbscript:", 0);
    RemoveHandlersKeeps(a);
    assert a[|a| - 1] == name[|name| - 1];
    TrimKeeps(a);
    SanitizeSteps("<" + name + ">" + body + "</" + name + ">", a, a, a, a);
  }

  // ---------------------------------------------------------------------
  // validateEmail and validateRequired

  predicate LocalChar(c: char) {
    IsLetter(c) || IsDigit(c) || c == '.' || c == '_' || c == '%' || c == '+' || c == '-'
  }

  predicate DomainChar(c: char) {
    IsLetter(c) || IsDigit(c) || c == '.' || c == '-'
  }

  /** `s` splits as local `@` domain `.` letters, with `s[at] == '@'` and `s[dot] == '.'`. */
  predicate EmailShape(s: string, at: nat, dot: nat) {
    1 <= at && at + 2 <= dot && dot + 3 <= |s| && s[at] == '@' && s[dot] == '.' &&
    (forall i :: 0 <= i < at ==> LocalChar(s[i])) &&
    (forall i :: at < i < dot ==> DomainChar(s[i])) &&
    (forall i :: dot < i < |s| ==> IsLetter(s[i]))
  }

  /** `/^[a-zA-Z0-9._%+-]+@[a-zA-Z0-9.-]+\.[a-zA-Z]{2,}$/`, stated as "some split fits". */
  ghost predicate MatchesEmailPattern(s: string) {
    exists at: nat, dot: nat :: EmailShape(s, at, dot)
  }

  /** Position of the first `c` in `s`, or `|s|`. */
  function IndexOf(s: string, c: char): (i: nat)
    ensures i <= |s|
    ensures forall j :: 0 <= j < i ==> s[j] != c
    ensures i < |s| ==> s[i] == c
  {
    if s == [] || s[0] == c then 0 else 1 + IndexOf(s[1..], c)
  }

  /** Position of the last `c` in `s`, or -1. */
  function LastIndexOf(s: string, c: char): (i: int)
    ensures -1 <= i < |s|
    ensures forall j :: i < j < |s| ==> s[j] != c
    ensures 0 <= i ==> s[i] == c
  {
    if s == [] then -1
    else if s[|s| - 1] == c then |s| - 1
    else LastIndexOf(s[..|s| - 1], c)
  }

  /** `validateEmail`: the only possible split is at the first `@` and the
      last `.`, so checking that one split decides the pattern. */
  function ValidateEmail(s: string): (ok: bool)
    ensures ok <==> MatchesEmailPattern(s)
    ensures ok ==> forall j :: 0 <= j < |s| && s[j] == '@' ==> j == IndexOf(s, '@')
  {
    var at := IndexOf(s, '@');
    var dot := LastIndexOf(s, '.');
    var ok := at < |s| && 0 <= dot && EmailShape(s, at, dot);
    if ok then
      assert forall j :: 0 <= j < |s| && s[j] == '@' ==> j == at;
      ok
    else
      assert !MatchesEmailPattern(s) by {
        if MatchesEmailPattern(s) {
          var a: nat, d: nat :| EmailShape(s, a, d);
        }
      }
      ok
  }

  /** Empty or white space only. */
  predicate Blank(s: string) {
    forall i :: 0 <= i < |s| ==> IsJsSpace(s[i])
  }

  /** `validateRequired`: false exactly for null, undefined and text that is
      empty once trimmed, which is text made of white space only. */
  function ValidateRequired(v: JsValue): (ok: bool)
    ensures ok <==> !v.JsNull? && !v.JsUndefined? && Trim(JsToString(v)) != ""
  {
    TrimEmptyIff(JsToString(v));
    !v.JsNull? && !v.JsUndefined? && !Blank(JsToString(v))
  }

  // ---------------------------------------------------------------------
  // Collecting the form's entries (the submit handler)

  /** What `FormData.entries()` yields as a value: text, or a selected file. */
  datatype EntryValue = EntryText(text: string) | EntryFile(fileName: string)

  function EntryToJs(e: EntryValue): JsValue {
    match e
    case EntryText(t) => JsStr(t)
    case EntryFile(n) => JsFile(n)
  }

  const DeliveryServicesKey := "delivery_services"

  /** The object built from the entries other than `delivery_services`:
      each value sanitised, a later entry overwriting an earlier one. */
  function Collected(entries: seq<(string, EntryValue)>): map<string, JsValue> {
    if entries == [] then map[]
    else
      var m := Collected(entries[..|entries| - 1]);
      var (k, v) := entries[|entries| - 1];
      if k == DeliveryServicesKey then m else m[k := Sanitize(EntryToJs(v))]
  }

  /** The sanitised `delivery_services` values, in entry order. */
  function Services(entries: seq<(string, EntryValue)>): (r: seq<JsValue>)
    ensures |r| <= |entries|
  {
    if entries == [] then []
    else
      var rest := Services(entries[..|entries| - 1]);
      var (k, v) := entries[|entries| - 1];
      if k == DeliveryServicesKey then rest + [Sanitize(EntryToJs(v))] else rest
  }

  function JoinValues(vs: seq<JsValue>, sep: string): string {
    if vs == [] then []
    else if |vs| == 1 then JsToString(vs[0])
    else JsToString(vs[0]) + sep + JoinValues(vs[1..], sep)
  }

  /** The `data` object after the entries loop and the `join(', ')`. */
  function FormDataObject(entries: seq<(string, EntryValue)>): map<string, JsValue> {
    var m := Collected(entries);
    var ds := Services(entries);
    if ds == [] then m else m[DeliveryServicesKey := JsStr(JoinValues(ds, ", "))]
  }

  /** Position of the last entry with key `key`, or -1. */
  function LastEntryFor(entries: seq<(string, EntryValue)>, key: string): (i: int)
    ensures -1 <= i < |entries|
    ensures 0 <= i ==> entries[i].0 == key
    ensures forall j :: i < j < |entries| ==> entries[j].0 != key
  {
    if entries == [] then -1
    else if entries[|entries| - 1].0 == key then |entries| - 1
    else LastEntryFor(entries[..|entries| - 1], key)
  }

  /** Each key other than `delivery_services` is present exactly when some entry
      has it, and then holds the sanitised value of its last entry. */
  lemma {:induction false} CollectedLastWins(entries: seq<(string, EntryValue)>, key: string)
    requires key != DeliveryServicesKey
    ensures key in Collected(entries) <==> LastEntryFor(entries, key) >= 0
    ensures key in Collected(entries) ==>
      Collected(entries)[key] == Sanitize(EntryToJs(entries[LastEntryFor(entries, key)].1))
  {
    if entries != [] {
      var init := entries[..|entries| - 1];
      CollectedLastWins(init, key);
      if entries[|entries| - 1].0 != key && LastEntryFor(init, key) >= 0 {
        assert entries[LastEntryFor(init, key)] == init[LastEntryFor(init, key)];
      }
    }
  }

  /** The positions of the `delivery_services` entries, in increasing order. */
  function ServiceIndices(entries: seq<(string, EntryValue)>): (r: seq<nat>)
    ensures forall k :: 0 <= k < |r| ==> r[k] < |entries| && entries[r[k]].0 == DeliveryServicesKey
    ensures forall k, l :: 0 <= k < l < |r| ==> r[k] < r[l]
    ensures forall i :: 0 <= i < |entries| && entries[i].0 == DeliveryServicesKey ==> i in r
  {
    if entries == [] then []
    else
      var init := entries[..|entries| - 1];
      assert forall i :: 0 <= i < |init| ==> entries[i] == init[i];
      var rest := ServiceIndices(init);
      if entries[|entries| - 1].0 == DeliveryServicesKey then rest + [|entries| - 1] else rest
  }

  /** The collected `delivery_services` values are those entries, one for one,
      sanitised, in entry order. */
  lemma {:induction false} ServicesInOrder(entries: seq<(string, EntryValue)>)
    ensures |Services(entries)| == |ServiceIndices(entries)|
    ensures forall k :: 0 <= k < |Services(entries)| ==>
      Services(entries)[k] == Sanitize(EntryToJs(entries[ServiceIndices(entries)[k]].1))
  {
    if entries != [] {
      var init := entries[..|entries| - 1];
      ServicesInOrder(init);
      ServicesStep(entries);
    }
  }

  /** The collected services are the sanitised values at `ServiceIndices`, one for one. */
  predicate ServicesMatch(entries: seq<(string, EntryValue)>) {
    |Services(entries)| == |ServiceIndices(entries)| &&
    forall k :: 0 <= k < |Services(entries)| ==>
      Services(entries)[k] == Sanitize(EntryToJs(entries[ServiceIndices(entries)[k]].1))
  }

  /** One more entry adds its sanitised value and its position exactly when
      it is a `delivery_services` entry. */
  lemma ServicesStep(entries: seq<(string, EntryValue)>)
    requires entries != [] && ServicesMatch(entries[..|entries| - 1])
    ensures ServicesMatch(entries)
  {
    var init := entries[..|entries| - 1];
    var ds, ix, ds0, ix0 := Services(entries), ServiceIndices(entries), Services(init), ServiceIndices(init);
    var last := entries[|entries| - 1];
    if last.0 == DeliveryServicesKey {
      assert ds == ds0 + [Sanitize(EntryToJs(last.1))];
      assert ix == ix0 + [|entries| - 1];
    } else {
      assert ds == ds0 && ix == ix0;
    }
    forall k | 0 <= k < |ds| ensures ds[k] == Sanitize(EntryToJs(entries[ix[k]].1)) {
      if k < |ds0| {
        assert ds[k] == ds0[k] && ix[k] == ix0[k];
        assert entries[ix0[k]] == init[ix0[k]];
      }
    }
  }

  /** There is a list of services exactly when some entry has that key. */
  lemma ServicesPresent(entries: seq<(string, EntryValue)>)
    ensures (exists i :: 0 <= i < |entries| && entries[i].0 == DeliveryServicesKey) <==> Services(entries) != []
  {
    ServicesInOrder(entries);
    var ix := ServiceIndices(entries);
    if ix != [] {
      assert entries[ix[0]].0 == DeliveryServicesKey;
    }
  }

  /** The loop of the submit handler that fills `data` from `formData.entries()`,
      followed by the join of the collected delivery services. */
  method CollectFormData(entries: seq<(string, EntryValue)>) returns (data: map<string, JsValue>)
    ensures data == FormDataObject(entries)
  {
    data := map[];
    var services: seq<JsValue> := [];
    var i := 0;
    while i < |entries|
      invariant 0 <= i <= |entries|
      invariant data == Collected(entries[..i])
      invariant services == Services(entries[..i])
    {
      assert entries[..i + 1][..i] == entries[..i];
      var (key, value) := entries[i];
      if key == DeliveryServicesKey {
        services := services + [Sanitize(EntryToJs(value))];
      } else {
        data := data[key := Sanitize(EntryToJs(value))];
      }
      i := i + 1;
    }
    assert entries[..i] == entries;
    if services != [] {
      data := data[DeliveryServicesKey := JsStr(JoinValues(services, ", "))];
    }
  }

  /** The three checkboxes; `None` when the element is missing from the page. */
  datatype Checkboxes = Checkboxes(confirmAccurate: Option<bool>, consentAutomation: Option<bool>, consentToShare: Option<bool>)

  /** `el?.checked || false` for each of the three consent booleans. */
  function WithConsentFlags(data: map<string, JsValue>, boxes: Checkboxes): (r: map<string, JsValue>)
    ensures r.Keys == data.Keys + {"confirm_accurate", "consent_automation", "consent_to_share"}
    ensures r["consent_to_share"] == JsBool(boxes.consentToShare == Some(true))
    ensures r["confirm_accurate"] == JsBool(boxes.confirmAccurate == Some(true))
    ensures r["consent_automation"] == JsBool(boxes.consentAutomation == Some(true))
    ensures forall k :: k in data && k !in {"confirm_accurate", "consent_automation", "consent_to_share"} ==> r[k] == data[k]
  {
    data["confirm_accurate" := JsBool(boxes.confirmAccurate.GetOr(false))]
        ["consent_automation" := JsBool(boxes.consentAutomation.GetOr(false))]
        ["consent_to_share" := JsBool(boxes.consentToShare.GetOr(false))]
  }

  // ---------------------------------------------------------------------
  // Client-side validation before the request is sent

  const RequiredFields: seq<string> := ["business_name", "instagram_handle", "business_type", "contact_email"]

  /** A missing key reads as `undefined`. */
  function Lookup(data: map<string, JsValue>, key: string): JsValue {
    if key in data then data[key] else JsUndefined
  }

  /** The first of `fields`, in order, whose value fails `validateRequired`. */
  function FirstFailing(data: map<string, JsValue>, fields: seq<string>): (r: Option<string>)
    ensures r.None? <==> forall i :: 0 <= i < |fields| ==> ValidateRequired(Lookup(data, fields[i]))
    ensures r.Some? ==> exists i :: (0 <= i < |fields| && fields[i] == r.value &&
      !ValidateRequired(Lookup(data, fields[i])) &&
      (forall j :: 0 <= j < i ==> ValidateRequired(Lookup(data, fields[j]))))
  {
    if fields == [] then None
    else if !ValidateRequired(Lookup(data, fields[0])) then Some(fields[0])
    else
      var r := FirstFailing(data, fields[1..]);
      assert r.None? ==> forall i :: 0 <= i < |fields| ==> ValidateRequired(Lookup(data, fields[i])) by {
        if r.None? {
          forall i | 0 < i < |fields| ensures ValidateRequired(Lookup(data, fields[i])) {
            assert fields[i] == fields[1..][i - 1];
          }
        }
      }
      assert r.Some? ==> exists i :: (0 <= i < |fields| && fields[i] == r.value &&
        !ValidateRequired(Lookup(data, fields[i])) &&
        (forall j :: 0 <= j < i ==> ValidateRequired(Lookup(data, fields[j])))) by {
        if r.Some? {
          var i :| 0 <= i < |fields[1..]| && fields[1..][i] == r.value &&
            !ValidateRequired(Lookup(data, fields[1..][i])) &&
            (forall j :: 0 <= j < i ==> ValidateRequired(Lookup(data, fields[1..][j])));
          forall j | 0 < j < i + 1 ensures ValidateRequired(Lookup(data, fields[j])) {
            assert fields[j] == fields[1..][j - 1];
          }
          assert fields[i + 1] == fields[1..][i];
        }
      }
      r
  }

  /** The required-field loop of the submit handler, with its early exit. */
  method FirstMissingRequired(data: map<string, JsValue>, fields: seq<string>) returns (missing: Option<string>)
    ensures missing == FirstFailing(data, fields)
  {
    var i := 0;
    while i < |fields|
      invariant 0 <= i <= |fields|
      invariant FirstFailing(data, fields) == FirstFailing(data, fields[i..])
    {
      assert fields[i..][1..] == fields[i + 1..];
      if !ValidateRequired(Lookup(data, fields[i])) {
        return Some(fields[i]);
      }
      i := i + 1;
    }
    return None;
  }

  /** `field.replace('_', ' ')`: a string pattern replaces only its first occurrence. */
  function ReplaceFirst(s: string, a: char, b: char): (r: string)
    ensures |r| == |s|
    ensures forall i :: 0 <= i < |s| ==> r[i] == (if s[i] == a && a !in s[..i] then b else s[i])
  {
    if s == [] then []
    else if s[0] == a then [b] + s[1..]
    else [s[0]] + ReplaceFirst(s[1..], a, b)
  }

  /** The object `submitForm` sends: every value goes through `sanitizeInput`
      once more, so strings are sanitised a second time and the consent
      booleans pass unchanged. */
  function SubmitPayload(data: map<string, JsValue>): map<string, JsValue> {
    map k | k in data :: Sanitize(data[k])
  }

  /** The sanitising loop of `submitForm`, one key at a time. */
  method SubmitForm(data: map<string, JsValue>) returns (payload: map<string, JsValue>)
    ensures payload == SubmitPayload(data)
  {
    payload := map[];
    var rest := data.Keys;
    while rest != {}
      invariant rest <= data.Keys
      invariant payload == map k | k in data.Keys - rest :: Sanitize(data[k])
      decreases |rest|
    {
      var k :| k in rest;
      payload := payload[k := Sanitize(data[k])];
      rest := rest - {k};
    }
  }

  /** The three consent booleans reach the server as the checkboxes set them. */
  lemma SubmitPayloadKeepsFlags(data: map<string, JsValue>, boxes: Checkboxes)
    ensures SubmitPayload(WithConsentFlags(data, boxes))["consent_to_share"] == JsBool(boxes.consentToShare == Some(true))
    ensures SubmitPayload(WithConsentFlags(data, boxes))["confirm_accurate"] == JsBool(boxes.confirmAccurate == Some(true))
    ensures SubmitPayload(WithConsentFlags(data, boxes))["consent_automation"] == JsBool(boxes.consentAutomation == Some(true))
  {
  }

  /** Because the submitted object is sanitised again, a value that passed the
      required-field check can reach the server empty: every cut of
      `javascript:` placed around the keyword, such as `javajavascript:script:`,
      is collected as `javascript:`, passes `validateRequired`, and is sent as "". */
  lemma CheckedThenSentEmpty(data: map<string, JsValue>, key: string, p: string, q: string, t: string)
    requires t == "javascript:" && p + q == t && p != [] && q != []
    requires key in data && data[key] == Sanitize(JsStr(p + t + q))
    ensures ValidateRequired(Lookup(data, key))
    ensures Lookup(SubmitPayload(data), key) == JsStr([])
  {
    SanitizeRejoined(p, q, t);
    KeywordNotBlank(t);
    SanitizeKeywordAlone(t);
  }

  lemma KeywordNotBlank(t: string)
    requires t == "javascript:"
    ensures ValidateRequired(JsStr(t))
  {
    JavascriptPasses(t);
  }

  /** What the submit handler does with the collected data. */
  datatype ClientOutcome = ShowError(message: string) | SendToServer(data: map<string, JsValue>)

  /** The submit handler: collect, add the consent flags, check the required
      fields in order, then the email format, and only then hand the object
      to `submitForm`, which sanitises it again. */
  method HandleSubmit(entries: seq<(string, EntryValue)>, boxes: Checkboxes) returns (outcome: ClientOutcome)
    ensures outcome.SendToServer? ==> outcome.data == SubmitPayload(WithConsentFlags(FormDataObject(entries), boxes))
    ensures outcome.SendToServer? <==>
      (forall i :: 0 <= i < |RequiredFields| ==>
         ValidateRequired(Lookup(WithConsentFlags(FormDataObject(entries), boxes), RequiredFields[i]))) &&
      ValidateEmail(JsToString(Lookup(WithConsentFlags(FormDataObject(entries), boxes), "contact_email")))
    ensures FirstFailing(WithConsentFlags(FormDataObject(entries), boxes), RequiredFields).Some? ==>
      outcome == ShowError(ReplaceFirst(FirstFailing(WithConsentFlags(FormDataObject(entries), boxes), RequiredFields).value, '_', ' ') + " is required.")
    ensures outcome == ShowError("Please enter a valid email address.") <==>
      (forall i :: 0 <= i < |RequiredFields| ==>
         ValidateRequired(Lookup(WithConsentFlags(FormDataObject(entries), boxes), RequiredFields[i]))) &&
      !ValidateEmail(JsToString(Lookup(WithConsentFlags(FormDataObject(entries), boxes), "contact_email")))
  {
    var data := CollectFormData(entries);
    data := WithConsentFlags(data, boxes);
    var missing := FirstMissingRequired(data, RequiredFields);
    if missing.Some? {
      outcome := ShowError(ReplaceFirst(missing.value, '_', ' ') + " is required.");
      assert outcome.message[|outcome.message| - 1] == '.';
      assert outcome.message != "Please enter a valid email address." by {
        assert |outcome.message| == |missing.value| + 13;
      }
      return;
    }
    if !ValidateEmail(JsToString(Lookup(data, "contact_email"))) {
      return ShowError("Please enter a valid email address.");
    }
    var payload := SubmitForm(data);
    return SendToServer(payload);
  }

  // ---------------------------------------------------------------------
  // Which sections of the form are shown

  const SubmitThroughPage := "Submit through this page"
  const UseSendSecurely := "Use sendsecure.ly"

  /** `?plan=` from the URL: exactly `starter` and `pro` select a plan. */
  function PlanFromUrl(param: Option<string>): (r: Option<string>)
    ensures r == Some("Starter") <==> param == Some("starter")
    ensures r == Some("Pro") <==> param == Some("pro")
    ensures r.None? <==> param != Some("starter") && param != Some("pro")
  {
    if param.Some? && param.value != "" then
      if param.value == "starter" then Some("Starter")
      else if param.value == "pro" then Some("Pro")
      else None
    else None
  }

  /** The radio selections and the sections they show or hide. */
  class FormPage {
    var selectedPlan: Option<string>
    var selectedMethod: Option<string>
    var selectedDelivery: Option<string>
    var loginShown: bool
    var proLoginShown: bool
    var sendSecurelyShown: bool
    var deliveryServicesShown: bool
    var pickupOptionsShown: bool

    /** The page as loaded, before `updateConditionalFields` and `updateLoginFields` run. */
    constructor ()
      ensures selectedPlan.None? && selectedMethod.None? && selectedDelivery.None?
      ensures !loginShown && !proLoginShown && !sendSecurelyShown
      ensures !deliveryServicesShown && !pickupOptionsShown
    {
      selectedPlan, selectedMethod, selectedDelivery := None, None, None;
      loginShown, proLoginShown, sendSecurelyShown := false, false, false;
      deliveryServicesShown, pickupOptionsShown := false, false;
    }

    /** `updateConditionalFields`: hide both, then show by the delivery choice. */
    method UpdateConditionalFields()
      modifies this`deliveryServicesShown, this`pickupOptionsShown
      ensures deliveryServicesShown <==> selectedDelivery == Some("Delivery") || selectedDelivery == Some("Both")
      ensures pickupOptionsShown <==> selectedDelivery == Some("Pickup") || selectedDelivery == Some("Both")
    {
      deliveryServicesShown := false;
      pickupOptionsShown := false;
      if selectedDelivery.Some? {
        var v := selectedDelivery.value;
        if v == "Delivery" || v == "Both" {
          deliveryServicesShown := true;
        }
        if v == "Pickup" || v == "Both" {
          pickupOptionsShown := true;
        }
      }
    }

    /** `updateLoginFields`: hide all three, then show by the plan and method. */
    method UpdateLoginFields()
      modifies this`loginShown, this`proLoginShown, this`sendSecurelyShown
      ensures loginShown <==> selectedPlan.Some? && selectedMethod == Some(SubmitThroughPage)
      ensures proLoginShown <==> loginShown && selectedPlan == Some("Pro")
      ensures sendSecurelyShown <==> selectedPlan.Some? && selectedMethod == Some(UseSendSecurely)
      ensures !(loginShown && sendSecurelyShown)
    {
      loginShown := false;
      proLoginShown := false;
      sendSecurelyShown := false;
      if selectedPlan.Some? && selectedMethod.Some? {
        if selectedMethod.value == SubmitThroughPage {
          loginShown := true;
          if selectedPlan.value == "Pro" {
            proLoginShown := true;
          }
        } else if selectedMethod.value == UseSendSecurely {
          sendSecurelyShown := true;
        }
      }
    }

    /** Pre-selecting the plan from the URL, then refreshing the login sections. */
    method SelectPlanFromUrl(param: Option<string>)
      modifies this`selectedPlan, this`loginShown, this`proLoginShown, this`sendSecurelyShown
      ensures PlanFromUrl(param).Some? ==> selectedPlan == PlanFromUrl(param)
      ensures PlanFromUrl(param).Some? ==>
        (loginShown <==> selectedMethod == Some(SubmitThroughPage)) &&
        (proLoginShown <==> loginShown && param == Some("pro")) &&
        (sendSecurelyShown <==> selectedMethod == Some(UseSendSecurely))
      ensures PlanFromUrl(param).None? ==> (selectedPlan == old(selectedPlan) &&
        loginShown == old(loginShown) && proLoginShown == old(proLoginShown) &&
        sendSecurelyShown == old(sendSecurelyShown))
    {
      var planValue := PlanFromUrl(param);
      if planValue.Some? {
        selectedPlan := planValue;
        UpdateLoginFields();
      }
    }
  }

  // ---------------------------------------------------------------------
  // The file inputs

  datatype SelectedFile = SelectedFile(name: string, mimeType: string, size: nat)

  const MaxUploadSize: nat := 5 * 1024 * 1024

  predicate AcceptedFile(f: SelectedFile) {
    f.mimeType in ["application/pdf", "image/jpeg", "image/png", "image/jpg"] && f.size <= MaxUploadSize
  }

  /** The names of the accepted files, in selection order. */
  function AcceptedNames(files: seq<SelectedFile>): (r: seq<string>)
    ensures |r| <= |files|
  {
    if files == [] then []
    else
      var rest := AcceptedNames(files[..|files| - 1]);
      var f := files[|files| - 1];
      if AcceptedFile(f) then rest + [f.name] else rest
  }

  /** A name is listed exactly when some selected file with that name passes the filter. */
  lemma {:induction false} AcceptedNamesExact(files: seq<SelectedFile>, n: string)
    ensures n in AcceptedNames(files) <==> exists f :: f in files && AcceptedFile(f) && f.name == n
  {
    if files != [] {
      var init := files[..|files| - 1];
      AcceptedNamesExact(init, n);
      assert files == init + [files[|files| - 1]];
    }
  }

  /** The text shown beside a file input after a selection. */
  datatype FileInfo = NoFileSelected | Selected(text: string) | InvalidSelection

  /** The `change` handler of a file input: filter the files in a loop, then
      report them, or reject the selection and clear the input. */
  method OnFilesChanged(files: seq<SelectedFile>) returns (info: FileInfo, clearInput: bool)
    ensures files == [] ==> info == NoFileSelected && !clearInput
    ensures files != [] && AcceptedNames(files) != [] ==>
      info == Selected("Selected: " + Join(AcceptedNames(files), ", ")) && !clearInput
    ensures files != [] && AcceptedNames(files) == [] ==> info == InvalidSelection && clearInput
  {
    if |files| == 0 {
      return NoFileSelected, false;
    }
    var validFiles: seq<string> := [];
    var i := 0;
    while i < |files|
      invariant 0 <= i <= |files|
      invariant validFiles == AcceptedNames(files[..i])
    {
      assert files[..i + 1][..i] == files[..i];
      if AcceptedFile(files[i]) {
        validFiles := validFiles + [files[i].name];
      }
      i := i + 1;
    }
    assert files[..i] == files;
    if |validFiles| > 0 {
      info, clearInput := Selected("Selected: " + Join(validFiles, ", ")), false;
    } else {
      info, clearInput := InvalidSelection, true;
    }
  }
}
