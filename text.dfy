/** The .NET string operations the client relies on, written out over
    `seq<char>`: `Char.IsWhiteSpace`, `String.Trim`, `String.ToLower`,
    `String.Contains`, `String.Replace` and `Path.Combine`. */
module Text {
  import opened Wrappers

  /** `Char.IsWhiteSpace`: the Unicode space, line and paragraph separators
      together with U+0009..U+000D and U+0085. */
  predicate IsWhiteSpace(c: char) {
    || c == ' ' || ('\t' <= c <= '\r') || c == '\U{0085}' || c == '\U{00A0}'
    || c == '\U{1680}' || ('\U{2000}' <= c <= '\U{200A}') || c == '\U{2028}' || c == '\U{2029}'
    || c == '\U{202F}' || c == '\U{205F}' || c == '\U{3000}'
  }

  /** `String.TrimStart()`: drops the leading white space. */
  function TrimStart(s: string): string {
    if s != [] && IsWhiteSpace(s[0]) then TrimStart(s[1..]) else s
  }

  /** `String.TrimEnd()`: drops the trailing white space. */
  function TrimEnd(s: string): string {
    if s != [] && IsWhiteSpace(s[|s| - 1]) then TrimEnd(s[..|s| - 1]) else s
  }

  /** `String.Trim()`. */
  function Trim(s: string): string {
    TrimEnd(TrimStart(s))
  }

  /** `TrimStart` removes exactly the longest all-white-space prefix. */
  lemma {:induction false} TrimStartSpec(s: string)
    ensures var r := TrimStart(s);
      && |r| <= |s| && r == s[|s| - |r|..]
      && (r == [] || !IsWhiteSpace(r[0]))
      && forall i :: 0 <= i < |s| - |r| ==> IsWhiteSpace(s[i])
  {
    if s != [] && IsWhiteSpace(s[0]) {
      TrimStartSpec(s[1..]);
      var r := TrimStart(s);
      forall i | 0 <= i < |s| - |r| ensures IsWhiteSpace(s[i]) {
        if i > 0 { assert s[i] == s[1..][i - 1]; }
      }
    }
  }

  /** `TrimEnd` removes exactly the longest all-white-space suffix. */
  lemma {:induction false} TrimEndSpec(s: string)
    ensures var r := TrimEnd(s);
      && |r| <= |s| && r == s[..|r|]
      && (r == [] || !IsWhiteSpace(r[|r| - 1]))
      && forall i :: |r| <= i < |s| ==> IsWhiteSpace(s[i])
  {
    if s != [] && IsWhiteSpace(s[|s| - 1]) {
      TrimEndSpec(s[..|s| - 1]);
    }
  }

  /** A string that neither starts nor ends with white space trims to itself. */
  lemma TrimPlain(s: string)
    requires s != [] && !IsWhiteSpace(s[0]) && !IsWhiteSpace(s[|s| - 1])
    ensures Trim(s) == s
  {
  }

  /** White space in front is skipped by `TrimStart`. */
  lemma {:induction false} TrimStartSkips(p: string, t: string)
    requires forall i :: 0 <= i < |p| ==> IsWhiteSpace(p[i])
    ensures TrimStart(p + t) == TrimStart(t)
  {
    if p == [] {
      assert p + t == t;
    } else {
      assert (p + t)[0] == p[0] && (p + t)[1..] == p[1..] + t;
      TrimStartSkips(p[1..], t);
    }
  }

  /** White space behind is skipped by `TrimEnd`. */
  lemma {:induction false} TrimEndSkips(t: string, q: string)
    requires forall i :: 0 <= i < |q| ==> IsWhiteSpace(q[i])
    ensures TrimEnd(t + q) == TrimEnd(t)
  {
    if q == [] {
      assert t + q == t;
    } else {
      assert (t + q)[|t + q| - 1] == q[|q| - 1] && (t + q)[..|t + q| - 1] == t + q[..|q| - 1];
      TrimEndSkips(t, q[..|q| - 1]);
    }
  }

  /** Any white-space padding around a string that neither starts nor ends
      with white space is trimmed away, and nothing else is. */
  lemma TrimAround(p: string, s: string, q: string)
    requires forall i :: 0 <= i < |p| ==> IsWhiteSpace(p[i])
    requires forall i :: 0 <= i < |q| ==> IsWhiteSpace(q[i])
    requires s != [] && !IsWhiteSpace(s[0]) && !IsWhiteSpace(s[|s| - 1])
    ensures Trim(p + s + q) == s
  {
    assert p + s + q == p + (s + q);
    TrimStartSkips(p, s + q);
    assert TrimStart(s + q) == s + q;
    TrimEndSkips(s, q);
  }

  /** `s == null || s.Trim().Length == 0` for a non-null `s`: holds exactly
      when every character of `s` is white space. */
  predicate IsBlank(s: string): (b: bool)
    ensures b <==> forall i :: 0 <= i < |s| ==> IsWhiteSpace(s[i])
  {
    TrimStartSpec(s);
    TrimEndSpec(TrimStart(s));
    |Trim(s)| == 0
  }

  /** The null-or-blank test the client applies to nullable strings. */
  predicate IsNullOrBlank(s: Option<string>) {
    s.None? || IsBlank(s.value)
  }

  /** What a nullable string contributes to a C# concatenation: null adds nothing. */
  function OrEmpty(s: Option<string>): string {
    if s.None? then "" else s.value
  }

  /** `Char.ToLower` on the ASCII upper-case letters. */
  function LowerChar(c: char): char {
    if 'A' <= c <= 'Z' then (c as int + 32) as char else c
  }

  /** `String.ToLower()`, letter by letter. */
  function ToLower(s: string): string {
    seq(|s|, i requires 0 <= i < |s| => LowerChar(s[i]))
  }

  /** The option values the client treats as "true": `value.Trim().ToLower() == "true"`. */
  predicate IsTrue(value: string) {
    ToLower(Trim(value)) == "true"
  }

  /** A value whose trimmed text reads "true" in any case counts as "true",
      whatever white space pads it. */
  lemma TrueValues(p: string, s: string, q: string)
    requires forall i :: 0 <= i < |p| ==> IsWhiteSpace(p[i])
    requires forall i :: 0 <= i < |q| ==> IsWhiteSpace(q[i])
    requires ToLower(s) == "true"
    ensures IsTrue(p + s + q)
  {
    assert |s| == 4;
    assert ToLower(s)[0] == 't' && ToLower(s)[3] == 'e';
    TrimAround(p, s, q);
  }

  /** Lower-casing commutes with taking a slice. */
  lemma ToLowerSlice(s: string, i: int, j: int)
    requires 0 <= i <= j <= |s|
    ensures ToLower(s)[i..j] == ToLower(s[i..j])
  {
  }

  /** `sub` occurs in `s` at position `i`. */
  predicate OccursAt(s: string, sub: string, i: int) {
    0 <= i && i + |sub| <= |s| && s[i..i + |sub|] == sub
  }

  /** `String.Contains(sub)`. */
  predicate Occurs(s: string, sub: string) {
    exists i | 0 <= i <= |s| - |sub| :: OccursAt(s, sub, i)
  }

  /** `String.Replace(pat, rep)` for a non-empty `pat`: every occurrence of
      `pat`, found left to right without overlap, is replaced by `rep`. */
  function ReplaceAll(s: string, pat: string, rep: string): string
    requires |pat| > 0
  {
    if |s| < |pat| then s
    else if s[..|pat|] == pat then rep + ReplaceAll(s[|pat|..], pat, rep)
    else [s[0]] + ReplaceAll(s[1..], pat, rep)
  }

  /** A string without an occurrence of `pat` is left as it is. */
  lemma {:induction false} ReplaceAbsent(s: string, pat: string, rep: string)
    requires |pat| > 0 && !Occurs(s, pat)
    ensures ReplaceAll(s, pat, rep) == s
  {
    if |s| >= |pat| {
      assert s[..|pat|] != pat by { assert !OccursAt(s, pat, 0); }
      AbsentFromTail(s, pat);
      ReplaceAbsent(s[1..], pat, rep);
      assert [s[0]] + s[1..] == s;
    }
  }

  /** A string with no white space in it, such as an access key. */
  predicate IsWord(s: string) {
    forall i :: 0 <= i < |s| ==> !IsWhiteSpace(s[i])
  }

  /** Replacing a word `pat` skips over a stretch that does not contain it and
      the space after it: no occurrence can start there, because it would
      have to contain the space. */
  lemma {:induction false} ReplaceSkipsWord(w: string, rest: string, pat: string, rep: string)
    requires |pat| > 0 && IsWord(pat) && !Occurs(w, pat)
    ensures ReplaceAll(w + " " + rest, pat, rep) == w + " " + ReplaceAll(rest, pat, rep)
    decreases |w|
  {
    var s := w + " " + rest;
    if |s| < |pat| {
      ReplaceAbsent(rest, pat, rep);
    } else {
      NoMatchBeforeSpace(w, rest, pat);
      if w == [] {
        assert s[1..] == rest;
      } else {
        AbsentFromTail(w, pat);
        assert s[1..] == w[1..] + " " + rest;
        ReplaceSkipsWord(w[1..], rest, pat, rep);
        assert [s[0]] + (w[1..] + " " + ReplaceAll(rest, pat, rep)) == w + " " + ReplaceAll(rest, pat, rep);
      }
    }
  }

  /** Replacing a word leaves a leading space alone. */
  lemma ReplaceSkipsSpace(rest: string, pat: string, rep: string)
    requires |pat| > 0 && IsWord(pat)
    ensures ReplaceAll(" " + rest, pat, rep) == " " + ReplaceAll(rest, pat, rep)
  {
    assert " " + rest == [] + " " + rest;
    ReplaceSkipsWord([], rest, pat, rep);
  }

  /** A word that `w` does not contain cannot start at the front of `w + " " + rest`. */
  lemma NoMatchBeforeSpace(w: string, rest: string, pat: string)
    requires |pat| > 0 && IsWord(pat) && !Occurs(w, pat) && |w + " " + rest| >= |pat|
    ensures (w + " " + rest)[..|pat|] != pat
  {
    var s := w + " " + rest;
    if |pat| <= |w| {
      assert !OccursAt(w, pat, 0);
      assert s[..|pat|] == w[..|pat|];
    } else {
      assert s[|w|] == ' ' && !IsWhiteSpace(pat[|w|]);
    }
  }

  /** What a string does not contain, its tail does not contain either. */
  lemma AbsentFromTail(w: string, pat: string)
    requires w != [] && !Occurs(w, pat)
    ensures !Occurs(w[1..], pat)
  {
    forall i | 0 <= i <= |w[1..]| - |pat| ensures !OccursAt(w[1..], pat, i) {
      assert w[1..][i..i + |pat|] == w[i + 1..i + 1 + |pat|];
      assert !OccursAt(w, pat, i + 1);
    }
  }

  /** Joins words with single spaces. */
  function Unwords(ws: seq<string>): string {
    if ws == [] then "" else if |ws| == 1 then ws[0] else ws[0] + " " + Unwords(ws[1..])
  }

  /** `Path.Combine(dir, name)` for a relative `name`: a separator is put
      between the two unless `dir` is empty or already ends with one. */
  function Combine(dir: string, name: string): (r: string)
    ensures |r| >= |name| && r[|r| - |name|..] == name
    ensures dir == [] ==> r == name
    ensures dir != [] ==> |r| >= |dir| && r[..|dir|] == dir
  {
    if dir == [] then name
    else if dir[|dir| - 1] in {'\\', '/', ':'} then dir + name
    else dir + "\\" + name
  }
}
