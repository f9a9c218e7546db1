/** The Python string operations the agent relies on: `str.strip()`, `sep.join(parts)`,
    the substring test `sub in s`, `str.lower()` and `str.capitalize()`. `Split` is not one
    of them: it is the inverse used to prove that a joined text gives its parts back.
    Strings are sequences of Unicode scalar values; lone surrogates, which a Python
    `str` can hold, are not modelled. */
module Text {

  // ---------------------------------------------------------------------------
  // Whitespace and str.strip()
  // ---------------------------------------------------------------------------

  /** The characters for which Python's `str.isspace()` holds; `str.strip()` with no
      argument removes exactly these. */
  predicate IsSpace(c: char) {
    || c == ' ' || c == '\t' || c == '\n' || c == '\r'
    || c == '\U{0B}' || c == '\U{0C}'
    || ('\U{1C}' <= c <= '\U{1F}')
    || c == '\U{85}' || c == '\U{A0}' || c == '\U{1680}'
    || ('\U{2000}' <= c <= '\U{200A}')
    || c == '\U{2028}' || c == '\U{2029}' || c == '\U{202F}' || c == '\U{205F}' || c == '\U{3000}'
  }

  predicate AllSpace(s: string) {
    forall i :: 0 <= i < |s| ==> IsSpace(s[i])
  }

  /** Neither end of `s` is whitespace. */
  predicate Trimmed(s: string) {
    s == [] || (!IsSpace(s[0]) && !IsSpace(s[|s| - 1]))
  }

  /** `r` is `s[i..j]`, and everything before `i` and from `j` on is whitespace. */
  ghost predicate StripCut(s: string, r: string, i: int, j: int) {
    0 <= i <= j <= |s| && r == s[i..j] && AllSpace(s[..i]) && AllSpace(s[j..])
  }

  /** `r` is `s` with a whitespace-only prefix and a whitespace-only suffix cut off,
      and nothing more can be cut: the meaning of `s.strip() == r`. */
  ghost predicate IsStripOf(s: string, r: string) {
    Trimmed(r) && exists i, j :: StripCut(s, r, i, j)
  }

  /** `s.lstrip()`. */
  function TrimStart(s: string): string {
    if |s| > 0 && IsSpace(s[0]) then TrimStart(s[1..]) else s
  }

  /** `TrimStart` keeps a suffix, cuts only whitespace, and keeps no leading whitespace. */
  lemma {:induction false} TrimStartCuts(s: string)
    ensures var r := TrimStart(s);
      && |r| <= |s| && r == s[|s| - |r|..]
      && AllSpace(s[..|s| - |r|])
      && (r == [] || !IsSpace(r[0]))
  {
    if |s| > 0 && IsSpace(s[0]) {
      TrimStartCuts(s[1..]);
      var r := TrimStart(s);
      assert s[..|s| - |r|] == [s[0]] + s[1..][..|s| - 1 - |r|];
    }
  }

  /** `s.rstrip()`. */
  function TrimEnd(s: string): string {
    if |s| > 0 && IsSpace(s[|s| - 1]) then TrimEnd(s[..|s| - 1]) else s
  }

  /** `TrimEnd` keeps a prefix, cuts only whitespace, and keeps no trailing whitespace. */
  lemma {:induction false} TrimEndCuts(s: string)
    ensures var r := TrimEnd(s);
      && |r| <= |s| && r == s[..|r|]
      && AllSpace(s[|r|..])
      && (r == [] || !IsSpace(r[|r| - 1]))
  {
    if |s| > 0 && IsSpace(s[|s| - 1]) {
      TrimEndCuts(s[..|s| - 1]);
      var r := TrimEnd(s);
      assert s[|r|..] == s[..|s| - 1][|r|..] + [s[|s| - 1]];
    }
  }

  /** `s.strip()`: leading and trailing whitespace removed. The result is no longer
      than the input and starts and ends with a non-whitespace character (or is empty);
      `StripIsStrip` and `StripUnique` pin it down exactly. */
  function Strip(s: string): (r: string)
    ensures |r| <= |s| && Trimmed(r)
  {
    TrimStartCuts(s);
    TrimEndCuts(TrimStart(s));
    TrimEnd(TrimStart(s))
  }

  /** `Strip` meets its definition: what it keeps is trimmed and only whitespace was
      cut on either side. */
  lemma StripIsStrip(s: string)
    ensures IsStripOf(s, Strip(s))
  {
    var t := TrimStart(s);
    var r := TrimEnd(t);
    TrimStartCuts(s);
    TrimEndCuts(t);
    var i := |s| - |t|;
    assert r == s[i..i + |r|];
    assert AllSpace(s[i + |r|..]) by {
      assert s[i + |r|..] == t[|r|..];
    }
    assert StripCut(s, r, i, i + |r|);
  }

  /** A cut whose kept part is empty leaves only whitespace. */
  lemma EmptyCutAllSpace(s: string, i: int, j: int)
    requires StripCut(s, [], i, j)
    ensures AllSpace(s)
  {
    assert s == s[..i] + s[j..];
  }

  /** Two cuts that keep non-empty trimmed text start at the same place. */
  lemma CutStartUnique(s: string, r1: string, i1: int, j1: int, r2: string, i2: int, j2: int)
    requires StripCut(s, r1, i1, j1) && r1 != [] && !IsSpace(r1[0])
    requires StripCut(s, r2, i2, j2) && r2 != [] && !IsSpace(r2[0])
    ensures i1 == i2
  {
    assert s[i1] == r1[0] && s[i2] == r2[0];
  }

  /** Two cuts that keep non-empty trimmed text end at the same place. */
  lemma CutEndUnique(s: string, r1: string, i1: int, j1: int, r2: string, i2: int, j2: int)
    requires StripCut(s, r1, i1, j1) && r1 != [] && !IsSpace(r1[|r1| - 1])
    requires StripCut(s, r2, i2, j2) && r2 != [] && !IsSpace(r2[|r2| - 1])
    ensures j1 == j2
  {
    assert s[j1 - 1] == r1[|r1| - 1] && s[j2 - 1] == r2[|r2| - 1];
  }

  /** The strip of a string is unique: `IsStripOf` is an independent definition of `Strip`. */
  lemma StripUnique(s: string, r1: string, r2: string)
    requires IsStripOf(s, r1) && IsStripOf(s, r2)
    ensures r1 == r2
  {
    var i1, j1 :| StripCut(s, r1, i1, j1);
    var i2, j2 :| StripCut(s, r2, i2, j2);
    if r1 == [] || r2 == [] {
      if r1 == [] { EmptyCutAllSpace(s, i1, j1); } else { EmptyCutAllSpace(s, i2, j2); }
    } else {
      CutStartUnique(s, r1, i1, j1, r2, i2, j2);
      CutEndUnique(s, r1, i1, j1, r2, i2, j2);
    }
  }

  /** Stripping twice is stripping once: a model reply that was already `.strip()`ped is
      left as it is. */
  lemma StripIdempotent(s: string)
    ensures Strip(Strip(s)) == Strip(s)
  {
    var r := Strip(s);
    StripIsStrip(s);
    StripIsStrip(r);
    assert StripCut(r, r, 0, |r|);
    StripUnique(r, Strip(r), r);
  }

  // ---------------------------------------------------------------------------
  // sep.join(parts) and s.split(sep)
  // ---------------------------------------------------------------------------

  /** `sep.join(parts)`: the parts in order with `sep` between neighbours and nothing
      before the first or after the last. */
  function Join(sep: string, parts: seq<string>): (r: string)
    ensures |parts| == 0 ==> r == ""
    ensures |parts| > 0 ==> parts[0] <= r
  {
    if |parts| == 0 then ""
    else if |parts| == 1 then parts[0]
    else parts[0] + sep + Join(sep, parts[1..])
  }

  /** Joining one more part adds the separator and that part at the end. */
  lemma {:induction false} JoinSnoc(sep: string, parts: seq<string>, p: string)
    requires |parts| > 0
    ensures Join(sep, parts + [p]) == Join(sep, parts) + sep + p
  {
    if |parts| == 1 {
      assert (parts + [p])[1..] == [p];
    } else {
      assert (parts + [p])[1..] == parts[1..] + [p];
      JoinSnoc(sep, parts[1..], p);
    }
  }

  /** The joined text ends with the last part: no separator trails it (the saved
      transcript has no final newline). */
  lemma JoinEndsWithLast(sep: string, parts: seq<string>)
    requires |parts| > 0
    ensures var last := parts[|parts| - 1];
      var r := Join(sep, parts);
      |last| <= |r| && r[|r| - |last|..] == last
  {
    var n := |parts|;
    if n > 1 {
      assert parts == parts[..n - 1] + [parts[n - 1]];
      JoinSnoc(sep, parts[..n - 1], parts[n - 1]);
    }
  }

  /** Total length of a list of strings. */
  function TotalLength(parts: seq<string>): nat {
    if |parts| == 0 then 0 else |parts[0]| + TotalLength(parts[1..])
  }

  /** The joined text holds every character of every part and one separator per gap. */
  lemma {:induction false} JoinLength(sep: string, parts: seq<string>)
    requires |parts| > 0
    ensures |Join(sep, parts)| == TotalLength(parts) + |sep| * (|parts| - 1)
  {
    if |parts| > 1 {
      JoinLength(sep, parts[1..]);
    }
  }

  /** `s.split(c)` for a one-character separator, as Python computes it: always at
      least one piece, and `"".split(c) == [""]`. Used only as the inverse of `Join`. */
  function Split(c: char, s: string): (r: seq<string>)
    ensures |r| >= 1
    decreases |s|
  {
    if |s| == 0 then [""]
    else if s[0] == c then [""] + Split(c, s[1..])
    else
      var rest := Split(c, s[1..]);
      [[s[0]] + rest[0]] + rest[1..]
  }

  /** A string without the separator splits into itself alone. */
  lemma {:induction false} SplitNoSeparator(c: char, s: string)
    requires c !in s
    ensures Split(c, s) == [s]
  {
    if |s| > 0 {
      assert s[0] in s;
      assert forall k :: 0 <= k < |s[1..]| ==> s[1..][k] == s[k + 1];
      SplitNoSeparator(c, s[1..]);
      assert [s[0]] + s[1..] == s;
    }
  }

  /** Splitting `p + c + t` cuts off exactly `p` when `p` holds no separator. */
  lemma {:induction false} SplitCons(c: char, p: string, t: string)
    requires c !in p
    ensures Split(c, p + [c] + t) == [p] + Split(c, t)
  {
    var s := p + [c] + t;
    if |p| == 0 {
      assert s == [c] + t;
      assert s[1..] == t;
    } else {
      assert s[1..] == p[1..] + [c] + t;
      assert p[0] in p;
      assert forall k :: 0 <= k < |p[1..]| ==> p[1..][k] == p[k + 1];
      SplitCons(c, p[1..], t);
      assert [p[0]] + p[1..] == p;
    }
  }

  /** Round trip: splitting a join on a one-character separator gives the parts back,
      provided no part holds that character. */
  lemma {:induction false} SplitJoin(c: char, parts: seq<string>)
    requires |parts| > 0
    requires forall k :: 0 <= k < |parts| ==> c !in parts[k]
    ensures Split(c, Join([c], parts)) == parts
  {
    if |parts| == 1 {
      SplitNoSeparator(c, parts[0]);
    } else {
      SplitCons(c, parts[0], Join([c], parts[1..]));
      SplitJoin(c, parts[1..]);
      assert [parts[0]] + parts[1..] == parts;
    }
  }

  // ---------------------------------------------------------------------------
  // Substring test `sub in s`
  // ---------------------------------------------------------------------------

  predicate StartsWith(s: string, prefix: string) {
    |prefix| <= |s| && s[..|prefix|] == prefix
  }

  /** `sub in s`: `sub` occurs somewhere in `s` (the empty string occurs everywhere). */
  predicate Contains(s: string, sub: string)
    decreases |s|
  {
    StartsWith(s, sub) || (|s| > 0 && Contains(s[1..], sub))
  }

  /** `sub` occurs in `s` starting at position `i`. */
  ghost predicate OccursAt(s: string, sub: string, i: int) {
    0 <= i && i + |sub| <= |s| && s[i..i + |sub|] == sub
  }

  /** Only a string at most as long as `s` can occur in it. */
  lemma {:induction false} ContainsLength(s: string, sub: string)
    ensures Contains(s, sub) ==> |sub| <= |s|
    decreases |s|
  {
    if !StartsWith(s, sub) && |s| > 0 {
      ContainsLength(s[1..], sub);
    }
  }

  /** `Contains` holds exactly when some position of `s` starts an occurrence of `sub`. */
  lemma {:induction false} ContainsIff(s: string, sub: string)
    ensures Contains(s, sub) <==> exists i :: OccursAt(s, sub, i)
    decreases |s|
  {
    if StartsWith(s, sub) {
      assert OccursAt(s, sub, 0);
    } else if |s| > 0 {
      ContainsIff(s[1..], sub);
      if Contains(s[1..], sub) {
        var i :| OccursAt(s[1..], sub, i);
        assert s[1..][i..i + |sub|] == s[i + 1..i + 1 + |sub|];
        assert OccursAt(s, sub, i + 1);
      }
      if exists i :: OccursAt(s, sub, i) {
        var i :| OccursAt(s, sub, i);
        assert i != 0;
        assert s[1..][i - 1..i - 1 + |sub|] == s[i..i + |sub|];
        assert OccursAt(s[1..], sub, i - 1);
      }
    }
  }

  // ---------------------------------------------------------------------------
  // str.lower() and str.capitalize() (ASCII letters only)
  // ---------------------------------------------------------------------------

  function LowerChar(c: char): (d: char)
    ensures 'A' <= c <= 'Z' ==> 'a' <= d <= 'z' && d as int == c as int + 32
    ensures !('A' <= c <= 'Z') ==> d == c
  {
    if 'A' <= c <= 'Z' then (c as int + 32) as char else c
  }

  function UpperChar(c: char): (d: char)
    ensures 'a' <= c <= 'z' ==> 'A' <= d <= 'Z' && d as int == c as int - 32
    ensures !('a' <= c <= 'z') ==> d == c
  {
    if 'a' <= c <= 'z' then (c as int - 32) as char else c
  }

  /** `s.lower()`: every upper-case letter replaced by its lower-case form, in place. */
  function Lower(s: string): (r: string)
    ensures |r| == |s|
    ensures forall i :: 0 <= i < |s| ==> r[i] == LowerChar(s[i])
  {
    seq(|s|, i requires 0 <= i < |s| => LowerChar(s[i]))
  }

  /** Lower-casing a lower-cased string changes nothing. */
  lemma LowerIdempotent(s: string)
    ensures Lower(Lower(s)) == Lower(s)
  {
    assert forall i :: 0 <= i < |s| ==> Lower(Lower(s))[i] == Lower(s)[i];
  }

  /** `s.capitalize()`: the first character upper-cased, the rest lower-cased. */
  function Capitalize(s: string): (r: string)
    ensures |r| == |s|
    ensures |s| > 0 ==> r[0] == UpperChar(s[0])
    ensures |s| > 0 ==> r[1..] == Lower(s[1..])
  {
    if s == [] then [] else [UpperChar(s[0])] + Lower(s[1..])
  }
}
