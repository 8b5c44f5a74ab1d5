/** The Python str methods the integration applies to configured text, each for the
    one-character argument it is called with: rstrip("/"), split(".")[0],
    replace("-", "_") and replace(" ", "_"), and lower(). */
module PyStrings {

  /** s.rstrip(c): s without its trailing run of c. */
  function RStrip(s: string, c: char): (r: string)
    ensures r <= s
    ensures r == [] || r[|r| - 1] != c
    ensures forall i :: |r| <= i < |s| ==> s[i] == c
    decreases |s|
  {
    if |s| > 0 && s[|s| - 1] == c then RStrip(s[..|s| - 1], c) else s
  }

  /** The three properties of RStrip determine its result: any prefix of s that does
      not end in c and is followed only by c's is RStrip(s, c). */
  lemma {:induction false} RStripUnique(s: string, c: char, t: string)
    requires t <= s
    requires t == [] || t[|t| - 1] != c
    requires forall i :: |t| <= i < |s| ==> s[i] == c
    ensures t == RStrip(s, c)
  {
    var r := RStrip(s, c);
    assert t == s[..|t|] && r == s[..|r|];
  }

  /** Stripping twice strips nothing more. */
  lemma {:induction false} RStripIdempotent(s: string, c: char)
    ensures RStrip(RStrip(s, c), c) == RStrip(s, c)
  {
    var r := RStrip(s, c);
    RStripUnique(r, c, r);
  }

  /** s.split(sep)[0]: the text before the first sep, or all of s when it has none. */
  function SplitFirst(s: string, sep: char): (r: string)
    ensures r <= s
    ensures sep !in r
    ensures |r| < |s| ==> s[|r|] == sep
  {
    if s == [] || s[0] == sep then [] else [s[0]] + SplitFirst(s[1..], sep)
  }

  /** A text without sep splits to itself. */
  lemma {:induction false} SplitFirstNoSep(s: string, sep: char)
    requires sep !in s
    ensures SplitFirst(s, sep) == s
  {
    var r := SplitFirst(s, sep);
    assert r == s[..|r|];
  }

  /** s.replace(a, b) for single characters a and b. */
  function Replace(s: string, a: char, b: char): (r: string)
    ensures |r| == |s|
    ensures forall i :: 0 <= i < |s| ==> r[i] == (if s[i] == a then b else s[i])
  {
    if s == [] then [] else [if s[0] == a then b else s[0]] + Replace(s[1..], a, b)
  }

  predicate IsUpper(c: char)
  {
    'A' <= c <= 'Z'
  }

  /** c.lower() for ASCII; every other character is left as it is. */
  function LowerChar(c: char): (r: char)
    ensures !IsUpper(r)
    ensures !IsUpper(c) ==> r == c
    ensures IsUpper(c) ==> r as int == c as int + 32
  {
    if IsUpper(c) then (c as int + 32) as char else c
  }

  /** s.lower(), restricted to ASCII letters. */
  function Lower(s: string): (r: string)
    ensures |r| == |s|
    ensures forall i :: 0 <= i < |s| ==> r[i] == LowerChar(s[i])
  {
    if s == [] then [] else [LowerChar(s[0])] + Lower(s[1..])
  }
}
