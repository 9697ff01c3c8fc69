/** The Python string operations that the audit-exception checker uses. */
module PyText {
  /** str.isspace for one character. */
  predicate IsSpace(c: char) {
    || '\t' <= c <= '\r'
    || '\U{1c}' <= c <= ' '
    || c == '\U{85}' || c == '\U{a0}' || c == '\U{1680}'
    || '\U{2000}' <= c <= '\U{200a}'
    || c == '\U{2028}' || c == '\U{2029}' || c == '\U{202f}' || c == '\U{205f}' || c == '\U{3000}'
  }

  predicate AllSpace(s: string) {
    forall i :: 0 <= i < |s| ==> IsSpace(s[i])
  }

  function LStrip(s: string): string {
    if s != "" && IsSpace(s[0]) then LStrip(s[1..]) else s
  }

  function RStrip(s: string): string {
    if s != "" && IsSpace(s[|s| - 1]) then RStrip(s[..|s| - 1]) else s
  }

  /** str.strip with no argument. */
  function Strip(s: string): string {
    RStrip(LStrip(s))
  }

  /** Nothing to strip. */
  predicate Trimmed(s: string) {
    s != "" ==> !IsSpace(s[0]) && !IsSpace(s[|s| - 1])
  }

  lemma {:induction false} LStripPrefix(a: string, s: string)
    requires AllSpace(a) && (s == "" || !IsSpace(s[0]))
    ensures LStrip(a + s) == s
  {
    if a == "" {
      assert a + s == s;
    } else {
      assert (a + s)[1..] == a[1..] + s;
      LStripPrefix(a[1..], s);
    }
  }

  lemma {:induction false} RStripSuffix(s: string, b: string)
    requires AllSpace(b) && (s == "" || !IsSpace(s[|s| - 1]))
    ensures RStrip(s + b) == s
  {
    if b == "" {
      assert s + b == s;
    } else {
      assert (s + b)[..|s + b| - 1] == s + b[..|b| - 1];
      RStripSuffix(s, b[..|b| - 1]);
    }
  }

  /** Stripping removes exactly the outer white space. */
  lemma StripOuter(a: string, s: string, b: string)
    requires AllSpace(a) && AllSpace(b) && s != "" && Trimmed(s)
    ensures Strip(a + s + b) == s
  {
    assert a + s + b == a + (s + b);
    LStripPrefix(a, s + b);
    RStripSuffix(s, b);
  }

  lemma StripTrimmed(s: string)
    requires Trimmed(s)
    ensures Strip(s) == s
  {
  }

  lemma {:induction false} LStripFacts(s: string)
    ensures LStrip(s) != "" ==> !IsSpace(LStrip(s)[0])
    ensures LStrip(s) == "" || (|LStrip(s)| <= |s| && LStrip(s)[|LStrip(s)| - 1] == s[|s| - 1])
  {
    if s == "" || !IsSpace(s[0]) {
    } else {
      LStripFacts(s[1..]);
    }
  }

  lemma {:induction false} RStripFacts(s: string)
    ensures RStrip(s) <= s
    ensures RStrip(s) != "" ==> !IsSpace(RStrip(s)[|RStrip(s)| - 1])
    ensures s != "" && !IsSpace(s[0]) ==> RStrip(s) != ""
  {
    if s == "" || !IsSpace(s[|s| - 1]) {
    } else {
      RStripFacts(s[..|s| - 1]);
    }
  }

  /** Text that ends in no white space is not shortened by what follows it. */
  lemma {:induction false} RStripKeeps(s: string, rest: string)
    requires s != "" && !IsSpace(s[|s| - 1])
    ensures s <= RStrip(s + rest)
    decreases |rest|
  {
    if rest == "" {
      assert s + rest == s;
    } else {
      assert (s + rest)[..|s + rest| - 1] == s + rest[..|rest| - 1];
      RStripKeeps(s, rest[..|rest| - 1]);
    }
  }

  lemma {:induction false} LStripIsPart(s: string)
    ensures forall c :: c in LStrip(s) ==> c in s
  {
    if s == "" || !IsSpace(s[0]) {
    } else {
      LStripIsPart(s[1..]);
    }
  }

  lemma StripIsPart(s: string)
    ensures forall c :: c in Strip(s) ==> c in s
  {
    LStripIsPart(s);
    RStripFacts(LStrip(s));
  }

  lemma StripIsTrimmed(s: string)
    ensures Trimmed(Strip(s))
  {
    LStripFacts(s);
    RStripFacts(LStrip(s));
  }

  predicate StartsWith(s: string, p: string) {
    p <= s
  }

  /** The position of the first occurrence of `c`, or the length. */
  function IndexOf(s: string, c: char): (i: nat)
    ensures i <= |s|
    ensures c !in s[..i]
    ensures i < |s| ==> s[i] == c
  {
    if s == "" || s[0] == c then 0 else 1 + IndexOf(s[1..], c)
  }

  lemma {:induction false} IndexOfPrefix(p: string, s: string, c: char)
    requires c !in p && s != "" && s[0] == c
    ensures IndexOf(p + s, c) == |p|
  {
    if p == "" {
      assert p + s == s;
    } else {
      assert (p + s)[1..] == p[1..] + s;
      IndexOfPrefix(p[1..], s, c);
    }
  }
}
