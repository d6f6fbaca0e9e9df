/** The JavaScript string operations the adapter relies on:
    `String.prototype.includes` (used by every id completion),
    `Array.prototype.filter` with it, and `String.prototype.trim`
    (applied to the prompt's template literal). Strings are sequences of
    characters. */
module Text {

  /** `prefix` is an initial segment of `s`. */
  predicate StartsWith(s: string, prefix: string) {
    |prefix| <= |s| && s[..|prefix|] == prefix
  }

  /** `s.includes(sub)`: whether `sub` starts at some position of `s`,
      checked from left to right. Case-sensitive, and the empty string is
      included in every string. */
  function Includes(s: string, sub: string): bool
    decreases |s|
  {
    StartsWith(s, sub) || (|s| > 0 && Includes(s[1..], sub))
  }

  /** `sub` occurs in `s` starting at index `i`. */
  ghost predicate OccursAt(s: string, sub: string, i: int) {
    0 <= i && i + |sub| <= |s| && s[i..i + |sub|] == sub
  }

  /** `Includes` is substring containment: it holds exactly when `sub`
      occurs at some index of `s`. */
  lemma {:induction false} IncludesIff(s: string, sub: string)
    ensures Includes(s, sub) <==> exists i :: OccursAt(s, sub, i)
    decreases |s|
  {
    if StartsWith(s, sub) {
      assert OccursAt(s, sub, 0);
    } else if |s| > 0 {
      IncludesIff(s[1..], sub);
      if Includes(s[1..], sub) {
        var i :| OccursAt(s[1..], sub, i);
        assert s[1..][i..i + |sub|] == s[i + 1..i + 1 + |sub|];
        assert OccursAt(s, sub, i + 1);
      } else {
        forall i | OccursAt(s, sub, i) ensures false {
          if i > 0 {
            assert s[1..][i - 1..i - 1 + |sub|] == s[i..i + |sub|];
            assert OccursAt(s[1..], sub, i - 1);
          }
        }
      }
    } else {
      forall i | OccursAt(s, sub, i) ensures false {
      }
    }
  }

  /** A string always includes whatever is spliced into its middle. */
  lemma IncludesInfix(a: string, b: string, c: string)
    ensures Includes(a + b + c, b)
  {
    var s := a + b + c;
    assert s[|a|..|a| + |b|] == b;
    assert OccursAt(s, b, |a|);
    IncludesIff(s, b);
  }

  /** Containment is kept when text is added on either side. */
  lemma IncludesWithin(a: string, s: string, c: string, sub: string)
    requires Includes(s, sub)
    ensures Includes(a + s + c, sub)
  {
    IncludesIff(s, sub);
    var i :| OccursAt(s, sub, i);
    var t := a + s + c;
    assert t[|a| + i..|a| + i + |sub|] == s[i..i + |sub|];
    assert OccursAt(t, sub, |a| + i);
    IncludesIff(t, sub);
  }

  /** Each of the three pieces spliced between four others is included in
      the whole. */
  lemma IncludesSpliced(p1: string, t1: string, p2: string, t2: string, p3: string, t3: string, p4: string)
    ensures var s := p1 + t1 + p2 + t2 + p3 + t3 + p4;
            Includes(s, t1) && Includes(s, t2) && Includes(s, t3)
  {
    var s := p1 + t1 + p2 + t2 + p3 + t3 + p4;
    assert s == p1 + t1 + (p2 + t2 + p3 + t3 + p4);
    IncludesInfix(p1, t1, p2 + t2 + p3 + t3 + p4);
    assert s == (p1 + t1 + p2) + t2 + (p3 + t3 + p4);
    IncludesInfix(p1 + t1 + p2, t2, p3 + t3 + p4);
    assert s == (p1 + t1 + p2 + t2 + p3) + t3 + p4;
    IncludesInfix(p1 + t1 + p2 + t2 + p3, t3, p4);
  }

  /** Different strings stay different behind a common prefix. */
  lemma PrefixInjective(p: string, a: string, b: string)
    requires a != b
    ensures p + a != p + b
  {
    assert (p + a)[|p|..] == a && (p + b)[|p|..] == b;
  }

  /** `xs.filter((x) => x.includes(value))`. */
  function FilterIncludes(xs: seq<string>, value: string): (r: seq<string>)
    ensures |r| <= |xs|
    ensures forall x :: x in r <==> x in xs && Includes(x, value)
  {
    if xs == [] then []
    else (if Includes(xs[0], value) then [xs[0]] else []) + FilterIncludes(xs[1..], value)
  }

  /** Filtering keeps the listing order: the matches of a concatenation are
      the matches of the first part followed by those of the second. */
  lemma {:induction false} FilterIncludesAppend(a: seq<string>, b: seq<string>, value: string)
    ensures FilterIncludes(a + b, value) == FilterIncludes(a, value) + FilterIncludes(b, value)
  {
    if a == [] {
      assert a + b == b;
    } else {
      assert (a + b)[1..] == a[1..] + b;
      FilterIncludesAppend(a[1..], b, value);
    }
  }

  /** A matching string keeps every one of its occurrences; a string that
      does not match keeps none. */
  lemma {:induction false} FilterIncludesCount(xs: seq<string>, value: string, x: string)
    ensures multiset(FilterIncludes(xs, value))[x] == if Includes(x, value) then multiset(xs)[x] else 0
  {
    if xs != [] {
      FilterIncludesCount(xs[1..], value, x);
      assert xs == [xs[0]] + xs[1..];
    }
  }

  /** An empty partial value matches every id, so nothing is filtered out. */
  lemma {:induction false} FilterIncludesEmpty(xs: seq<string>)
    ensures FilterIncludes(xs, "") == xs
  {
    if xs != [] {
      assert StartsWith(xs[0], "");
      FilterIncludesEmpty(xs[1..]);
    }
  }

  /** ECMAScript WhiteSpace and LineTerminator code points: what `trim`
      removes. */
  predicate IsWhiteSpace(c: char) {
    c == '\t' || c == '\n' || c == '\U{B}' || c == '\U{C}' || c == '\r' || c == ' '
    || c == '\U{A0}' || c == '\U{1680}' || ('\U{2000}' <= c <= '\U{200A}')
    || c == '\U{2028}' || c == '\U{2029}' || c == '\U{202F}' || c == '\U{205F}'
    || c == '\U{3000}' || c == '\U{FEFF}'
  }

  predicate AllWhiteSpace(s: string) {
    forall i :: 0 <= i < |s| ==> IsWhiteSpace(s[i])
  }

  function TrimStart(s: string): string {
    if |s| > 0 && IsWhiteSpace(s[0]) then TrimStart(s[1..]) else s
  }

  function TrimEnd(s: string): string {
    if |s| > 0 && IsWhiteSpace(s[|s| - 1]) then TrimEnd(s[..|s| - 1]) else s
  }

  /** `s.trim()`. */
  function Trim(s: string): string {
    TrimEnd(TrimStart(s))
  }

  lemma {:induction false} TrimStartLeading(w: string, s: string)
    requires AllWhiteSpace(w)
    requires |s| > 0 && !IsWhiteSpace(s[0])
    ensures TrimStart(w + s) == s
    decreases |w|
  {
    if w == [] {
      assert w + s == s;
    } else {
      assert (w + s)[1..] == w[1..] + s;
      TrimStartLeading(w[1..], s);
    }
  }

  lemma {:induction false} TrimEndTrailing(s: string, w: string)
    requires AllWhiteSpace(w)
    requires |s| > 0 && !IsWhiteSpace(s[|s| - 1])
    ensures TrimEnd(s + w) == s
    decreases |w|
  {
    if w == [] {
      assert s + w == s;
    } else {
      assert (s + w)[..|s + w| - 1] == s + w[..|w| - 1];
      TrimEndTrailing(s, w[..|w| - 1]);
    }
  }

  /** Trimming a text that is framed by white space and that itself starts
      and ends with visible characters gives back exactly that text, whatever
      it holds in between. */
  lemma TrimFramed(lead: string, body: string, trail: string)
    requires AllWhiteSpace(lead) && AllWhiteSpace(trail)
    requires |body| > 0 && !IsWhiteSpace(body[0]) && !IsWhiteSpace(body[|body| - 1])
    ensures Trim(lead + body + trail) == body
  {
    assert lead + body + trail == lead + (body + trail);
    TrimStartLeading(lead, body + trail);
    TrimEndTrailing(body, trail);
  }
}
