/** The pieces of the JavaScript string and array library that the feed routes use:
    `String.prototype.trim`, `startsWith`, `split(c)[0]`, `Array.prototype.join`,
    `slice(0, n)`, and the string conversion of `undefined` and `null` in template
    literals. Strings are sequences of characters. */
module JsText {
  import opened Wrappers

  /** ECMAScript LineTerminator: the characters that `.` in a regular expression does not match. */
  predicate IsLineTerminator(c: char) {
    c == '\n' || c == '\r' || c == '\U{2028}' || c == '\U{2029}'
  }

  /** ECMAScript WhiteSpace or LineTerminator: what `trim` removes. */
  predicate IsTrimmable(c: char) {
    || IsLineTerminator(c)
    || c == '\t' || c == '\U{000B}' || c == '\U{000C}' || c == ' ' || c == '\U{00A0}' || c == '\U{FEFF}'
    || c == '\U{1680}' || ('\U{2000}' <= c <= '\U{200A}') || c == '\U{202F}' || c == '\U{205F}' || c == '\U{3000}'
  }

  predicate NoLineTerminator(s: string) {
    forall i :: 0 <= i < |s| ==> !IsLineTerminator(s[i])
  }

  /** No whitespace at either end: what `trim` returns. */
  predicate IsTrimmed(s: string) {
    s == [] || (!IsTrimmable(s[0]) && !IsTrimmable(s[|s| - 1]))
  }

  /** The leading whitespace removed: a suffix of s, and everything before it is whitespace. */
  function TrimStart(s: string): (r: string)
    ensures |r| <= |s| && r == s[|s| - |r|..]
    ensures forall i :: 0 <= i < |s| - |r| ==> IsTrimmable(s[i])
    ensures r == [] || !IsTrimmable(r[0])
  {
    if s != [] && IsTrimmable(s[0]) then TrimStart(s[1..]) else s
  }

  /** The trailing whitespace removed: a prefix of s, and everything after it is whitespace. */
  function TrimEnd(s: string): (r: string)
    ensures |r| <= |s| && r == s[..|r|]
    ensures forall i :: |r| <= i < |s| ==> IsTrimmable(s[i])
    ensures r == [] || !IsTrimmable(r[|r| - 1])
  {
    if s != [] && IsTrimmable(s[|s| - 1]) then TrimEnd(s[..|s| - 1]) else s
  }

  /** `s.trim()` */
  function Trim(s: string): (r: string)
    ensures IsTrimmed(r)
    ensures |r| <= |s|
  {
    var t := TrimStart(s);
    TrimEnd(t)
  }

  /** Trimming a string that has no whitespace at its ends changes nothing, so trimming twice
      is trimming once. */
  lemma TrimFixpoint(s: string)
    requires IsTrimmed(s)
    ensures Trim(s) == s
  {
  }

  lemma TrimIdempotent(s: string)
    ensures Trim(Trim(s)) == Trim(s)
  {
    TrimFixpoint(Trim(s));
  }

  predicate StartsWith(s: string, prefix: string) {
    |prefix| <= |s| && s[..|prefix|] == prefix
  }

  predicate EndsWith(s: string, suffix: string) {
    |suffix| <= |s| && s[|s| - |suffix|..] == suffix
  }

  /** `s.split(c)[0]`: the text before the first c, or all of s when it has none. */
  function BeforeFirst(s: string, c: char): (r: string)
    ensures |r| <= |s| && r == s[..|r|]
    ensures c !in r
    ensures |r| < |s| ==> s[|r|] == c
  {
    if s == [] || s[0] == c then [] else [s[0]] + BeforeFirst(s[1..], c)
  }

  /** `parts.join(sep)` */
  function Join(parts: seq<string>, sep: string): (r: string)
    ensures |parts| == 1 ==> r == parts[0]
    ensures |r| == TotalLength(parts) + (if parts == [] then 0 else (|parts| - 1) * |sep|)
  {
    if parts == [] then ""
    else if |parts| == 1 then parts[0]
    else parts[0] + sep + Join(parts[1..], sep)
  }

  function TotalLength(parts: seq<string>): nat {
    if parts == [] then 0 else |parts[0]| + TotalLength(parts[1..])
  }

  /** `xs.slice(0, n)` */
  function Take<T>(xs: seq<T>, n: nat): (r: seq<T>)
    ensures |r| == if n < |xs| then n else |xs|
    ensures forall k :: 0 <= k < |r| ==> r[k] == xs[k]
  {
    if n < |xs| then xs[..n] else xs
  }

  /** A possibly `undefined` string inside a template literal. */
  function OrUndefined(s: Option<string>): string {
    s.GetOr("undefined")
  }

  /** A possibly `null` string (cheerio's `.html()` of an empty selection) inside a
      concatenation. */
  function OrNull(s: Option<string>): string {
    s.GetOr("null")
  }

  /** a occurs in s starting at position i. */
  ghost predicate ContainsAt(s: string, a: string, i: int) {
    0 <= i && i + |a| <= |s| && s[i..i + |a|] == a
  }

  /** `s.includes(a)` */
  ghost predicate Includes(s: string, a: string) {
    exists i :: ContainsAt(s, a, i)
  }

  /** An occurrence survives putting text on either side. */
  lemma ContainsAtWithin(p: string, s: string, q: string, a: string, i: int)
    requires ContainsAt(s, a, i)
    ensures ContainsAt(p + s + q, a, |p| + i)
  {
    assert (p + s + q)[|p| + i..|p| + i + |a|] == s[i..i + |a|];
  }

  /** An occurrence survives appending text after it. */
  lemma IncludesLeft(a: string, b: string, x: string)
    requires Includes(a, x)
    ensures Includes(a + b, x)
  {
    var i :| ContainsAt(a, x, i);
    assert (a + b)[i..i + |x|] == a[i..i + |x|];
    assert ContainsAt(a + b, x, i);
  }

  /** An occurrence survives putting text before it. */
  lemma IncludesRight(a: string, b: string, x: string)
    requires Includes(b, x)
    ensures Includes(a + b, x)
  {
    var i :| ContainsAt(b, x, i);
    assert (a + b)[|a| + i..|a| + i + |x|] == b[i..i + |x|];
    assert ContainsAt(a + b, x, |a| + i);
  }

  /** A prefix stays a prefix when text is appended. */
  lemma StartsWithAppend(a: string, b: string, prefix: string)
    requires StartsWith(a, prefix)
    ensures StartsWith(a + b, prefix)
  {
    assert (a + b)[..|prefix|] == a[..|prefix|];
  }

  /** `a + sep + b` ends with `sep + b`. */
  lemma EndsWithSeparated(a: string, sep: string, b: string)
    ensures EndsWith(a + sep + b, sep + b)
  {
    assert (a + sep + b)[|a|..] == sep + b;
  }

  /** A suffix stays a suffix when text is put before it. */
  lemma EndsWithPrepend(a: string, b: string, suffix: string)
    requires EndsWith(b, suffix)
    ensures EndsWith(a + b, suffix)
  {
    assert (a + b)[|a + b| - |suffix|..] == b[|b| - |suffix|..];
  }

  /** Every part of a join occurs in the joined text. */
  lemma {:induction false} JoinIncludesPart(parts: seq<string>, sep: string, k: nat)
    requires k < |parts|
    ensures Includes(Join(parts, sep), parts[k])
  {
    if |parts| == 1 {
      assert ContainsAt(Join(parts, sep), parts[0], 0);
    } else if k == 0 {
      assert ContainsAt(parts[0], parts[0], 0);
      ContainsAtWithin([], parts[0], sep + Join(parts[1..], sep), parts[0], 0);
      assert [] + parts[0] + (sep + Join(parts[1..], sep)) == Join(parts, sep);
    } else {
      JoinIncludesPart(parts[1..], sep, k - 1);
      var i :| ContainsAt(Join(parts[1..], sep), parts[k], i);
      ContainsAtWithin(parts[0] + sep, Join(parts[1..], sep), [], parts[k], i);
      assert (parts[0] + sep) + Join(parts[1..], sep) + [] == Join(parts, sep);
    }
  }

  /** Where the k-th part of `parts.join(sep)` starts: after each part before it and the
      separator that follows that part. */
  function JoinOffset(parts: seq<string>, sep: string, k: nat): nat
    requires k < |parts|
  {
    if k == 0 then 0 else |parts[0]| + |sep| + JoinOffset(parts[1..], sep, k - 1)
  }

  /** A join of two or more parts opens with the first part and then `sep`. */
  lemma JoinHead(parts: seq<string>, sep: string)
    requires |parts| > 1
    ensures ContainsAt(Join(parts, sep), parts[0], 0)
    ensures ContainsAt(Join(parts, sep), sep, |parts[0]|)
  {
    var j := Join(parts, sep);
    assert j == parts[0] + sep + Join(parts[1..], sep);
    assert j[0..|parts[0]|] == parts[0];
    assert j[|parts[0]|..|parts[0]| + |sep|] == sep;
  }

  /** The k-th part of a join of `parts` by `sep` sits in s at its offset and, unless it is the
      last, `sep` follows it. */
  ghost predicate JoinedAt(s: string, parts: seq<string>, sep: string, k: nat)
    requires k < |parts|
  {
    && ContainsAt(s, parts[k], JoinOffset(parts, sep, k))
    && (k + 1 < |parts| ==> ContainsAt(s, sep, JoinOffset(parts, sep, k) + |parts[k]|))
  }

  /** Putting the first part and a separator before a join of the other parts moves each of
      them one position on. */
  lemma JoinedAtShift(s: string, parts: seq<string>, sep: string, k: nat)
    requires 0 < k < |parts| && JoinedAt(s, parts[1..], sep, k - 1)
    ensures JoinedAt(parts[0] + sep + s, parts, sep, k)
  {
    var i := JoinOffset(parts[1..], sep, k - 1);
    assert parts[1..][k - 1] == parts[k] && JoinOffset(parts, sep, k) == |parts[0] + sep| + i;
    ContainsAtWithin(parts[0] + sep, s, [], parts[k], i);
    assert parts[0] + sep + s + [] == parts[0] + sep + s;
    if k + 1 < |parts| {
      ContainsAtWithin(parts[0] + sep, s, [], sep, i + |parts[k]|);
    }
  }

  /** The parts of a join sit in order at their offsets, each but the last followed by `sep`. */
  lemma {:induction false} JoinAt(parts: seq<string>, sep: string, k: nat)
    requires k < |parts|
    ensures JoinedAt(Join(parts, sep), parts, sep, k)
    decreases |parts|
  {
    if |parts| == 1 {
      assert Join(parts, sep)[0..|parts[0]|] == parts[0];
    } else if k == 0 {
      JoinHead(parts, sep);
    } else {
      JoinAt(parts[1..], sep, k - 1);
      JoinedAtShift(Join(parts[1..], sep), parts, sep, k);
    }
  }

  /** A text occurs in itself framed by an opening and a closing text. */
  lemma FramedIncludes(open: string, x: string, close: string)
    ensures Includes(open + x + close, x)
  {
    assert ContainsAt(x, x, 0);
    IncludesRight(open, x, x);
    IncludesLeft(open + x, close, x);
  }

  /** Every part of a join occurs in the join framed by an opening and a closing text. */
  lemma SectionIncludes(open: string, parts: seq<string>, sep: string, close: string, k: nat)
    requires k < |parts|
    ensures Includes(open + Join(parts, sep) + close, parts[k])
  {
    JoinIncludesPart(parts, sep, k);
    IncludesRight(open, Join(parts, sep), parts[k]);
    IncludesLeft(open + Join(parts, sep), close, parts[k]);
  }

  /** The defined values of a list, in order: cheerio's `.map(…).get()` drops `undefined`,
      and `.filter(Boolean)` drops `null`. */
  function Somes<T>(xs: seq<Option<T>>): (r: seq<T>)
    ensures |r| <= |xs|
  {
    if xs == [] then []
    else Somes(xs[..|xs| - 1]) + (if xs[|xs| - 1].Some? then [xs[|xs| - 1].value] else [])
  }

  /** The positions of the defined values, in increasing order. */
  function SomeIndices<T>(xs: seq<Option<T>>): seq<nat> {
    if xs == [] then []
    else SomeIndices(xs[..|xs| - 1]) + (if xs[|xs| - 1].Some? then [|xs| - 1] else [])
  }

  /** Somes keeps the defined entries in their order: the j-th kept value is the value at the
      j-th defined position. */
  lemma {:induction false} SomesByIndex<T>(xs: seq<Option<T>>)
    ensures |Somes(xs)| == |SomeIndices(xs)|
    ensures forall j :: 0 <= j < |SomeIndices(xs)| ==>
      SomeIndices(xs)[j] < |xs| && xs[SomeIndices(xs)[j]] == Some(Somes(xs)[j])
  {
    if xs != [] {
      var n := |xs| - 1;
      var init := xs[..n];
      SomesByIndex(init);
      var s, ix := Somes(init), SomeIndices(init);
      if xs[n].Some? {
        assert Somes(xs) == s + [xs[n].value] && SomeIndices(xs) == ix + [n];
      } else {
        assert Somes(xs) == s && SomeIndices(xs) == ix;
      }
      forall j | 0 <= j < |ix|
        ensures ix[j] < |xs| && xs[ix[j]] == Some(Somes(xs)[j])
      {
        assert init[ix[j]] == xs[ix[j]];
      }
    }
  }

  /** The defined positions increase and each lies in the list. */
  lemma {:induction false} SomeIndicesIncreasing<T>(xs: seq<Option<T>>)
    ensures forall j :: 0 <= j < |SomeIndices(xs)| ==> SomeIndices(xs)[j] < |xs|
    ensures forall a, b :: 0 <= a < b < |SomeIndices(xs)| ==> SomeIndices(xs)[a] < SomeIndices(xs)[b]
  {
    if xs != [] {
      SomeIndicesIncreasing(xs[..|xs| - 1]);
    }
  }

  /** No defined entry is skipped. */
  lemma {:induction false} SomeIndicesComplete<T>(xs: seq<Option<T>>)
    ensures forall k :: 0 <= k < |xs| && xs[k].Some? ==> k in SomeIndices(xs)
  {
    if xs != [] {
      var init := xs[..|xs| - 1];
      SomeIndicesComplete(init);
      assert forall k :: 0 <= k < |init| ==> init[k] == xs[k];
    }
  }

  /** Somes drops something exactly when some entry is undefined. */
  lemma {:induction false} SomesLength<T>(xs: seq<Option<T>>)
    ensures |Somes(xs)| == |xs| <==> forall k :: 0 <= k < |xs| ==> xs[k].Some?
  {
    if xs != [] {
      var init := xs[..|xs| - 1];
      SomesLength(init);
      assert forall k :: 0 <= k < |init| ==> init[k] == xs[k];
    }
  }
}
