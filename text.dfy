/**
 * String operations the backend (Python) and the two clients (JavaScript) rely on:
 * whitespace stripping, removal of every occurrence of a pattern, joining with a
 * separator, and substring containment.
 */
module Text {
  import opened Wrappers

  /** The runtime whose idea of "whitespace" a strip uses. */
  datatype Runtime = Python | JavaScript

  /**
   * Python's str.isspace (used by str.strip) and the WhiteSpace and LineTerminator
   * sets of ECMAScript (used by String.prototype.trim). They differ: Python counts
   * the separators U+001C..U+001F and U+0085, JavaScript counts U+FEFF.
   */
  predicate IsSpace(rt: Runtime, c: char)
    ensures c == '\U{FEFF}' ==> (IsSpace(rt, c) <==> rt == JavaScript)
    ensures ('\U{1C}' <= c <= '\U{1F}' || c == '\U{85}') ==> (IsSpace(rt, c) <==> rt == Python)
  {
    || c == ' ' || c == '\t' || c == '\n' || c == '\r' || c == '\U{B}' || c == '\U{C}'
    || c == '\U{A0}' || c == '\U{1680}' || ('\U{2000}' <= c <= '\U{200A}')
    || c == '\U{2028}' || c == '\U{2029}' || c == '\U{202F}' || c == '\U{205F}' || c == '\U{3000}'
    || (rt == Python && ('\U{1C}' <= c <= '\U{1F}' || c == '\U{85}'))
    || (rt == JavaScript && c == '\U{FEFF}')
  }

  /** Removes leading whitespace. */
  function TrimStart(rt: Runtime, s: string): (r: string)
    ensures |r| <= |s|
    ensures forall i :: 0 <= i < |s| - |r| ==> IsSpace(rt, s[i])
    ensures |r| > 0 ==> !IsSpace(rt, r[0])
    decreases |s|
  {
    if |s| > 0 && IsSpace(rt, s[0]) then TrimStart(rt, s[1..]) else s
  }

  /** Removes trailing whitespace. */
  function TrimEnd(rt: Runtime, s: string): (r: string)
    ensures |r| <= |s|
    ensures forall i :: |r| <= i < |s| ==> IsSpace(rt, s[i])
    ensures |r| > 0 ==> !IsSpace(rt, r[|r| - 1])
    decreases |s|
  {
    if |s| > 0 && IsSpace(rt, s[|s| - 1]) then TrimEnd(rt, s[..|s| - 1]) else s
  }

  /** What TrimStart keeps is a suffix of its input. */
  lemma {:induction false} TrimStartIsSuffix(rt: Runtime, s: string)
    ensures TrimStart(rt, s) == s[|s| - |TrimStart(rt, s)|..]
    decreases |s|
  {
    if |s| > 0 && IsSpace(rt, s[0]) {
      TrimStartIsSuffix(rt, s[1..]);
      assert s[1..][|s| - 1 - |TrimStart(rt, s)|..] == s[|s| - |TrimStart(rt, s)|..];
    }
  }

  /** What TrimEnd keeps is a prefix of its input. */
  lemma {:induction false} TrimEndIsPrefix(rt: Runtime, s: string)
    ensures TrimEnd(rt, s) == s[..|TrimEnd(rt, s)|]
    decreases |s|
  {
    if |s| > 0 && IsSpace(rt, s[|s| - 1]) {
      TrimEndIsPrefix(rt, s[..|s| - 1]);
      assert s[..|s| - 1][..|TrimEnd(rt, s)|] == s[..|TrimEnd(rt, s)|];
    }
  }

  /** Python's str.strip() with no argument, or JavaScript's String.prototype.trim(). */
  function Strip(rt: Runtime, s: string): (r: string)
    ensures |r| <= |s|
    ensures |r| > 0 ==> !IsSpace(rt, r[|r| - 1])
  {
    TrimEnd(rt, TrimStart(rt, s))
  }

  /** A stripped string neither begins nor ends with whitespace. */
  lemma StripEnds(rt: Runtime, s: string)
    ensures var r := Strip(rt, s);
      |r| <= |s| && (|r| > 0 ==> !IsSpace(rt, r[0]) && !IsSpace(rt, r[|r| - 1]))
  {
    var t := TrimStart(rt, s);
    var r := TrimEnd(rt, t);
    if |r| > 0 {
      TrimEndIsPrefix(rt, t);
      assert r[0] == t[0];
    }
  }

  /** A string with non-whitespace at both ends is already stripped. */
  lemma StrippedAlready(rt: Runtime, s: string)
    requires |s| > 0 && !IsSpace(rt, s[0]) && !IsSpace(rt, s[|s| - 1])
    ensures Strip(rt, s) == s
  {
    assert TrimStart(rt, s) == s;
  }

  /** Stripping twice is stripping once. */
  lemma StripIdempotent(rt: Runtime, s: string)
    ensures Strip(rt, Strip(rt, s)) == Strip(rt, s)
  {
    var r := Strip(rt, s);
    StripEnds(rt, s);
    assert TrimStart(rt, r) == r;
    assert TrimEnd(rt, r) == r;
  }

  /** Stripping yields the empty string exactly when the input is all whitespace. */
  lemma StripEmptyIff(rt: Runtime, s: string)
    ensures Strip(rt, s) == [] <==> forall i :: 0 <= i < |s| ==> IsSpace(rt, s[i])
  {
    var t := TrimStart(rt, s);
    if Strip(rt, s) != [] {
      TrimStartIsSuffix(rt, s);
      assert t[0] == s[|s| - |t|];
    }
  }

  /** `p` occurs in `s` as a contiguous block. */
  predicate Contains(s: string, p: string)
    decreases |s|
  {
    p <= s || (|s| > 0 && Contains(s[1..], p))
  }

  lemma {:induction false} ContainsInSuffix(a: string, b: string, p: string)
    requires Contains(b, p)
    ensures Contains(a + b, p)
    decreases |a|
  {
    if |a| > 0 {
      assert (a + b)[1..] == a[1..] + b;
      ContainsInSuffix(a[1..], b, p);
    } else {
      assert a + b == b;
    }
  }

  /** Every block is contained in any string that has it between two others. */
  lemma ContainsMiddle(a: string, x: string, b: string)
    ensures Contains(a + x + b, x)
  {
    assert x <= x + b;
    assert a + x + b == a + (x + b);
    ContainsInSuffix(a, x + b, x);
  }

  lemma {:induction false} ContainsOfPrefix(s: string, j: nat, p: string)
    requires j <= |s| && Contains(s[..j], p)
    ensures Contains(s, p)
    decreases j
  {
    if !(p <= s[..j]) {
      assert s[..j][1..] == s[1..][..j - 1];
      ContainsOfPrefix(s[1..], j - 1, p);
    }
  }

  lemma {:induction false} ContainsOfSuffix(s: string, i: nat, p: string)
    requires i <= |s| && Contains(s[i..], p)
    ensures Contains(s, p)
    decreases i
  {
    if i > 0 {
      assert s[1..][i - 1..] == s[i..];
      ContainsOfSuffix(s[1..], i - 1, p);
    }
  }

  /** Stripping never creates a block the input did not have. */
  lemma StripContains(rt: Runtime, s: string, p: string)
    requires Contains(Strip(rt, s), p)
    ensures Contains(s, p)
  {
    var t := TrimStart(rt, s);
    TrimStartIsSuffix(rt, s);
    TrimEndIsPrefix(rt, t);
    ContainsOfPrefix(t, |Strip(rt, s)|, p);
    ContainsOfSuffix(s, |s| - |t|, p);
  }

  /** A string that has no character `c` contains no block that begins with `c`. */
  lemma {:induction false} NoCharNoBlock(a: string, b: string, p: string)
    requires |p| > 0 && forall i :: 0 <= i < |a| ==> a[i] != p[0]
    requires !Contains(b, p)
    ensures !Contains(a + b, p)
    decreases |a|
  {
    if |a| > 0 {
      assert (a + b)[0] == a[0] != p[0];
      assert (a + b)[1..] == a[1..] + b;
      NoCharNoBlock(a[1..], b, p);
      assert !(p <= a + b);
    } else {
      assert a + b == b;
    }
  }

  /**
   * Python's s.replace(p, ""): scanning left to right, each occurrence of `p`
   * is cut out and the scan resumes just after it.
   */
  function RemoveAll(s: string, p: string): (r: string)
    requires |p| > 0
    ensures |r| <= |s|
    decreases |s|
  {
    if |s| == 0 then []
    else if p <= s then RemoveAll(s[|p|..], p)
    else [s[0]] + RemoveAll(s[1..], p)
  }

  /** Removing a block that does not occur changes nothing. */
  lemma {:induction false} RemoveAllAbsent(s: string, p: string)
    requires |p| > 0 && !Contains(s, p)
    ensures RemoveAll(s, p) == s
    decreases |s|
  {
    if |s| > 0 {
      RemoveAllAbsent(s[1..], p);
      assert [s[0]] + s[1..] == s;
    }
  }

  /** Python's sep.join(xs). */
  function Join(xs: seq<string>, sep: string): (r: string)
    ensures |xs| > 0 ==> xs[0] <= r
    decreases |xs|
  {
    if |xs| == 0 then ""
    else if |xs| == 1 then xs[0]
    else xs[0] + sep + Join(xs[1..], sep)
  }

  /** A joined list mentions every one of its items. */
  lemma {:induction false} JoinContainsEach(xs: seq<string>, sep: string, i: nat)
    requires i < |xs|
    ensures Contains(Join(xs, sep), xs[i])
    decreases |xs|
  {
    if |xs| == 1 {
      ContainsMiddle("", xs[0], "");
      assert "" + xs[0] + "" == xs[0];
    } else if i == 0 {
      ContainsMiddle("", xs[0], sep + Join(xs[1..], sep));
      assert "" + xs[0] + (sep + Join(xs[1..], sep)) == Join(xs, sep);
    } else {
      JoinContainsEach(xs[1..], sep, i - 1);
      ContainsInSuffix(xs[0] + sep, Join(xs[1..], sep), xs[i]);
    }
  }

  /** Dictionary lookup in a table of string pairs (first match). */
  function Lookup(table: seq<(string, string)>, key: string): (r: Option<string>)
    ensures r.Some? <==> exists i :: 0 <= i < |table| && table[i].0 == key
    ensures r.Some? ==> exists i :: 0 <= i < |table| && table[i] == (key, r.value)
    decreases |table|
  {
    if |table| == 0 then None
    else if table[0].0 == key then Some(table[0].1)
    else
      var r := Lookup(table[1..], key);
      assert forall i :: 1 <= i < |table| ==> table[i] == table[1..][i - 1];
      r
  }

  /** JavaScript's `.length`: UTF-16 code units, two for each character above U+FFFF. */
  function Utf16Length(s: string): (n: nat)
    ensures |s| <= n <= 2 * |s|
    decreases |s|
  {
    if |s| == 0 then 0
    else (if s[0] as int > 0xFFFF then 2 else 1) + Utf16Length(s[1..])
  }

  /** On text inside the Basic Multilingual Plane the two lengths agree. */
  lemma {:induction false} Utf16LengthOfBmp(s: string)
    requires forall i :: 0 <= i < |s| ==> s[i] as int <= 0xFFFF
    ensures Utf16Length(s) == |s|
    decreases |s|
  {
    if |s| > 0 {
      Utf16LengthOfBmp(s[1..]);
    }
  }

  /** Outside it they do not: each character above U+FFFF adds one more unit. */
  lemma {:induction false} Utf16LengthOfAstral(s: string)
    requires forall i :: 0 <= i < |s| ==> s[i] as int > 0xFFFF
    ensures Utf16Length(s) == 2 * |s|
    decreases |s|
  {
    if |s| > 0 {
      Utf16LengthOfAstral(s[1..]);
    }
  }
}
