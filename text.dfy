/**
 * The string operations the core uses: `str.strip()`, `str.upper()` as far as the judge's
 * yes/no test needs it, and `str.join`.
 */
module Text {

  /** Python's `str.isspace` on one character: the characters `str.strip()` removes. */
  predicate IsSpace(c: char) {
    c == ' ' || ('\t' <= c <= '\r') || ('\U{1C}' <= c <= '\U{1F}') || c == '\U{85}' || c == '\U{A0}'
    || c == '\U{1680}' || ('\U{2000}' <= c <= '\U{200A}') || c == '\U{2028}' || c == '\U{2029}'
    || c == '\U{202F}' || c == '\U{205F}' || c == '\U{3000}'
  }

  ghost predicate AllSpace(s: string) {
    forall k :: 0 <= k < |s| ==> IsSpace(s[k])
  }

  /** No leading or trailing whitespace. */
  ghost predicate Trimmed(s: string) {
    s == [] || (!IsSpace(s[0]) && !IsSpace(s[|s| - 1]))
  }

  /** `s.lstrip()`: the suffix left after dropping the leading whitespace. */
  function TrimStart(s: string): (r: string)
    ensures |r| <= |s| && r == s[|s| - |r|..]
    ensures AllSpace(s[..|s| - |r|])
    ensures r == [] || !IsSpace(r[0])
  {
    if s != [] && IsSpace(s[0]) then TrimStart(s[1..]) else s
  }

  /** `s.rstrip()`: the prefix left after dropping the trailing whitespace. */
  function TrimEnd(s: string): (r: string)
    ensures |r| <= |s| && r == s[..|r|]
    ensures AllSpace(s[|r|..])
    ensures r == [] || !IsSpace(r[|r| - 1])
  {
    if s != [] && IsSpace(s[|s| - 1]) then TrimEnd(s[..|s| - 1]) else s
  }

  /** `s.strip()` */
  function Strip(s: string): (r: string)
    ensures |r| <= |s| && Trimmed(r)
  {
    TrimEnd(TrimStart(s))
  }

  lemma {:induction false} TrimStartSkips(a: string, u: string)
    requires AllSpace(a) && (u == [] || !IsSpace(u[0]))
    ensures TrimStart(a + u) == u
  {
    if a != [] {
      assert (a + u)[1..] == a[1..] + u;
      TrimStartSkips(a[1..], u);
    } else {
      assert a + u == u;
    }
  }

  lemma {:induction false} TrimEndSkips(u: string, c: string)
    requires AllSpace(c) && (u == [] || !IsSpace(u[|u| - 1]))
    ensures TrimEnd(u + c) == u
  {
    if c != [] {
      assert (u + c)[..|u + c| - 1] == u + c[..|c| - 1];
      TrimEndSkips(u, c[..|c| - 1]);
    } else {
      assert u + c == u;
    }
  }

  /** `strip()` removes exactly the surrounding whitespace: whatever has only whitespace
      around it and none at its own ends is what `strip()` returns. */
  lemma StripExact(a: string, t: string, c: string)
    requires AllSpace(a) && AllSpace(c) && Trimmed(t)
    ensures Strip(a + t + c) == t
  {
    if t == [] {
      assert a + t + c == (a + c) + [];
      assert AllSpace(a + c) by {
        forall k | 0 <= k < |a + c| ensures IsSpace((a + c)[k]) {
          if k < |a| { assert (a + c)[k] == a[k]; } else { assert (a + c)[k] == c[k - |a|]; }
        }
      }
      TrimStartSkips(a + c, []);
      assert TrimEnd([]) == [];
    } else {
      assert a + t + c == a + (t + c);
      TrimStartSkips(a, t + c);
      TrimEndSkips(t, c);
    }
  }

  /** A string is blank, Python-falsy after `strip()`, iff it is all whitespace. */
  lemma StripEmptyIffAllSpace(s: string)
    ensures Strip(s) == [] <==> AllSpace(s)
  {
    if AllSpace(s) {
      assert s == s + [];
      TrimStartSkips(s, []);
    }
    var u := TrimStart(s);
    if Strip(s) == [] && u != [] {
      assert false;
    }
    assert s[..|s|] == s;
  }

  /** Python's `str.upper()` on one character, for ASCII letters and for U+017F (long s),
      whose upper case is 'S'. Other characters are left as they are: no other character
      upper-cases to 'Y', 'E' or 'S', so comparisons against "YES" come out as in Python. */
  function UpperChar(c: char): char {
    if 'a' <= c <= 'z' then (c as int - 32) as char
    else if c == '\U{017F}' then 'S'
    else c
  }

  /** `s.upper()` (see UpperChar). */
  function Upper(s: string): (r: string)
    ensures |r| == |s| && forall k :: 0 <= k < |s| ==> r[k] == UpperChar(s[k])
  {
    seq(|s|, k requires 0 <= k < |s| => UpperChar(s[k]))
  }

  /** The judge's reply means "agree": `reply.strip().upper() == "YES"`. */
  predicate IsYes(reply: string) {
    Upper(Strip(reply)) == "YES"
  }

  lemma UpperCharTo(c: char)
    ensures UpperChar(c) == 'Y' <==> c == 'y' || c == 'Y'
    ensures UpperChar(c) == 'E' <==> c == 'e' || c == 'E'
    ensures UpperChar(c) == 'S' <==> c == 's' || c == 'S' || c == '\U{017F}'
  {
  }

  /** The reply is a "YES" exactly when, stripped of surrounding whitespace, it is the three
      letters y, e, s in any case (or a long s for the last). */
  lemma IsYesLetters(reply: string)
    ensures IsYes(reply) <==>
      var t := Strip(reply);
      && |t| == 3
      && (t[0] == 'y' || t[0] == 'Y')
      && (t[1] == 'e' || t[1] == 'E')
      && (t[2] == 's' || t[2] == 'S' || t[2] == '\U{017F}')
  {
    UpperYes(Strip(reply));
  }

  /** The upper case of `t` is "YES" exactly when `t` spells y, e, s in any case. */
  lemma UpperYes(t: string)
    ensures Upper(t) == "YES" <==>
      && |t| == 3
      && (t[0] == 'y' || t[0] == 'Y')
      && (t[1] == 'e' || t[1] == 'E')
      && (t[2] == 's' || t[2] == 'S' || t[2] == '\U{017F}')
  {
    if |t| == 3 {
      var u := Upper(t);
      UpperCharTo(t[0]);
      UpperCharTo(t[1]);
      UpperCharTo(t[2]);
      assert u == "YES" <==> u[0] == 'Y' && u[1] == 'E' && u[2] == 'S';
    }
  }

  /** Whitespace around a reply does not change the verdict. */
  lemma IsYesPadded(a: string, t: string, c: string)
    requires AllSpace(a) && AllSpace(c) && Trimmed(t)
    ensures IsYes(a + t + c) == IsYes(t)
  {
    StripExact(a, t, c);
    StripExact([], t, []);
    assert [] + t + [] == t;
  }

  /** `sep.join(parts)` */
  function Join(sep: string, parts: seq<string>): string {
    if |parts| == 0 then "" else if |parts| == 1 then parts[0] else parts[0] + sep + Join(sep, parts[1..])
  }

  /** Joining is associative over concatenated lists: the separator goes exactly between
      neighbouring parts. */
  lemma {:induction false} JoinAppend(sep: string, a: seq<string>, b: seq<string>)
    requires a != [] && b != []
    ensures Join(sep, a + b) == Join(sep, a) + sep + Join(sep, b)
  {
    if |a| == 1 {
      assert (a + b)[1..] == b;
    } else {
      assert (a + b)[1..] == a[1..] + b;
      JoinAppend(sep, a[1..], b);
    }
  }
}
