/**
 * The string operations of the application, each as Python performs it:
 * `str.replace`, `str.strip`, `str.join`, `str.lower`, `any`, the list
 * comprehension that drops empty domains, decimal formatting of an `int`,
 * and the two fixed rewrites built from them (escaping `$` in a completion,
 * removing code fences from a reply before it is parsed as JSON).
 */
module Text {

  // ---------------------------------------------------------------------
  // str.replace
  // ---------------------------------------------------------------------

  /** `s.replace(p, r)` for a non-empty `p`: occurrences are found from the
      left and do not overlap; the text after a replacement is scanned afresh. */
  function Replace(s: string, p: string, r: string): string
    requires |p| > 0
    decreases |s|
  {
    if |s| == 0 then ""
    else if |p| <= |s| && s[..|p|] == p then r + Replace(s[|p|..], p, r)
    else [s[0]] + Replace(s[1..], p, r)
  }

  /** Replacing a pattern whose first character never occurs changes nothing. */
  lemma {:induction false} ReplaceAbsent(s: string, p: string, r: string)
    requires |p| > 0 && p[0] !in s
    ensures Replace(s, p, r) == s
  {
    if |s| > 0 {
      assert s[0] in s;
      assert !(|p| <= |s| && s[..|p|] == p);
      assert forall c :: c in s[1..] ==> c in s;
      ReplaceAbsent(s[1..], p, r);
    }
  }

  /** Number of occurrences of `c` in `s`. */
  function Count(s: string, c: char): nat
  {
    if |s| == 0 then 0 else (if s[0] == c then 1 else 0) + Count(s[1..], c)
  }

  // ---------------------------------------------------------------------
  // The `$` escaping applied to every completion
  // ---------------------------------------------------------------------

  /** `text.replace("$", "\$")`: each dollar sign gets a backslash in front. */
  function EscapeDollar(s: string): string
  {
    Replace(s, "$", "\\$")
  }

  /** Every `$` in `t` has a backslash right before it. */
  predicate DollarsEscaped(t: string)
  {
    forall i :: 0 <= i < |t| && t[i] == '$' ==> 0 < i && t[i - 1] == '\\'
  }

  /** The escaped text is one character longer per dollar sign. */
  lemma {:induction false} EscapeLength(s: string)
    ensures |EscapeDollar(s)| == |s| + Count(s, '$')
    decreases |s|
  {
    if |s| > 0 {
      EscapeLength(s[1..]);
    }
  }

  /** No dollar sign is left without a backslash before it. */
  lemma {:induction false} EscapeGuards(s: string)
    ensures DollarsEscaped(EscapeDollar(s))
    decreases |s|
  {
    if |s| > 0 {
      EscapeGuards(s[1..]);
      var rest := EscapeDollar(s[1..]);
      var e := EscapeDollar(s);
      if s[0] == '$' {
        assert e == "\\$" + rest;
        forall i | 0 <= i < |e| && e[i] == '$' ensures 0 < i && e[i - 1] == '\\' {
          if i >= 2 {
            assert e[i] == rest[i - 2];
          }
        }
      } else {
        assert e == [s[0]] + rest;
        forall i | 0 <= i < |e| && e[i] == '$' ensures 0 < i && e[i - 1] == '\\' {
          assert i > 0 && e[i] == rest[i - 1];
        }
      }
    }
  }

  /** Escaping loses nothing: replacing `\$` by `$` afterwards gives back the text. */
  lemma {:induction false} UnescapeEscape(s: string)
    ensures Replace(EscapeDollar(s), "\\$", "$") == s
    decreases |s|
  {
    if |s| > 0 {
      var rest := EscapeDollar(s[1..]);
      UnescapeEscape(s[1..]);
      if s[0] == '$' {
        var e := "\\$" + rest;
        assert e[..2] == "\\$" && e[2..] == rest;
      } else {
        var e := [s[0]] + rest;
        EscapeGuards(s[1..]);
        assert |rest| > 0 ==> rest[0] != '$';
        assert |e| >= 2 ==> e[1] == rest[0];
        assert !(2 <= |e| && e[..2] == "\\$");
        assert e[1..] == rest;
      }
    }
  }

  // ---------------------------------------------------------------------
  // str.strip
  // ---------------------------------------------------------------------

  /** `c.isspace()` in Python 3. */
  predicate IsSpace(c: char)
  {
    c in {'\t', '\n', '\U{b}', '\U{c}', '\r', '\U{1c}', '\U{1d}', '\U{1e}', '\U{1f}', ' ',
          '\U{85}', '\U{a0}', '\U{1680}', '\U{2000}', '\U{2001}', '\U{2002}', '\U{2003}',
          '\U{2004}', '\U{2005}', '\U{2006}', '\U{2007}', '\U{2008}', '\U{2009}', '\U{200a}',
          '\U{2028}', '\U{2029}', '\U{202f}', '\U{205f}', '\U{3000}'}
  }

  /** Every character of `s` at a position from `lo` up to `hi` is whitespace. */
  predicate SpaceIn(s: string, lo: int, hi: int)
  {
    forall k :: lo <= k < hi && 0 <= k < |s| ==> IsSpace(s[k])
  }

  /** The first position from `i` on that does not hold whitespace, or `|s|`. */
  function SkipSpace(s: string, i: nat): (r: nat)
    requires i <= |s|
    ensures i <= r <= |s| && SpaceIn(s, i, r)
    ensures r == |s| || !IsSpace(s[r])
    decreases |s| - i
  {
    if i < |s| && IsSpace(s[i]) then SkipSpace(s, i + 1) else i
  }

  /** Going back from `j`, but not below `lo`: the position just after the
      last character that is not whitespace. */
  function SkipSpaceBack(s: string, lo: nat, j: nat): (r: nat)
    requires lo <= j <= |s|
    ensures lo <= r <= j && SpaceIn(s, r, j)
    ensures r == lo || !IsSpace(s[r - 1])
    decreases j
  {
    if j > lo && IsSpace(s[j - 1]) then SkipSpaceBack(s, lo, j - 1) else j
  }

  /** `s.strip()`: the leading whitespace is dropped, then the trailing. */
  function Strip(s: string): string
  {
    var i := SkipSpace(s, 0);
    s[i..SkipSpaceBack(s, i, |s|)]
  }

  /** `r` is the part of `s` from position `i` on, with only whitespace
      before it and after it. */
  predicate StripAt(s: string, r: string, i: int)
  {
    0 <= i <= |s| - |r| && s[i..i + |r|] == r && SpaceIn(s, 0, i) && SpaceIn(s, i + |r|, |s|)
  }

  /** `s.strip()` is the middle of `s` between its leading and its trailing
      whitespace, and it neither starts nor ends with whitespace. */
  lemma StripShape(s: string)
    ensures Strip(s) == [] || (!IsSpace(Strip(s)[0]) && !IsSpace(Strip(s)[|Strip(s)| - 1]))
    ensures StripAt(s, Strip(s), SkipSpace(s, 0))
  {
    var i := SkipSpace(s, 0);
    var j := SkipSpaceBack(s, i, |s|);
    var r := s[i..j];
    if r != [] {
      assert r[0] == s[i] && r[|r| - 1] == s[j - 1];
    }
  }

  /** `s.strip()` is truthy exactly when `s` has a non-whitespace character. */
  lemma StripNonEmpty(s: string)
    ensures Strip(s) != [] <==> exists k :: 0 <= k < |s| && !IsSpace(s[k])
  {
    var i := SkipSpace(s, 0);
    var r := Strip(s);
    if r != [] {
      assert s[i] == r[0];
    }
  }

  // ---------------------------------------------------------------------
  // Code-fence cleaning before json.loads
  // ---------------------------------------------------------------------

  /** `reply.strip().replace("```json", "").replace("```", "")`. */
  function CleanReply(reply: string): string
  {
    Replace(Replace(Strip(reply), "```json", ""), "```", "")
  }

  /** Three backticks start at position `i` of `s`. */
  predicate FenceAt(s: string, i: int)
    requires 0 <= i && i + 3 <= |s|
  {
    s[i] == '`' && s[i + 1] == '`' && s[i + 2] == '`'
  }

  /** `s` has no triple-backtick substring. */
  predicate NoFence(s: string)
  {
    forall i :: 0 <= i && i + 3 <= |s| ==> !FenceAt(s, i)
  }

  /** `s` begins with two backticks. */
  predicate TwoTicks(s: string)
  {
    |s| >= 2 && s[0] == '`' && s[1] == '`'
  }

  /** Removing fences never makes a text begin with two backticks that did not. */
  lemma RemoveFencePrefix(u: string)
    requires !TwoTicks(u)
    ensures !TwoTicks(Replace(u, "```", ""))
  {
    if |u| >= 2 && u[0] == '`' {
      assert !(3 <= |u| && u[..3] == "```");
      assert Replace(u, "```", "") == "`" + Replace(u[1..], "```", "");
      assert u[1..][0] != '`';
      assert Replace(u[1..], "```", "") == [u[1]] + Replace(u[2..], "```", "");
    }
  }

  /** After `.replace("```", "")` no triple backtick is left, even where
      removing one fence brings the backticks around it together. */
  lemma {:induction false} RemoveFenceClears(t: string)
    ensures NoFence(Replace(t, "```", ""))
    decreases |t|
  {
    if |t| > 0 {
      if 3 <= |t| && t[..3] == "```" {
        assert Replace(t, "```", "") == Replace(t[3..], "```", "");
        RemoveFenceClears(t[3..]);
      } else {
        var rest := Replace(t[1..], "```", "");
        var res := Replace(t, "```", "");
        assert res == [t[0]] + rest;
        RemoveFenceClears(t[1..]);
        if t[0] == '`' {
          assert !TwoTicks(t[1..]);
          RemoveFencePrefix(t[1..]);
        }
        forall i | 0 <= i && i + 3 <= |res| ensures !FenceAt(res, i) {
          if i > 0 {
            assert FenceAt(res, i) == FenceAt(rest, i - 1);
          }
        }
      }
    }
  }

  /** The cleaned reply handed to the JSON parser contains no code fence. */
  lemma CleanReplyHasNoFence(reply: string)
    ensures NoFence(CleanReply(reply))
  {
    RemoveFenceClears(Replace(Strip(reply), "```json", ""));
  }

  /** A reply without backticks is only stripped. */
  lemma CleanReplyWithoutTicks(reply: string)
    requires '`' !in reply
    ensures CleanReply(reply) == Strip(reply)
  {
    var s := Strip(reply);
    var i := SkipSpace(reply, 0);
    assert '`' !in s by {
      forall k | 0 <= k < |s| ensures s[k] != '`' {
        assert s[k] == reply[i + k];
      }
    }
    ReplaceAbsent(s, "```json", "");
    ReplaceAbsent(s, "```", "");
  }

  // ---------------------------------------------------------------------
  // str.join and substring containment
  // ---------------------------------------------------------------------

  /** `sep.join(xs)`. */
  function Join(sep: string, xs: seq<string>): string
  {
    if |xs| == 0 then ""
    else if |xs| == 1 then xs[0]
    else xs[0] + sep + Join(sep, xs[1..])
  }

  /** Where `xs[k]` starts in `Join(sep, xs)`. */
  function JoinOffset(sep: string, xs: seq<string>, k: nat): nat
    requires k <= |xs|
  {
    if k == 0 then 0 else |xs[0]| + |sep| + JoinOffset(sep, xs[1..], k - 1)
  }

  /** Each element appears verbatim at its offset. */
  lemma {:induction false} JoinElementAt(sep: string, xs: seq<string>, k: nat)
    requires k < |xs|
    ensures JoinOffset(sep, xs, k) + |xs[k]| <= |Join(sep, xs)|
    ensures Join(sep, xs)[JoinOffset(sep, xs, k)..JoinOffset(sep, xs, k) + |xs[k]|] == xs[k]
  {
    var j := Join(sep, xs);
    if k == 0 {
      if |xs| > 1 {
        assert j == xs[0] + sep + Join(sep, xs[1..]);
      }
    } else {
      JoinElementAt(sep, xs[1..], k - 1);
      var tail := Join(sep, xs[1..]);
      var d := |xs[0]| + |sep|;
      assert j == xs[0] + sep + tail;
      var o := JoinOffset(sep, xs[1..], k - 1);
      assert j[d + o..d + o + |xs[k]|] == tail[o..o + |xs[k]|];
    }
  }

  /** Every element but the last is followed by the separator, and the next
      element starts right after it. */
  lemma {:induction false} JoinSeparatorAfter(sep: string, xs: seq<string>, k: nat)
    requires k + 1 < |xs|
    ensures JoinOffset(sep, xs, k + 1) == JoinOffset(sep, xs, k) + |xs[k]| + |sep|
    ensures JoinOffset(sep, xs, k + 1) <= |Join(sep, xs)|
    ensures Join(sep, xs)[JoinOffset(sep, xs, k) + |xs[k]|..JoinOffset(sep, xs, k + 1)] == sep
  {
    var j := Join(sep, xs);
    var tail := Join(sep, xs[1..]);
    assert j == xs[0] + sep + tail;
    if k == 0 {
      assert j[|xs[0]|..|xs[0]| + |sep|] == sep;
    } else {
      JoinSeparatorAfter(sep, xs[1..], k - 1);
      var d := |xs[0]| + |sep|;
      var o := JoinOffset(sep, xs[1..], k - 1) + |xs[k]|;
      assert j[d + o..d + o + |sep|] == tail[o..o + |sep|];
    }
  }

  /** `t in s` for strings. */
  ghost predicate Contains(s: string, t: string)
  {
    exists i :: OccursAt(s, t, i)
  }

  /** `t` occurs in `s` starting at position `i`. */
  predicate OccursAt(s: string, t: string, i: int)
  {
    0 <= i && i + |t| <= |s| && s[i..i + |t|] == t
  }

  /** A substring of the middle piece is a substring of the whole. */
  lemma ContainsWithin(a: string, m: string, b: string, t: string)
    requires Contains(m, t)
    ensures Contains(a + m + b, t)
  {
    var i :| OccursAt(m, t, i);
    var s := a + m + b;
    assert s[|a| + i..|a| + i + |t|] == t by {
      assert s[|a|..|a| + |m|] == m;
    }
    assert OccursAt(s, t, |a| + i);
  }

  /** A substring of a substring is a substring. */
  lemma ContainsTransitive(s: string, m: string, t: string)
    requires Contains(s, m) && Contains(m, t)
    ensures Contains(s, t)
  {
    var i :| OccursAt(s, m, i);
    var j :| OccursAt(m, t, j);
    forall k | 0 <= k < |t| ensures s[i + j + k] == t[k] {
      assert t[k] == m[j + k] == s[i..i + |m|][j + k];
    }
    assert s[i + j..i + j + |t|] == t;
    assert OccursAt(s, t, i + j);
  }

  /** Every element of a joined list is contained in the joined text. */
  lemma JoinContains(sep: string, xs: seq<string>, k: nat)
    requires k < |xs|
    ensures Contains(Join(sep, xs), xs[k])
  {
    JoinElementAt(sep, xs, k);
    assert OccursAt(Join(sep, xs), xs[k], JoinOffset(sep, xs, k));
  }

  // ---------------------------------------------------------------------
  // Domain filtering and any()
  // ---------------------------------------------------------------------

  /** `[d for d in ds if d]`. */
  function NonEmpty(ds: seq<string>): (r: seq<string>)
    ensures |r| <= |ds|
    ensures forall d :: d in r <==> d in ds && d != ""
  {
    if |ds| == 0 then []
    else if ds[0] != "" then [ds[0]] + NonEmpty(ds[1..])
    else NonEmpty(ds[1..])
  }

  /** `any(ds)` over strings: some string is non-empty. */
  predicate AnyNonEmpty(ds: seq<string>)
  {
    exists d :: d in ds && d != ""
  }

  /** `any(domains)` holds exactly when the filtered list is not empty. */
  lemma AnyNonEmptyFilter(ds: seq<string>)
    ensures AnyNonEmpty(ds) <==> NonEmpty(ds) != []
  {
    if AnyNonEmpty(ds) {
      var d :| d in ds && d != "";
      assert d in NonEmpty(ds);
    }
    if NonEmpty(ds) != [] {
      assert NonEmpty(ds)[0] in NonEmpty(ds);
    }
  }

  /** The filter keeps the order of what it keeps. */
  lemma {:induction false} NonEmptyAppend(xs: seq<string>, ys: seq<string>)
    ensures NonEmpty(xs + ys) == NonEmpty(xs) + NonEmpty(ys)
    decreases |xs|
  {
    if |xs| > 0 {
      assert (xs + ys)[1..] == xs[1..] + ys;
      NonEmptyAppend(xs[1..], ys);
    } else {
      assert xs + ys == ys;
    }
  }

  /** Filtering twice is filtering once. */
  lemma {:induction false} NonEmptyIdempotent(ds: seq<string>)
    ensures NonEmpty(NonEmpty(ds)) == NonEmpty(ds)
    decreases |ds|
  {
    if |ds| > 0 {
      NonEmptyIdempotent(ds[1..]);
      if ds[0] != "" {
        var r := [ds[0]] + NonEmpty(ds[1..]);
        assert r[1..] == NonEmpty(ds[1..]);
      }
    }
  }

  // ---------------------------------------------------------------------
  // Decimal formatting and str.lower
  // ---------------------------------------------------------------------

  predicate IsDigit(c: char)
  {
    '0' as int <= c as int <= '9' as int
  }

  /** `str(n)` for a natural number. */
  function NatToString(n: nat): (r: string)
    ensures |r| > 0 && forall k :: 0 <= k < |r| ==> IsDigit(r[k])
    ensures r[0] == '0' ==> n == 0
  {
    if n < 10 then ["0123456789"[n]]
    else NatToString(n / 10) + ["0123456789"[n % 10]]
  }

  /** `int(s)` for a string of decimal digits. */
  function ParseNat(s: string): nat
    requires forall k :: 0 <= k < |s| ==> IsDigit(s[k])
  {
    if |s| == 0 then 0
    else
      assert IsDigit(s[|s| - 1]);
      10 * ParseNat(s[..|s| - 1]) + (s[|s| - 1] as int - '0' as int)
  }

  /** The decimal text of `n` reads back as `n`. */
  lemma {:induction false} ParseNatToString(n: nat)
    ensures ParseNat(NatToString(n)) == n
  {
    var r := NatToString(n);
    if n >= 10 {
      ParseNatToString(n / 10);
      assert r[..|r| - 1] == NatToString(n / 10);
    }
  }

  /** `c.lower()` for the ASCII letters. */
  function LowerChar(c: char): char
  {
    if 'A' <= c <= 'Z' then (c as int + 32) as char else c
  }

  /** `s.lower()` for ASCII text: each upper-case ASCII letter becomes its
      lower-case letter, nothing else is touched, and no upper-case ASCII
      letter remains. */
  function Lower(s: string): (r: string)
    ensures |r| == |s|
    ensures forall k :: 0 <= k < |r| ==> !('A' <= r[k] <= 'Z')
    ensures forall k :: 0 <= k < |s| && 'A' <= s[k] <= 'Z' ==> 'a' <= r[k] <= 'z' && r[k] as int - s[k] as int == 32
    ensures forall k :: 0 <= k < |s| && !('A' <= s[k] <= 'Z') ==> r[k] == s[k]
  {
    seq(|s|, k requires 0 <= k < |s| => LowerChar(s[k]))
  }
}
