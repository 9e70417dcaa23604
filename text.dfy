/**
 * String helpers standing in for the JavaScript built-ins the source uses:
 * `toLowerCase` (ASCII letters only), `includes`, `trim`, `join`, the `\s`
 * character class, `replace` of a first occurrence and number-to-string for
 * natural numbers.
 */
module Text {

  // ---------------------------------------------------------------- case

  function LowerChar(c: char): (r: char)
    ensures 'A' <= c <= 'Z' ==> r as int == c as int + 32
    ensures !('A' <= c <= 'Z') ==> r == c
  {
    if 'A' <= c <= 'Z' then (c as int + 32) as char else c
  }

  /** `toLowerCase`, restricted to the ASCII letters. */
  function Lower(s: string): (r: string)
    ensures |r| == |s|
    ensures forall i :: 0 <= i < |s| ==> r[i] == LowerChar(s[i])
  {
    seq(|s|, i requires 0 <= i < |s| => LowerChar(s[i]))
  }

  lemma LowerIdempotent(s: string)
    ensures Lower(Lower(s)) == Lower(s)
  {
    assert forall i :: 0 <= i < |s| ==> LowerChar(LowerChar(s[i])) == LowerChar(s[i]);
  }

  /** A string with no upper-case letter is its own lower case. */
  lemma LowerNoUpper(s: string)
    requires forall i :: 0 <= i < |s| ==> !('A' <= s[i] <= 'Z')
    ensures Lower(s) == s
  {
  }

  lemma LowerEmpty()
    ensures Lower("") == ""
  {
  }

  // ---------------------------------------------------------------- search

  predicate IsPrefix(p: string, s: string) {
    |p| <= |s| && s[..|p|] == p
  }

  /** `s.includes(t)`. */
  predicate Contains(s: string, t: string)
    decreases |s|
  {
    IsPrefix(t, s) || (s != [] && Contains(s[1..], t))
  }

  /** `t` occurs in `s` starting at position `i`. */
  predicate OccursAt(s: string, t: string, i: int) {
    0 <= i <= |s| - |t| && s[i..i + |t|] == t
  }

  /** `includes` holds exactly when `t` occurs at some position of `s`. */
  lemma {:induction false} ContainsAt(s: string, t: string)
    ensures Contains(s, t) <==> exists i :: OccursAt(s, t, i)
    decreases |s|
  {
    if IsPrefix(t, s) {
      assert OccursAt(s, t, 0);
    }
    if s != [] {
      ContainsAt(s[1..], t);
      if Contains(s[1..], t) {
        var j :| OccursAt(s[1..], t, j);
        assert s[j + 1..j + 1 + |t|] == s[1..][j..j + |t|];
        assert OccursAt(s, t, j + 1);
      }
      if exists i :: OccursAt(s, t, i) {
        var i :| OccursAt(s, t, i);
        if i > 0 {
          assert s[1..][i - 1..i - 1 + |t|] == s[i..i + |t|];
          assert OccursAt(s[1..], t, i - 1);
        }
      }
    } else {
      if exists i :: OccursAt(s, t, i) {
        var i :| OccursAt(s, t, i);
        assert t == [];
      }
    }
  }

  /** `s.toLowerCase().includes(t.toLowerCase())`, the search of the admin lists. */
  predicate ContainsIgnoringCase(s: string, t: string) {
    Contains(Lower(s), Lower(t))
  }

  /** An empty search term matches every string. */
  lemma EmptySearchMatches(s: string)
    ensures ContainsIgnoringCase(s, "")
  {
    LowerEmpty();
    ContainsEmpty(Lower(s));
  }

  /** Lower-casing the search term first makes no difference. */
  lemma SearchIgnoresCase(s: string, t: string)
    ensures ContainsIgnoringCase(s, Lower(t)) == ContainsIgnoringCase(s, t)
  {
    LowerIdempotent(t);
  }

  /** Every string includes the empty string, so an empty search matches everything. */
  lemma ContainsEmpty(s: string)
    ensures Contains(s, "")
  {
  }

  /** A string of length below `|t|` cannot include `t`. */
  lemma {:induction false} ContainsTooShort(s: string, t: string)
    requires |s| < |t|
    ensures !Contains(s, t)
    decreases |s|
  {
    if s != [] {
      ContainsTooShort(s[1..], t);
    }
  }

  // ---------------------------------------------------------------- whitespace

  /** The ASCII members of JavaScript's `\s` (and of the set `trim` removes). */
  predicate IsSpace(c: char) {
    c == ' ' || c == '\t' || c == '\n' || c == '\r' || c == '\U{0B}' || c == '\U{0C}'
  }

  function TrimStart(s: string): (r: string)
    ensures |r| <= |s| && r == s[|s| - |r|..]
    ensures r == [] || !IsSpace(r[0])
  {
    if s != [] && IsSpace(s[0]) then TrimStart(s[1..]) else s
  }

  function TrimEnd(s: string): (r: string)
    ensures |r| <= |s| && r == s[..|r|]
    ensures r == [] || !IsSpace(r[|r| - 1])
  {
    if s != [] && IsSpace(s[|s| - 1]) then TrimEnd(s[..|s| - 1]) else s
  }

  /** `trim`. */
  function Trim(s: string): (r: string)
    ensures |r| <= |s|
    ensures r == [] || (!IsSpace(r[0]) && !IsSpace(r[|r| - 1]))
  {
    TrimEnd(TrimStart(s))
  }

  /** A string trims to "" exactly when every character is whitespace. */
  lemma {:induction false} TrimEmptyIffBlank(s: string)
    ensures Trim(s) == "" <==> forall i :: 0 <= i < |s| ==> IsSpace(s[i])
    decreases |s|
  {
    if s != [] {
      if IsSpace(s[0]) {
        TrimEmptyIffBlank(s[1..]);
        assert forall i :: 1 <= i < |s| ==> s[i] == s[1..][i - 1];
      } else {
        var e := TrimEnd(s);
        assert TrimStart(s) == s;
        if e == [] {
          TrimEndEmpty(s);
        }
      }
    }
  }

  /** Trimming the end alone empties a string only if its first character is whitespace. */
  lemma {:induction false} TrimEndEmpty(s: string)
    requires s != [] && TrimEnd(s) == []
    ensures IsSpace(s[0])
    decreases |s|
  {
    if |s| > 1 && IsSpace(s[|s| - 1]) {
      TrimEndEmpty(s[..|s| - 1]);
    }
  }

  /** `/\s+/g` replaced by "-": every maximal run of whitespace becomes one '-'. */
  function DashRuns(s: string): (r: string)
    ensures forall i :: 0 <= i < |r| ==> !IsSpace(r[i])
    ensures forall c :: c in r ==> c == '-' || c in s
    decreases |s|
  {
    if s == [] then []
    else if IsSpace(s[0]) then "-" + DashRuns(TrimStart(s))
    else [s[0]] + DashRuns(s[1..])
  }

  /** A string with no whitespace is left unchanged by the run replacement. */
  lemma {:induction false} DashRunsNoSpace(s: string)
    requires forall i :: 0 <= i < |s| ==> !IsSpace(s[i])
    ensures DashRuns(s) == s
    decreases |s|
  {
    if s != [] {
      DashRunsNoSpace(s[1..]);
    }
  }

  /** Trimming the start of a whitespace run followed by a non-space (or nothing) leaves what follows. */
  lemma {:induction false} TrimStartRun(ws: string, b: string)
    requires forall i :: 0 <= i < |ws| ==> IsSpace(ws[i])
    requires b == [] || !IsSpace(b[0])
    ensures TrimStart(ws + b) == b
    decreases |ws|
  {
    if ws != [] {
      assert (ws + b)[1..] == ws[1..] + b;
      TrimStartRun(ws[1..], b);
    }
  }

  /**
   * A maximal run of whitespace between a space-free prefix and what follows
   * becomes exactly one '-', and the prefix is kept as it is.
   */
  lemma {:induction false} DashRunsReplacesRun(a: string, ws: string, b: string)
    requires forall i :: 0 <= i < |a| ==> !IsSpace(a[i])
    requires ws != [] && forall i :: 0 <= i < |ws| ==> IsSpace(ws[i])
    requires b == [] || !IsSpace(b[0])
    ensures DashRuns(a + ws + b) == a + "-" + DashRuns(b)
    decreases |a|
  {
    if a == [] {
      assert a + ws + b == ws + b;
      TrimStartRun(ws, b);
    } else {
      var x := a + ws + b;
      assert x[0] == a[0] && !IsSpace(a[0]);
      assert x[1..] == a[1..] + ws + b;
      assert DashRuns(x) == [a[0]] + DashRuns(x[1..]);
      DashRunsReplacesRun(a[1..], ws, b);
      assert a + "-" + DashRuns(b) == [a[0]] + (a[1..] + "-" + DashRuns(b));
    }
  }

  // ---------------------------------------------------------------- replace

  /** `s.replace(a, b)` with a one-character pattern: only the first occurrence changes. */
  function ReplaceFirst(s: string, a: char, b: char): (r: string)
    ensures |r| == |s|
  {
    if s == [] then []
    else if s[0] == a then [b] + s[1..]
    else [s[0]] + ReplaceFirst(s[1..], a, b)
  }

  /** The first occurrence of `a` (at `k`) becomes `b`; every other position is unchanged. */
  lemma {:induction false} ReplaceFirstAt(s: string, a: char, b: char, k: nat)
    requires k < |s| && s[k] == a
    requires forall j :: 0 <= j < k ==> s[j] != a
    ensures ReplaceFirst(s, a, b) == s[..k] + [b] + s[k + 1..]
    decreases k
  {
    if k > 0 {
      ReplaceFirstAt(s[1..], a, b, k - 1);
      assert s[1..][..k - 1] == s[1..k];
      assert s[1..][k..] == s[k + 1..];
    }
  }

  /** Without an occurrence of `a` nothing changes. */
  lemma {:induction false} ReplaceFirstAbsent(s: string, a: char, b: char)
    requires forall j :: 0 <= j < |s| ==> s[j] != a
    ensures ReplaceFirst(s, a, b) == s
    decreases |s|
  {
    if s != [] {
      ReplaceFirstAbsent(s[1..], a, b);
    }
  }

  // ---------------------------------------------------------------- join

  /** `items.join(sep)`. */
  function Join(items: seq<string>, sep: string): (r: string)
    ensures items == [] ==> r == ""
    ensures |items| == 1 ==> r == items[0]
  {
    if items == [] then ""
    else if |items| == 1 then items[0]
    else items[0] + sep + Join(items[1..], sep)
  }

  // ---------------------------------------------------------------- numbers

  function DigitChar(d: nat): (c: char)
    requires d < 10
    ensures '0' <= c <= '9'
  {
    ('0' as int + d) as char
  }

  /** `String(n)` for a natural number: its decimal digits, without leading zeros. */
  function NatToString(n: nat): (r: string)
    ensures |r| >= 1
    ensures forall i :: 0 <= i < |r| ==> '0' <= r[i] <= '9'
    ensures n >= 10 ==> r[0] != '0'
    decreases n
  {
    if n < 10 then [DigitChar(n)] else NatToString(n / 10) + [DigitChar(n % 10)]
  }

  function DigitValue(c: char): nat
    requires '0' <= c <= '9'
  {
    c as nat - '0' as nat
  }

  /** Reading the digits back gives the number. */
  function DigitsValue(s: string): nat
    requires forall i :: 0 <= i < |s| ==> '0' <= s[i] <= '9'
  {
    if s == [] then 0 else DigitsValue(s[..|s| - 1]) * 10 + DigitValue(s[|s| - 1])
  }

  lemma {:induction false} NatToStringRoundTrip(n: nat)
    ensures DigitsValue(NatToString(n)) == n
    decreases n
  {
    if n >= 10 {
      NatToStringRoundTrip(n / 10);
      var s := NatToString(n);
      assert s[..|s| - 1] == NatToString(n / 10);
      assert DigitValue(s[|s| - 1]) == n % 10;
    }
  }
}
