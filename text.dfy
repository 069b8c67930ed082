/** String helpers that stand for the Go standard-library calls the core makes:
    `strings.TrimRight`, `strings.Trim`, `strings.Split`, `strings.HasPrefix` and
    the decimal `%d` verb of `fmt`. Strings are sequences of characters. */
module Text {
  import opened Wrappers

  /** `sub` occurs somewhere inside `s`. */
  predicate Contains(s: string, sub: string)
  {
    exists k: nat :: k <= |s| && OccursAt(s, sub, k)
  }

  /** `sub` occurs in `s` starting at index `k`. */
  predicate OccursAt(s: string, sub: string, k: nat)
  {
    k + |sub| <= |s| && s[k..k + |sub|] == sub
  }

  /** Number of occurrences of `c` in `s`. */
  function Count(s: string, c: char): nat
  {
    if s == [] then 0 else (if s[0] == c then 1 else 0) + Count(s[1..], c)
  }

  lemma {:induction false} CountZero(s: string, c: char)
    ensures Count(s, c) == 0 <==> c !in s
  {
    if s != [] {
      CountZero(s[1..], c);
      assert s == [s[0]] + s[1..];
    }
  }

  // ---------------------------------------------------------------------------
  // strings.TrimRight(s, "/") and strings.Trim(s, cutset)
  // ---------------------------------------------------------------------------

  /** Removes every trailing `c`: what is left is a prefix of `s`, everything
      cut off is `c`, and what is left does not end with `c`. */
  function TrimRight(s: string, c: char): (r: string)
    ensures r <= s
    ensures forall i :: |r| <= i < |s| ==> s[i] == c
    ensures r == [] || r[|r| - 1] != c
    decreases |s|
  {
    if |s| > 0 && s[|s| - 1] == c then TrimRight(s[..|s| - 1], c) else s
  }

  /** Removes every leading character that is in `cut`. */
  function TrimLeftSet(s: string, cut: set<char>): string
    decreases |s|
  {
    if |s| > 0 && s[0] in cut then TrimLeftSet(s[1..], cut) else s
  }

  /** What `TrimLeftSet` leaves is a suffix of `s`, everything cut off is in
      `cut`, and what is left does not start with a character of `cut`. */
  lemma {:induction false} TrimLeftSetFacts(s: string, cut: set<char>)
    ensures var r := TrimLeftSet(s, cut);
      && |r| <= |s| && r == s[|s| - |r|..]
      && (forall i :: 0 <= i < |s| - |r| ==> s[i] in cut)
      && (r == [] || r[0] !in cut)
    decreases |s|
  {
    if |s| > 0 && s[0] in cut {
      var t := s[1..];
      TrimLeftSetFacts(t, cut);
      var r := TrimLeftSet(t, cut);
      assert t[|t| - |r|..] == s[|s| - |r|..];
      forall i | 0 <= i < |s| - |r| ensures s[i] in cut {
        if i > 0 {
          assert s[i] == t[i - 1];
        }
      }
    }
  }

  /** Removes every trailing character that is in `cut`. */
  function TrimRightSet(s: string, cut: set<char>): string
    decreases |s|
  {
    if |s| > 0 && s[|s| - 1] in cut then TrimRightSet(s[..|s| - 1], cut) else s
  }

  /** What `TrimRightSet` leaves is a prefix of `s`, everything cut off is in
      `cut`, and what is left does not end with a character of `cut`. */
  lemma {:induction false} TrimRightSetFacts(s: string, cut: set<char>)
    ensures var r := TrimRightSet(s, cut);
      && r <= s
      && (forall i :: |r| <= i < |s| ==> s[i] in cut)
      && (r == [] || r[|r| - 1] !in cut)
    decreases |s|
  {
    if |s| > 0 && s[|s| - 1] in cut {
      var p := s[..|s| - 1];
      TrimRightSetFacts(p, cut);
      var r := TrimRightSet(p, cut);
      forall i | |r| <= i < |s| ensures s[i] in cut {
        if i < |s| - 1 {
          assert s[i] == p[i];
        }
      }
    }
  }

  /** `strings.Trim(s, cutset)`: strip `cut` characters from both ends. */
  function Trim(s: string, cut: set<char>): string
  {
    TrimRightSet(TrimLeftSet(s, cut), cut)
  }

  /** What `Trim` keeps is the slice of `s` that starts after the `a` leading
      characters it drops; every character dropped on either side is in `cut`,
      and the slice neither starts nor ends with one. */
  lemma TrimIsMaximalSlice(s: string, cut: set<char>) returns (a: nat)
    ensures var r := Trim(s, cut);
      && a + |r| <= |s|
      && r == s[a..a + |r|]
      && (forall i :: 0 <= i < a ==> s[i] in cut)
      && (forall i :: a + |r| <= i < |s| ==> s[i] in cut)
      && (r == [] || (r[0] !in cut && r[|r| - 1] !in cut))
  {
    var l := TrimLeftSet(s, cut);
    TrimLeftSetFacts(s, cut);
    assert Trim(s, cut) == TrimRightSet(l, cut);
    a := |s| - |l|;
    TrimRightOfSuffix(s, l, cut, a);
  }

  /** Trimming the right end of the suffix `l == s[a..]` keeps a slice of `s`
      followed only by `cut` characters, and a non-empty result starts where
      `l` does. */
  lemma TrimRightOfSuffix(s: string, l: string, cut: set<char>, a: nat)
    requires a <= |s| && l == s[a..]
    requires l == [] || l[0] !in cut
    ensures var r := TrimRightSet(l, cut);
      && a + |r| <= |s|
      && r == s[a..a + |r|]
      && (forall i :: a + |r| <= i < |s| ==> s[i] in cut)
      && (r == [] || (r[0] !in cut && r[|r| - 1] !in cut))
  {
    var r := TrimRightSet(l, cut);
    TrimRightSetFacts(l, cut);
    assert r == l[..|r|];
    forall i | a + |r| <= i < |s| ensures s[i] in cut {
      assert s[i] == l[i - a];
    }
    if r != [] {
      assert r[0] == l[0];
    }
  }

  // ---------------------------------------------------------------------------
  // strings.Split(s, ":") and its inverse
  // ---------------------------------------------------------------------------

  /** `strings.Split(s, string(sep))`: the pieces between separators, in order;
      there is always one more piece than separators. */
  function Split(s: string, sep: char): (parts: seq<string>)
    ensures |parts| == Count(s, sep) + 1
    ensures forall i :: 0 <= i < |parts| ==> sep !in parts[i]
    decreases |s|
  {
    if s == [] then [[]]
    else
      var rest := Split(s[1..], sep);
      if s[0] == sep then [[]] + rest
      else [[s[0]] + rest[0]] + rest[1..]
  }

  /** `strings.Join(parts, string(sep))`. */
  function Join(parts: seq<string>, sep: char): string
    requires |parts| >= 1
  {
    if |parts| == 1 then parts[0] else parts[0] + [sep] + Join(parts[1..], sep)
  }

  /** Splitting and joining again gives back the original string. */
  lemma {:induction false} JoinSplit(s: string, sep: char)
    ensures Join(Split(s, sep), sep) == s
    decreases |s|
  {
    if s != [] {
      var rest := Split(s[1..], sep);
      JoinSplit(s[1..], sep);
      if s[0] == sep {
        assert Split(s, sep)[1..] == rest;
      } else {
        var parts := Split(s, sep);
        assert parts[1..] == rest[1..];
        if |rest| > 1 {
          assert Join(rest, sep) == rest[0] + [sep] + Join(rest[1..], sep);
        }
      }
    }
  }

  /** A string with exactly one separator splits into the text before it and
      the text after it. */
  lemma TwoParts(s: string, sep: char)
    requires |Split(s, sep)| == 2
    ensures s == Split(s, sep)[0] + [sep] + Split(s, sep)[1]
  {
    JoinSplit(s, sep);
    var parts := Split(s, sep);
    assert Join(parts[1..], sep) == parts[1];
  }

  // ---------------------------------------------------------------------------
  // strings.IndexByte and strings.LastIndexByte
  // ---------------------------------------------------------------------------

  /** The first index of `c` in `s`, if any. */
  function IndexOf(s: string, c: char): (r: Option<nat>)
    ensures r.None? <==> c !in s
    ensures r.Some? ==> r.value < |s| && s[r.value] == c && c !in s[..r.value]
    ensures r.Some? ==> forall j :: 0 <= j < r.value ==> s[j] != c
  {
    if s == [] then None
    else if s[0] == c then Some(0)
    else
      var rest := IndexOf(s[1..], c);
      if rest.None? then None
      else
        assert s[..rest.value + 1] == [s[0]] + s[1..][..rest.value];
        Some(rest.value + 1)
  }

  /** The last index of `c` in `s`, if any. */
  function LastIndexOf(s: string, c: char): (r: Option<nat>)
    ensures r.None? <==> c !in s
    ensures r.Some? ==> r.value < |s| && s[r.value] == c && c !in s[r.value + 1..]
    ensures r.Some? ==> forall j :: r.value < j < |s| ==> s[j] != c
    decreases |s|
  {
    if s == [] then None
    else if s[|s| - 1] == c then Some(|s| - 1)
    else
      var rest := LastIndexOf(s[..|s| - 1], c);
      if rest.None? then
        assert s == s[..|s| - 1] + [s[|s| - 1]];
        None
      else
        assert s[rest.value + 1..] == s[..|s| - 1][rest.value + 1..] + [s[|s| - 1]];
        Some(rest.value)
  }

  // ---------------------------------------------------------------------------
  // The decimal %d verb
  // ---------------------------------------------------------------------------

  predicate IsDigit(c: char) { '0' <= c <= '9' }

  function Digit(d: nat): (c: char)
    requires d < 10
    ensures IsDigit(c)
  {
    "0123456789"[d]
  }

  /** `fmt.Sprintf("%d", n)` for a non-negative `n`: at least one digit and
      nothing but digits. */
  function NatToString(n: nat): (s: string)
    ensures |s| >= 1
    ensures forall i :: 0 <= i < |s| ==> IsDigit(s[i])
  {
    if n < 10 then [Digit(n)] else NatToString(n / 10) + [Digit(n % 10)]
  }

  /** The inverse of `NatToString`: the value of a string of digits. */
  function ParseNat(s: string): nat
    requires forall i :: 0 <= i < |s| ==> IsDigit(s[i])
  {
    if s == [] then 0
    else
      var d := s[|s| - 1];
      assert IsDigit(d);
      ParseNat(s[..|s| - 1]) * 10 + (d as int - '0' as int)
  }

  /** Reading the digits back gives the number, so distinct numbers print as
      distinct strings. */
  lemma {:induction false} ParseNatToString(n: nat)
    ensures ParseNat(NatToString(n)) == n
  {
    var s := NatToString(n);
    if n >= 10 {
      ParseNatToString(n / 10);
      assert s[..|s| - 1] == NatToString(n / 10);
      assert s[|s| - 1] == Digit(n % 10);
    }
    assert Digit(n % 10) as int - '0' as int == n % 10;
  }

  lemma NatToStringInjective(m: nat, n: nat)
    requires NatToString(m) == NatToString(n)
    ensures m == n
  {
    ParseNatToString(m);
    ParseNatToString(n);
  }

  /** `fmt.Sprintf("%d", i)` for any Go `int`: a minus sign before the digits of
      a negative number, and nothing else. */
  function IntToString(i: int): (s: string)
    ensures |s| >= 1
    ensures i < 0 <==> s[0] == '-'
    ensures forall k :: 0 <= k < |s| ==> IsDigit(s[k]) || (k == 0 && s[k] == '-')
    ensures ':' !in s && '[' !in s && ']' !in s
  {
    if i < 0 then "-" + NatToString(-i) else NatToString(i)
  }
}
