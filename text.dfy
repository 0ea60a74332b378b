/**
 * The C string operations the command dispatchers are built from:
 * strstr (Contains), strtok with a single-space delimiter (Tokens),
 * atoi, the "%d" conversion of sprintf (IntToString), and the view of a
 * character buffer as a NUL-terminated string (CString). Also the
 * ordered first-match search that every keyword chain of the firmware
 * and the GUI performs.
 */
module Text {
  import opened Common

  // ---------------------------------------------------------------- strstr

  /** The characters p[j..] occur in s starting at s[i + j]. */
  predicate MatchesAt(s: string, p: string, i: nat, j: nat)
    decreases |p| - j
  {
    j >= |p| || (i + j < |s| && s[i + j] == p[j] && MatchesAt(s, p, i, j + 1))
  }

  predicate ContainsFrom(s: string, p: string, i: nat)
    decreases |s| - i
  {
    i + |p| <= |s| && (MatchesAt(s, p, i, 0) || ContainsFrom(s, p, i + 1))
  }

  /** strstr(s, p) != NULL: the scan the firmware uses to recognise a keyword. */
  predicate Contains(s: string, p: string)
  {
    ContainsFrom(s, p, 0)
  }

  /** Reference definition of an occurrence of p in s at position i. */
  predicate OccursAt(s: string, p: string, i: nat)
  {
    i + |p| <= |s| && s[i..i + |p|] == p
  }

  lemma {:induction false} MatchesAtIff(s: string, p: string, i: nat, j: nat)
    requires j <= |p| && i + j <= |s|
    ensures MatchesAt(s, p, i, j) <==> (i + |p| <= |s| && s[i + j..i + |p|] == p[j..])
    decreases |p| - j
  {
    if j < |p| && i + j < |s| {
      MatchesAtIff(s, p, i, j + 1);
      if i + |p| <= |s| {
        var a, b := s[i + j..i + |p|], p[j..];
        assert a[1..] == s[i + j + 1..i + |p|];
        assert b[1..] == p[j + 1..];
        if a == b {
          assert s[i + j] == a[0] == b[0] == p[j];
        }
        if s[i + j] == p[j] && a[1..] == b[1..] {
          assert a == [a[0]] + a[1..];
          assert b == [b[0]] + b[1..];
        }
      }
    }
  }

  lemma {:induction false} ContainsFromIff(s: string, p: string, i: nat)
    ensures ContainsFrom(s, p, i) <==> exists k: nat :: i <= k && OccursAt(s, p, k)
    decreases |s| - i
  {
    if i + |p| <= |s| {
      MatchesAtIff(s, p, i, 0);
      ContainsFromIff(s, p, i + 1);
      if ContainsFrom(s, p, i) && !OccursAt(s, p, i) {
        var k: nat :| i + 1 <= k && OccursAt(s, p, k);
      }
      if exists k: nat :: i <= k && OccursAt(s, p, k) {
        var k: nat :| i <= k && OccursAt(s, p, k);
        if k > i {
          assert i + 1 <= k && OccursAt(s, p, k);
        }
      }
    }
  }

  /** The keyword scan agrees with the reference definition of an occurrence. */
  lemma ContainsIff(s: string, p: string)
    ensures Contains(s, p) <==> exists k: nat :: OccursAt(s, p, k)
  {
    ContainsFromIff(s, p, 0);
  }

  // ------------------------------------------------------ ordered dispatch

  /**
   * The index of the first keyword of `keys` that occurs in s: the branch
   * an if / else-if chain of strstr tests takes.
   */
  function FirstMatch(keys: seq<string>, s: string): (r: Option<nat>)
    ensures r.Some? ==> r.value < |keys| && Contains(s, keys[r.value])
    ensures r.Some? ==> forall j :: 0 <= j < r.value ==> !Contains(s, keys[j])
    ensures r.None? <==> forall j :: 0 <= j < |keys| ==> !Contains(s, keys[j])
  {
    FirstMatchFrom(keys, s, 0)
  }

  function FirstMatchFrom(keys: seq<string>, s: string, i: nat): (r: Option<nat>)
    requires i <= |keys|
    ensures r.Some? ==> i <= r.value < |keys| && Contains(s, keys[r.value])
    ensures r.Some? ==> forall j :: i <= j < r.value ==> !Contains(s, keys[j])
    ensures r.None? <==> forall j :: i <= j < |keys| ==> !Contains(s, keys[j])
    decreases |keys| - i
  {
    if i == |keys| then None
    else if Contains(s, keys[i]) then Some(i)
    else FirstMatchFrom(keys, s, i + 1)
  }

  /** A keyword holding a character the text lacks does not occur in it. */
  lemma AbsentChar(s: string, p: string, c: char)
    requires c in p && c !in s
    ensures !Contains(s, p)
  {
    ContainsIff(s, p);
  }

  /**
   * A text that is keyword k itself is dispatched to k when each earlier
   * keyword j holds the character w[j], which the text lacks.
   */
  lemma FirstByWitness(keys: seq<string>, w: string, s: string, k: nat)
    requires k < |keys| && keys[k] == s && k <= |w|
    requires forall j :: 0 <= j < k ==> w[j] in keys[j] && w[j] !in s
    ensures FirstMatch(keys, s) == Some(k)
  {
    ContainsIff(s, s);
    assert OccursAt(s, s, 0);
    forall j | 0 <= j < k
      ensures !Contains(s, keys[j])
    {
      AbsentChar(s, keys[j], w[j]);
    }
  }

  // --------------------------------------------------------------- strtok

  /** Length of the leading run of characters that are not the delimiter ' '. */
  function RunLength(s: string): (k: nat)
    ensures k <= |s|
    ensures forall i :: 0 <= i < k ==> s[i] != ' '
    ensures k < |s| ==> s[k] == ' '
  {
    if s == [] || s[0] == ' ' then 0 else 1 + RunLength(s[1..])
  }

  /** The successive results of strtok(s, " "), strtok(NULL, " "), ... */
  function Tokens(s: string): (r: seq<string>)
    ensures forall t :: t in r ==> |t| > 0 && ' ' !in t
    decreases |s|
  {
    if s == [] then []
    else if s[0] == ' ' then Tokens(s[1..])
    else
      var k := RunLength(s);
      [s[..k]] + Tokens(s[k..])
  }

  /** The command carries an argument: the second strtok call does not return NULL. */
  predicate HasArgument(s: string)
  {
    |Tokens(s)| >= 2
  }

  function Argument(s: string): string
    requires HasArgument(s)
  {
    Tokens(s)[1]
  }

  lemma {:induction false} TokensOfWord(w: string, rest: string)
    requires |w| > 0 && ' ' !in w
    ensures Tokens(w + " " + rest) == [w] + Tokens(rest)
  {
    var s := w + " " + rest;
    RunLengthOfWord(w, " " + rest);
    assert s[..|w|] == w;
    assert s[|w|..] == " " + rest;
    assert (" " + rest)[1..] == rest;
  }

  lemma {:induction false} RunLengthOfWord(w: string, rest: string)
    requires ' ' !in w
    requires rest == [] || rest[0] == ' '
    ensures RunLength(w + rest) == |w|
    decreases |w|
  {
    if w != [] {
      assert (w + rest)[1..] == w[1..] + rest;
      RunLengthOfWord(w[1..], rest);
    }
  }

  lemma TokensOfLastWord(w: string)
    requires |w| > 0 && ' ' !in w
    ensures Tokens(w) == [w]
  {
    RunLengthOfWord(w, []);
    assert w + [] == w;
    assert w[..|w|] == w;
    assert w[|w|..] == [];
  }

  /** A single word has no argument: the second strtok call returns NULL. */
  lemma WordHasNoArgument(w: string)
    requires |w| > 0 && ' ' !in w
    ensures !HasArgument(w)
  {
    TokensOfLastWord(w);
  }

  /** A rewritten command "NAME value" splits back into NAME and the value's text. */
  lemma TokensOfCommand(name: string, value: string)
    requires |name| > 0 && ' ' !in name
    requires |value| > 0 && ' ' !in value
    ensures Tokens(name + " " + value) == [name, value]
  {
    TokensOfWord(name, value);
    TokensOfLastWord(value);
  }

  // ----------------------------------------------------------- atoi, "%d"

  predicate IsDigit(c: char)
  {
    '0' <= c <= '9'
  }

  /** isspace in the C locale. */
  predicate IsSpace(c: char)
  {
    c == ' ' || c == '\t' || c == '\n' || c == '\U{0B}' || c == '\U{0C}' || c == '\r'
  }

  predicate AllDigits(s: string)
  {
    forall i :: 0 <= i < |s| ==> IsDigit(s[i])
  }

  function DigitValue(c: char): nat
    requires IsDigit(c)
  {
    c as int - '0' as int
  }

  function DigitChar(d: nat): (c: char)
    requires d < 10
    ensures IsDigit(c) && DigitValue(c) == d
  {
    ('0' as int + d) as char
  }

  /** The value of a string of decimal digits, most significant first. */
  function DigitsValue(s: string): nat
    requires AllDigits(s)
  {
    if s == [] then 0 else DigitsValue(s[..|s| - 1]) * 10 + DigitValue(s[|s| - 1])
  }

  function DigitRun(s: string): (k: nat)
    ensures k <= |s| && AllDigits(s[..k])
    ensures k < |s| ==> !IsDigit(s[k])
  {
    if s == [] || !IsDigit(s[0]) then 0
    else
      var k := 1 + DigitRun(s[1..]);
      assert s[..k] == [s[0]] + s[1..][..k - 1];
      k
  }

  function SkipSpace(s: string): (r: string)
    ensures r == [] || !IsSpace(r[0])
    ensures |r| <= |s| && r == s[|s| - |r|..]
  {
    if s != [] && IsSpace(s[0]) then SkipSpace(s[1..]) else s
  }

  function LeadingNumber(s: string): nat
  {
    DigitsValue(s[..DigitRun(s)])
  }

  /**
   * C's atoi: leading white space, an optional sign, then the longest run
   * of digits; a string with no digits gives 0. (A value outside the range
   * of int is undefined in C; the model keeps the mathematical value.)
   */
  function Atoi(s: string): int
  {
    var u := SkipSpace(s);
    if u != [] && u[0] == '-' then 0 - LeadingNumber(u[1..])
    else if u != [] && u[0] == '+' then LeadingNumber(u[1..])
    else LeadingNumber(u)
  }

  function NatToString(n: nat): (s: string)
    ensures |s| > 0 && AllDigits(s)
  {
    if n < 10 then [DigitChar(n)] else NatToString(n / 10) + [DigitChar(n % 10)]
  }

  /** sprintf's "%d" conversion. */
  function IntToString(i: int): (s: string)
    ensures |s| > 0 && ' ' !in s
  {
    if i < 0 then "-" + NatToString(-i) else NatToString(i)
  }

  lemma {:induction false} DigitsValueOfNatToString(n: nat)
    ensures DigitsValue(NatToString(n)) == n
  {
    if n >= 10 {
      DigitsValueOfNatToString(n / 10);
      var s := NatToString(n);
      assert s[..|s| - 1] == NatToString(n / 10);
    }
  }

  lemma {:induction false} DigitRunOfDigits(s: string)
    requires AllDigits(s)
    ensures DigitRun(s) == |s|
  {
    if s != [] {
      DigitRunOfDigits(s[1..]);
    }
  }

  /** The leading number of the digits "%d" writes for n is n. */
  lemma LeadingNumberOfNat(n: nat)
    ensures LeadingNumber(NatToString(n)) == n
  {
    var d := NatToString(n);
    DigitsValueOfNatToString(n);
    DigitRunOfDigits(d);
    assert d[..|d|] == d;
  }

  /** atoi of what "%d" writes for a value that is not negative. */
  lemma AtoiOfNat(i: int)
    requires i >= 0
    ensures Atoi(IntToString(i)) == i
  {
    var d := NatToString(i);
    assert IntToString(i) == d;
    LeadingNumberOfNat(i);
    assert IsDigit(d[0]);
  }

  /** atoi of what "%d" writes for a negative value: the minus sign, then the digits of its magnitude. */
  lemma AtoiOfNegative(i: int)
    requires i < 0
    ensures Atoi(IntToString(i)) == i
  {
    var d := NatToString(-i);
    var u := "-" + d;
    assert IntToString(i) == u;
    assert SkipSpace(u) == u by { assert !IsSpace(u[0]); }
    assert u[1..] == d;
    LeadingNumberOfNat(-i);
  }

  /** atoi reads back what "%d" wrote: the round trip of a setter's argument. */
  lemma AtoiIntToString(i: int)
    ensures Atoi(IntToString(i)) == i
  {
    if i < 0 {
      AtoiOfNegative(i);
    } else {
      AtoiOfNat(i);
    }
  }

  // ------------------------------------------------------------ C strings

  /** The string a NUL-terminated character buffer holds. */
  function CString(buf: seq<char>): (s: string)
    ensures '\0' !in s
    ensures |s| <= |buf| && s == buf[..|s|]
    ensures |s| < |buf| ==> buf[|s|] == '\0'
  {
    if buf == [] || buf[0] == '\0' then [] else [buf[0]] + CString(buf[1..])
  }
}
