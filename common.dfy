/** Shared vocabulary for the whole model: optional values, results, and the
    handful of JavaScript string operations the client relies on (trim,
    split, join, includes/indexOf, replace with a string pattern, the decimal
    form of an integer and Number() of a decimal string). */
module Common {

  datatype Option<T> = None | Some(value: T)

  datatype Result<T, E> = Ok(value: T) | Err(error: E)

  /** `v ?? dflt` on an optional string. */
  function OrElse(v: Option<string>, dflt: string): (r: string)
    ensures v.Some? ==> r == v.value
    ensures v.None? ==> r == dflt
  {
    if v.Some? then v.value else dflt
  }

  /** `v || null` on a string: the empty string becomes None. */
  function NullIfEmpty(v: string): (r: Option<string>)
    ensures r.None? <==> v == ""
    ensures r.Some? ==> r.value == v
  {
    if v == "" then None else Some(v)
  }

  /** The number JavaScript's Number() produces: an integer, or NaN. */
  datatype JsNumber = Finite(n: int) | NaN

  // ---------------------------------------------------------------------
  // Whitespace and trimming
  // ---------------------------------------------------------------------

  /** The fixed whitespace set used for String.prototype.trim and /\s/
      (space, tab, line feed, vertical tab, form feed, carriage return). */
  predicate IsWs(c: char) {
    c == ' ' || c == '\t' || c == '\n' || c == '\U{000B}' || c == '\U{000C}' || c == '\r'
  }

  predicate AllWs(s: string) {
    forall i :: 0 <= i < |s| ==> IsWs(s[i])
  }

  /** s.trimStart(): drops the leading whitespace and nothing else. */
  function TrimStart(s: string): (r: string)
    ensures |r| <= |s| && r == s[|s| - |r|..]
    ensures r == [] || !IsWs(r[0])
    ensures forall i :: 0 <= i < |s| - |r| ==> IsWs(s[i])
    decreases |s|
  {
    if |s| > 0 && IsWs(s[0]) then TrimStart(s[1..]) else s
  }

  /** s.trimEnd(): drops the trailing whitespace and nothing else. */
  function TrimEnd(s: string): (r: string)
    ensures |r| <= |s| && r == s[..|r|]
    ensures r == [] || !IsWs(r[|r| - 1])
    ensures forall i :: |r| <= i < |s| ==> IsWs(s[i])
    decreases |s|
  {
    if |s| > 0 && IsWs(s[|s| - 1]) then TrimEnd(s[..|s| - 1]) else s
  }

  /** s.trim() */
  function Trim(s: string): (r: string)
    ensures |r| <= |s|
    ensures r == [] || (!IsWs(r[0]) && !IsWs(r[|r| - 1]))
    ensures r == [] <==> AllWs(s)
  {
    var t := TrimStart(s);
    assert t != [] ==> TrimEnd(t) != [];
    TrimEnd(t)
  }

  /** A string with no whitespace at either end is its own trim. */
  lemma TrimOfTrimmed(s: string)
    requires s == [] || (!IsWs(s[0]) && !IsWs(s[|s| - 1]))
    ensures Trim(s) == s
  {
  }

  /** Trimming a trimmed string changes nothing (trim is idempotent). */
  lemma TrimIdempotent(s: string)
    ensures Trim(Trim(s)) == Trim(s)
  {
    TrimOfTrimmed(Trim(s));
  }

  /** `!s.trim()`: the string holds nothing but whitespace. */
  predicate Blank(s: string) {
    Trim(s) == ""
  }

  // ---------------------------------------------------------------------
  // Split and join
  // ---------------------------------------------------------------------

  /** parts.join(sep) */
  function Join(parts: seq<string>, sep: string): string
    decreases |parts|
  {
    if |parts| == 0 then ""
    else if |parts| == 1 then parts[0]
    else parts[0] + sep + Join(parts[1..], sep)
  }

  /** s.split(sep) for a one-character separator: the pieces between
      separators, including empty ones; "" splits into [""]. */
  function Split(s: string, sep: char): (parts: seq<string>)
    ensures |parts| >= 1
    ensures forall i :: 0 <= i < |parts| ==> sep !in parts[i]
    decreases |s|
  {
    if |s| == 0 then [""]
    else
      var rest := Split(s[1..], sep);
      if s[0] == sep then [""] + rest
      else [[s[0]] + rest[0]] + rest[1..]
  }

  /** Joining the pieces of a split with the separator gives the string back. */
  lemma {:induction false} JoinSplit(s: string, sep: char)
    ensures Join(Split(s, sep), [sep]) == s
    decreases |s|
  {
    if |s| > 0 {
      var rest := Split(s[1..], sep);
      JoinSplit(s[1..], sep);
      if s[0] == sep {
        assert Split(s, sep) == [""] + rest;
        assert ([""] + rest)[1..] == rest;
      } else {
        var parts := Split(s, sep);
        assert parts == [[s[0]] + rest[0]] + rest[1..];
        if |rest| > 1 {
          assert parts[1..] == rest[1..];
          assert Join(rest, [sep]) == rest[0] + [sep] + Join(rest[1..], [sep]);
        }
      }
    }
  }

  /** Splitting a join of separator-free pieces gives the pieces back. */
  lemma {:induction false} SplitJoin(parts: seq<string>, sep: char)
    requires |parts| >= 1
    requires forall i :: 0 <= i < |parts| ==> sep !in parts[i]
    ensures Split(Join(parts, [sep]), sep) == parts
    decreases |parts|, |parts[0]|
  {
    if |parts[0]| > 0 {
      var p0 := parts[0];
      var s := Join(parts, [sep]);
      var tail := [p0[1..]] + parts[1..];
      assert tail[0] == p0[1..];
      assert tail[1..] == parts[1..];
      assert Join(tail, [sep]) == s[1..] by {
        if |parts| == 1 {
        } else {
          assert Join(tail, [sep]) == p0[1..] + [sep] + Join(parts[1..], [sep]);
          assert s == p0 + [sep] + Join(parts[1..], [sep]);
        }
      }
      assert sep !in p0[1..] by {
        assert forall c :: c in p0[1..] ==> c in p0;
      }
      SplitJoin(tail, sep);
      assert p0[0] != sep by { assert p0[0] in p0; }
      assert s[0] == p0[0];
      assert [p0[0]] + p0[1..] == p0;
    } else if |parts| > 1 {
      var s := Join(parts, [sep]);
      assert s == [sep] + Join(parts[1..], [sep]);
      assert s[1..] == Join(parts[1..], [sep]);
      SplitJoin(parts[1..], sep);
      assert [""] + parts[1..] == parts;
    }
  }

  // ---------------------------------------------------------------------
  // Substring search and replace
  // ---------------------------------------------------------------------

  /** pat occurs in s starting at index j. */
  predicate OccursAt(s: string, pat: string, j: int) {
    0 <= j && j + |pat| <= |s| && s[j..j + |pat|] == pat
  }

  /** s.indexOf(pat): the first index where pat occurs, or -1. */
  function IndexOf(s: string, pat: string): (k: int)
    ensures -1 <= k
    ensures k >= 0 ==> OccursAt(s, pat, k)
    decreases |s|
  {
    if |pat| > |s| then -1
    else if s[..|pat|] == pat then 0
    else
      var k := IndexOf(s[1..], pat);
      if k == -1 then -1
      else
        assert s[k + 1..k + 1 + |pat|] == s[1..][k..k + |pat|];
        k + 1
  }

  /** indexOf finds the first occurrence, and -1 means there is none. */
  lemma {:induction false} IndexOfFacts(s: string, pat: string)
    ensures var k := IndexOf(s, pat);
      && (k >= 0 ==> forall j :: 0 <= j < k ==> !OccursAt(s, pat, j))
      && (k == -1 ==> forall j :: !OccursAt(s, pat, j))
    decreases |s|
  {
    if |pat| <= |s| && s[..|pat|] != pat {
      var t := s[1..];
      IndexOfFacts(t, pat);
      var k := IndexOf(t, pat);
      var bound := if k == -1 then |t| else k;
      assert forall i :: 0 <= i < bound ==> !OccursAt(t, pat, i);
      assert !OccursAt(s, pat, 0) by {
        assert s[0..|pat|] == s[..|pat|];
      }
      forall j | 1 <= j <= bound ensures !OccursAt(s, pat, j) {
        ShiftOccurs(s, pat, j);
      }
      if k == -1 {
        forall j ensures !OccursAt(s, pat, j) {
          if 1 <= j <= bound {
            ShiftOccurs(s, pat, j);
          }
        }
      }
    }
  }

  /** An occurrence at j >= 1 is one at j - 1 of the tail. */
  lemma ShiftOccurs(s: string, pat: string, j: int)
    requires 1 <= j <= |s|
    ensures OccursAt(s, pat, j) <==> OccursAt(s[1..], pat, j - 1)
  {
    if j + |pat| <= |s| {
      var u, v := s[j..j + |pat|], s[1..][j - 1..j - 1 + |pat|];
      forall i | 0 <= i < |u| ensures u[i] == v[i] {
        assert u[i] == s[j + i] && v[i] == s[1..][j - 1 + i];
      }
      assert u == v;
    }
  }

  /** The first place pat occurs is what indexOf finds. */
  lemma IndexOfFirst(s: string, pat: string, k: int)
    requires OccursAt(s, pat, k)
    requires forall j :: 0 <= j < k ==> !OccursAt(s, pat, j)
    ensures IndexOf(s, pat) == k
  {
    IndexOfFacts(s, pat);
  }

  /** s.includes(pat) */
  predicate Includes(s: string, pat: string) {
    IndexOf(s, pat) >= 0
  }

  /** The replacement-pattern expansion of String.prototype.replace when the
      pattern is a string: "$$" is a dollar, "$&" the matched text, "$`" the
      text before the match, "$'" the text after it; every other character,
      including "$" followed by anything else, stands for itself. */
  function Expand(repl: string, matched: string, before: string, after: string): string
    decreases |repl|
  {
    if |repl| == 0 then ""
    else if repl[0] == '$' && |repl| >= 2 && repl[1] == '$' then "$" + Expand(repl[2..], matched, before, after)
    else if repl[0] == '$' && |repl| >= 2 && repl[1] == '&' then matched + Expand(repl[2..], matched, before, after)
    else if repl[0] == '$' && |repl| >= 2 && repl[1] == '`' then before + Expand(repl[2..], matched, before, after)
    else if repl[0] == '$' && |repl| >= 2 && repl[1] == '\'' then after + Expand(repl[2..], matched, before, after)
    else [repl[0]] + Expand(repl[1..], matched, before, after)
  }

  /** A replacement without a dollar sign is inserted literally. */
  lemma {:induction false} ExpandLiteral(repl: string, matched: string, before: string, after: string)
    requires '$' !in repl
    ensures Expand(repl, matched, before, after) == repl
    decreases |repl|
  {
    if |repl| > 0 {
      assert repl[0] in repl;
      assert forall c :: c in repl[1..] ==> c in repl;
      ExpandLiteral(repl[1..], matched, before, after);
      assert [repl[0]] + repl[1..] == repl;
    }
  }

  /** s.replace(pat, repl) with a string pattern: only the first occurrence
      is replaced; without an occurrence s is returned unchanged. */
  function ReplaceFirst(s: string, pat: string, repl: string): string {
    var k := IndexOf(s, pat);
    if k < 0 then s
    else s[..k] + Expand(repl, pat, s[..k], s[k + |pat|..]) + s[k + |pat|..]
  }

  /** A replacement without "$" is put in as it is. */
  lemma ReplaceFirstLiteral(s: string, pat: string, repl: string)
    requires '$' !in repl && IndexOf(s, pat) >= 0
    ensures var k := IndexOf(s, pat);
      ReplaceFirst(s, pat, repl) == s[..k] + repl + s[k + |pat|..]
  {
    var k := IndexOf(s, pat);
    assert OccursAt(s, pat, k);
    var before, after := s[..k], s[k + |pat|..];
    ExpandLiteral(repl, pat, before, after);
    var e := Expand(repl, pat, before, after);
    assert e == repl;
    assert ReplaceFirst(s, pat, repl) == before + e + after;
  }

  // ---------------------------------------------------------------------
  // Numbers and their decimal form
  // ---------------------------------------------------------------------

  predicate IsDigit(c: char) {
    '0' <= c <= '9'
  }

  function DigitChar(d: nat): (c: char)
    requires d < 10
    ensures IsDigit(c)
  {
    "0123456789"[d]
  }

  function DigitValue(c: char): (d: nat)
    requires IsDigit(c)
    ensures d < 10
  {
    (c as int - '0' as int) as nat
  }

  lemma DigitRoundTrip(d: nat)
    requires d < 10
    ensures DigitValue(DigitChar(d)) == d
  {
  }

  /** The decimal digits of a natural number, most significant first. */
  function NatToString(n: nat): (s: string)
    ensures |s| >= 1 && forall i :: 0 <= i < |s| ==> IsDigit(s[i])
    decreases n
  {
    if n < 10 then [DigitChar(n)] else NatToString(n / 10) + [DigitChar(n % 10)]
  }

  /** String(n) for an integer n (no exponent form: see README). */
  function IntToString(n: int): string {
    if n < 0 then "-" + NatToString(-n) else NatToString(n)
  }

  /** The value of a non-empty string of decimal digits. */
  function DigitsValue(s: string): nat
    requires forall i :: 0 <= i < |s| ==> IsDigit(s[i])
    decreases |s|
  {
    if |s| == 0 then 0 else DigitsValue(s[..|s| - 1]) * 10 + DigitValue(s[|s| - 1])
  }

  predicate AllDigits(s: string) {
    forall i :: 0 <= i < |s| ==> IsDigit(s[i])
  }

  /** Number(s) for the strings the model needs: "" is 0, an optional minus
      followed by decimal digits is that integer, anything else is NaN. */
  function NumberOf(s: string): JsNumber {
    if s == "" then Finite(0)
    else if AllDigits(s) then Finite(DigitsValue(s))
    else if s[0] == '-' && |s| >= 2 && AllDigits(s[1..]) then Finite(-(DigitsValue(s[1..]) as int))
    else NaN
  }

  lemma {:induction false} DigitsOfNat(n: nat)
    ensures DigitsValue(NatToString(n)) == n
    decreases n
  {
    var s := NatToString(n);
    if n >= 10 {
      DigitsOfNat(n / 10);
      assert s[..|s| - 1] == NatToString(n / 10);
      DigitRoundTrip(n % 10);
    } else {
      DigitRoundTrip(n);
    }
  }

  /** Number(String(n)) == n: the decimal form of an integer reads back as it. */
  lemma IntStringRoundTrip(n: int)
    ensures NumberOf(IntToString(n)) == Finite(n)
  {
    if n < 0 {
      var d := NatToString(-n);
      DigitsOfNat(-n);
      var s := "-" + d;
      assert s[1..] == d && AllDigits(d) && |s| >= 2;
      assert !AllDigits(s) by { assert !IsDigit(s[0]); }
      assert NumberOf(s) == Finite(-(DigitsValue(d) as int));
    } else {
      var d := NatToString(n);
      DigitsOfNat(n);
      assert AllDigits(d) && d != "";
      assert NumberOf(d) == Finite(DigitsValue(d));
    }
  }
}
