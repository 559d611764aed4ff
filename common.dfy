/** Shared vocabulary of the backend model: failure-compatible wrappers for the
    source's `null` returns and thrown `Error`s, a JSON value for message payloads,
    and the string operations (JavaScript `trim`, `split`, `join`, `includes`,
    `toLowerCase`, `parseInt`, number-to-string) the services are written with. */
module Common {

  datatype Option<+T> = None | Some(value: T) {
    function GetOr(default: T): T {
      match this
      case Some(v) => v
      case None => default
    }
  }

  /** A value or the message of the `Error` the source throws; an `async` call that
      returns nothing completes with `Ok(())`. */
  datatype Result<+T> = Ok(value: T) | Err(error: string) {
    predicate IsFailure() { Err? }
    function PropagateFailure<U>(): Result<U> requires Err? { Err(error) }
    function Extract(): T requires Ok? { value }
  }

  /** The JSON values carried by bus messages and socket payloads (numbers are integers here). */
  datatype Json =
    | JNull
    | JBool(b: bool)
    | JNum(n: int)
    | JStr(s: string)
    | JArr(items: seq<Json>)
    | JObj(fields: map<string, Json>)

  // ---------------------------------------------------------------------------
  // Characters

  /** The characters JavaScript's `\s` and `String.prototype.trim` treat as white space. */
  const WhiteSpace: set<char> :=
    {' ', '\t', '\n', '\r', '\U{000B}', '\U{000C}', '\U{00A0}', '\U{1680}',
     '\U{2000}', '\U{2001}', '\U{2002}', '\U{2003}', '\U{2004}', '\U{2005}', '\U{2006}',
     '\U{2007}', '\U{2008}', '\U{2009}', '\U{200A}', '\U{2028}', '\U{2029}', '\U{202F}',
     '\U{205F}', '\U{3000}', '\U{FEFF}'}

  predicate IsWhite(c: char) {
    c in WhiteSpace
  }

  predicate IsDigit(c: char) { '0' <= c <= '9' }

  predicate IsLowerAlnum(c: char) { ('a' <= c <= 'z') || IsDigit(c) }

  function LowerChar(c: char): (r: char)
    ensures 'A' <= c <= 'Z' ==> 'a' <= r <= 'z'
    ensures !('A' <= c <= 'Z') ==> r == c
  {
    if 'A' <= c <= 'Z' then (c as int - 'A' as int + 'a' as int) as char else c
  }

  /** `toLowerCase` restricted to the ASCII letters. */
  function ToLower(s: string): (r: string)
    ensures |r| == |s|
    ensures forall i :: 0 <= i < |s| ==> r[i] == LowerChar(s[i])
  {
    seq(|s|, i requires 0 <= i < |s| => LowerChar(s[i]))
  }

  // ---------------------------------------------------------------------------
  // Prefixes, suffixes and searching

  predicate StartsWith(s: string, prefix: string) {
    |prefix| <= |s| && s[..|prefix|] == prefix
  }

  predicate EndsWith(s: string, suffix: string) {
    |suffix| <= |s| && s[|s| - |suffix|..] == suffix
  }

  predicate OccursAt(s: string, pat: string, i: int) {
    0 <= i && i + |pat| <= |s| && s[i..i + |pat|] == pat
  }

  /** The leftmost occurrence of `pat` in `s` at or after `from`, as `indexOf(pat, from)`. */
  function IndexOfFrom(s: string, pat: string, from: nat): (r: Option<nat>)
    ensures r.Some? ==> from <= r.value && OccursAt(s, pat, r.value)
    ensures r.Some? ==> forall j :: from <= j < r.value ==> !OccursAt(s, pat, j)
    ensures r.None? ==> forall j :: from <= j ==> !OccursAt(s, pat, j)
    decreases |s| - from
  {
    if from + |pat| > |s| then None
    else if s[from..from + |pat|] == pat then Some(from)
    else IndexOfFrom(s, pat, from + 1)
  }

  /** `s.includes(pat)`. */
  predicate Contains(s: string, pat: string) {
    IndexOfFrom(s, pat, 0).Some?
  }

  lemma ContainsIff(s: string, pat: string)
    ensures Contains(s, pat) <==> exists i :: OccursAt(s, pat, i)
  {
    if !Contains(s, pat) {
      forall i ensures !OccursAt(s, pat, i) {
        if i >= 0 {
          assert !OccursAt(s, pat, i);
        }
      }
    }
  }

  /** `IndexOfFrom` is determined by the position it reports. */
  lemma IndexOfFromAt(s: string, pat: string, from: nat, k: nat)
    requires from <= k && OccursAt(s, pat, k)
    requires forall j :: from <= j < k ==> !OccursAt(s, pat, j)
    ensures IndexOfFrom(s, pat, from) == Some(k)
  {
  }

  /** A string that contains `pat` once contains it after anything is added around it. */
  lemma {:induction false} ContainsInContext(a: string, s: string, b: string, pat: string)
    requires Contains(s, pat)
    ensures Contains(a + s + b, pat)
  {
    var i := IndexOfFrom(s, pat, 0).value;
    assert (a + s + b)[|a| + i..|a| + i + |pat|] == s[i..i + |pat|];
    assert OccursAt(a + s + b, pat, |a| + i);
    ContainsIff(a + s + b, pat);
  }

  // ---------------------------------------------------------------------------
  // trim

  /** The index of the first non-white character at or after `i`, or `|s|`. */
  function SkipWhite(s: string, i: nat): (r: nat)
    requires i <= |s|
    ensures i <= r <= |s| && (r == |s| || !IsWhite(s[r]))
    ensures forall j :: i <= j < r ==> IsWhite(s[j])
    decreases |s| - i
  {
    if i < |s| && IsWhite(s[i]) then SkipWhite(s, i + 1) else i
  }

  /** The end of the last non-white character before `e`, or 0. */
  function SkipWhiteBack(s: string, e: nat): (r: nat)
    requires e <= |s|
    ensures r <= e && (r == 0 || !IsWhite(s[r - 1]))
    ensures forall j :: r <= j < e ==> IsWhite(s[j])
  {
    if e > 0 && IsWhite(s[e - 1]) then SkipWhiteBack(s, e - 1) else e
  }

  predicate IsTrimmed(s: string) {
    s == [] || (!IsWhite(s[0]) && !IsWhite(s[|s| - 1]))
  }

  /** `s.trim()`: the part of `s` from its first to its last non-white character. */
  function Trim(s: string): (r: string)
  {
    var k := SkipWhite(s, 0);
    var e := SkipWhiteBack(s, |s|);
    if k < e then s[k..e] else ""
  }

  /** The trimmed text is a slice of `s` with nothing but white space around it. */
  lemma TrimShape(s: string)
    ensures IsTrimmed(Trim(s))
    ensures var k := SkipWhite(s, 0);
      k + |Trim(s)| <= |s| && Trim(s) == s[k..k + |Trim(s)|]
      && (forall i :: 0 <= i < k ==> IsWhite(s[i]))
      && (forall i :: k + |Trim(s)| <= i < |s| ==> IsWhite(s[i]))
  {
  }

  lemma {:induction false} TrimOfTrimmed(s: string)
    requires IsTrimmed(s)
    ensures Trim(s) == s
  {
  }

  lemma TrimIdempotent(s: string)
    ensures Trim(Trim(s)) == Trim(s)
  {
    TrimShape(s);
    TrimOfTrimmed(Trim(s));
  }

  // ---------------------------------------------------------------------------
  // split and join

  /** `parts.join(sep)`. */
  function Join(parts: seq<string>, sep: string): (r: string)
  {
    if |parts| == 0 then ""
    else if |parts| == 1 then parts[0]
    else parts[0] + sep + Join(parts[1..], sep)
  }

  /** `s.split(sep)` for a one-character separator: always at least one piece. */
  function Split(s: string, sep: char): (r: seq<string>)
    ensures |r| >= 1
    ensures forall k :: 0 <= k < |r| ==> sep !in r[k]
    decreases |s|
  {
    var i := IndexOfFrom(s, [sep], 0);
    if i.None? then
      assert forall j :: 0 <= j < |s| ==> !OccursAt(s, [sep], j);
      assert forall j :: 0 <= j < |s| ==> s[j] != sep by {
        forall j | 0 <= j < |s| ensures s[j] != sep {
          assert !OccursAt(s, [sep], j);
          assert s[j..j + 1] == [s[j]];
        }
      }
      [s]
    else
      var head := s[..i.value];
      assert forall j :: 0 <= j < |head| ==> head[j] != sep by {
        forall j | 0 <= j < |head| ensures head[j] != sep {
          assert !OccursAt(s, [sep], j);
          assert s[j..j + 1] == [s[j]];
        }
      }
      [head] + Split(s[i.value + 1..], sep)
  }

  lemma JoinCons(head: string, tail: seq<string>, sep: string)
    requires |tail| >= 1
    ensures Join([head] + tail, sep) == head + sep + Join(tail, sep)
  {
    assert ([head] + tail)[1..] == tail;
  }

  /** A split at a separator: the piece before it, then the split of what follows it. */
  lemma SplitAtFirst(s: string, sep: char, i: nat)
    requires IndexOfFrom(s, [sep], 0) == Some(i)
    ensures i < |s| && s[i] == sep
    ensures Split(s, sep) == [s[..i]] + Split(s[i + 1..], sep)
  {
    assert s[i..i + 1] == [sep];
  }

  lemma Reassemble(s: string, i: nat, sep: char)
    requires i < |s| && s[i] == sep
    ensures s[..i] + [sep] + s[i + 1..] == s
  {
  }

  /** Joining the pieces of a split with the same separator gives back the string. */
  lemma {:induction false} JoinSplit(s: string, sep: char)
    ensures Join(Split(s, sep), [sep]) == s
    decreases |s|
  {
    match IndexOfFrom(s, [sep], 0)
    case None =>
    case Some(i) =>
      SplitAtFirst(s, sep, i);
      var rest := s[i + 1..];
      JoinSplit(rest, sep);
      JoinCons(s[..i], Split(rest, sep), [sep]);
      Reassemble(s, i, sep);
  }

  // ---------------------------------------------------------------------------
  // Numbers as decimal text

  function DigitChar(d: nat): (c: char)
    requires d < 10
    ensures IsDigit(c)
  {
    ('0' as int + d) as char
  }

  function DigitValue(c: char): (d: nat)
    requires IsDigit(c)
    ensures d < 10
  {
    c as int - '0' as int
  }

  predicate AllDigits(s: string) {
    forall i :: 0 <= i < |s| ==> IsDigit(s[i])
  }

  /** `String(n)` for a non-negative integer. */
  function NatToString(n: nat): (r: string)
    ensures |r| >= 1 && AllDigits(r)
    ensures |r| > 1 ==> r[0] != '0'
  {
    if n < 10 then [DigitChar(n)] else NatToString(n / 10) + [DigitChar(n % 10)]
  }

  /** `parseInt(s, 10)` of a string of decimal digits. */
  function DigitsValue(s: string): nat
    requires AllDigits(s)
  {
    if |s| == 0 then 0 else DigitsValue(s[..|s| - 1]) * 10 + DigitValue(s[|s| - 1])
  }

  /** Reading back a number written as decimal text gives the number. */
  lemma {:induction false} DigitsValueOfNatToString(n: nat)
    ensures DigitsValue(NatToString(n)) == n
  {
    if n >= 10 {
      var r := NatToString(n);
      assert r[..|r| - 1] == NatToString(n / 10);
      DigitsValueOfNatToString(n / 10);
    }
  }

  /** Distinct numbers have distinct decimal texts. */
  lemma NatToStringInjective(m: nat, n: nat)
    requires NatToString(m) == NatToString(n)
    ensures m == n
  {
    DigitsValueOfNatToString(m);
    DigitsValueOfNatToString(n);
  }

  /** `String(i)` for any integer. */
  function IntToString(i: int): string {
    if i < 0 then "-" + NatToString(-i) else NatToString(i)
  }

  /** The end of the run of decimal digits starting at `i`. */
  function SkipDigits(s: string, i: nat): (r: nat)
    requires i <= |s|
    ensures i <= r <= |s| && (r == |s| || !IsDigit(s[r]))
    ensures forall j :: i <= j < r ==> IsDigit(s[j])
    decreases |s| - i
  {
    if i < |s| && IsDigit(s[i]) then SkipDigits(s, i + 1) else i
  }

  predicate IsHexDigit(c: char) {
    IsDigit(c) || ('a' <= c <= 'f') || ('A' <= c <= 'F')
  }

  function HexDigitValue(c: char): (d: nat)
    requires IsHexDigit(c)
    ensures d < 16
    ensures IsDigit(c) ==> d == DigitValue(c)
  {
    if IsDigit(c) then DigitValue(c)
    else if 'a' <= c <= 'f' then c as int - 'a' as int + 10
    else c as int - 'A' as int + 10
  }

  /** `parseInt(s, 16)` of a string of hexadecimal digits. */
  function HexDigitsValue(s: string): nat
    requires forall i :: 0 <= i < |s| ==> IsHexDigit(s[i])
  {
    if |s| == 0 then 0 else HexDigitsValue(s[..|s| - 1]) * 16 + HexDigitValue(s[|s| - 1])
  }

  /** The end of the run of hexadecimal digits starting at `i`. */
  function SkipHexDigits(s: string, i: nat): (r: nat)
    requires i <= |s|
    ensures i <= r <= |s| && (r == |s| || !IsHexDigit(s[r]))
    ensures forall j :: i <= j < r ==> IsHexDigit(s[j])
    decreases |s| - i
  {
    if i < |s| && IsHexDigit(s[i]) then SkipHexDigits(s, i + 1) else i
  }

  /** Where the digits of `parseInt(s)` start: after leading white space and an optional sign. */
  function SignEnd(s: string): (r: nat)
    ensures r <= |s|
  {
    var i := SkipWhite(s, 0);
    if i < |s| && (s[i] == '-' || s[i] == '+') then i + 1 else i
  }

  /** Whether `parseInt` without a radix reads hexadecimal: "0x" or "0X" follows the sign. */
  predicate HexPrefixed(s: string) {
    var start := SignEnd(s);
    start + 2 <= |s| && s[start] == '0' && (s[start + 1] == 'x' || s[start + 1] == 'X')
  }

  /** `parseInt(s)` without a radix: leading white space, an optional sign, then the longest
      run of hexadecimal digits after a "0x"/"0X" prefix, or else the longest run of decimal
      digits; `None` stands for `NaN`, the result when that run is empty. */
  function ParseInt(s: string): (r: Option<int>)
    ensures r.None? <==>
      if HexPrefixed(s) then SignEnd(s) + 2 == |s| || !IsHexDigit(s[SignEnd(s) + 2])
      else SignEnd(s) == |s| || !IsDigit(s[SignEnd(s)])
  {
    if HexPrefixed(s) then ReadHex(s, SignEnd(s) + 2, Negative(s))
    else ReadDecimal(s, SignEnd(s), Negative(s))
  }

  /** Whether the sign in front of the digits is a minus. */
  predicate Negative(s: string) {
    var i := SkipWhite(s, 0);
    i < |s| && s[i] == '-'
  }

  /** The value of the run of decimal digits at `start`, negated when asked; `None` when the
      run is empty. */
  function ReadDecimal(s: string, start: nat, negative: bool): (r: Option<int>)
    requires start <= |s|
    ensures r.None? <==> start == |s| || !IsDigit(s[start])
  {
    var end := SkipDigits(s, start);
    if end == start then None
    else
      var digits := s[start..end];
      assert forall j :: 0 <= j < |digits| ==> digits[j] == s[start + j];
      var v: int := DigitsValue(digits);
      if negative then Some(-v) else Some(v)
  }

  /** The value of the run of hexadecimal digits at `start`, negated when asked; `None`
      when the run is empty. */
  function ReadHex(s: string, start: nat, negative: bool): (r: Option<int>)
    requires start <= |s|
    ensures r.None? <==> start == |s| || !IsHexDigit(s[start])
  {
    var end := SkipHexDigits(s, start);
    if end == start then None
    else
      var digits := s[start..end];
      assert forall j :: 0 <= j < |digits| ==> digits[j] == s[start + j];
      var v: int := HexDigitsValue(digits);
      if negative then Some(-v) else Some(v)
  }

  /** Without a radix, `parseInt` reads "0x" followed by hexadecimal digits in base 16. */
  lemma ParseIntOfHexText(h: string)
    requires h != [] && forall i :: 0 <= i < |h| ==> IsHexDigit(h[i])
    ensures ParseInt("0x" + h) == Some(HexDigitsValue(h))
  {
    var s := "0x" + h;
    assert s[0] == '0' && s[1] == 'x' && s[2..] == h;
    assert SkipWhite(s, 0) == 0 by {
      assert !IsWhite(s[0]);
    }
    assert SignEnd(s) == 0 && HexPrefixed(s) && !Negative(s);
    assert ParseInt(s) == ReadHex(s, 2, false);
    forall j | 2 <= j < |s|
      ensures IsHexDigit(s[j])
    {
      assert s[j] == h[j - 2];
    }
    ReadHexToEnd(s, 2);
  }

  lemma ReadHexToEnd(s: string, start: nat)
    requires start < |s| && forall j :: start <= j < |s| ==> IsHexDigit(s[j])
    ensures ReadHex(s, start, false) == Some(HexDigitsValue(s[start..]))
  {
    SkipHexDigitsToEnd(s, start);
    assert s[start..|s|] == s[start..];
  }

  lemma {:induction false} SkipHexDigitsToEnd(s: string, i: nat)
    requires i <= |s| && forall j :: i <= j < |s| ==> IsHexDigit(s[j])
    ensures SkipHexDigits(s, i) == |s|
    decreases |s| - i
  {
    if i < |s| {
      SkipHexDigitsToEnd(s, i + 1);
    }
  }

  /** Reading back the decimal text of a number with `parseInt` gives the number. */
  lemma ParseIntOfNatToString(n: nat)
    ensures ParseInt(NatToString(n)) == Some(n)
  {
    var s := NatToString(n);
    assert !IsWhite(s[0]);
    assert SkipWhite(s, 0) == 0;
    assert SkipDigits(s, 0) == |s|;
    assert s[0..|s|] == s;
    DigitsValueOfNatToString(n);
  }

  /** Concatenation regroups freely; stated once so that large contexts need not rediscover it. */
  lemma ConcatAssoc<T>(a: seq<T>, b: seq<T>, c: seq<T>)
    ensures a + b + c == a + (b + c)
  {
  }
}
