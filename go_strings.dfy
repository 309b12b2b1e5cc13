/** The parts of Go's `strings` and `strconv` packages the provider relies
    on: substring search, splitting on a separator, decimal formatting and
    parsing, and the truncating conversion to int32. */
module GoStrings {
  import opened Base

  predicate IsDigit(c: char) { '0' <= c <= '9' }

  predicate AllDigits(s: string) { forall i :: 0 <= i < |s| ==> IsDigit(s[i]) }

  function DigitChar(d: nat): (c: char)
    requires d < 10
    ensures IsDigit(c) && c as int - '0' as int == d
  {
    (d + '0' as int) as char
  }

  /** Decimal digits of n, most significant first, no leading zeros. */
  function NatDigits(n: nat): (s: string)
    ensures |s| > 0 && AllDigits(s)
    ensures s[0] == '0' ==> n == 0
    decreases n
  {
    if n < 10 then [DigitChar(n)] else NatDigits(n / 10) + [DigitChar(n % 10)]
  }

  /** The number a string of decimal digits denotes (leading zeros allowed). */
  function DigitsValue(s: string): nat
    requires AllDigits(s)
  {
    if s == [] then 0
    else DigitsValue(s[..|s| - 1]) * 10 + (s[|s| - 1] as int - '0' as int)
  }

  lemma {:induction false} DigitsRoundTrip(n: nat)
    ensures DigitsValue(NatDigits(n)) == n
    decreases n
  {
    if n >= 10 {
      var s := NatDigits(n);
      assert s[..|s| - 1] == NatDigits(n / 10);
      DigitsRoundTrip(n / 10);
    }
  }

  /** strconv.Itoa. */
  function Itoa(n: int): string {
    if n < 0 then "-" + NatDigits(-n) else NatDigits(n)
  }

  /** strconv.Atoi on a 64-bit platform: an optional sign, then one or more
      decimal digits, and a value that fits in an int64; anything else is an
      error (None). */
  function Atoi(s: string): (r: Option<int>)
    ensures r.Some? ==> MinInt64 <= r.value <= MaxInt64
  {
    if |s| == 0 then None
    else
      var neg := s[0] == '-';
      var digits := if s[0] == '-' || s[0] == '+' then s[1..] else s;
      if |digits| == 0 || !AllDigits(digits) then None
      else
        var v: int := if neg then 0 - DigitsValue(digits) else DigitsValue(digits);
        if MinInt64 <= v <= MaxInt64 then Some(v) else None
  }

  /** Atoi inverts Itoa on every int64. */
  lemma AtoiItoa(n: int)
    requires MinInt64 <= n <= MaxInt64
    ensures Atoi(Itoa(n)) == Some(n)
  {
    if n < 0 {
      DigitsRoundTrip(-n);
      assert ("-" + NatDigits(-n))[1..] == NatDigits(-n);
    } else {
      DigitsRoundTrip(n);
    }
  }

  lemma NatDigitsInjective(a: nat, b: nat)
    requires NatDigits(a) == NatDigits(b)
    ensures a == b
  {
    DigitsRoundTrip(a);
    DigitsRoundTrip(b);
  }

  /** Go's conversion int64(x): keep the low 64 bits, two's complement. */
  function ToInt64(x: int): (r: Int64)
    ensures MinInt64 <= x <= MaxInt64 ==> r == x
    ensures (r - x) % 0x1_0000_0000_0000_0000 == 0
  {
    (x - MinInt64) % 0x1_0000_0000_0000_0000 + MinInt64
  }

  /** Go's conversion int32(x): keep the low 32 bits, two's complement. */
  function ToInt32(x: int): (r: Int32)
    ensures MinInt32 <= x <= MaxInt32 ==> r == x
    ensures (r - x) % 0x1_0000_0000 == 0
  {
    (x - MinInt32) % 0x1_0000_0000 + MinInt32
  }

  /** sub occurs in s starting at index i. */
  predicate OccursAt(s: string, sub: string, i: int) {
    0 <= i <= |s| - |sub| && s[i..i + |sub|] == sub
  }

  /** strings.Contains(s, sub). */
  predicate Contains(s: string, sub: string) {
    exists i | 0 <= i <= |s| - |sub| :: OccursAt(s, sub, i)
  }

  lemma ContainsExtend(s: string, t: string, sub: string)
    requires Contains(s, sub)
    ensures Contains(s + t, sub)
  {
    var i: int :| 0 <= i <= |s| - |sub| && OccursAt(s, sub, i);
    assert (s + t)[i..i + |sub|] == s[i..i + |sub|];
    assert OccursAt(s + t, sub, i);
  }

  /** strings.Split(s, string(sep)): the pieces between occurrences of sep,
      so that Split("", ',') == [""] and Split("a,b,", ',') == ["a", "b", ""]. */
  function Split(s: string, sep: char): (r: seq<string>)
    ensures |r| > 0
  {
    if s == [] then [""]
    else
      var rest := Split(s[1..], sep);
      if s[0] == sep then [""] + rest else [[s[0]] + rest[0]] + rest[1..]
  }

  /** Joining the pieces of Split with the separator gives back the string. */
  lemma {:induction false} SplitJoin(s: string, sep: char)
    ensures Join(Split(s, sep), sep) == s
  {
    if s != [] {
      var rest := Split(s[1..], sep);
      SplitJoin(s[1..], sep);
      if s[0] != sep {
        assert Join([[s[0]] + rest[0]] + rest[1..], sep)
            == [s[0]] + Join(rest, sep);
      }
    }
  }

  /** strings.Join(pieces, string(sep)). */
  function Join(pieces: seq<string>, sep: char): string {
    if |pieces| == 0 then ""
    else if |pieces| == 1 then pieces[0]
    else pieces[0] + [sep] + Join(pieces[1..], sep)
  }

  /** No piece of a split contains the separator. */
  lemma {:induction false} SplitPiecesFree(s: string, sep: char)
    ensures forall p :: p in Split(s, sep) ==> sep !in p
  {
    if s != [] {
      SplitPiecesFree(s[1..], sep);
    }
  }

  /** The keys of `order`, each followed by a comma: the string the
      provider builds with `keys += key + ","`. */
  function Terminated(order: seq<string>): string {
    if order == [] then "" else Terminated(order[..|order| - 1]) + order[|order| - 1] + ","
  }

  /** Every key written into a comma-terminated list is found in it by
      the substring test `strings.Contains(list, key + ",")`. */
  lemma {:induction false} TerminatedContains(order: seq<string>, k: string)
    requires k in order
    ensures Contains(Terminated(order), k + ",")
  {
    var n := |order| - 1;
    var front := Terminated(order[..n]);
    assert Terminated(order) == front + (order[n] + ",");
    if order[n] == k {
      var t := Terminated(order);
      assert t[|front|..|front| + |k + ","|] == k + ",";
      assert OccursAt(t, k + ",", |front|);
    } else {
      assert k in order[..n];
      TerminatedContains(order[..n], k);
      ContainsExtend(front, order[n] + ",", k + ",");
    }
  }

  /** Splitting a comma-terminated list of comma-free keys gives the keys
      back, followed by the empty piece after the last comma. */
  lemma {:induction false} SplitTerminated(order: seq<string>)
    requires forall k :: k in order ==> ',' !in k
    ensures Split(Terminated(order), ',') == order + [""]
    decreases |order|
  {
    if order != [] {
      SplitPrefix(order[0], Terminated(order[1..]));
      TerminatedCons(order);
      SplitTerminated(order[1..]);
      assert [order[0]] + (order[1..] + [""]) == order + [""];
    }
  }

  lemma {:induction false} TerminatedCons(order: seq<string>)
    requires order != []
    ensures Terminated(order) == order[0] + "," + Terminated(order[1..])
    decreases |order|
  {
    var n := |order| - 1;
    if n > 0 {
      TerminatedCons(order[..n]);
      assert order[..n][1..] == order[1..][..n - 1];
      assert order[..n][0] == order[0];
    } else {
      assert order[1..] == [];
    }
  }

  lemma {:induction false} SplitPrefix(k: string, rest: string)
    requires ',' !in k
    ensures Split(k + "," + rest, ',') == [k] + Split(rest, ',')
    decreases |k|
  {
    if k == [] {
      assert k + "," + rest == [','] + rest;
      assert ([','] + rest)[1..] == rest;
    } else {
      var s := k + "," + rest;
      assert s[1..] == k[1..] + "," + rest;
      SplitPrefix(k[1..], rest);
      assert [s[0]] + k[1..] == k;
    }
  }
}
