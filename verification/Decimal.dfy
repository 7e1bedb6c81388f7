/** strconv.Atoi and the "%d" verb, between which a metric's value travels as a string. */
module Decimal {
  import opened Types

  const MAX_INT := 0x7fff_ffff_ffff_ffff

  predicate IsDigit(c: char) {
    '0' <= c <= '9'
  }

  function Value(c: char): nat
    requires IsDigit(c)
  {
    c as int - '0' as int
  }

  function Digit(d: nat): char
    requires d < 10
  {
    ['0', '1', '2', '3', '4', '5', '6', '7', '8', '9'][d]
  }

  function ParseDigits(s: string): Option<nat> {
    if s == [] then Some(0)
    else
      var last := s[|s| - 1];
      var front := ParseDigits(s[..|s| - 1]);
      if front.Some? && IsDigit(last) then Some(10 * front.value + Value(last)) else None
  }

  /** Fails on an empty string, a lone sign, any other character and on int64 overflow. */
  function Atoi(s: string): Option<int> {
    var signed := s != [] && (s[0] == '-' || s[0] == '+');
    var digits := if signed then s[1..] else s;
    var parsed := ParseDigits(digits);
    if digits == [] || parsed.None? then None
    else
      var n: int := parsed.value;
      if s[0] == '-' then if n <= MAX_INT + 1 then Some(-n) else None
      else if n <= MAX_INT then Some(n) else None
  }

  function Itoa(n: nat): (s: string)
    ensures s != [] && forall i :: 0 <= i < |s| ==> IsDigit(s[i])
  {
    if n < 10 then [Digit(n)] else Itoa(n / 10) + [Digit(n % 10)]
  }

  lemma {:induction false} ParseItoa(n: nat)
    ensures ParseDigits(Itoa(n)) == Some(n)
  {
    if n < 10 {
      assert Itoa(n)[..0] == [];
    } else {
      ParseItoa(n / 10);
      assert Itoa(n)[..|Itoa(n)| - 1] == Itoa(n / 10);
    }
  }

  lemma {:induction false} OnlyDigits(s: string)
    ensures ParseDigits(s).Some? <==> forall i :: 0 <= i < |s| ==> '0' <= s[i] <= '9'
  {
    if s != [] {
      OnlyDigits(s[..|s| - 1]);
    }
  }

  /** Signs. */
  lemma AtoiSigned(n: nat)
    requires n <= MAX_INT
    ensures Atoi("+" + Itoa(n)) == Some(n)
    ensures var minus := Atoi("-" + Itoa(n)); minus.Some? && minus.value == -(n as int)
  {
    ParseItoa(n);
    assert ("+" + Itoa(n))[1..] == Itoa(n) && ("-" + Itoa(n))[1..] == Itoa(n);
  }

  /** Anything but digits after an optional sign is an error. */
  lemma AtoiFails(s: string)
    ensures s == "" || s == "-" || s == "+" ==> Atoi(s).None?
    ensures s != "" && (exists i :: 1 <= i < |s| && !('0' <= s[i] <= '9')) ==> Atoi(s).None?
    ensures s != "" && !('0' <= s[0] <= '9') && s[0] != '-' && s[0] != '+' ==> Atoi(s).None?
  {
    OnlyDigits(s);
    if s != "" {
      OnlyDigits(s[1..]);
      if i :| 1 <= i < |s| && !('0' <= s[i] <= '9') {
        assert s[1..][i - 1] == s[i];
      }
    }
  }

  /** The pin count an informer prints is the number the allocator reads. */
  lemma AtoiItoa(n: nat)
    requires n <= MAX_INT
    ensures Atoi(Itoa(n)) == Some(n)
  {
    ParseItoa(n);
    assert IsDigit(Itoa(n)[0]);
  }
}
