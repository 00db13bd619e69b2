/** Small value helpers shared by the session model, the server and the client API. */
module Util {

  /** A value that may be absent (`undefined` / `null` in the game's scripts). */
  datatype Option<T> = None | Some(value: T) {
    function GetOr(default: T): T {
      match this
      case Some(v) => v
      case None => default
    }
  }

  function Min(a: int, b: int): (r: int)
    ensures r <= a && r <= b && (r == a || r == b)
  {
    if a <= b then a else b
  }

  function Max(a: int, b: int): (r: int)
    ensures r >= a && r >= b && (r == a || r == b)
  {
    if a >= b then a else b
  }

  /** A string that a script treats as true: present and not empty. */
  predicate Truthy(s: Option<string>) {
    s.Some? && s.value != ""
  }

  predicate IsDigit(c: char) {
    '0' <= c <= '9'
  }

  /** Decimal rendering of a natural number, as a template literal prints it. */
  function NatToString(n: nat): (s: string)
    ensures |s| > 0
    ensures forall i :: 0 <= i < |s| ==> IsDigit(s[i])
    decreases n
  {
    var d := ['0' + ((n % 10) as char)];
    assert IsDigit(d[0]);
    if n < 10 then d else NatToString(n / 10) + d
  }

  /** The number a string of decimal digits denotes (the inverse of `NatToString`). */
  function ParseDecimal(s: string): int
    decreases |s|
  {
    if |s| == 0 then 0 else ParseDecimal(s[..|s| - 1]) * 10 + (s[|s| - 1] as int - '0' as int)
  }

  /** Reading a rendered number back gives the number. */
  lemma {:induction false} ParseNatToString(n: nat)
    ensures ParseDecimal(NatToString(n)) == n
    decreases n
  {
    var d := ['0' + ((n % 10) as char)];
    assert d[0] as int - '0' as int == n % 10;
    if n < 10 {
      assert d[..0] == [];
    } else {
      var s := NatToString(n / 10) + d;
      assert s[..|s| - 1] == NatToString(n / 10);
      ParseNatToString(n / 10);
    }
  }

  /** The characters after the last `-` of a string (all of it when it has none). */
  function AfterLastDash(u: string): (r: string)
    ensures |r| <= |u| && r == u[|u| - |r|..]
    decreases |u|
  {
    if |u| == 0 then u
    else if u[|u| - 1] == '-' then []
    else AfterLastDash(u[..|u| - 1]) + [u[|u| - 1]]
  }

  /** The number a string ends with after its last dash, such as the counter of a uid. */
  function NumberAfterLastDash(s: string): int {
    ParseDecimal(AfterLastDash(s))
  }

  /** A string ending in a dash and a run of digits gives back exactly those digits. */
  lemma {:induction false} AfterLastDashOfDigits(a: string, x: string)
    requires forall i :: 0 <= i < |x| ==> IsDigit(x[i])
    ensures AfterLastDash(a + "-" + x) == x
    decreases |x|
  {
    var u := a + "-" + x;
    if |x| == 0 {
      assert u[|u| - 1] == '-';
    } else {
      var x' := x[..|x| - 1];
      assert u[..|u| - 1] == a + "-" + x';
      assert u[|u| - 1] == x[|x| - 1];
      AfterLastDashOfDigits(a, x');
      assert x' + [x[|x| - 1]] == x;
    }
  }

  /** The effect of `list.length = n` when the list is longer than n. */
  function Truncate<T>(s: seq<T>, n: nat): (r: seq<T>)
    ensures |r| == Min(|s|, n)
    ensures r == s[..|r|]
  {
    if |s| > n then s[..n] else s
  }
}
