/** The JavaScript value semantics the core relies on: truthiness, `??`, `||`,
    `response.ok` and the decimal rendering of an integer Number. */
module Values {
  import opened Wrappers

  /** Milliseconds in a minute, an hour and a day. */
  const MsPerMinute: int := 60000
  const MsPerHour: int := 3600000
  const MsPerDay: int := 86400000

  /** A string-valued field is truthy when it is present and not "". */
  predicate Truthy(s: Option<string>) {
    s.Some? && s.value != ""
  }

  /** `s || fallback` on a string-valued field: "" counts as absent. */
  function Or(s: Option<string>, fallback: string): (r: string)
    ensures Truthy(s) ==> r == s.value
    ensures !Truthy(s) ==> r == fallback
  {
    if Truthy(s) then s.value else fallback
  }

  /** `Response.ok` of the Fetch API: the status is in the range 200-299. */
  predicate IsOkStatus(status: int) {
    200 <= status <= 299
  }

  function DigitChar(d: nat): (c: char)
    requires d < 10
    ensures '0' <= c <= '9'
  {
    ['0', '1', '2', '3', '4', '5', '6', '7', '8', '9'][d]
  }

  /** The decimal digits of a natural number, most significant first. */
  function Digits(n: nat): (r: string)
    ensures |r| > 0
    ensures forall i :: 0 <= i < |r| ==> '0' <= r[i] <= '9'
    decreases n
  {
    if n < 10 then [DigitChar(n)] else Digits(n / 10) + [DigitChar(n % 10)]
  }

  /** String conversion of an integral Number, as in `m + 'm'` or a template literal. */
  function Decimal(n: int): (r: string)
    ensures |r| > 0
    ensures n >= 0 ==> r == Digits(n)
    ensures n < 0 ==> r == "-" + Digits(-n)
  {
    if n < 0 then "-" + Digits(-n) else Digits(n)
  }

  lemma DigitCharInjective(a: nat, b: nat)
    requires a < 10 && b < 10 && DigitChar(a) == DigitChar(b)
    ensures a == b
  {
  }

  /** Different numbers have different decimal digits. */
  lemma {:induction false} DigitsInjective(n: nat, m: nat)
    requires Digits(n) == Digits(m)
    ensures n == m
    decreases n
  {
    var d := Digits(n);
    if n >= 10 && m >= 10 {
      assert d[..|d| - 1] == Digits(n / 10) && d[..|d| - 1] == Digits(m / 10);
      DigitsInjective(n / 10, m / 10);
      DigitCharInjective(n % 10, m % 10);
    } else if n < 10 && m < 10 {
      DigitCharInjective(n, m);
    }
  }
}
