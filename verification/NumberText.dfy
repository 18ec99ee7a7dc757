/** Numbers as the contracts exchange them: text that is parsed on the way in and
    formatted on the way out. Amounts are counted in whole units, so sums are exact.
    A contract may be given any reading of numbers that reads back what it wrote. */
module NumberText {
  import opened Wrappers
  import opened CompositeKeys

  datatype Codec = Codec(parse: string -> Option<int>, format: int -> string)

  ghost predicate Lawful(c: Codec) {
    && c.parse("") == None
    && (forall x :: c.parse(c.format(x)) == Some(x))
    && (forall x :: ValidAttribute(c.format(x)))
  }

  type Numerals = c: Codec | Lawful(c) witness DecimalCodec()

  const DIGITS := "0123456789"

  function FormatNat(n: nat): (s: string)
    ensures s != "" && forall i :: 0 <= i < |s| ==> s[i] in DIGITS
    ensures ParseNat(s) == Some(n)
  {
    if n < 10 then [DIGITS[n]] else FormatNat(n / 10) + [DIGITS[n % 10]]
  }

  function ParseNat(s: string): Option<int> {
    if s == "" then None
    else
      var n := |s| - 1;
      if s[n] !in DIGITS then None
      else
        var digit := s[n] as int - '0' as int;
        if n == 0 then Some(digit)
        else
          match ParseNat(s[..n])
          case None => None
          case Some(high) => Some(10 * high + digit)
  }

  function Format(x: int): string {
    if x < 0 then "-" + FormatNat(-x) else FormatNat(x)
  }

  function Parse(s: string): Option<int> {
    if s != "" && s[0] == '-' then
      match ParseNat(s[1..])
      case None => None
      case Some(n) => Some(-n)
    else
      ParseNat(s)
  }

  /** Plain decimal text is one lawful reading. */
  function DecimalCodec(): (c: Codec)
    ensures Lawful(c)
  {
    var c := Codec(Parse, Format);
    assert Lawful(c) by { DecimalIsLawful(); }
    c
  }

  lemma {:induction false} DecimalIsLawful()
    ensures Lawful(Codec(Parse, Format))
  {
    forall x: int
      ensures Parse(Format(x)) == Some(x) && ValidAttribute(Format(x))
    {
      if x < 0 {
        assert Format(x)[1..] == FormatNat(-x);
      }
    }
  }
}
