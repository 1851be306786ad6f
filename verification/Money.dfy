/** Exact decimal-to-atomic parsing (crates/domain/src/money.rs:28-99, asset.rs:13-33). */
module Money {
  import opened Sequences
  import opened Amounts

  /** Decimal places between display and atomic units. */
  type AssetScale = n: nat | n <= 18

  /** Unicode `White_Space`, which `str::trim` strips. */
  predicate IsSpace(c: char) {
    var n := c as int;
    || 0x9 <= n <= 0xD || n == 0x20 || n == 0x85 || n == 0xA0 || n == 0x1680
    || 0x2000 <= n <= 0x200A || n == 0x2028 || n == 0x2029 || n == 0x202F || n == 0x205F || n == 0x3000
  }

  predicate IsDigit(c: char) { '0' <= c <= '9' }

  predicate Spaces(s: string) { forall i :: 0 <= i < |s| ==> IsSpace(s[i]) }
  predicate Digits(s: string) { forall i :: 0 <= i < |s| ==> IsDigit(s[i]) }

  function Numeral(s: string): nat
    requires Digits(s)
  {
    if s == [] then 0 else 10 * Numeral(s[..|s| - 1]) + (s[|s| - 1] as int - '0' as int)
  }

  function Pow10(n: nat): (r: nat)
    ensures r >= 1
  {
    if n == 0 then 1 else 10 * Pow10(n - 1)
  }

  /** `n` followed by `k` zeros. */
  function Shift(n: nat, k: nat): nat { n * Pow10(k) }

  // ---- the grammar, independently of the parser -----------------------------

  datatype Sign = Bare | Plus | Minus

  function Prefix(sign: Sign): string {
    match sign case Bare => "" case Plus => "+" case Minus => "-"
  }

  datatype Decimal = Decimal(lead: string, sign: Sign, whole: string, point: bool, frac: string, trail: string) {
    predicate Valid(scale: AssetScale) {
      && Spaces(lead) && Spaces(trail)
      && whole != "" && Digits(whole) && Digits(frac)
      && |frac| <= scale && (!point ==> frac == "")
    }

    function Body(): string { whole + if point then "." + frac else "" }
    function Core(): string { Prefix(sign) + Body() }
    function Text(): string { lead + Core() + trail }

    function Magnitude(scale: AssetScale): int
      requires Valid(scale)
    {
      Shift(Numeral(whole), scale) + Shift(Numeral(frac), scale - |frac|)
    }

    function Value(scale: AssetScale): int
      requires Valid(scale)
    {
      if sign == Minus then 0 - Magnitude(scale) else Magnitude(scale)
    }
  }

  // ---- the steps of the parser ----------------------------------------------

  function Leading(s: string): (n: nat)
    ensures n <= |s| && (forall i :: 0 <= i < n ==> IsSpace(s[i])) && (n < |s| ==> !IsSpace(s[n]))
  {
    if s == "" || !IsSpace(s[0]) then 0 else 1 + Leading(s[1..])
  }

  /** Length without trailing white space. */
  function Trailing(s: string): (n: nat)
    ensures n <= |s| && (forall i :: n <= i < |s| ==> IsSpace(s[i])) && (n > 0 ==> !IsSpace(s[n - 1]))
  {
    if s == "" || !IsSpace(s[|s| - 1]) then |s| else Trailing(s[..|s| - 1])
  }

  function Trim(s: string): string {
    var rest := s[Leading(s)..];
    rest[..Trailing(rest)]
  }

  function IndexOf(s: string, c: char): (n: nat)
    ensures n <= |s| && (forall i :: 0 <= i < n ==> s[i] != c) && (n < |s| ==> s[n] == c)
  {
    if s == "" || s[0] == c then 0 else 1 + IndexOf(s[1..], c)
  }

  function SignOf(t: string): Sign {
    if t != "" && t[0] == '-' then Minus else if t != "" && t[0] == '+' then Plus else Bare
  }

  function Unsigned(t: string): string {
    if SignOf(t) == Bare then t else t[1..]
  }

  /** The decimal a trimmed text spells, if it spells one. */
  function SpelledCore(lead: string, core: string, trail: string, scale: AssetScale): Option<Decimal> {
    var body := Unsigned(core);
    var at := IndexOf(body, '.');
    var point := at < |body|;
    var d := Decimal(lead, SignOf(core), body[..at], point, if point then body[at + 1..] else "", trail);
    if d.Valid(scale) then Some(d) else None
  }

  function Spelled(text: string, scale: AssetScale): Option<Decimal> {
    var start := Leading(text);
    SpelledCore(text[..start], Trim(text), text[start..][|Trim(text)|..], scale)
  }

  lemma Cut(s: string, i: nat, c: char)
    requires i < |s| && s[i] == c
    ensures s == s[..i] + ([c] + s[i + 1..])
  {
  }

  lemma CutTwice(s: string, i: nat, n: nat)
    requires i <= |s| && n <= |s| - i
    ensures s == s[..i] + s[i..][..n] + s[i..][n..]
  {
  }

  lemma BodyRenders(body: string)
    ensures var at := IndexOf(body, '.');
            body == body[..at] + if at < |body| then "." + body[at + 1..] else ""
  {
    var at := IndexOf(body, '.');
    if at < |body| { Cut(body, at, '.'); }
  }

  lemma CoreRenders(core: string)
    ensures core == Prefix(SignOf(core)) + Unsigned(core)
  {
    if SignOf(core) != Bare { Cut(core, 0, core[0]); }
  }

  lemma TrimSplits(text: string)
    ensures var start := Leading(text);
            |Trim(text)| <= |text| - start && text == text[..start] + Trim(text) + text[start..][|Trim(text)|..]
  {
    var start := Leading(text);
    CutTwice(text, start, Trailing(text[start..]));
  }

  /** Whatever is spelled renders back to the text. */
  lemma SpelledRenders(text: string, scale: AssetScale)
    ensures var d := Spelled(text, scale);
            d.Some? ==> d.value.Valid(scale) && d.value.Text() == text
  {
    var core := Trim(text);
    TrimSplits(text);
    CoreRenders(core);
    BodyRenders(Unsigned(core));
  }

  lemma LeadingExact(lead: string, rest: string)
    requires Spaces(lead) && rest != "" && !IsSpace(rest[0])
    ensures Leading(lead + rest) == |lead| && (lead + rest)[|lead|..] == rest
  {
    var text := lead + rest;
    assert text[|lead|] == rest[0] && forall i :: 0 <= i < |lead| ==> text[i] == lead[i];
  }

  lemma TrailingExact(core: string, trail: string)
    requires Spaces(trail) && core != "" && !IsSpace(core[|core| - 1])
    ensures Trailing(core + trail) == |core|
  {
    var text, last := core + trail, |core| - 1;
    assert text[last] == core[last] && forall i :: |core| <= i < |text| ==> text[i] == trail[i - |core|];
  }

  lemma TrimExact(lead: string, core: string, trail: string)
    requires Spaces(lead) && Spaces(trail) && core != "" && !IsSpace(core[0]) && !IsSpace(core[|core| - 1])
    ensures var text := lead + core + trail;
            Leading(text) == |lead| && text[|lead|..] == core + trail && Trim(text) == core
  {
    assert lead + core + trail == lead + (core + trail);
    LeadingExact(lead, core + trail);
    TrailingExact(core, trail);
  }

  lemma CoreExact(d: Decimal, scale: AssetScale)
    requires d.Valid(scale)
    ensures d.Core() != "" && !IsSpace(d.Core()[0]) && !IsSpace(d.Core()[|d.Core()| - 1])
    ensures SignOf(d.Core()) == d.sign && Unsigned(d.Core()) == d.Body()
  {
    var tail := if !d.point then d.whole else if d.frac == "" then "." else d.frac;
    var core := d.Core();
    assert IsDigit(d.whole[0]) && d.Body()[0] == d.whole[0];
    assert core[|core| - 1] == tail[|tail| - 1];
    assert tail == "." || IsDigit(tail[|tail| - 1]);
    assert core[|Prefix(d.sign)|..] == d.Body();
  }

  lemma BodyExact(d: Decimal, scale: AssetScale)
    requires d.Valid(scale)
    ensures var at := IndexOf(d.Body(), '.');
            at == |d.whole| && d.Body()[..at] == d.whole && d.point == (at < |d.Body()|)
    ensures d.point ==> d.Body()[|d.whole| + 1..] == d.frac
  {
    var body := d.Body();
    assert forall i :: 0 <= i < |d.whole| ==> body[i] == d.whole[i] && IsDigit(d.whole[i]);
    assert d.point ==> body[|d.whole|] == '.';
  }

  lemma SpelledCoreExact(d: Decimal, scale: AssetScale)
    requires d.Valid(scale)
    ensures SpelledCore(d.lead, d.Core(), d.trail, scale) == Some(d)
  {
    CoreExact(d, scale);
    BodyExact(d, scale);
  }

  /** Every valid decimal is spelled by its own text, and by it alone. */
  lemma SpelledIsUnique(d: Decimal, scale: AssetScale)
    requires d.Valid(scale)
    ensures Spelled(d.Text(), scale) == Some(d)
  {
    var lead, core, trail := d.lead, d.Core(), d.trail;
    CoreExact(d, scale);
    SpelledCoreExact(d, scale);
    TrimExact(lead, core, trail);
    TextParts(lead, core, trail);
  }

  lemma TextParts(lead: string, core: string, trail: string)
    ensures (lead + core + trail)[..|lead|] == lead && (core + trail)[|core|..] == trail
  {
    assert lead + core + trail == lead + (core + trail);
  }

  // ---- arithmetic -----------------------------------------------------------

  lemma {:induction false} NumeralBound(s: string)
    requires Digits(s)
    ensures Numeral(s) < Pow10(|s|)
  {
    if s != "" { NumeralBound(s[..|s| - 1]); }
  }

  lemma {:induction false} Pow10Monotone(a: nat, b: nat)
    requires a <= b
    ensures Pow10(a) <= Pow10(b)
  {
    if a < b { Pow10Monotone(a, b - 1); }
  }

  lemma Pow10Fits(scale: AssetScale)
    ensures Pow10(scale) <= 1_000_000_000_000_000_000
  {
    Pow10Monotone(scale, 18);
    assert Pow10(3) == 1_000;
    assert Pow10(6) == 1_000_000;
    assert Pow10(9) == 1_000_000_000;
    assert Pow10(12) == 1_000_000_000_000;
    assert Pow10(15) == 1_000_000_000_000_000;
  }

  lemma ShiftStep(n: nat, k: nat)
    ensures Shift(n, k + 1) == 10 * Shift(n, k)
    ensures Shift(10 * n, k) == 10 * Shift(n, k)
  {
    var p := Pow10(k);
    assert n * (10 * p) == 10 * (n * p);
    assert (10 * n) * p == 10 * (n * p);
  }

  lemma ShiftGrows(n: nat, k: nat)
    ensures Shift(n, k) >= n
  {
    if n > 0 { assert n * Pow10(k) >= n * 1; }
  }

  /** A zero written after a numeral. */
  lemma NumeralZero(s: string)
    requires Digits(s)
    ensures Digits(s + "0") && Numeral(s + "0") == 10 * Numeral(s)
  {
    var t := s + "0";
    assert t[..|t| - 1] == s;
  }

  /** Rust's `i128::from_str` on a string of digits. */
  function ParseI128(s: string): Result<Amount, DomainError>
    requires Digits(s)
  {
    if Numeral(s) <= I128_MAX then Ok(Numeral(s)) else Err(AmountOverflow)
  }

  /** Pad the fraction to `scale` digits; padding scales its value. */
  method PadFraction(frac: string, scale: AssetScale) returns (padded: string)
    requires Digits(frac) && |frac| <= scale
    ensures Digits(padded) && |padded| == scale && Numeral(padded) == Shift(Numeral(frac), scale - |frac|)
  {
    padded := frac;
    while |padded| < scale
      invariant |frac| <= |padded| <= scale && Digits(padded)
      invariant Numeral(padded) == Shift(Numeral(frac), |padded| - |frac|)
    {
      NumeralZero(padded);
      ShiftStep(Numeral(frac), |padded| - |frac|);
      padded := padded + "0";
    }
  }

  /** Exact scaled value of a spelled decimal, or overflow. */
  method Convert(d: Decimal, scale: AssetScale) returns (r: Result<Amount, DomainError>)
    requires d.Valid(scale)
    ensures d.Magnitude(scale) <= I128_MAX ==> r.Ok? && r.value == d.Value(scale)
    ensures d.Magnitude(scale) > I128_MAX ==> r == Err(AmountOverflow)
  {
    ShiftGrows(Numeral(d.whole), scale);
    var whole := ParseI128(d.whole);
    if whole.Err? { return Err(whole.error); }
    var units := Shift(whole.value, scale);
    if units > I128_MAX { return Err(AmountOverflow); }
    var padded := PadFraction(d.frac, scale);
    NumeralBound(padded);
    Pow10Fits(scale);
    var frac := if padded == "" then Ok(0) else ParseI128(padded);
    if frac.Err? { return Err(frac.error); }
    var sum := CheckedAdd(units, frac.value);
    if sum.Err? { return Err(sum.error); }
    if d.sign == Minus {
      r := CheckedNeg(sum.value);
    } else {
      r := sum;
    }
  }

  /** The checks of `parse_decimal` in order, against the decimal the text spells. */
  method ParseSpelled(scale: AssetScale, text: string) returns (r: Result<Amount, DomainError>)
    ensures match Spelled(text, scale)
            case Some(d) =>
              && d.Valid(scale)
              && if d.Magnitude(scale) <= I128_MAX then r.Ok? && r.value == d.Value(scale) else r == Err(AmountOverflow)
            case None => r == Err(InvalidMoneyFormat)
  {
    ghost var spelled := Spelled(text, scale);
    var core := Trim(text);
    if core == "" { return Err(InvalidMoneyFormat); }
    var sign, body := SignOf(core), Unsigned(core);
    if body == "" || exists i :: 0 <= i < |body| && !IsDigit(body[i]) && body[i] != '.' {
      assert spelled.None? by { if spelled.Some? { BodyShape(text, scale); } }
      return Err(InvalidMoneyFormat);
    }
    var at := IndexOf(body, '.');
    var whole := body[..at];
    var frac := if at < |body| then body[at + 1..] else "";
    if whole == "" || !Digits(whole) { return Err(InvalidMoneyFormat); }
    if !Digits(frac) { return Err(InvalidMoneyFormat); }
    if |frac| > scale { return Err(InvalidMoneyFormat); }
    var start := Leading(text);
    var d := Decimal(text[..start], sign, whole, at < |body|, frac, text[start..][|core|..]);
    LeadIsSpace(text);
    assert d.Valid(scale) && spelled == Some(d);
    r := Convert(d, scale);
  }

  lemma LeadIsSpace(text: string)
    ensures var start := Leading(text);
            |Trim(text)| <= |text| - start && Spaces(text[..start]) && Spaces(text[start..][|Trim(text)|..])
  {
  }

  /** Spelling decides between all decimals at once. */
  lemma SpelledExactly(text: string, scale: AssetScale)
    ensures Spelled(text, scale).Some? ==>
              Spelled(text, scale).value.Valid(scale) && Spelled(text, scale).value.Text() == text
    ensures forall d: Decimal :: d.Valid(scale) && d.Text() == text ==> Spelled(text, scale) == Some(d)
  {
    SpelledRenders(text, scale);
    forall d: Decimal | d.Valid(scale) && d.Text() == text ensures Spelled(text, scale) == Some(d) {
      SpelledIsUnique(d, scale);
    }
  }

  lemma ValueFits(d: Decimal, scale: AssetScale)
    requires d.Valid(scale) && d.Magnitude(scale) <= I128_MAX
    ensures d.Value(scale) != I128_MIN
  {
  }

  /** `parse_decimal` is exact: a text that spells a valid decimal gives its scaled value,
      or overflow beyond `i128::MAX`; every other text is a format error. */
  method ParseDecimal(scale: AssetScale, text: string) returns (r: Result<Amount, DomainError>)
    ensures forall d: Decimal :: d.Valid(scale) && d.Text() == text ==>
              if d.Magnitude(scale) <= I128_MAX then r.Ok? && r.value == d.Value(scale) else r == Err(AmountOverflow)
    ensures r.Ok? ==> exists d: Decimal :: d.Valid(scale) && d.Text() == text
    ensures (!exists d: Decimal :: d.Valid(scale) && d.Text() == text) ==> r == Err(InvalidMoneyFormat)
    ensures r.Ok? ==> r.value != I128_MIN
  {
    r := ParseSpelled(scale, text);
    SpelledExactly(text, scale);
    if r.Ok? { ValueFits(Spelled(text, scale).value, scale); }
  }

  /** A spelled text has only digits and points in its body. */
  lemma BodyShape(text: string, scale: AssetScale)
    requires Spelled(text, scale).Some?
    ensures var body := Unsigned(Trim(text));
            body != "" && forall i :: 0 <= i < |body| ==> IsDigit(body[i]) || body[i] == '.'
  {
    var body := Unsigned(Trim(text));
    var at := IndexOf(body, '.');
    var d := Spelled(text, scale).value;
    forall i | 0 <= i < |body| ensures IsDigit(body[i]) || body[i] == '.' {
      if i < at { assert d.whole[i] == body[i]; }
      else if i > at { assert d.frac[i - at - 1] == body[i]; }
    }
  }

  /** Trailing fractional zeros within the scale do not change the value. */
  lemma TrailingZeroIsNeutral(d: Decimal, scale: AssetScale)
    requires d.Valid(scale) && |d.frac| < scale
    ensures var d' := d.(point := true, frac := d.frac + "0");
            d'.Valid(scale) && d'.Value(scale) == d.Value(scale)
  {
    NumeralZero(d.frac);
    ShiftStep(Numeral(d.frac), scale - |d.frac| - 1);
  }

  // ---- printing -------------------------------------------------------------

  function Digit(d: nat): (c: char)
    requires d < 10
  {
    "0123456789"[d]
  }

  lemma DigitValue(d: nat)
    requires d < 10
    ensures IsDigit(Digit(d)) && Digit(d) as int - '0' as int == d
  {
    assert "0123456789"[d] == ['0', '1', '2', '3', '4', '5', '6', '7', '8', '9'][d];
  }

  /** A number in decimal without leading zeros. */
  function Printed(n: nat): string {
    if n < 10 then [Digit(n)] else Printed(n / 10) + [Digit(n % 10)]
  }

  /** The last `k` decimal digits of a number. */
  function LastDigits(n: nat, k: nat): string {
    if k == 0 then "" else LastDigits(n / 10, k - 1) + [Digit(n % 10)]
  }

  lemma NumeralDigit(s: string, d: nat)
    requires Digits(s) && d < 10
    ensures Digits(s + [Digit(d)]) && Numeral(s + [Digit(d)]) == 10 * Numeral(s) + d
  {
    DigitValue(d);
    SnocInit(s, Digit(d));
  }

  /** Reading what was printed gives the number back. */
  lemma {:induction false} NumeralPrinted(n: nat)
    ensures Printed(n) != "" && Digits(Printed(n)) && Numeral(Printed(n)) == n
  {
    if n < 10 {
      NumeralDigit("", n);
      assert "" + [Digit(n)] == [Digit(n)];
    } else {
      NumeralPrinted(n / 10);
      NumeralDigit(Printed(n / 10), n % 10);
    }
  }

  lemma {:induction false} NumeralLastDigits(n: nat, k: nat)
    requires n < Pow10(k)
    ensures |LastDigits(n, k)| == k && Digits(LastDigits(n, k)) && Numeral(LastDigits(n, k)) == n
  {
    if k > 0 {
      NumeralLastDigits(n / 10, k - 1);
      NumeralDigit(LastDigits(n / 10, k - 1), n % 10);
    }
  }

  /** And printing what was read gives the digits back, leading zeros included. */
  lemma {:induction false} DigitsOfNumeral(s: string)
    requires Digits(s)
    ensures LastDigits(Numeral(s), |s|) == s
  {
    if s != "" {
      var n := |s| - 1;
      var d := s[n] as int - '0' as int;
      DigitsOfNumeral(s[..n]);
      DigitValue(d);
      assert Digit(d) as int == s[n] as int;
      InitLast(s);
      assert Numeral(s) / 10 == Numeral(s[..n]) && Numeral(s) % 10 == d;
    }
  }

  function Abs(a: int): nat { if a < 0 then 0 - a else a }

  function Whole(m: nat, p: nat): nat
    requires p > 0
  {
    m / p
  }

  function Rest(m: nat, p: nat): nat
    requires p > 0
  {
    m % p
  }

  lemma WholeAndRest(m: nat, p: nat)
    requires p > 0
    ensures m == Whole(m, p) * p + Rest(m, p) && Rest(m, p) < p
  {
  }

  /** An amount as people write it: the whole units, a point, and `scale` further digits. */
  function Display(a: int, scale: AssetScale, plus: bool): string {
    var whole := Printed(Whole(Abs(a), Pow10(scale)));
    (if a < 0 then "-" else if plus then "+" else "")
    + whole + if scale == 0 then "" else "." + LastDigits(Rest(Abs(a), Pow10(scale)), scale)
  }

  function DisplayedAs(a: int, scale: AssetScale, plus: bool, lead: string, trail: string): Decimal {
    Decimal(lead, if a < 0 then Minus else if plus then Plus else Bare,
            Printed(Whole(Abs(a), Pow10(scale))), scale > 0,
            if scale == 0 then "" else LastDigits(Rest(Abs(a), Pow10(scale)), scale), trail)
  }

  lemma DisplayIsText(a: int, scale: AssetScale, plus: bool, lead: string, trail: string)
    ensures DisplayedAs(a, scale, plus, lead, trail).Text() == lead + Display(a, scale, plus) + trail
  {
    var d := DisplayedAs(a, scale, plus, lead, trail);
    assert d.Core() == Display(a, scale, plus);
  }

  lemma DisplayValue(a: int, scale: AssetScale, plus: bool, lead: string, trail: string)
    requires Spaces(lead) && Spaces(trail)
    ensures var d := DisplayedAs(a, scale, plus, lead, trail);
            d.Valid(scale) && d.Magnitude(scale) == Abs(a) && d.Value(scale) == a
  {
    var m, p := Abs(a), Pow10(scale);
    WholeAndRest(m, p);
    NumeralPrinted(Whole(m, p));
    NumeralLastDigits(Rest(m, p), scale);
  }

  /** Round trip: an amount written out at its scale, with any white space around it, parses
      back to that amount. `i128::MIN` alone is refused: its magnitude does not fit. */
  method ParseDisplayed(a: Amount, scale: AssetScale, plus: bool, lead: string, trail: string)
    returns (r: Result<Amount, DomainError>)
    requires Spaces(lead) && Spaces(trail)
    ensures r == if a == I128_MIN then Err(AmountOverflow) else Ok(a)
  {
    DisplayIsText(a, scale, plus, lead, trail);
    DisplayValue(a, scale, plus, lead, trail);
    r := ParseDecimal(scale, lead + Display(a, scale, plus) + trail);
  }
}
