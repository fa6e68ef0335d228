/** Reading an amount from a statement, and the ways an amount is printed on one. */
module Amounts {
  import opened Prelude
  import opened Rounding
  import opened Text

  // ----- String primitives -----

  function Remove(s: string, c: char): string {
    if s == "" then "" else (if s[0] == c then "" else [s[0]]) + Remove(s[1..], c)
  }

  function Replace(s: string, c: char, d: char): string {
    seq(|s|, i requires 0 <= i < |s| => if s[i] == c then d else s[i])
  }

  /** -1 when absent. */
  function LastIndex(s: string, c: char): (i: int)
    ensures -1 <= i < |s|
  {
    if s == "" then -1 else if s[|s| - 1] == c then |s| - 1 else LastIndex(s[..|s| - 1], c)
  }

  lemma {:induction false} LastIndexIs(s: string, c: char, i: nat)
    requires i < |s| && s[i] == c && forall k :: i < k < |s| ==> s[k] != c
    ensures LastIndex(s, c) == i
  {
    if i < |s| - 1 { LastIndexIs(s[..|s| - 1], c, i); }
  }

  lemma {:induction false} LastIndexBelow(s: string, c: char, m: nat)
    requires m <= |s| && forall k :: m <= k < |s| ==> s[k] != c
    ensures LastIndex(s, c) < m || LastIndex(s, c) == -1
  {
    if m < |s| { LastIndexBelow(s[..|s| - 1], c, m); }
  }

  // ----- Decimal numbers -----

  predicate IsDigit(c: char) { '0' <= c <= '9' }
  predicate AllDigits(s: string) { forall i :: 0 <= i < |s| ==> IsDigit(s[i]) }
  function DigitValue(c: char): nat
    requires IsDigit(c)
  {
    c as int - '0' as int
  }

  function Number(s: string): nat
    requires AllDigits(s)
  {
    if s == "" then 0 else 10 * Number(s[..|s| - 1]) + DigitValue(s[|s| - 1])
  }

  function Pow10(k: nat): nat { if k == 0 then 1 else 10 * Pow10(k - 1) }

  lemma Pow10Positive(k: nat)
    ensures Pow10(k) > 0
  {}

  /** Digits with at most one point. */
  function ParsePlain(s: string): Option<real> {
    var i := if '.' in s then IndexOf(s, '.') else |s|;
    var whole, fraction := s[..i], if i < |s| then s[i + 1..] else "";
    if AllDigits(whole) && AllDigits(fraction) && whole + fraction != "" then
      Pow10Positive(|fraction|);
      Some(Number(whole + fraction) as real / Pow10(|fraction|) as real)
    else None
  }

  /** strconv.ParseFloat on plain decimals, exactly. */
  function ParseFloat(s: string): Option<real> {
    if s != "" && (s[0] == '-' || s[0] == '+') then
      var v := ParsePlain(s[1..]);
      if v.None? then None else Some(if s[0] == '-' then -v.value else v.value)
    else ParsePlain(s)
  }

  // ----- parseAmount -----

  /** Which of comma and point separates decimals, decided from their order and the digits behind the last comma. */
  function NormalizeSeparators(s: string): string {
    if ',' in s && '.' in s then
      if LastIndex(s, ',') > LastIndex(s, '.') then Replace(Remove(s, '.'), ',', '.') else Remove(s, ',')
    else if ',' in s then
      var behind := |s| - LastIndex(s, ',') - 1;
      if behind == 1 || behind == 2 then Replace(s, ',', '.') else Remove(s, ',')
    else s
  }

  function Clean(s: string): string { Remove(Remove(Trim(s), ' '), '€') }

  predicate Parenthesised(s: string) { |s| >= 2 && s[0] == '(' && s[|s| - 1] == ')' }

  function ParseAmount(text: string): Option<real> { ParseClean(Clean(text)) }

  function ParseClean(s: string): Option<real> {
    if Parenthesised(s) then
      var v := ParseFloat(NormalizeSeparators(s[1..|s| - 1]));
      if v.None? then None else Some(-v.value)
    else ParseFloat(NormalizeSeparators(s))
  }

  // ----- Printing -----

  function DigitChar(d: nat): char
    requires d < 10
  {
    ('0' as int + d) as char
  }

  function Digits(n: nat): (s: string)
    ensures s != "" && AllDigits(s)
  {
    if n < 10 then [DigitChar(n)] else Digits(n / 10) + [DigitChar(n % 10)]
  }

  /** A separator before every group of three digits, from the right. */
  function Group(digits: string, sep: char): string {
    if |digits| <= 3 then digits else Group(digits[..|digits| - 3], sep) + [sep] + digits[|digits| - 3..]
  }

  datatype Locale = European | American
  datatype Minus = Dash | Parentheses

  function PointOf(locale: Locale): char { if locale == European then ',' else '.' }
  function GroupOf(locale: Locale): char { if locale == European then '.' else ',' }

  function Cents(n: nat): (s: string)
    ensures |s| == 2 && AllDigits(s)
  { [DigitChar(n / 10 % 10), DigitChar(n % 10)] }

  function Whole(n: nat, locale: Locale, grouped: bool): string {
    if grouped then Group(Digits(n), GroupOf(locale)) else Digits(n)
  }

  /** `n` cents with two decimals. */
  function Unsigned(n: nat, locale: Locale, grouped: bool): string {
    Whole(n / 100, locale, grouped) + [PointOf(locale)] + Cents(n)
  }

  function Print(cents: int, locale: Locale, grouped: bool, minus: Minus): string {
    if cents >= 0 then Unsigned(cents, locale, grouped)
    else if minus == Dash then ['-'] + Unsigned(-cents, locale, grouped)
    else ['('] + Unsigned(-cents, locale, grouped) + [')']
  }

  // ----- Digits and numbers -----

  lemma {:induction false} NumberOfDigits(n: nat)
    ensures Number(Digits(n)) == n
  {
    if n >= 10 {
      NumberOfDigits(n / 10);
      var s := Digits(n);
      assert s[..|s| - 1] == Digits(n / 10);
    }
  }

  lemma NumberWithCents(n: nat)
    ensures AllDigits(Digits(n / 100) + Cents(n)) && Number(Digits(n / 100) + Cents(n)) == n
  {
    var s := Digits(n / 100) + Cents(n);
    assert s[..|s| - 1] == Digits(n / 100) + [DigitChar(n / 10 % 10)];
    assert s[..|s| - 1][..|s| - 2] == Digits(n / 100);
    NumberOfDigits(n / 100);
  }

  /** Digits, a point and two digits are that many cents. */
  lemma PlainCents(n: nat)
    ensures ParsePlain(Digits(n / 100) + ['.'] + Cents(n)) == Some(Eur(n))
  {
    var whole, cents := Digits(n / 100), Cents(n);
    NumberWithCents(n);
    FirstPoint(whole, cents);
    hide Digits, Number, Cents;
    var s := whole + ['.'] + cents;
    assert s[|whole|] == '.' && s[..|whole|] == whole && s[|whole| + 1..] == cents;
    assert AllDigits(cents) by { assert forall i :: 0 <= i < |cents| ==> (whole + cents)[|whole| + i] == cents[i]; }
    Pow10Two();
  }

  lemma Pow10Two()
    ensures Pow10(2) == 100
  {
    assert Pow10(1) == 10 * Pow10(0);
  }

  lemma {:induction false} FirstPoint(whole: string, rest: string)
    requires AllDigits(whole)
    ensures '.' in whole + ['.'] + rest && IndexOf(whole + ['.'] + rest, '.') == |whole|
  {
    var s := whole + ['.'] + rest;
    assert s[|whole|] == '.';
    if whole != "" {
      assert s[0] == whole[0] && s[1..] == whole[1..] + ['.'] + rest;
      FirstPoint(whole[1..], rest);
    }
  }

  // ----- Separators -----

  lemma {:induction false} RemoveAppend(a: string, b: string, c: char)
    ensures Remove(a + b, c) == Remove(a, c) + Remove(b, c)
  {
    if a == "" {
      assert a + b == b;
    } else {
      assert (a + b)[1..] == a[1..] + b;
      RemoveAppend(a[1..], b, c);
    }
  }

  lemma {:induction false} RemoveAbsent(s: string, c: char)
    requires c !in s
    ensures Remove(s, c) == s
  {
    if s != "" { RemoveAbsent(s[1..], c); }
  }

  lemma {:induction false} Ungroup(digits: string, sep: char)
    requires sep !in digits
    ensures Remove(Group(digits, sep), sep) == digits
  {
    if |digits| <= 3 {
      RemoveAbsent(digits, sep);
    } else {
      var front, back := digits[..|digits| - 3], digits[|digits| - 3..];
      Ungroup(front, sep);
      hide Remove;
      RemoveAppend(Group(front, sep) + [sep], back, sep);
      RemoveAppend(Group(front, sep), [sep], sep);
      RemoveAbsent(back, sep);
      RemoveOne(sep);
      assert digits == front + [] + back;
    }
  }

  lemma RemoveOne(c: char)
    ensures Remove([c], c) == []
  {}

  /** Digits and separators, and nothing else. */
  predicate GroupedDigits(s: string, sep: char) { forall i :: 0 <= i < |s| ==> IsDigit(s[i]) || s[i] == sep }

  lemma {:induction false} GroupChars(digits: string, sep: char)
    requires AllDigits(digits)
    ensures GroupedDigits(Group(digits, sep), sep)
  {
    if |digits| > 3 { GroupChars(digits[..|digits| - 3], sep); }
  }

  /** The whole part in any form: digits and group separators only, and the digits once those are gone. */
  lemma WholeForm(n: nat, locale: Locale, grouped: bool)
    ensures var w := Whole(n, locale, grouped);
      w != "" && Remove(w, GroupOf(locale)) == Digits(n) && GroupedDigits(w, GroupOf(locale))
  {
    hide Remove, Digits, Group;
    var digits, sep := Digits(n), GroupOf(locale);
    assert AllDigits(digits) && sep !in digits;
    Ungroup(digits, sep);
    GroupChars(digits, sep);
    FirstOfGroup(digits, sep);
    RemoveAbsent(digits, sep);
  }

  lemma LastOfSuffix(a: string, c: char, b: string)
    requires c !in b
    ensures LastIndex(a + [c] + b, c) == |a|
  {
    LastIndexIs(a + [c] + b, c, |a|);
  }

  lemma ReplaceOnly(a: string, b: string)
    requires ',' !in a && ',' !in b
    ensures Replace(a + [','] + b, ',', '.') == a + ['.'] + b
  {}

  lemma RemoveAround(a: string, c: char, b: string, gone: char)
    requires c != gone && gone !in b
    ensures Remove(a + [c] + b, gone) == Remove(a, gone) + [c] + b
  {
    RemoveAppend(a + [c], b, gone);
    RemoveAppend(a, [c], gone);
    RemoveAbsent(b, gone);
    RemoveAbsent([c], gone);
  }

  lemma {:induction false} RemoveAddsNothing(s: string, c: char, d: char)
    requires d !in s
    ensures d !in Remove(s, c)
  {
    if s != "" { RemoveAddsNothing(s[1..], c, d); }
  }

  /** A decimal comma before two digits, points only before it. */
  lemma EuropeanCents(head: string, cents: string)
    requires ',' !in head && ',' !in cents && '.' !in cents && |cents| == 2
    ensures NormalizeSeparators(head + [','] + cents) == Remove(head, '.') + ['.'] + cents
  {
    var s := head + [','] + cents;
    assert s[|head|] == ',';
    LastOfSuffix(head, ',', cents);
    RemoveAddsNothing(head, '.', ',');
    RemoveAround(head, ',', cents, '.');
    ReplaceOnly(Remove(head, '.'), cents);
    if '.' in s {
      PointInHead(head, ',', cents, '.');
    } else {
      assert '.' !in head;
      RemoveAbsent(head, '.');
    }
  }

  /** A decimal point before two digits, commas only before it. */
  lemma AmericanCents(head: string, cents: string)
    requires '.' !in head && ',' !in cents && '.' !in cents && |cents| == 2
    ensures NormalizeSeparators(head + ['.'] + cents) == Remove(head, ',') + ['.'] + cents
  {
    var s := head + ['.'] + cents;
    assert s[|head|] == '.';
    LastOfSuffix(head, '.', cents);
    RemoveAround(head, '.', cents, ',');
    if ',' in s {
      PointInHead(head, '.', cents, ',');
    } else {
      assert ',' !in head;
      RemoveAbsent(head, ',');
    }
  }

  lemma PointInHead(head: string, c: char, b: string, d: char)
    requires c != d && d !in b && d in head + [c] + b
    ensures LastIndex(head + [c] + b, d) < |head| || LastIndex(head + [c] + b, d) == -1
  {
    LastIndexBelow(head + [c] + b, d, |head|);
  }

  /** Whatever the locale and the grouping, two decimals normalise to plain digits and a point. `sign` is a dash or
      nothing. */
  lemma NormalisedCents(sign: string, n: nat, locale: Locale, grouped: bool)
    requires sign == [] || sign == ['-']
    ensures NormalizeSeparators(sign + Unsigned(n, locale, grouped)) == sign + Digits(n / 100) + ['.'] + Cents(n)
  {
    hide NormalizeSeparators, Remove, Whole, Digits;
    var w, cents, sep := Whole(n / 100, locale, grouped), Cents(n), GroupOf(locale);
    WholeForm(n / 100, locale, grouped);
    var head := sign + w;
    assert PointOf(locale) !in head;
    RemoveAppend(sign, w, sep);
    RemoveAbsent(sign, sep);
    assert sign + Unsigned(n, locale, grouped) == head + [PointOf(locale)] + cents;
    if locale == European { EuropeanCents(head, cents); } else { AmericanCents(head, cents); }
  }

  // ----- Blanks and euro signs -----

  predicate IsNoise(c: char) { c == ' ' || c == '€' }

  /** What is left of a text without its spaces and euro signs. */
  function Quiet(s: string): string {
    if s == "" then "" else (if IsNoise(s[0]) then "" else [s[0]]) + Quiet(s[1..])
  }

  lemma {:induction false} RemoveBoth(s: string)
    ensures Remove(Remove(s, ' '), '€') == Quiet(s)
  {
    if s != "" {
      RemoveBoth(s[1..]);
      var rest := Remove(s[1..], ' ');
      if s[0] != ' ' { assert ([s[0]] + rest)[1..] == rest; } else { assert "" + rest == rest; }
    }
  }

  lemma {:induction false} QuietAppend(a: string, b: string)
    ensures Quiet(a + b) == Quiet(a) + Quiet(b)
  {
    if a == "" {
      assert a + b == b;
    } else {
      assert (a + b)[1..] == a[1..] + b;
      QuietAppend(a[1..], b);
    }
  }

  predicate NoBlanks(s: string) { forall i :: 0 <= i < |s| ==> !IsSpace(s[i]) }

  lemma QuietOne(c: char)
    ensures Quiet([c]) == if IsNoise(c) then [] else [c]
    ensures IsSpace(c) && NoBlanks(Quiet([c])) ==> Quiet([c]) == []
  {
    assert [c][1..] == [];
    assert Quiet([]) == [];
    assert !IsNoise(c) ==> Quiet([c]) == [c] && [c][0] == c;
  }

  lemma NoBlanksParts(a: string, b: string)
    requires NoBlanks(a + b)
    ensures NoBlanks(a) && NoBlanks(b)
  {
    forall i | 0 <= i < |a| ensures !IsSpace(a[i]) { assert (a + b)[i] == a[i]; }
    forall i | 0 <= i < |b| ensures !IsSpace(b[i]) { assert (a + b)[|a| + i] == b[i]; }
  }

  /** Trimming takes nothing away but spaces, when spaces are the only blanks. */
  lemma {:induction false} QuietTrim(s: string)
    requires NoBlanks(Quiet(s))
    ensures Quiet(Trim(s)) == Quiet(s)
    decreases |s|
  {
    hide Quiet, NoBlanks;
    if s != "" {
      if IsSpace(s[0]) {
        assert s == [s[0]] + s[1..];
        DropBlank([s[0]], s[1..]);
        QuietOne(s[0]);
        QuietTrim(s[1..]);
      } else if IsSpace(s[|s| - 1]) {
        var front, last := s[..|s| - 1], [s[|s| - 1]];
        assert s == front + last;
        DropBlank(front, last);
        QuietOne(s[|s| - 1]);
        QuietTrim(front);
      }
    }
  }

  lemma DropBlank(a: string, b: string)
    requires NoBlanks(Quiet(a + b))
    ensures Quiet(a + b) == Quiet(a) + Quiet(b) && NoBlanks(Quiet(a)) && NoBlanks(Quiet(b))
  {
    QuietAppend(a, b);
    NoBlanksParts(Quiet(a), Quiet(b));
  }

  // ----- Round trip -----

  lemma PrintedChars(cents: int, locale: Locale, grouped: bool, minus: Minus)
    ensures NoBlanks(Print(cents, locale, grouped, minus))
  {
    var n := if cents >= 0 then cents else -cents;
    WholeForm(n / 100, locale, grouped);
    assert NoBlanks(Unsigned(n, locale, grouped));
  }

  /** Every number of cents is read back from every way of printing it: European or American, grouped or not, with a
      minus sign or in parentheses, and with spaces and euro signs anywhere. */
  lemma ParseUndoesPrint(text: string, cents: int, locale: Locale, grouped: bool, minus: Minus)
    requires Quiet(text) == Print(cents, locale, grouped, minus)
    ensures ParseAmount(text) == Some(Eur(cents))
  {
    PrintedChars(cents, locale, grouped, minus);
    QuietTrim(text);
    RemoveBoth(Trim(text));
    assert Clean(text) == Print(cents, locale, grouped, minus);
    hide Print, Clean, ParseClean;
    ParsePrint(cents, locale, grouped, minus);
  }

  lemma ParsePrint(cents: int, locale: Locale, grouped: bool, minus: Minus)
    ensures ParseClean(Print(cents, locale, grouped, minus)) == Some(Eur(cents))
  {
    hide Unsigned, NormalizeSeparators, ParseFloat;
    var n := if cents >= 0 then cents else -cents;
    var u := Unsigned(n, locale, grouped);
    FirstIsDigit(n, locale, grouped);
    ParsedUnsigned(n, locale, grouped);
    NegatedCents(n);
    if cents < 0 && minus == Dash {
      assert (['-'] + u)[0] == '-';
    } else if cents < 0 {
      var s := ['('] + u + [')'];
      assert s[0] == '(' && s[|s| - 1] == ')' && s[1..|s| - 1] == u;
    }
  }

  lemma NegatedCents(n: int)
    ensures -Eur(n) == Eur(-n)
  {}

  lemma ParsedUnsigned(n: nat, locale: Locale, grouped: bool)
    ensures ParseFloat(NormalizeSeparators(Unsigned(n, locale, grouped))) == Some(Eur(n))
    ensures ParseFloat(NormalizeSeparators(['-'] + Unsigned(n, locale, grouped))) == Some(-Eur(n))
  {
    hide NormalizeSeparators, Unsigned, ParsePlain, Digits;
    var u, plain := Unsigned(n, locale, grouped), Digits(n / 100) + ['.'] + Cents(n);
    NormalisedCents([], n, locale, grouped);
    NormalisedCents(['-'], n, locale, grouped);
    assert [] + u == u && [] + Digits(n / 100) + ['.'] + Cents(n) == plain;
    assert plain[0] == Digits(n / 100)[0];
    assert ['-'] + Digits(n / 100) + ['.'] + Cents(n) == ['-'] + plain && (['-'] + plain)[0]
      == '-' && (['-'] + plain)[1..] == plain;
    PlainCents(n);
  }

  lemma FirstIsDigit(n: nat, locale: Locale, grouped: bool)
    ensures |Unsigned(n, locale, grouped)| >= 3 && IsDigit(Unsigned(n, locale, grouped)[0])
  {
    WholeForm(n / 100, locale, grouped);
    if grouped { FirstOfGroup(Digits(n / 100), GroupOf(locale)); }
    assert Unsigned(n, locale, grouped)[0] == Whole(n / 100, locale, grouped)[0];
  }

  lemma {:induction false} FirstOfGroup(digits: string, sep: char)
    requires digits != ""
    ensures Group(digits, sep) != "" && Group(digits, sep)[0] == digits[0]
  {
    if |digits| > 3 { FirstOfGroup(digits[..|digits| - 3], sep); }
  }

  // ----- Whole amounts -----

  /** A comma before exactly three last digits groups thousands: whole amounts of a thousand and more are read back as
      well. */
  lemma WholeThousands(n: nat)
    requires n >= 1000
    ensures ParseClean(Group(Digits(n), ',')) == Some(n as real)
  {
    FourDigits(n);
    var digits := Digits(n);
    var s := Group(digits, ',');
    GroupChars(digits, ',');
    FirstOfGroup(digits, ',');
    Ungroup(digits, ',');
    WholePlain(n);
    hide Digits, Group, Remove, ParsePlain;
    ThreeBehind(digits);
  }

  lemma ThreeBehind(digits: string)
    requires AllDigits(digits) && |digits| >= 4
    ensures var s := Group(digits, ','); ',' in s && '.' !in s && |s| - LastIndex(s, ',') - 1 == 3
  {
    var front, back := digits[..|digits| - 3], digits[|digits| - 3..];
    GroupChars(digits, ',');
    LastOfSuffix(Group(front, ','), ',', back);
    assert (Group(front, ',') + [','] + back)[|Group(front, ',')|] == ',';
  }

  lemma FourDigits(n: nat)
    requires n >= 1000
    ensures |Digits(n)| >= 4
  {
    assert |Digits(n)| == |Digits(n / 10)| + 1 && |Digits(n / 10)|
      == |Digits(n / 10 / 10)| + 1 && |Digits(n / 10 / 10)| >= 2;
  }

  lemma WholePlain(n: nat)
    ensures ParsePlain(Digits(n)) == Some(n as real)
  {
    NumberOfDigits(n);
    assert Digits(n) + "" == Digits(n);
    assert Digits(n)[..|Digits(n)|] == Digits(n);
    assert Pow10(0) == 1;
  }
}
