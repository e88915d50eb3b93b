/**
 Ticket categories and ticket numbers.

 The server keeps one queue per category: `Normal`, `Prioritário` and
 `Retirada`. A ticket number is the category's one-letter prefix followed by
 a decimal sequence number left-padded with '0' to at least three digits
 (`N001`, `P012`, `R1000`).
 */
module Tickets {
  import opened Wrappers

  /** The closed set of categories, the keys of the `filas` object. */
  datatype Category = Normal | Priority | Pickup

  /** Creation time of a ticket (the server stamps `new Date()`); the model
      does no arithmetic on it. */
  type Timestamp = int

  /** A ticket as the server stores and broadcasts it. `tipo` is the category
      name as the client sent it; `geradaEm` is its creation time. */
  datatype Ticket = Ticket(numero: string, tipo: string, geradaEm: Timestamp)

  /** The key under which a category's queue is stored. */
  function Name(c: Category): string
  {
    match c
    case Normal => "Normal"
    case Priority => "Prioritário"
    case Pickup => "Retirada"
  }

  /** The check `filas[tipo]`: exactly the three queue keys are categories. */
  function ParseCategory(tipo: string): (r: Option<Category>)
    ensures r.Some? ==> Name(r.value) == tipo
    ensures r.None? ==> forall c :: Name(c) != tipo
  {
    if tipo == "Normal" then Some(Normal)
    else if tipo == "Prioritário" then Some(Priority)
    else if tipo == "Retirada" then Some(Pickup)
    else None
  }

  lemma ParseName(c: Category)
    ensures ParseCategory(Name(c)) == Some(c)
  {
  }

  /** The display prefix of a category. */
  function Prefix(c: Category): char
  {
    match c
    case Normal => 'N'
    case Priority => 'P'
    case Pickup => 'R'
  }

  /** The separate prefix table the generate handler looks the name up in.
      It has the same keys as the queue table, so once a name has passed the
      category check its prefix is always found: the "prefix not found" error
      branch of the handler cannot be taken. */
  function PrefixOf(tipo: string): (r: Option<char>)
    ensures r.Some? <==> ParseCategory(tipo).Some?
    ensures r.Some? ==> r.value == Prefix(ParseCategory(tipo).value)
  {
    if tipo == "Normal" then Some('N')
    else if tipo == "Prioritário" then Some('P')
    else if tipo == "Retirada" then Some('R')
    else None
  }

  lemma PrefixInjective(c: Category, d: Category)
    ensures Prefix(c) == Prefix(d) ==> c == d
  {
  }

  // ---------------------------------------------------------------------
  // Decimal digit strings

  predicate IsDigit(ch: char)
  {
    '0' <= ch <= '9'
  }

  predicate AllDigits(s: string)
  {
    forall i :: 0 <= i < |s| ==> IsDigit(s[i])
  }

  function DigitValue(ch: char): (d: nat)
    requires IsDigit(ch)
    ensures d < 10
  {
    (ch as int) - ('0' as int)
  }

  function DigitChar(d: nat): (ch: char)
    requires d < 10
    ensures IsDigit(ch) && DigitValue(ch) == d
  {
    (('0' as int) + d) as char
  }

  /** The number a string of decimal digits denotes (most significant first). */
  function DecimalValue(s: string): nat
    requires AllDigits(s)
    decreases |s|
  {
    if s == [] then 0 else DecimalValue(s[..|s| - 1]) * 10 + DigitValue(s[|s| - 1])
  }

  /** `n.toString()` for a non-negative integer. */
  function DecimalDigits(n: nat): (s: string)
    ensures 1 <= |s| && |s| <= n + 1
    decreases n
  {
    if n < 10 then [DigitChar(n)] else DecimalDigits(n / 10) + [DigitChar(n % 10)]
  }

  /** `n.toString()` is the shortest decimal representation of n: digits
      that denote n, with no leading zero unless n is 0. */
  lemma {:induction false} DecimalDigitsSpell(n: nat)
    ensures AllDigits(DecimalDigits(n))
    ensures DecimalValue(DecimalDigits(n)) == n
    ensures DecimalDigits(n)[0] == '0' ==> n == 0
    decreases n
  {
    if n >= 10 {
      var high := DecimalDigits(n / 10);
      DecimalDigitsSpell(n / 10);
      var s := DecimalDigits(n);
      assert s == high + [DigitChar(n % 10)];
      assert s[..|s| - 1] == high;
    }
  }

  /** `s.padStart(width, fill)` with a one-character fill: prepend `fill`
      until the string is at least `width` long. */
  function PadStart(s: string, width: nat, fill: char): (r: string)
    ensures |r| == if |s| >= width then |s| else width
    decreases width - |s|
  {
    if |s| >= width then s else PadStart([fill] + s, width, fill)
  }

  /** Padding keeps the string at the end and puts only `fill` before it. */
  lemma {:induction false} PadStartShape(s: string, width: nat, fill: char)
    ensures var r := PadStart(s, width, fill);
      && r[|r| - |s|..] == s
      && forall i :: 0 <= i < |r| - |s| ==> r[i] == fill
    decreases width - |s|
  {
    if |s| < width {
      var r := PadStart([fill] + s, width, fill);
      PadStartShape([fill] + s, width, fill);
      assert r[|r| - |s|..] == ([fill] + s)[1..];
    }
  }

  /** A leading '0' does not change the value of a digit string. */
  lemma {:induction false} LeadingZeroValue(s: string)
    requires AllDigits(s)
    ensures AllDigits(['0'] + s) && DecimalValue(['0'] + s) == DecimalValue(s)
    decreases |s|
  {
    var z := ['0'] + s;
    if s != [] {
      assert z[..|z| - 1] == ['0'] + s[..|s| - 1];
      LeadingZeroValue(s[..|s| - 1]);
    }
  }

  /** Zero-padding a digit string keeps it a digit string of the same value. */
  lemma {:induction false} ZeroPadValue(s: string, width: nat)
    requires AllDigits(s)
    ensures AllDigits(PadStart(s, width, '0'))
    ensures DecimalValue(PadStart(s, width, '0')) == DecimalValue(s)
    decreases width - |s|
  {
    if |s| < width {
      LeadingZeroValue(s);
      ZeroPadValue(['0'] + s, width);
    }
  }

  /** The number of the n-th ticket of category c:
      `prefix + n.toString().padStart(3, '0')`. */
  function TicketNumber(c: Category, n: nat): (r: string)
    ensures |r| >= 4 && r[0] == Prefix(c)
  {
    [Prefix(c)] + PadStart(DecimalDigits(n), 3, '0')
  }

  /** A ticket number is the prefix, then at least three digits (exactly
      three below 1000) that spell the sequence number. */
  lemma TicketNumberSpells(c: Category, n: nat)
    ensures var r := TicketNumber(c, n);
      && (n < 1000 ==> |r| == 4)
      && AllDigits(r[1..]) && DecimalValue(r[1..]) == n
  {
    var digits := DecimalDigits(n);
    DecimalDigitsSpell(n);
    ZeroPadValue(digits, 3);
    var r := TicketNumber(c, n);
    assert r[1..] == PadStart(digits, 3, '0');
    DigitsBelow1000(n);
  }

  /** Below 1000 a number needs at most three digits. */
  lemma DigitsBelow1000(n: nat)
    ensures n < 1000 ==> |DecimalDigits(n)| <= 3
  {
    if 10 <= n < 1000 {
      var m := n / 10;
      assert |DecimalDigits(n)| == |DecimalDigits(m)| + 1;
      if m >= 10 {
        assert m / 10 < 10;
        assert |DecimalDigits(m)| == |DecimalDigits(m / 10)| + 1;
      }
    }
  }

  /** Different categories or different sequence numbers give different
      ticket numbers. */
  lemma TicketNumberInjective(c: Category, n: nat, d: Category, m: nat)
    ensures TicketNumber(c, n) == TicketNumber(d, m) ==> c == d && n == m
  {
    var r, q := TicketNumber(c, n), TicketNumber(d, m);
    if r == q {
      TicketNumberSpells(c, n);
      TicketNumberSpells(d, m);
      assert r[1..] == q[1..];
      PrefixInjective(c, d);
    }
  }

  lemma NumberExampleN001()
    ensures TicketNumber(Normal, 1) == "N001"
  {
    assert DecimalDigits(1) == "1";
    assert PadStart("1", 3, '0') == "001" by {
      assert PadStart("1", 3, '0') == PadStart("01", 3, '0');
      assert PadStart("01", 3, '0') == PadStart("001", 3, '0');
    }
  }

  lemma NumberExampleP012()
    ensures TicketNumber(Priority, 12) == "P012"
  {
    assert DecimalDigits(12) == "12" by {
      assert DecimalDigits(1) == "1";
      assert DigitChar(2) == '2';
    }
    assert PadStart("12", 3, '0') == "012" by {
      assert PadStart("12", 3, '0') == PadStart("012", 3, '0');
    }
  }

  lemma NumberExampleR1000()
    ensures TicketNumber(Pickup, 1000) == "R1000"
  {
    assert DecimalDigits(1000) == "1000" by {
      assert DecimalDigits(1) == "1";
      assert DecimalDigits(10) == "10";
      assert DecimalDigits(100) == "100";
    }
  }
}
