/**
 * src/Cashier.php: the package-wide currency and model settings, held here by one configuration
 * object instead of static fields, and the default amount formatter.
 */
module CashierConfig {
  import opened Wrappers
  import opened Values

  const CUSTOMER_MODEL: string := "InitAfricaHQ\\Cashier\\Customer"
  const SUBSCRIPTION_MODEL: string := "InitAfricaHQ\\Cashier\\Subscription"

  /** `guessCurrencySymbol`: the symbol for a known code, compared case-insensitively; anything else throws. */
  function GuessCurrencySymbol(currency: string): (r: Result<string>)
    ensures r.Err? <==> Lower(currency) !in {"ngn", "ghs", "eur", "gbp", "usd", "aud", "cad"}
    ensures r.Err? ==> r == Err(Exception("Unable to guess symbol for currency. Please explicitly specify it."))
  {
    var code := Lower(currency);
    if code == "ngn" then Ok("₦")
    else if code == "ghs" then Ok("GH₵")
    else if code == "eur" then Ok("€")
    else if code == "gbp" then Ok("£")
    else if code == "usd" || code == "aud" || code == "cad" then Ok("$")
    else Err(Exception("Unable to guess symbol for currency. Please explicitly specify it."))
  }

  lemma {:induction false} LowerIdempotent(s: string)
    ensures Lower(Lower(s)) == Lower(s)
  {
    if s != [] {
      LowerIdempotent(s[1..]);
    }
  }

  lemma {:induction false} UpperOfLower(s: string)
    ensures Upper(Lower(s)) == Upper(s)
  {
    if s != [] {
      UpperOfLower(s[1..]);
    }
  }

  /** The guess does not depend on letter case: "NGN", "ngn" and "Ngn" give the same symbol. */
  lemma GuessIgnoresCase(currency: string)
    ensures GuessCurrencySymbol(currency) == GuessCurrencySymbol(Lower(currency))
  {
    LowerIdempotent(currency);
  }

  /** The table of known codes, given in upper case as callers usually write them. */
  lemma KnownSymbols()
    ensures GuessCurrencySymbol("NGN") == Ok("₦") && GuessCurrencySymbol("GHS") == Ok("GH₵")
    ensures GuessCurrencySymbol("EUR") == Ok("€") && GuessCurrencySymbol("USD") == Ok("$")
  {
    assert Lower("NGN") == "ngn";
    assert Lower("GHS") == "ghs";
    assert Lower("EUR") == "eur";
    assert Lower("USD") == "usd";
  }

  // Default formatting: number_format($amount / 100, 2), then the symbol after any minus sign.

  /** The three-digit, zero-padded text of 0 <= k < 1000. */
  function Pad3(k: nat): (r: string)
    requires k < 1000
    ensures |r| == 3
  {
    [DigitChar(k / 100), DigitChar(k / 10 % 10), DigitChar(k % 10)]
  }

  /** The two-digit, zero-padded text of 0 <= k < 100. */
  function Pad2(k: nat): (r: string)
    requires k < 100
    ensures |r| == 2
  {
    [DigitChar(k / 10), DigitChar(k % 10)]
  }

  /** The integer part with a comma between each group of three digits. */
  function Grouped(n: nat): (r: string)
    ensures |r| >= 1 && '0' <= r[0] <= '9'
  {
    if n < 1000 then NatText(n) else Grouped(n / 1000) + "," + Pad3(n % 1000)
  }

  function Abs(a: int): nat {
    if a < 0 then -a else a
  }

  /** `number_format($amount / 100, 2)` for an amount in minor units, computed exactly. */
  function NumberFormat(amount: int): (r: string)
    ensures |r| >= 4 && r[|r| - 3] == '.'
    ensures r[0] == '-' <==> amount < 0
  {
    (if amount < 0 then "-" else "") + Grouped(Abs(amount) / 100) + "." + Pad2(Abs(amount) % 100)
  }

  /** The default branch of formatAmount: a leading minus goes before the symbol. */
  function DefaultFormat(symbol: string, amount: int): (r: string)
    ensures amount < 0 ==> r == "-" + symbol + NumberFormat(-amount)
    ensures amount >= 0 ==> r == symbol + NumberFormat(amount)
  {
    var text := NumberFormat(amount);
    if |text| > 0 && text[0] == '-' then "-" + symbol + text[1..] else symbol + text
  }

  // The value of a formatted amount, to show that formatting keeps the amount.

  function DigitValue(c: char): int {
    if '0' <= c <= '9' then c as int - '0' as int else 0
  }

  /** The number a string of digits denotes, commas skipped. */
  function Value(s: string): nat {
    if s == [] then 0
    else if s[|s| - 1] == ',' then Value(s[..|s| - 1])
    else Value(s[..|s| - 1]) * 10 + DigitValue(s[|s| - 1])
  }

  function Pow10(k: nat): nat {
    if k == 0 then 1 else 10 * Pow10(k - 1)
  }

  function CountDigits(s: string): nat {
    if s == [] then 0 else CountDigits(s[..|s| - 1]) + (if s[|s| - 1] == ',' then 0 else 1)
  }

  /** Appending one character: a comma adds nothing, a digit shifts the value by one place. */
  lemma ValueSnoc(s: string, c: char)
    ensures Value(s + [c]) == if c == ',' then Value(s) else Value(s) * 10 + DigitValue(c)
    ensures CountDigits(s + [c]) == CountDigits(s) + (if c == ',' then 0 else 1)
  {
    var u := s + [c];
    assert u[..|u| - 1] == s && u[|u| - 1] == c;
  }

  lemma ShiftTen(v: nat, p: nat, w: nat)
    ensures (v * p + w) * 10 == v * (10 * p) + w * 10
  {
  }

  lemma {:induction false} ValueAppend(s: string, t: string)
    ensures Value(s + t) == Value(s) * Pow10(CountDigits(t)) + Value(t)
    decreases |t|
  {
    if t == [] {
      assert s + t == s;
    } else {
      var t', c := t[..|t| - 1], t[|t| - 1];
      assert t == t' + [c];
      assert s + t == (s + t') + [c];
      ValueAppend(s, t');
      ValueSnoc(s + t', c);
      ValueSnoc(t', c);
      if c != ',' {
        ShiftTen(Value(s), Pow10(CountDigits(t')), Value(t'));
        assert Pow10(CountDigits(t)) == 10 * Pow10(CountDigits(t'));
      }
    }
  }

  lemma {:induction false} NatTextValue(n: nat)
    ensures Value(NatText(n)) == n && CountDigits(NatText(n)) >= 1
  {
    if n >= 10 {
      NatTextValue(n / 10);
      var s := NatText(n / 10) + [DigitChar(n % 10)];
      assert s[..|s| - 1] == NatText(n / 10);
    }
  }

  lemma DigitCharValue(d: int)
    requires 0 <= d < 10
    ensures DigitValue(DigitChar(d)) == d && DigitChar(d) != ','
  {
    assert forall i | 0 <= i < 10 :: "0123456789"[i] as int == '0' as int + i;
  }

  lemma Pad3Value(k: nat)
    requires k < 1000
    ensures Value(Pad3(k)) == k && CountDigits(Pad3(k)) == 3
  {
    var a, b, c := k / 100, k / 10 % 10, k % 10;
    assert k == a * 100 + b * 10 + c;
    DigitCharValue(a);
    DigitCharValue(b);
    DigitCharValue(c);
    var p := Pad3(k);
    var p1, p2 := [DigitChar(a)], [DigitChar(a), DigitChar(b)];
    assert p == p2 + [DigitChar(c)] && p[..2] == p2;
    assert p2[..1] == p1 && p1[..0] == [];
    assert Value(p1) == a && CountDigits(p1) == 1;
    assert Value(p2) == a * 10 + b && CountDigits(p2) == 2;
    assert Value(p) == (a * 10 + b) * 10 + c;
  }

  lemma Pad2Value(k: nat)
    requires k < 100
    ensures Value(Pad2(k)) == k && CountDigits(Pad2(k)) == 2
  {
    DigitCharValue(k / 10);
    DigitCharValue(k % 10);
    var p := Pad2(k);
    assert p[..1] == [DigitChar(k / 10)];
    assert p[..1][..0] == [];
  }

  /** The grouped text, commas skipped, denotes the number it was made from. */
  lemma {:induction false} GroupedValue(n: nat)
    ensures Value(Grouped(n)) == n
  {
    if n < 1000 {
      NatTextValue(n);
    } else {
      var q, r := n / 1000, n % 1000;
      assert n == q * 1000 + r;
      GroupedValue(q);
      Pad3Value(r);
      var g := Grouped(q) + ",";
      ValueAppend(g, Pad3(r));
      assert g[..|g| - 1] == Grouped(q) && g[|g| - 1] == ',';
      assert Value(g) == q;
      assert Pow10(3) == 1000;
      assert Grouped(n) == g + Pad3(r);
    }
  }

  /**
   * The default format of `amount` is an optional minus, the symbol, the grouped units, a dot
   * and exactly two digits.
   */
  lemma FormatShape(symbol: string, amount: int)
    ensures DefaultFormat(symbol, amount)
            == (if amount < 0 then "-" else "") + symbol + Grouped(Abs(amount) / 100) + "." + Pad2(Abs(amount) % 100)
  {
    var units := Grouped(Abs(amount) / 100);
    var cents := Pad2(Abs(amount) % 100);
    var tail := units + "." + cents;
    if amount < 0 {
      assert Abs(-amount) == Abs(amount);
      assert NumberFormat(-amount) == "" + units + "." + cents == tail;
      assert DefaultFormat(symbol, amount) == "-" + symbol + tail;
    } else {
      assert NumberFormat(amount) == "" + units + "." + cents == tail;
      assert DefaultFormat(symbol, amount) == symbol + tail;
    }
  }

  /** The units and the two decimals of the default format together denote |amount| minor units. */
  lemma FormatKeepsAmount(amount: int)
    ensures Value(Grouped(Abs(amount) / 100)) * 100 + Value(Pad2(Abs(amount) % 100)) == Abs(amount)
  {
    GroupedValue(Abs(amount) / 100);
    Pad2Value(Abs(amount) % 100);
  }

  /** One thousand naira formats as "₦1,000.00". */
  lemma ThousandNaira()
    ensures DefaultFormat("₦", 100000) == "₦1,000.00"
  {
    assert Grouped(1) == "1";
    assert Pad3(0) == "000";
    assert Grouped(1000) == "1,000";
    assert Pad2(0) == "00";
  }

  /** The settings held in Cashier's static fields. */
  class Cashier {
    var currency: string
    var currencySymbol: string
    var formatCurrencyUsing: Option<int -> string>
    var customerModel: string
    var subscriptionModel: string

    /** The defaults: NGN, "₦", no custom formatter, the package's own model classes. */
    constructor ()
      ensures currency == "NGN" && currencySymbol == "₦" && formatCurrencyUsing == None
      ensures customerModel == CUSTOMER_MODEL && subscriptionModel == SUBSCRIPTION_MODEL
    {
      currency := "NGN";
      currencySymbol := "₦";
      formatCurrencyUsing := None;
      customerModel := CUSTOMER_MODEL;
      subscriptionModel := SUBSCRIPTION_MODEL;
    }

    /**
     * `useCurrency($currency, $symbol)`: store the lower-cased code, then the symbol if it is
     * truthy, else the guessed one. A failed guess throws after the code has been stored.
     */
    method UseCurrency(code: string, symbol: Option<string>) returns (r: Result<()>)
      modifies this
      ensures currency == Lower(code) && UsesCurrency() == Upper(code)
      ensures formatCurrencyUsing == old(formatCurrencyUsing)
      ensures customerModel == old(customerModel) && subscriptionModel == old(subscriptionModel)
      ensures symbol.Some? && TruthyString(symbol.value) ==> r.Ok? && currencySymbol == symbol.value
      ensures !(symbol.Some? && TruthyString(symbol.value)) ==>
        r.Ok? == GuessCurrencySymbol(code).Ok?
        && currencySymbol == (if r.Ok? then GuessCurrencySymbol(code).value else old(currencySymbol))
    {
      currency := Lower(code);
      UpperOfLower(code);
      if symbol.Some? && TruthyString(symbol.value) {
        UseCurrencySymbol(symbol.value);
        return Ok(());
      }
      LowerIdempotent(code);
      var guessed := GuessCurrencySymbol(currency);
      if guessed.Err? {
        return Err(guessed.error);
      }
      UseCurrencySymbol(guessed.value);
      r := Ok(());
    }

    /** `usesCurrency()`: the stored code, upper-cased. */
    function UsesCurrency(): string
      reads this
    {
      Upper(currency)
    }

    method UseCurrencySymbol(symbol: string)
      modifies this
      ensures currencySymbol == symbol
      ensures currency == old(currency) && formatCurrencyUsing == old(formatCurrencyUsing)
      ensures customerModel == old(customerModel) && subscriptionModel == old(subscriptionModel)
    {
      currencySymbol := symbol;
    }

    function UsesCurrencySymbol(): string
      reads this
    {
      currencySymbol
    }

    method FormatCurrencyUsing(callback: int -> string)
      modifies this
      ensures formatCurrencyUsing == Some(callback)
      ensures currency == old(currency) && currencySymbol == old(currencySymbol)
      ensures customerModel == old(customerModel) && subscriptionModel == old(subscriptionModel)
    {
      formatCurrencyUsing := Some(callback);
    }

    /** `formatAmount($amount)`: the custom formatter's result when one is set, else the default format. */
    function FormatAmount(amount: int): (s: string)
      reads this
      ensures formatCurrencyUsing.Some? ==> s == formatCurrencyUsing.value(amount)
      ensures formatCurrencyUsing.None? ==> s == DefaultFormat(currencySymbol, amount)
    {
      match formatCurrencyUsing
      case Some(f) => f(amount)
      case None => DefaultFormat(currencySymbol, amount)
    }

    method UseCustomerModel(model: string)
      modifies this
      ensures customerModel == model && subscriptionModel == old(subscriptionModel)
      ensures currency == old(currency) && currencySymbol == old(currencySymbol)
      ensures formatCurrencyUsing == old(formatCurrencyUsing)
    {
      customerModel := model;
    }

    method UseSubscriptionModel(model: string)
      modifies this
      ensures subscriptionModel == model && customerModel == old(customerModel)
      ensures currency == old(currency) && currencySymbol == old(currencySymbol)
      ensures formatCurrencyUsing == old(formatCurrencyUsing)
    {
      subscriptionModel := model;
    }
  }
}
