/** The value rules of the deal dialogue in app/bot.py: the bucket of message
    ids to clean up, the text matching of menu commands, the currency callback
    payloads, the commission and expenses answers, the suggested commission,
    the net profit and the sheet row. Decimal parsing, `str` of a parsed amount
    and Unicode lower-casing are parameters. */
module DealForm {
  import opened Wrappers
  import opened Text
  import opened Decimals
  import Rates

  /** `Decimal(s)`: the exact value of `s`, or None where Decimal refuses it. */
  type Parse = string -> Option<real>

  // ---- _append_cleanup -----------------------------------------------------

  /** One turn of the loop: `mid` is appended when it is non-zero and new. */
  function AppendStep(bucket: seq<int>, mid: int): (r: seq<int>)
    ensures |bucket| <= |r| <= |bucket| + 1 && r[..|bucket|] == bucket
    ensures forall x :: x in r <==> x in bucket || (x == mid && mid != 0)
  {
    if mid != 0 && mid !in bucket then bucket + [mid] else bucket
  }

  /** The bucket once the loop has handled every id of `ids`, in order. */
  function AppendAll(bucket: seq<int>, ids: seq<int>): (r: seq<int>)
    ensures |bucket| <= |r| && r[..|bucket|] == bucket
    ensures forall x :: x in r <==> x in bucket || (x != 0 && x in ids)
    decreases |ids|
  {
    if ids == [] then bucket
    else
      var init := ids[..|ids| - 1];
      assert ids == init + [ids[|ids| - 1]];
      var s := AppendAll(bucket, init);
      assert (s + [ids[|ids| - 1]])[..|bucket|] == s[..|bucket|];
      AppendStep(s, ids[|ids| - 1])
  }

  /** `_append_cleanup`: the duplicate-free append loop over `ids`. */
  method AppendCleanup(bucket: seq<int>, ids: seq<int>) returns (r: seq<int>)
    ensures r == AppendAll(bucket, ids)
  {
    r := bucket;
    for i := 0 to |ids|
      invariant r == AppendAll(bucket, ids[..i])
    {
      var mid := ids[i];
      if mid != 0 && mid !in r {
        r := r + [mid];
      }
      assert ids[..i + 1][..i] == ids[..i];
    }
    assert ids[..|ids|] == ids;
  }

  /** The ids the loop appends, described without the running bucket: the
      non-zero ids that are neither in `bucket` nor earlier in `ids`, in the
      order of `ids`. */
  function Fresh(bucket: seq<int>, ids: seq<int>): seq<int>
    decreases |ids|
  {
    if ids == [] then []
    else
      var init, x := ids[..|ids| - 1], ids[|ids| - 1];
      Fresh(bucket, init) + (if x != 0 && x !in bucket && x !in init then [x] else [])
  }

  predicate Distinct(s: seq<int>) {
    forall i, j :: 0 <= i < j < |s| ==> s[i] != s[j]
  }

  /** The new bucket is the old one followed by the fresh ids. */
  lemma {:induction false} AppendIsBucketPlusFresh(bucket: seq<int>, ids: seq<int>)
    ensures AppendAll(bucket, ids) == bucket + Fresh(bucket, ids)
    decreases |ids|
  {
    if ids != [] {
      var init, x := ids[..|ids| - 1], ids[|ids| - 1];
      AppendIsBucketPlusFresh(bucket, init);
      var s := AppendAll(bucket, init);
      assert x in s <==> x in bucket || (x != 0 && x in init);
      assert bucket + Fresh(bucket, init) + [x] == bucket + (Fresh(bucket, init) + [x]);
    }
  }

  /** What the loop appends holds no duplicate, no zero and nothing that was
      already in the bucket. */
  lemma {:induction false} FreshIsNew(bucket: seq<int>, ids: seq<int>)
    ensures Distinct(Fresh(bucket, ids))
    ensures forall x :: x in Fresh(bucket, ids) <==> x != 0 && x !in bucket && x in ids
    decreases |ids|
  {
    if ids != [] {
      var init, x := ids[..|ids| - 1], ids[|ids| - 1];
      FreshIsNew(bucket, init);
      assert ids == init + [x];
      var f := Fresh(bucket, init);
      if x != 0 && x !in bucket && x !in init {
        assert x !in f;
        forall i, j | 0 <= i < j < |f + [x]| ensures (f + [x])[i] != (f + [x])[j] {
          if j < |f| {
            assert (f + [x])[i] == f[i] && (f + [x])[j] == f[j];
          } else {
            assert (f + [x])[i] == f[i] && f[i] in f;
          }
        }
      } else {
        assert f + [] == f;
      }
    }
  }

  /** Appending a bucket that is duplicate-free keeps it duplicate-free. */
  lemma AppendKeepsDistinct(bucket: seq<int>, ids: seq<int>)
    requires Distinct(bucket)
    ensures Distinct(AppendAll(bucket, ids))
  {
    AppendIsBucketPlusFresh(bucket, ids);
    FreshIsNew(bucket, ids);
    var f := Fresh(bucket, ids);
    var r := bucket + f;
    forall i, j | 0 <= i < j < |r| ensures r[i] != r[j] {
      if j < |bucket| {
        assert r[i] == bucket[i] && r[j] == bucket[j];
      } else if i < |bucket| {
        assert r[i] == bucket[i] && r[j] == f[j - |bucket|] && f[j - |bucket|] in f;
      } else {
        assert r[i] == f[i - |bucket|] && r[j] == f[j - |bucket|];
      }
    }
  }

  /** Ids that are zero or already present leave the bucket as it is. */
  lemma {:induction false} AppendKnown(bucket: seq<int>, ids: seq<int>)
    requires forall x :: x in ids ==> x == 0 || x in bucket
    ensures AppendAll(bucket, ids) == bucket
    decreases |ids|
  {
    if ids != [] {
      var init := ids[..|ids| - 1];
      assert ids == init + [ids[|ids| - 1]];
      AppendKnown(bucket, init);
    }
  }

  /** Appending the same ids twice gives the bucket of appending them once. */
  lemma AppendIdempotent(bucket: seq<int>, ids: seq<int>)
    ensures AppendAll(AppendAll(bucket, ids), ids) == AppendAll(bucket, ids)
  {
    AppendKnown(AppendAll(bucket, ids), ids);
  }

  // ---- _match --------------------------------------------------------------

  /** `_match(text, variants)`; `lower` is `str.lower`. */
  function Match(text: Option<string>, variants: set<string>, lower: string -> string): (m: bool)
    ensures text.None? ==> (m <==> lower("") in variants)
  {
    lower(Strip(text.GetOr(""))) in variants
  }

  /** Surrounding whitespace does not matter: a padded `t` matches exactly
      when its lower-case form is one of the variants. */
  lemma MatchPadded(p: string, t: string, q: string, variants: set<string>, lower: string -> string)
    requires AllSpace(p) && AllSpace(q) && Trimmed(t)
    ensures Match(Some(p + t + q), variants, lower) <==> lower(t) in variants
  {
    StripExactly(p, t, q);
  }

  // ---- currency callbacks --------------------------------------------------

  /** The currencies offered on the keyboards, in app/constants.py. */
  const Currencies: seq<string> :=
    ["EUR", "RUB", "USDT", "USD", "UAH", "TRY", "GEL", "KZT", "AZN", "MDL", "SAR", "TJS"]

  /** The callback data of the button for `t` under `prefix`. */
  function Payload(prefix: string, t: string): (p: string)
    ensures |p| == |prefix| + 1 + |t|
    ensures p[..|prefix|] == prefix && p[|prefix|] == ':' && p[|prefix| + 1..] == t
  {
    prefix + ":" + t
  }

  /** The position of the first `sep` in `s`, if any. */
  function FirstIndex(s: string, sep: char): (i: Option<nat>)
    ensures i.None? ==> sep !in s
    ensures i.Some? ==> i.value < |s| && s[i.value] == sep && sep !in s[..i.value]
  {
    if s == [] then None
    else if s[0] == sep then Some(0)
    else
      match FirstIndex(s[1..], sep)
      case None => None
      case Some(j) =>
        assert s[..j + 1] == [s[0]] + s[1..][..j];
        Some(j + 1)
  }

  /** `_, val = data.split(":", 1)`: the text after the first ':'; None where
      the unpacking fails because there is no ':'. */
  function CallbackValue(data: string): (v: Option<string>)
    ensures v.None? <==> ':' !in data
    ensures v.Some? ==> exists k :: 0 <= k < |data| && data[k] == ':' && ':' !in data[..k] && v.value == data[k + 1..]
  {
    match FirstIndex(data, ':')
    case None => None
    case Some(k) => Some(data[k + 1..])
  }

  /** The value after a ':'-free prefix is recovered whole, even when it
      contains ':' itself. */
  lemma CallbackRoundTrip(prefix: string, t: string)
    requires ':' !in prefix
    ensures CallbackValue(Payload(prefix, t)) == Some(t)
  {
    var s := Payload(prefix, t);
    var k := FirstIndex(s, ':').value;
    assert s[|prefix|] == ':';
    assert forall i :: 0 <= i < |prefix| ==> s[i] == prefix[i];
    assert s[|prefix| + 1..] == t;
  }

  /** Every button of both currency keyboards hands its currency back. */
  lemma CurrencyPayloads()
    ensures forall t :: t in Currencies ==>
      CallbackValue(Payload("cur_in", t)) == Some(t) && CallbackValue(Payload("cur_out", t)) == Some(t)
  {
    forall t | t in Currencies
      ensures CallbackValue(Payload("cur_in", t)) == Some(t) && CallbackValue(Payload("cur_out", t)) == Some(t)
    {
      CallbackRoundTrip("cur_in", t);
      CallbackRoundTrip("cur_out", t);
    }
  }

  /** The currency keyboard lists twelve distinct codes, EUR first. */
  lemma CurrenciesListed()
    ensures |Currencies| == 12 && Currencies[0] == "EUR"
    ensures "USDT" in Currencies && "USD" in Currencies
    ensures forall i, j :: 0 <= i < j < |Currencies| ==> Currencies[i] != Currencies[j]
  {
  }

  /** Callback data that passes the `startswith("cur_in:")` filter yields the
      rest of the data. */
  lemma CallbackAfterPrefix(prefix: string, data: string)
    requires ':' !in prefix && |prefix| < |data| && data[..|prefix| + 1] == prefix + ":"
    ensures CallbackValue(data) == Some(data[|prefix| + 1..])
  {
    assert data == Payload(prefix, data[|prefix| + 1..]);
    CallbackRoundTrip(prefix, data[|prefix| + 1..]);
  }

  // ---- commission and expenses answers --------------------------------------

  /** Answers that keep the default. */
  const Dashes: set<string> := {"", "-", "—"}

  /** The two `if`s that bound a parsed percentage to [0, hi]. */
  function Clamp(v: real, hi: real): (c: real)
    requires 0.0 <= hi
    ensures 0.0 <= c <= hi
    ensures 0.0 <= v <= hi ==> c == v
    ensures v < 0.0 ==> c == 0.0
    ensures v > hi ==> c == hi
  {
    if v < 0.0 then 0.0 else if v > hi then hi else v
  }

  /** The text an answer is parsed from: '%' removed, then ',' read as '.'. */
  function PercentText(txt: string): (raw: string)
    ensures '%' !in raw && ',' !in raw
    ensures '%' !in txt && ',' !in txt ==> raw == txt
    ensures '%' !in txt ==> raw == ReplaceChar(txt, ',', '.')
  {
    var r := RemoveChar(txt, '%');
    var raw := ReplaceChar(r, ',', '.');
    assert forall i :: 0 <= i < |raw| ==> raw[i] != '%' && raw[i] != ',';
    assert '%' !in txt && ',' !in txt ==> raw == r;
    raw
  }

  /** Every '%' is dropped wherever it stands, so together with the ','
      clause of `PercentText` this fixes the text for every answer. */
  lemma PercentTextDropsPercent(a: string, b: string)
    ensures PercentText(a + "%" + b) == PercentText(a + b)
  {
    RemoveCharConcat(a + "%", b, '%');
    RemoveCharConcat(a, "%", '%');
    RemoveCharConcat(a, b, '%');
    assert RemoveChar("%", '%') == [];
    assert RemoveChar(a + "%", '%') == RemoveChar(a, '%');
  }

  /** A decimal comma and a percent sign are accepted: "5,5%" is read as
      "5.5". */
  lemma PercentTextExample()
    ensures PercentText("5,5%") == "5.5"
  {
    assert "5,5%" == "5,5" + "%";
    RemoveCharConcat("5,5", "%", '%');
    assert RemoveChar("%", '%') == [];
    assert RemoveChar("5,5", '%') == "5,5";
    assert "5,5" == "5" + [','] + "5";
    ReplaceCharConcat("5" + [','], "5", ',', '.');
    ReplaceCharConcat("5", [','], ',', '.');
    ReplaceCharFacts("5", ',', '.');
  }

  /** An answer as a percentage in hundredths: parsed (0 where it is not a
      number), clamped to [0, hi] and quantized half-even to 0.01. */
  function PercentHundredths(txt: string, hi: nat, parse: Parse): (h: int)
    ensures 0 <= h <= 100 * hi
    ensures parse(PercentText(txt)).None? ==> h == 0
    ensures var v := parse(PercentText(txt)).GetOr(0.0);
      && (v <= 0.0 ==> h == 0)
      && (v >= hi as real ==> h == 100 * hi)
      && (0.0 <= v <= hi as real ==> -0.5 <= 100.0 * v - h as real <= 0.5)
      && (0.0 <= v <= hi as real && (100.0 * v - h as real == 0.5 || h as real - 100.0 * v == 0.5) ==> h % 2 == 0)
  {
    var v := parse(PercentText(txt)).GetOr(0.0);
    var c := Clamp(v, hi as real);
    assert Hundredths(0) == 0.0 && Hundredths(100 * hi) == hi as real;
    QuantizeHalfEvenBounds(c, 0, 100 * hi);
    if v >= hi as real then
      QuantizeHalfEvenBounds(c, 100 * hi, 100 * hi);
      QuantizeHalfEven(c)
    else QuantizeHalfEven(c)
  }

  /** Answers are rounded half-even, unlike converted amounts: an answer of
      1.005 is stored as 1.00, where half-up rounding would give 1.01. */
  lemma PercentTieExample(parse: Parse)
    requires parse("1.005") == Some(1.005)
    ensures PercentHundredths("1.005", 10, parse) == 100
    ensures QuantizeHalfUp(1.005) == 101
  {
    assert '%' !in "1.005" && ',' !in "1.005";
  }

  /** `step_commission`: a dash or an empty answer takes a non-empty suggested
      commission as it is; any other answer becomes a percentage in [0, 10]. */
  function CommissionText(text: Option<string>, suggested: Option<string>, parse: Parse): (c: string)
    ensures var txt := Strip(text.GetOr(""));
      if txt in Dashes && suggested.Some? && suggested.value != "" then c == suggested.value
      else ReadHundredths(c) == Some(PercentHundredths(txt, 10, parse)) && 0 <= ReadHundredths(c).value <= 1000
  {
    var txt := Strip(text.GetOr(""));
    if txt in Dashes && suggested.Some? && suggested.value != "" then suggested.value
    else
      var h := PercentHundredths(txt, 10, parse);
      FormatRoundTrip(h);
      FormatHundredths(h)
  }

  /** `step_expenses`: a dash or an empty answer means "0"; any other answer
      becomes a percentage in [0, 100]. */
  function ExpensesText(text: Option<string>, parse: Parse): (e: string)
    ensures var txt := Strip(text.GetOr(""));
      if txt in Dashes then e == "0"
      else ReadHundredths(e) == Some(PercentHundredths(txt, 100, parse)) && 0 <= ReadHundredths(e).value <= 10000
  {
    var txt := Strip(text.GetOr(""));
    if txt in Dashes then "0"
    else
      var h := PercentHundredths(txt, 100, parse);
      FormatRoundTrip(h);
      FormatHundredths(h)
  }

  /** A padded dash keeps the suggestion too. */
  lemma CommissionDashPadded(p: string, q: string, suggested: string, parse: Parse)
    requires AllSpace(p) && AllSpace(q) && suggested != ""
    ensures CommissionText(Some(p + "-" + q), Some(suggested), parse) == suggested
  {
    assert Strip(p + "-" + q) in Dashes by {
      StripExactly(p, "-", q);
    }
  }

  // ---- reading the stored answers back in step_comment ----------------------

  /** `data.get(key, default)`. */
  function Lookup(data: map<string, string>, key: string, default: string): (s: string)
    ensures key in data ==> s == data[key]
    ensures key !in data ==> s == default
  {
    if key in data then data[key] else default
  }

  /** `data.get(key) or default`: an empty stored value also gives `default`. */
  function LookupOr(data: map<string, string>, key: string, default: string): (s: string)
    ensures s != "" || default == ""
    ensures key in data && data[key] != "" ==> s == data[key]
    ensures key !in data || data[key] == "" ==> s == default
  {
    if key in data && data[key] != "" then data[key] else default
  }

  /** The expenses text `step_comment` writes into its row. */
  function ExpensesCell(data: map<string, string>): (c: string)
    ensures Trimmed(c)
    ensures "expenses" !in data || data["expenses"] == "" ==> c == "0"
    ensures "expenses" in data && data["expenses"] != "" ==> c == Strip(data["expenses"])
  {
    StripTrimmed(LookupOr(data, "expenses", "0"));
    assert "" + "0" + "" == "0" && Trimmed("0");
    StripExactly("", "0", "");
    Strip(LookupOr(data, "expenses", "0"))
  }

  /** The expenses percentage `step_comment` deducts: the stored text, parsed
      with ',' read as '.', 0 where it is not a number, clamped to [0, 100]. */
  function StoredExpenses(data: map<string, string>, parse: Parse): (e: real)
    ensures 0.0 <= e <= 100.0
    ensures var r := parse(ReplaceChar(ExpensesCell(data), ',', '.'));
      && (r.None? ==> e == 0.0)
      && (r.Some? && r.value < 0.0 ==> e == 0.0)
      && (r.Some? && r.value > 100.0 ==> e == 100.0)
      && (r.Some? && 0.0 <= r.value <= 100.0 ==> e == r.value)
  {
    Clamp(parse(ReplaceChar(ExpensesCell(data), ',', '.')).GetOr(0.0), 100.0)
  }

  /** The text of a 2-place value has no whitespace at its ends and no ','. */
  lemma FormatPlain(h: int)
    ensures Trimmed(FormatHundredths(h)) && ',' !in FormatHundredths(h)
  {
    var m: nat := if h < 0 then -h else h;
    var u := Unsigned(m);
    var ds := Digits(m / 100);
    assert u == ds + ['.', DigitChar(m / 10 % 10), DigitChar(m % 10)];
    assert forall i :: 0 <= i < |u| ==> u[i] == '.' || IsDigit(u[i]) by {
      forall i | 0 <= i < |u| ensures u[i] == '.' || IsDigit(u[i]) {
        if i < |ds| {
          assert u[i] == ds[i];
        }
      }
    }
    if h < 0 {
      var s := FormatHundredths(h);
      assert s == "-" + u;
      assert forall i :: 1 <= i < |s| ==> s[i] == u[i - 1];
    }
  }

  /** A text with no whitespace at its ends and no ',' passes the clean-up of
      `step_comment` unchanged. */
  lemma PlainUnchanged(s: string)
    requires Trimmed(s) && s != "" && ',' !in s
    ensures Strip(s) == s && ReplaceChar(s, ',', '.') == s
  {
    assert "" + s + "" == s;
    StripExactly("", s, "");
  }

  /** A plain stored expenses text is shown as it is and deducted as the
      value the reader gives it. */
  lemma StoredPlainReadBack(data: map<string, string>, s: string, v: real, parse: Parse)
    requires Trimmed(s) && s != "" && ',' !in s
    requires parse(s) == Some(v) && 0.0 <= v <= 100.0
    ensures ExpensesCell(data["expenses" := s]) == s
    ensures StoredExpenses(data["expenses" := s], parse) == v
  {
    assert LookupOr(data["expenses" := s], "expenses", "0") == s;
    PlainUnchanged(s);
  }

  /** What `step_expenses` stores is the percentage `step_comment` deducts,
      for any Decimal reader that reads "0" and the 2-place texts correctly. */
  lemma ExpensesReadBack(data: map<string, string>, text: Option<string>, parse: Parse)
    requires forall h :: parse(FormatHundredths(h)) == Some(Hundredths(h))
    requires parse("0") == Some(0.0)
    ensures var stored := data["expenses" := ExpensesText(text, parse)];
      var txt := Strip(text.GetOr(""));
      && ExpensesCell(stored) == ExpensesText(text, parse)
      && StoredExpenses(stored, parse) ==
         (if txt in Dashes then 0.0 else Hundredths(PercentHundredths(txt, 100, parse)))
  {
    var txt := Strip(text.GetOr(""));
    if txt in Dashes {
      assert ExpensesText(text, parse) == "0";
      assert Trimmed("0") && ',' !in "0";
      StoredPlainReadBack(data, "0", 0.0, parse);
    } else {
      var h := PercentHundredths(txt, 100, parse);
      assert ExpensesText(text, parse) == FormatHundredths(h);
      FormatPlain(h);
      StoredPlainReadBack(data, FormatHundredths(h), Hundredths(h), parse);
    }
  }

  // ---- suggested commission and net profit ----------------------------------

  /** The commission suggested from the converted amounts (in hundredths of
      EUR): `(eur_in - eur_out) / eur_out * 100` quantized half-even, only when
      `eur_in` is known and `eur_out` is known and positive. */
  function SuggestedCommission(eurIn: Option<int>, eurOut: Option<int>): (s: Option<int>)
    ensures s.Some? <==> eurIn.Some? && eurOut.Some? && eurOut.value > 0
    ensures s.Some? ==>
      var pct := (eurIn.value - eurOut.value) as real / eurOut.value as real * 100.0;
      && -0.5 <= 100.0 * pct - s.value as real <= 0.5
      && ((100.0 * pct - s.value as real == 0.5 || s.value as real - 100.0 * pct == 0.5) ==> s.value % 2 == 0)
  {
    if eurIn.Some? && eurOut.Some? && eurOut.value > 0 then
      var gross := Hundredths(eurIn.value) - Hundredths(eurOut.value);
      var pct := gross / Hundredths(eurOut.value) * 100.0;
      assert pct == (eurIn.value - eurOut.value) as real / eurOut.value as real * 100.0;
      Some(QuantizeHalfEven(pct))
    else None
  }

  /** The suggestion has the sign of the gross profit, and a break-even deal
      suggests 0. */
  lemma SuggestedSign(a: int, b: int)
    requires b > 0
    ensures var s := SuggestedCommission(Some(a), Some(b)).value;
      && (a >= b ==> s >= 0)
      && (a <= b ==> s <= 0)
      && (a == b ==> s == 0)
  {
    var pct := (a - b) as real / b as real * 100.0;
    if a >= b {
      assert (a - b) as real / b as real >= 0.0;
    } else {
      assert (a - b) as real / b as real < 0.0;
    }
  }

  /** Net profit in hundredths of EUR: the gross `eur_in - eur_out` less `e`
      percent, quantized half-even; None unless both amounts are known. */
  function NetProfit(eurIn: Option<int>, eurOut: Option<int>, e: real): (p: Option<int>)
    ensures p.Some? <==> eurIn.Some? && eurOut.Some?
    ensures p.Some? ==>
      var x := (eurIn.value - eurOut.value) as real * (1.0 - e / 100.0);
      && -0.5 <= x - p.value as real <= 0.5
      && ((x - p.value as real == 0.5 || p.value as real - x == 0.5) ==> p.value % 2 == 0)
  {
    if eurIn.Some? && eurOut.Some? then
      assert 100.0 * ((Hundredths(eurIn.value) - Hundredths(eurOut.value)) * (1.0 - e / 100.0))
        == (eurIn.value - eurOut.value) as real * (1.0 - e / 100.0);
      Some(QuantizeHalfEven((Hundredths(eurIn.value) - Hundredths(eurOut.value)) * (1.0 - e / 100.0)))
    else None
  }

  /** Scaling by a factor in [0, 1] moves a value towards 0 without passing it. */
  lemma ScaleBounds(h: real, f: real)
    requires 0.0 <= f <= 1.0
    ensures h >= 0.0 ==> 0.0 <= h * f <= h
    ensures h < 0.0 ==> h <= h * f <= 0.0
  {
    assert h - h * f == h * (1.0 - f);
    if h >= 0.0 {
      assert h * f >= 0.0 && h * (1.0 - f) >= 0.0;
    } else {
      var k, g := -h, 1.0 - f;
      assert k * f >= 0.0 && k * g >= 0.0;
      assert h * f == -(k * f) && h * g == -(k * g);
    }
  }

  /** An integer within half of a value between two integers lies between them. */
  lemma NearestInt(x: real, p: int, lo: int, hi: int)
    requires lo as real <= x <= hi as real
    requires -0.5 <= x - p as real <= 0.5
    ensures lo <= p <= hi
  {
    assert (lo - 1) as real < p as real < (hi + 1) as real;
  }

  /** The integer nearest to `g * f`, for a factor `f` in [0, 1], lies between
      0 and `g`, and is `g` itself for `f = 1` and 0 for `f = 0`. */
  lemma NetBounds(g: int, f: real, p: int)
    requires 0.0 <= f <= 1.0
    requires -0.5 <= g as real * f - p as real <= 0.5
    ensures g >= 0 ==> 0 <= p <= g
    ensures g <= 0 ==> g <= p <= 0
    ensures f == 1.0 ==> p == g
    ensures f == 0.0 ==> p == 0
  {
    var x := g as real * f;
    ScaleBounds(g as real, f);
    if g >= 0 {
      NearestInt(x, p, 0, g);
    } else {
      NearestInt(x, p, g, 0);
    }
    if f == 1.0 {
      NearestInt(x, p, g, g);
    }
    if f == 0.0 {
      NearestInt(x, p, 0, 0);
    }
  }

  /** With expenses in [0, 100] the net profit lies between 0 and the gross
      profit; no expenses leave the gross, full expenses leave 0. */
  lemma NetProfitBounds(a: int, b: int, e: real)
    requires 0.0 <= e <= 100.0
    ensures var p := NetProfit(Some(a), Some(b), e).value;
      && (a >= b ==> 0 <= p <= a - b)
      && (a <= b ==> a - b <= p <= 0)
      && (e == 0.0 ==> p == a - b)
      && (e == 100.0 ==> p == 0)
  {
    var p := NetProfit(Some(a), Some(b), e).value;
    NetBounds(a - b, 1.0 - e / 100.0, p);
  }

  // ---- the sheet row of step_comment ----------------------------------------

  /** The column names of app/constants.py, in column order. */
  const ColumnNames: seq<string> :=
    ["name", "currency_in", "amount_in", "currency_out", "amount_out",
     "commission", "expenses", "comment", "date_fixed", "profit_eur"]

  /** `COLUMNS`: column name to 0-based index. */
  const Columns: map<string, nat> :=
    map["name" := 0, "currency_in" := 1, "amount_in" := 2, "currency_out" := 3, "amount_out" := 4,
        "commission" := 5, "expenses" := 6, "comment" := 7, "date_fixed" := 8, "profit_eur" := 9]

  /** The text shown where the profit is unknown. */
  const NotAvailable: string := "н/д"

  /** The user name written into the row: `full_name`, else `username`, else
      the placeholder, stripped. */
  function UserName(fullName: string, username: Option<string>): (u: string)
    ensures Trimmed(u)
    ensures fullName != "" ==> u == Strip(fullName)
    ensures fullName == "" && username.Some? && username.value != "" ==> u == Strip(username.value)
    ensures fullName == "" && (username.None? || username.value == "") ==> u == "Неизвестный"
  {
    assert Trimmed("Неизвестный") && "" + "Неизвестный" + "" == "Неизвестный";
    StripExactly("", "Неизвестный", "");
    var name := if fullName != "" then fullName
      else if username.Some? && username.value != "" then username.value
      else "Неизвестный";
    StripTrimmed(name);
    Strip(name)
  }

  /** The comment: the stripped text, with a lone "-" meaning none. */
  function CommentText(text: string): (c: string)
    ensures Trimmed(c) && c != "-"
    ensures Strip(text) != "-" ==> c == Strip(text)
    ensures Strip(text) == "-" ==> c == ""
  {
    var t := Strip(text);
    StripTrimmed(text);
    if t == "-" then "" else t
  }

  /** The amount text the row stores: the answer with ',' read as '.'. */
  function AmountText(data: map<string, string>, key: string): (t: string)
    ensures ',' !in t
    ensures |t| == |Lookup(data, key, "0")|
    ensures ',' !in Lookup(data, key, "0") ==> t == Lookup(data, key, "0")
    ensures forall i :: 0 <= i < |t| ==>
      t[i] == if Lookup(data, key, "0")[i] == ',' then '.' else Lookup(data, key, "0")[i]
  {
    ReplaceCharFacts(Lookup(data, key, "0"), ',', '.');
    ReplaceChar(Lookup(data, key, "0"), ',', '.')
  }

  /** The commission text of the row: the stored answer, else the suggestion
      recomputed from the converted amounts, else empty. */
  function CommissionCell(data: map<string, string>, eurIn: Option<int>, eurOut: Option<int>): (c: string)
    ensures Strip(LookupOr(data, "commission", "")) != "" ==> c == Strip(LookupOr(data, "commission", ""))
    ensures Strip(LookupOr(data, "commission", "")) == "" ==>
      match SuggestedCommission(eurIn, eurOut)
      case None => c == ""
      case Some(s) => ReadHundredths(c) == Some(s)
  {
    var stored := Strip(LookupOr(data, "commission", ""));
    if stored != "" then stored
    else
      match SuggestedCommission(eurIn, eurOut)
      case None => ""
      case Some(s) =>
        FormatRoundTrip(s);
        FormatHundredths(s)
  }

  /** The profit text of the row: the 2-place net profit, or "н/д". */
  function ProfitCell(net: Option<int>): (c: string)
    ensures c == NotAvailable <==> net.None?
    ensures net.Some? ==> ReadHundredths(c) == net
  {
    match net
    case None => NotAvailable
    case Some(p) =>
      FormatRoundTrip(p);
      var f := FormatHundredths(p);
      assert f != NotAvailable by {
        assert IsDigit(f[|f| - 1]) && !IsDigit(NotAvailable[|NotAvailable| - 1]);
      }
      f
  }

  /** The row of `step_comment` for amounts already converted to `eurIn` and
      `eurOut` (hundredths of EUR); `show` is `str` of a parsed amount. Cell
      `i` holds the column `ColumnNames[i]` (see `ColumnsInOrder`). */
  function Row(user: string, currencyIn: string, amountIn: string, currencyOut: string, amountOut: string,
               commission: string, expenses: string, comment: string, date: string, profit: string): (row: seq<string>)
    ensures |row| == 10
    ensures row[0] == user && row[1] == currencyIn && row[2] == amountIn && row[3] == currencyOut
    ensures row[4] == amountOut && row[5] == commission && row[6] == expenses && row[7] == comment
    ensures row[8] == date && row[9] == profit
  {
    [user, currencyIn, amountIn, currencyOut, amountOut, commission, expenses, comment, date, profit]
  }

  function DealRow(data: map<string, string>, user: string, comment: string, date: string,
                   eurIn: Option<int>, eurOut: Option<int>, parse: Parse, show: string -> string): (row: seq<string>)
    ensures |row| == |ColumnNames| == 10
    ensures row[0] == user
    ensures row[1] == Lookup(data, "currency_in", "?")
    ensures row[2] == show(AmountText(data, "amount_in"))
    ensures row[3] == Lookup(data, "currency_out", "?")
    ensures row[4] == show(AmountText(data, "amount_out"))
    ensures row[5] == CommissionCell(data, eurIn, eurOut)
    ensures row[6] == ExpensesCell(data)
    ensures row[7] == comment && row[8] == date
    ensures row[9] == ProfitCell(NetProfit(eurIn, eurOut, StoredExpenses(data, parse)))
  {
    Row(user, Lookup(data, "currency_in", "?"), show(AmountText(data, "amount_in")),
        Lookup(data, "currency_out", "?"), show(AmountText(data, "amount_out")),
        CommissionCell(data, eurIn, eurOut), ExpensesCell(data), comment, date,
        ProfitCell(NetProfit(eurIn, eurOut, StoredExpenses(data, parse))))
  }

  /** The profit cell shows "н/д" exactly when an amount could not be
      converted, and otherwise the net profit after the stored expenses. */
  lemma DealRowProfit(data: map<string, string>, user: string, comment: string, date: string,
                      eurIn: Option<int>, eurOut: Option<int>, parse: Parse, show: string -> string)
    ensures var row := DealRow(data, user, comment, date, eurIn, eurOut, parse, show);
      && (row[9] == NotAvailable <==> eurIn.None? || eurOut.None?)
      && (eurIn.Some? && eurOut.Some? ==>
            ReadHundredths(row[9]) == NetProfit(eurIn, eurOut, StoredExpenses(data, parse)))
  {
  }

  /** The row lists the columns in the order of `COLUMNS`. */
  lemma ColumnsInOrder()
    ensures |ColumnNames| == 10
    ensures forall i :: 0 <= i < |ColumnNames| ==> ColumnNames[i] in Columns && Columns[ColumnNames[i]] == i
    ensures forall k :: k in Columns ==> k in ColumnNames
  {
  }

  // ---- the two handlers that convert amounts --------------------------------

  /** `step_amount_out` after storing the amount: both stored amounts are
      parsed (no suggestion when one is not a number, before any rate is
      looked up), converted at today's rates, and the suggested commission is
      returned as the text it is stored under. */
  method SuggestForDeal(cache: Rates.RateCache, data: map<string, string>, today: int,
                        fetch: Rates.Fetch, parse: Parse)
    returns (suggested: Option<string>)
    modifies cache
    ensures parse(AmountText(data, "amount_in")).None? || parse(AmountText(data, "amount_out")).None? ==>
      suggested == None && cache.entries == old(cache.entries)
    ensures parse(AmountText(data, "amount_in")).Some? && parse(AmountText(data, "amount_out")).Some? ==>
      var r1 := Rates.Resolve(old(cache.entries), Lookup(data, "currency_in", "?"), today, today, fetch);
      var r2 := Rates.Resolve(r1.cache, Lookup(data, "currency_out", "?"), today, today, fetch);
      var s := SuggestedCommission(Rates.EurAmount(parse(AmountText(data, "amount_in")).value, r1.rate),
                                   Rates.EurAmount(parse(AmountText(data, "amount_out")).value, r2.rate));
      cache.entries == r2.cache && (suggested.Some? <==> s.Some?) &&
      (s.Some? ==> suggested.value == FormatHundredths(s.value))
  {
    var amountIn := parse(AmountText(data, "amount_in"));
    var amountOut := parse(AmountText(data, "amount_out"));
    if amountIn.None? || amountOut.None? {
      return None;
    }
    var eurIn, _ := Rates.ConvertToEur(cache, amountIn.value, Lookup(data, "currency_in", "?"), today, today, fetch);
    var eurOut, _ := Rates.ConvertToEur(cache, amountOut.value, Lookup(data, "currency_out", "?"), today, today, fetch);
    var s := SuggestedCommission(eurIn, eurOut);
    suggested := if s.Some? then Some(FormatHundredths(s.value)) else None;
  }

  /** `step_comment`: the row appended to the sheet, or None where a stored
      amount is not a number (the handler then reports an error, before any
      rate is looked up). */
  method RowForDeal(cache: Rates.RateCache, data: map<string, string>, fullName: string,
                    username: Option<string>, text: string, today: int, date: string,
                    fetch: Rates.Fetch, parse: Parse, show: string -> string)
    returns (row: Option<seq<string>>)
    modifies cache
    ensures parse(AmountText(data, "amount_in")).None? || parse(AmountText(data, "amount_out")).None? ==>
      row == None && cache.entries == old(cache.entries)
    ensures parse(AmountText(data, "amount_in")).Some? && parse(AmountText(data, "amount_out")).Some? ==>
      var r1 := Rates.Resolve(old(cache.entries), Lookup(data, "currency_in", "?"), today, today, fetch);
      var r2 := Rates.Resolve(r1.cache, Lookup(data, "currency_out", "?"), today, today, fetch);
      cache.entries == r2.cache &&
      row == Some(DealRow(data, UserName(fullName, username), CommentText(text), date,
                          Rates.EurAmount(parse(AmountText(data, "amount_in")).value, r1.rate),
                          Rates.EurAmount(parse(AmountText(data, "amount_out")).value, r2.rate),
                          parse, show))
  {
    var user := UserName(fullName, username);
    var comment := CommentText(text);
    var amountIn := parse(AmountText(data, "amount_in"));
    var amountOut := parse(AmountText(data, "amount_out"));
    if amountIn.None? || amountOut.None? {
      return None;
    }
    var eurIn, _ := Rates.ConvertToEur(cache, amountIn.value, Lookup(data, "currency_in", "?"), today, today, fetch);
    var eurOut, _ := Rates.ConvertToEur(cache, amountOut.value, Lookup(data, "currency_out", "?"), today, today, fetch);
    row := Some(DealRow(data, user, comment, date, eurIn, eurOut, parse, show));
  }
}
