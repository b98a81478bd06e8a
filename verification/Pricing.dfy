/** Prices of pay-per-gig transfers (gateway/src/pricing.ts) at the default rates, over exact reals
    with the source's rounding to six decimals. */
module Pricing {
  import opened Basics

  const BYTES_PER_GB := 1000000000.0
  const CENTS_PER_GB := 2.0
  const INCLUDED_DOWNLOADS := 2
  const MAX_DOWNLOADS := 10
  const INCLUDED_WEEKS := 1
  const MAX_WEEKS := 5

  datatype Gateway = Stripe | Coinbase

  datatype Quote = Quote(baseCents: int, extraDownloadsCents: int, extraWeeksCents: int, feeCents: int, amountCents: int)

  /** Towards zero. */
  function Trunc(x: real): int { if x >= 0.0 then x.Floor else -(-x).Floor }

  /** A raw count that is not a finite number is `None` and counts as the least. */
  function ClampInt(raw: Option<real>, lo: int, hi: int): (n: int)
    requires 0 <= lo <= hi
    ensures lo <= n <= hi
    ensures n == lo <==> raw.None? || lo == hi || raw.value < (lo + 1) as real
    ensures raw.Some? && raw.value >= hi as real ==> n == hi
    ensures raw.Some? && lo as real <= raw.value < hi as real ==> n as real <= raw.value < n as real + 1.0
  {
    if raw.None? then lo else Min(hi, Max(lo, Trunc(raw.value)))
  }

  /** To the nearest millionth of a cent, halves up, as `toFixed(6)` does for amounts from zero. */
  function Micros(cents: real): int { (cents * 1000000.0 + 0.5).Floor }

  function CeilCents(cents: real): int { CeilDiv(Micros(cents), 1000000) }

  function Gb(bytes: nat): real { bytes as real / BYTES_PER_GB }

  /** A flat add-on of one cent per gigabyte and unit. */
  function Extra(units: nat, gb: real): real { units as real * gb }

  function Beyond(chosen: int, included: int): nat { Max(0, chosen - included) }

  function FeeFactor(g: Gateway): real { if g.Stripe? then 1.03 else 1.02 }

  function FlatFee(g: Gateway): real { if g.Stripe? then 30.0 else 0.0 }

  function MinCharge(g: Gateway): int { if g.Stripe? then 50 else 0 }

  /** The total before rounding. */
  function Unrounded(bytes: nat, downloads: int, weeks: int, g: Gateway): real {
    CENTS_PER_GB * Gb(bytes) * FeeFactor(g) + FlatFee(g)
      + Extra(Beyond(downloads, INCLUDED_DOWNLOADS), Gb(bytes)) + Extra(Beyond(weeks, INCLUDED_WEEKS), Gb(bytes))
  }

  function Price(bytes: nat, downloads: int, weeks: int, g: Gateway): Quote {
    var amount := Max(MinCharge(g), CeilCents(Unrounded(bytes, downloads, weeks, g)));
    var baseCents := CeilCents(CENTS_PER_GB * Gb(bytes));
    var dl := CeilCents(Extra(Beyond(downloads, INCLUDED_DOWNLOADS), Gb(bytes)));
    var wk := CeilCents(Extra(Beyond(weeks, INCLUDED_WEEKS), Gb(bytes)));
    Quote(baseCents, dl, wk, Max(0, amount - baseCents - dl - wk), amount)
  }

  function Amount(bytes: nat, downloads: int, weeks: int, g: Gateway): int { Price(bytes, downloads, weeks, g).amountCents }

  /** Half a millionth of a cent. */
  const SLACK := 0.0000005

  // ───────── the rounding ─────────

  /** A rounded amount is at most the rounding error below the exact one, and at most that and a
      cent above. */
  lemma CeilCentsBounds(x: real)
    ensures x - SLACK <= CeilCents(x) as real < x + 1.0 + SLACK
  {
    var m := Micros(x);
    assert m as real <= x * 1000000.0 + 0.5 < m as real + 1.0;
    var c := CeilCents(x);
    assert m <= c * 1000000 < m + 1000000;
    assert c as real * 1000000.0 == (c * 1000000) as real;
    assert (c * 1000000) as real >= m as real > x * 1000000.0 - 0.5;
    assert (c * 1000000) as real <= m as real + 999999.0;
  }

  lemma CeilCentsMonotone(x: real, y: real)
    requires x <= y
    ensures CeilCents(x) <= CeilCents(y)
  {
    assert x * 1000000.0 + 0.5 <= y * 1000000.0 + 0.5;
    assert Micros(x) <= Micros(y);
  }

  lemma ExtraMonotone(m: nat, n: nat, x: real, y: real)
    requires m <= n && 0.0 <= x <= y
    ensures 0.0 <= Extra(m, x) <= Extra(n, y)
  {
    assert m as real * x <= n as real * x <= n as real * y;
  }

  lemma ExtraSplits(n: nat, x: real, y: real)
    ensures Extra(n, x + y) == Extra(n, x) + Extra(n, y)
  {
  }

  // ───────── the price ─────────

  /** More bytes, downloads or weeks never cost less. */
  lemma PriceIsMonotone(b: nat, b': nat, d: int, d': int, w: int, w': int, g: Gateway)
    requires b <= b' && d <= d' && w <= w'
    ensures Amount(b, d, w, g) <= Amount(b', d', w', g)
  {
    assert 0.0 <= Gb(b) <= Gb(b');
    ExtraMonotone(Beyond(d, INCLUDED_DOWNLOADS), Beyond(d', INCLUDED_DOWNLOADS), Gb(b), Gb(b'));
    ExtraMonotone(Beyond(w, INCLUDED_WEEKS), Beyond(w', INCLUDED_WEEKS), Gb(b), Gb(b'));
    CeilCentsMonotone(Unrounded(b, d, w, g), Unrounded(b', d', w', g));
  }

  /** The charge is never below the floor nor below the exact total less the rounding error, and
      above the floor it is less than a cent, and that error, over the total. */
  lemma PriceIsTight(b: nat, d: int, w: int, g: Gateway)
    ensures var exact, amount := Unrounded(b, d, w, g), Amount(b, d, w, g);
            && amount >= MinCharge(g) && exact - SLACK <= amount as real
            && (amount > MinCharge(g) ==> amount as real < exact + 1.0 + SLACK)
  {
    CeilCentsBounds(Unrounded(b, d, w, g));
  }

  /** By card, one batch costs at least 29 cents less than the same bytes in two. */
  lemma BatchingSaves(b: nat, b': nat, d: int, w: int)
    ensures Amount(b + b', d, w, Stripe) + 29 <= Amount(b, d, w, Stripe) + Amount(b', d, w, Stripe)
  {
    var dl, wk := Beyond(d, INCLUDED_DOWNLOADS), Beyond(w, INCLUDED_WEEKS);
    assert Gb(b + b') == Gb(b) + Gb(b');
    ExtraSplits(dl, Gb(b), Gb(b'));
    ExtraSplits(wk, Gb(b), Gb(b'));
    assert Unrounded(b + b', d, w, Stripe) == Unrounded(b, d, w, Stripe) + Unrounded(b', d, w, Stripe) - 30.0;
    CeilCentsBounds(Unrounded(b, d, w, Stripe));
    CeilCentsBounds(Unrounded(b', d, w, Stripe));
    CeilCentsBounds(Unrounded(b + b', d, w, Stripe));
  }

  function Parts(q: Quote): int { q.baseCents + q.extraDownloadsCents + q.extraWeeksCents }

  lemma PartsBounds(b: nat, d: int, w: int, g: Gateway)
    ensures var gb := Gb(b);
            Parts(Price(b, d, w, g)) as real < CENTS_PER_GB * gb + Extra(Beyond(d, INCLUDED_DOWNLOADS), gb)
                                                + Extra(Beyond(w, INCLUDED_WEEKS), gb) + 3.0 + 3.0 * SLACK
  {
    CeilCentsBounds(CENTS_PER_GB * Gb(b));
    CeilCentsBounds(Extra(Beyond(d, INCLUDED_DOWNLOADS), Gb(b)));
    CeilCentsBounds(Extra(Beyond(w, INCLUDED_WEEKS), Gb(b)));
  }

  /** By card the receipt's parts and fee sum to the charge, and the fee is at least 27 cents. */
  lemma StripeReceiptAddsUp(b: nat, d: int, w: int)
    ensures var q := Price(b, d, w, Stripe);
            Parts(q) + q.feeCents == q.amountCents && q.feeCents >= 27
  {
    PartsBounds(b, d, w, Stripe);
    PriceIsTight(b, d, w, Stripe);
    assert Gb(b) >= 0.0;
  }

  lemma CeilCentsReaches(x: real, n: int)
    ensures CeilCents(x) >= n <==> Micros(x) > (n - 1) * 1000000
  {
  }

  /** By crypto the receipt adds up exactly when the total, rounded to millionths, comes within less
      than a cent of its three parts' sum, each rounded up on its own. */
  lemma CoinbaseReceiptAddsUpIff(b: nat, d: int, w: int)
    ensures var q := Price(b, d, w, Coinbase);
            var base := CENTS_PER_GB * Gb(b);
            var dl, wk := Extra(Beyond(d, INCLUDED_DOWNLOADS), Gb(b)), Extra(Beyond(w, INCLUDED_WEEKS), Gb(b));
            Parts(q) + q.feeCents == q.amountCents <==>
            Micros(1.02 * base + dl + wk) > (CeilCents(base) + CeilCents(dl) + CeilCents(wk) - 1) * 1000000
  {
    var gb := Gb(b);
    var base := CENTS_PER_GB * gb;
    var dl, wk := Extra(Beyond(d, INCLUDED_DOWNLOADS), gb), Extra(Beyond(w, INCLUDED_WEEKS), gb);
    ExtraMonotone(0, Beyond(d, INCLUDED_DOWNLOADS), gb, gb);
    ExtraMonotone(0, Beyond(w, INCLUDED_WEEKS), gb, gb);
    CeilCentsMonotone(0.0, 1.02 * base + dl + wk);
    assert CeilCents(0.0) == 0;
    assert Unrounded(b, d, w, Coinbase) == 1.02 * base + dl + wk;
    CeilCentsReaches(1.02 * base + dl + wk, CeilCents(base) + CeilCents(dl) + CeilCents(wk));
  }

  lemma LargeTotalsFit(base: real, dl: real, wk: real)
    requires base >= 102.0
    ensures CeilCents(base) + CeilCents(dl) + CeilCents(wk) <= CeilCents(1.02 * base + dl + wk)
  {
    CeilCentsBounds(base);
    CeilCentsBounds(dl);
    CeilCentsBounds(wk);
    CeilCentsBounds(1.02 * base + dl + wk);
    var parts, total := CeilCents(base) + CeilCents(dl) + CeilCents(wk), CeilCents(1.02 * base + dl + wk);
    assert parts as real < base + dl + wk + 3.0 + 3.0 * SLACK;
    assert (parts - total) as real < 1.0;
  }

  lemma LoneBaseFits(base: real)
    requires base >= 0.0
    ensures CeilCents(base) + CeilCents(0.0) + CeilCents(0.0) <= CeilCents(1.02 * base + 0.0 + 0.0)
  {
    CeilCentsMonotone(base, 1.02 * base + 0.0 + 0.0);
    assert Micros(0.0) == 0;
  }

  ghost predicate PartsFit(base: real, dl: real, wk: real) {
    CeilCents(base) + CeilCents(dl) + CeilCents(wk) <= CeilCents(1.02 * base + dl + wk)
  }

  lemma CoinbasePartsFit(b: nat, d: int, w: int)
    requires (d <= INCLUDED_DOWNLOADS && w <= INCLUDED_WEEKS) || b >= 51000000000
    ensures PartsFit(CENTS_PER_GB * Gb(b), Extra(Beyond(d, INCLUDED_DOWNLOADS), Gb(b)), Extra(Beyond(w, INCLUDED_WEEKS), Gb(b)))
  {
    var gb := Gb(b);
    if b >= 51000000000 {
      assert gb >= 51.0;
      LargeTotalsFit(CENTS_PER_GB * gb, Extra(Beyond(d, INCLUDED_DOWNLOADS), gb), Extra(Beyond(w, INCLUDED_WEEKS), gb));
    } else {
      assert Extra(0, gb) == 0.0;
      LoneBaseFits(CENTS_PER_GB * gb);
    }
  }

  /** So it does without add-ons, and from 51 GB on. */
  lemma CoinbaseReceiptAddsUp(b: nat, d: int, w: int)
    requires (d <= INCLUDED_DOWNLOADS && w <= INCLUDED_WEEKS) || b >= 51000000000
    ensures var q := Price(b, d, w, Coinbase);
            Parts(q) + q.feeCents == q.amountCents
  {
    var base := CENTS_PER_GB * Gb(b);
    var dl, wk := Extra(Beyond(d, INCLUDED_DOWNLOADS), Gb(b)), Extra(Beyond(w, INCLUDED_WEEKS), Gb(b));
    CoinbasePartsFit(b, d, w);
    CeilCentsReaches(1.02 * base + dl + wk, CeilCents(base) + CeilCents(dl) + CeilCents(wk));
    CoinbaseReceiptAddsUpIff(b, d, w);
  }

  /** A small file with add-ons shows parts of three cents on a charge of one. */
  lemma CoinbaseReceiptCanFail()
    ensures var q := Price(150000000, 3, 2, Coinbase);
            Parts(q) == 3 && q.amountCents == 1 && q.feeCents == 0
  {
    var gb := Gb(150000000);
    assert gb == 0.15;
    assert Extra(1, gb) == 0.15;
    assert Unrounded(150000000, 3, 2, Coinbase) == 0.606;
    assert Micros(0.606) == 606000 && Micros(0.3) == 300000 && Micros(0.15) == 150000;
  }

  // ───────── the lines of a quote ─────────

  /** A cent a gigabyte for each unit over what is free. */
  function AddOn(chosen: int, free: int, gb: real): real {
    if chosen > free then (chosen - free) as real * gb else 0.0
  }

  /** The exact charge, in cents: 2 a gigabyte with 3 percent and 30 flat by card, with 2 percent by
      crypto, and 1 a gigabyte for each download over two and each week over one. */
  function ExactCents(bytes: nat, downloads: int, weeks: int, g: Gateway): real {
    var gb := bytes as real / 1000000000.0;
    (match g case Stripe => 2.06 * gb + 30.0 case Coinbase => 2.04 * gb)
      + AddOn(downloads, 2, gb) + AddOn(weeks, 1, gb)
  }

  /** `cents` is `exact` rounded up to whole cents, but for a rounding error of half a millionth. */
  ghost predicate IsRoundedUp(cents: int, exact: real) {
    exact - SLACK <= cents as real < exact + 1.0 + SLACK
  }

  lemma ExtraIsAddOn(chosen: int, free: int, gb: real)
    ensures Extra(Beyond(chosen, free), gb) == AddOn(chosen, free, gb)
  {
    if chosen <= free { assert Beyond(chosen, free) == 0; }
  }

  lemma UnroundedIsExact(b: nat, d: int, w: int, g: Gateway)
    ensures Unrounded(b, d, w, g) == ExactCents(b, d, w, g)
  {
    var gb := Gb(b);
    ExtraIsAddOn(d, INCLUDED_DOWNLOADS, gb);
    ExtraIsAddOn(w, INCLUDED_WEEKS, gb);
    assert CENTS_PER_GB * gb * 1.03 == 2.06 * gb && CENTS_PER_GB * gb * 1.02 == 2.04 * gb;
  }

  lemma CeilCentsRoundsUp(x: real)
    ensures IsRoundedUp(CeilCents(x), x)
  {
    CeilCentsBounds(x);
  }

  /** Each line of a quote is its own part of the price, rounded up. */
  lemma LinesArePriced(b: nat, d: int, w: int, g: Gateway)
    ensures var q, gb := Price(b, d, w, g), b as real / 1000000000.0;
            && IsRoundedUp(q.baseCents, 2.0 * gb)
            && IsRoundedUp(q.extraDownloadsCents, AddOn(d, 2, gb)) && IsRoundedUp(q.extraWeeksCents, AddOn(w, 1, gb))
  {
    ExtraIsAddOn(d, INCLUDED_DOWNLOADS, Gb(b));
    ExtraIsAddOn(w, INCLUDED_WEEKS, Gb(b));
    CeilCentsRoundsUp(2.0 * Gb(b));
    CeilCentsRoundsUp(AddOn(d, 2, Gb(b)));
    CeilCentsRoundsUp(AddOn(w, 1, Gb(b)));
  }

  /** The charge is the exact one rounded up, or 50 cents by card when that is more. */
  lemma ChargeIsExact(b: nat, d: int, w: int, g: Gateway)
    ensures var amount := Price(b, d, w, g).amountCents;
            && (g == Stripe ==> amount >= 50)
            && (IsRoundedUp(amount, ExactCents(b, d, w, g)) || (g == Stripe && amount == 50 && ExactCents(b, d, w, g) <= 50.0 + SLACK))
  {
    UnroundedIsExact(b, d, w, g);
    CeilCentsRoundsUp(Unrounded(b, d, w, g));
  }

  /** The fee is what the other lines leave of the charge, and nothing when they leave nothing. */
  lemma FeeIsTheRest(b: nat, d: int, w: int, g: Gateway)
    ensures var q := Price(b, d, w, g);
            var rest := q.amountCents - (q.baseCents + q.extraDownloadsCents + q.extraWeeksCents);
            if rest > 0 then q.feeCents == rest else q.feeCents == 0
  {
  }

  /** Whole amounts of cents are charged as they are. */
  lemma WholeCentsStay(n: nat)
    ensures CeilCents(n as real) == n
  {
    assert Micros(n as real) == n * 1000000;
  }
}
