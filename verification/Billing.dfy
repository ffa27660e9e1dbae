/**
 The money math of packages/billing.ee: microcents are unbounded integers, markup is in basis points,
 dollars are reals. A JavaScript number that must be an integer is a real here, so that the check for it is real too.
 */
module Billing {
  import opened Wrappers

  datatype MoneyError = Negative | BadMarkup | RangeError

  predicate IsInteger(x: real) { x.Floor as real == x }

  function TruncatedDiv(n: int, d: int): int
    requires d != 0
  {
    if n >= 0 then n / d else -(-n / d)
  }

  function ApplyMarkup(raw: int, bps: real): Result<int, MoneyError> {
    if raw < 0 then Err(Negative)
    else if !IsInteger(bps) || bps < 0.0 then Err(BadMarkup)
    else if bps == 0.0 then Ok(raw)
    else Ok(TruncatedDiv(raw * (10000 + bps.Floor), 10000))
  }

  /** The source checks neither the sign nor the integrality of the markup here: BigInt throws on a fraction,
      and the division throws on a markup of minus 100 percent. */
  function RefundMarkup(billed: int, bps: real): Result<int, MoneyError> {
    if billed < 0 then Err(Negative)
    else if bps == 0.0 then Ok(billed)
    else if !IsInteger(bps) || 10000 + bps.Floor == 0 then Err(RangeError)
    else Ok(TruncatedDiv(billed * 10000, 10000 + bps.Floor))
  }

  /** Math.round rounds half up. */
  function DollarsToMicrocents(dollars: real): Result<int, MoneyError> {
    if dollars < 0.0 then Err(Negative) else Ok((dollars * 1000000.0 + 0.5).Floor)
  }

  // ---------------------------------------------------------------- markup and refund

  function Marked(raw: nat, bps: nat): nat {
    raw * (10000 + bps) / 10000
  }

  lemma DivBounds(n: int, d: int)
    requires d > 0
    ensures n / d * d <= n < n / d * d + d
  {
  }

  lemma DivIs(n: int, d: int, q: int)
    requires d > 0 && q * d <= n < q * d + d
    ensures n / d == q
  {
    DivBounds(n, d);
    SameMultiple(n, d, n / d, q);
  }

  lemma SameMultiple(n: int, d: int, e: int, q: int)
    requires d > 0 && e * d <= n < e * d + d && q * d <= n < q * d + d
    ensures e == q
  {
    assert (e - q) * d == e * d - q * d;
    assert -d < (e - q) * d < d;
    SmallMultiple(e - q, d);
  }

  lemma SmallMultiple(k: int, d: int)
    requires d > 0 && -d < k * d < d
    ensures k == 0
  {
    if k > 0 { MultipleIsLarge(k, d); } else if k < 0 { MultipleIsLarge(-k, d); }
  }

  lemma MultipleIsLarge(k: int, d: int)
    requires k > 0 && d > 0
    ensures k * d >= d
  {
    assert k * d == d + (k - 1) * d;
  }

  /** ApplyMarkup succeeds exactly on a non-negative amount and a non-negative whole markup, and then it
      is the largest number of microcents not above the exact price. */
  lemma MarkupIsTheFloorOfThePrice(raw: int, bps: real)
    ensures ApplyMarkup(raw, bps).Ok? <==> raw >= 0 && IsInteger(bps) && bps >= 0.0
    ensures ApplyMarkup(raw, bps).Ok? ==>
              var m := ApplyMarkup(raw, bps).value;
              m == Marked(raw, bps.Floor) && m * 10000 <= raw * (10000 + bps.Floor) < (m + 1) * 10000
  {
    if raw >= 0 && IsInteger(bps) && bps >= 0.0 {
      DivBounds(raw * (10000 + bps.Floor), 10000);
      if bps == 0.0 { DivIs(raw * 10000, 10000, raw); }
    }
  }

  /** A refund gives back the raw cost, or one microcent less exactly when the markup had to be rounded. */
  lemma RefundUndoesMarkup(raw: nat, bps: nat)
    ensures var billed := ApplyMarkup(raw, bps as real);
            billed.Ok? && RefundMarkup(billed.value, bps as real)
              == Ok(if raw * (10000 + bps) % 10000 == 0 then raw else raw - 1)
  {
    MarkupIsTheFloorOfThePrice(raw, bps as real);
    var d := 10000 + bps;
    var m := Marked(raw, bps);
    var lost := raw * d - m * 10000;
    DivBounds(raw * d, 10000);
    assert lost == raw * d % 10000;
    if bps == 0 {
      DivIs(raw * 10000, 10000, raw);
    } else if lost == 0 {
      DivIs(m * 10000, d, raw);
    } else {
      assert (raw - 1) * d == raw * d - d;
      DivIs(m * 10000, d, raw - 1);
    }
  }

  /** One microcent at one basis point is billed as one microcent, and refunded as none. */
  lemma RefundCanLoseOne()
    ensures ApplyMarkup(1, 1.0) == Ok(1) && RefundMarkup(1, 1.0) == Ok(0)
  {
    assert (1.0).Floor == 1;
  }

  /** Which error markup and refund give. */
  lemma MoneyErrors(amount: int, bps: real)
    ensures ApplyMarkup(amount, bps) == Err(Negative) <==> amount < 0
    ensures ApplyMarkup(amount, bps) == Err(BadMarkup) <==> amount >= 0 && (bps < 0.0 || bps.Floor as real != bps)
    ensures RefundMarkup(amount, bps) == Err(Negative) <==> amount < 0
    ensures RefundMarkup(amount, bps) == Err(RangeError) <==>
            amount >= 0 && (bps == -10000.0 || bps.Floor as real != bps)
  {
    MarkupIsTheFloorOfThePrice(amount, bps);
    assert (-10000.0).Floor == -10000;
  }

  /** A refund of any amount is the quotient truncated toward zero, whatever the sign of the divisor. */
  lemma RefundIsTheQuotient(billed: nat, bps: int)
    requires bps != -10000
    ensures var d, r := 10000 + bps, RefundMarkup(billed, bps as real);
            && r.Ok?
            && 0 <= billed * 10000 - r.value * d < (if d > 0 then d else -d)
  {
    var d := 10000 + bps;
    var n := billed * 10000;
    if bps == 0 {
      assert billed * 10000 == billed * d;
    } else if d > 0 {
      DivBounds(n, d);
    } else {
      QuotientByNegative(n, d);
    }
  }

  lemma QuotientByNegative(n: nat, d: int)
    requires d < 0
    ensures 0 <= n - TruncatedDiv(n, d) * d < -d
  {
    assert n == n / d * d + n % d;
  }

  /** Dollars become the nearest number of microcents, and the larger one half-way between two; below zero is an
      error. */
  lemma DollarsAreRoundedHalfUp(dollars: real)
    ensures DollarsToMicrocents(dollars) == Err(Negative) <==> dollars < 0.0
    ensures dollars >= 0.0 ==>
              && DollarsToMicrocents(dollars).Ok?
              && var m := DollarsToMicrocents(dollars).value as real;
                 m - 0.5 <= dollars * 1000000.0 < m + 0.5
  {
  }

  lemma MarkupIsMonotone(raw: nat, raw': nat, bps: nat, bps': nat)
    requires raw <= raw' && bps <= bps'
    ensures Marked(raw, bps) <= Marked(raw', bps')
  {
    assert raw * (10000 + bps) <= raw' * (10000 + bps);
    assert raw' * (10000 + bps) <= raw' * (10000 + bps');
    QuotientIsMonotone(raw * (10000 + bps), raw' * (10000 + bps'));
  }

  lemma QuotientIsMonotone(n: int, n': int)
    requires n <= n'
    ensures n / 10000 <= n' / 10000
  {
  }

  function Sum(xs: seq<nat>): nat {
    if xs == [] then 0 else xs[0] + Sum(xs[1..])
  }

  function SumMarked(xs: seq<nat>, bps: nat): nat {
    if xs == [] then 0 else Marked(xs[0], bps) + SumMarked(xs[1..], bps)
  }

  lemma MarkedOfTwo(x: nat, y: nat, bps: nat)
    ensures 0 <= Marked(x + y, bps) - (Marked(x, bps) + Marked(y, bps)) <= 1
  {
    var d := 10000 + bps;
    assert (x + y) * d == x * d + y * d;
    QuotientOfTwo(x * d, y * d);
  }

  lemma QuotientOfTwo(m: int, n: int)
    ensures 0 <= (m + n) / 10000 - (m / 10000 + n / 10000) <= 1
  {
  }

  /** Marking up event by event costs the customer at most n - 1 microcents less than marking up the total. */
  lemma {:induction false} BatchRounding(xs: seq<nat>, bps: nat)
    requires xs != []
    ensures 0 <= Marked(Sum(xs), bps) - SumMarked(xs, bps) <= |xs| - 1
    decreases |xs|
  {
    if |xs| == 1 {
      assert xs[1..] == [];
    } else {
      BatchRounding(xs[1..], bps);
      MarkedOfTwo(xs[0], Sum(xs[1..]), bps);
    }
  }

  // ---------------------------------------------------------------- spend events

  datatype Mode = Managed | ByokPassthrough | Disabled

  datatype SpendRecord = SpendRecord(
    requestId: string, tenantId: string, feature: string, model: string,
    promptTokens: int, completionTokens: int, spendUsd: real, occurredAt: int)

  datatype SpendEvent = SpendEvent(
    tenantId: string, feature: string, model: string, promptTokens: int, completionTokens: int,
    rawCostMicrocents: int, markedUpMicrocents: int, litellmRequestId: string, occurredAt: int)

  function NormaliseOne(r: SpendRecord, markup: real): Result<SpendEvent, MoneyError> {
    match DollarsToMicrocents(r.spendUsd)
    case Err(e) => Err(e)
    case Ok(raw) =>
      match ApplyMarkup(raw, markup)
      case Err(e) => Err(e)
      case Ok(marked) =>
        Ok(SpendEvent(r.tenantId, r.feature, r.model, r.promptTokens, r.completionTokens, raw, marked, r.requestId,
            r.occurredAt))
  }

  /** records.map: the first record that throws ends the batch. */
  function NormaliseAll(rs: seq<SpendRecord>, markup: real): Result<seq<SpendEvent>, MoneyError> {
    if rs == [] then Ok([])
    else
      match NormaliseOne(rs[0], markup)
      case Err(e) => Err(e)
      case Ok(first) =>
        match NormaliseAll(rs[1..], markup)
        case Err(e) => Err(e)
        case Ok(rest) => Ok([first] + rest)
  }

  function NormaliseSpendEvents(rs: seq<SpendRecord>, mode: Mode, markupBps: real)
    : Result<seq<SpendEvent>, MoneyError>
  {
    NormaliseAll(rs, if mode.Managed? then markupBps else 0.0)
  }

  function TotalUsd(rs: seq<SpendRecord>): real {
    if rs == [] then 0.0 else rs[0].spendUsd + TotalUsd(rs[1..])
  }

  function TotalMarked(es: seq<SpendEvent>): int {
    if es == [] then 0 else es[0].markedUpMicrocents + TotalMarked(es[1..])
  }

  /** The exact price of a spend, in microcents. */
  function Price(usd: real, bps: nat): real {
    1000000.0 * (1.0 + bps as real / 10000.0) * usd
  }

  /** How far one record's billed amount can be from its price. */
  function Tolerance(bps: nat): real {
    (10000 + bps) as real / 20000.0 + 1.0
  }

  lemma ScaleRounding(exact: real, raw: real, f: real)
    requires f >= 0.0 && -0.5 <= raw - exact <= 0.5
    ensures -f / 2.0 <= raw * f - exact * f <= f / 2.0
  {
    assert raw * f - exact * f == (raw - exact) * f;
    if raw - exact < 0.0 { assert (exact - raw) * f <= 0.5 * f; } else { assert (raw - exact) * f <= 0.5 * f; }
  }

  lemma RecordError(r: SpendRecord, bps: nat)
    requires NormaliseOne(r, bps as real).Ok?
    ensures var e := NormaliseOne(r, bps as real).value;
            -Tolerance(bps) <= e.markedUpMicrocents as real - Price(r.spendUsd, bps) <= Tolerance(bps)
  {
    hide Price, Tolerance, IsInteger;
    var e := NormaliseOne(r, bps as real).value;
    hide ApplyMarkup;
    MarkupIsTheFloorOfThePrice(e.rawCostMicrocents, bps as real);
    FloorOfWhole(bps);
    OneRecordInReals(r.spendUsd, bps, e.rawCostMicrocents, e.markedUpMicrocents);
  }

  lemma FloorOfWhole(n: nat)
    ensures (n as real).Floor == n
  {
  }

  lemma OneRecordInReals(usd: real, bps: nat, raw: int, m: int)
    requires raw == (usd * 1000000.0 + 0.5).Floor
    requires m * 10000 <= raw * (10000 + bps) < (m + 1) * 10000
    ensures -Tolerance(bps) <= m as real - Price(usd, bps) <= Tolerance(bps)
  {
    hide Price, Tolerance;
    var f := (10000 + bps) as real / 10000.0;
    ScaleRounding(usd * 1000000.0, raw as real, f);
    FloorInReals(raw, bps, m);
    PriceIsScaled(usd, bps);
    ToleranceIsScaled(bps);
  }

  lemma ToleranceIsScaled(bps: nat)
    ensures Tolerance(bps) == ((10000 + bps) as real / 10000.0) / 2.0 + 1.0
  {
  }

  lemma FloorInReals(raw: int, bps: nat, m: int)
    requires m * 10000 <= raw * (10000 + bps) < (m + 1) * 10000
    ensures var exact := raw as real * ((10000 + bps) as real / 10000.0);
            m as real <= exact < m as real + 1.0
  {
    var n := raw * (10000 + bps);
    assert n as real == raw as real * (10000 + bps) as real;
    assert raw as real * ((10000 + bps) as real / 10000.0) == n as real / 10000.0;
  }

  lemma PriceIsScaled(usd: real, bps: nat)
    ensures Price(usd, bps) == (usd * 1000000.0) * ((10000 + bps) as real / 10000.0)
  {
    var f := (10000 + bps) as real / 10000.0;
    assert 1.0 + bps as real / 10000.0 == f;
    assert 1000000.0 * f * usd == (usd * 1000000.0) * f;
  }

  /** n managed records are billed within n tolerances of the exact price of their total. */
  lemma {:induction false} BilledIsNearThePrice(rs: seq<SpendRecord>, bps: nat)
    requires NormaliseSpendEvents(rs, Managed, bps as real).Ok?
    ensures var es := NormaliseSpendEvents(rs, Managed, bps as real).value;
            && |es| == |rs|
            && var error := TotalMarked(es) as real - Price(TotalUsd(rs), bps);
               -(|rs| as real * Tolerance(bps)) <= error <= |rs| as real * Tolerance(bps)
    decreases |rs|
  {
    hide Price, Tolerance, NormaliseOne, IsInteger;
    if rs == [] {
      PriceOfNothing(bps);
    } else {
      var es, rest := NormaliseAll(rs, bps as real).value, NormaliseAll(rs[1..], bps as real).value;
      BilledIsNearThePrice(rs[1..], bps);
      RecordError(rs[0], bps);
      assert es[1..] == rest;
      PriceAdds(rs[0].spendUsd, TotalUsd(rs[1..]), bps);
      ErrorsAdd(es[0].markedUpMicrocents as real, Price(rs[0].spendUsd, bps),
                TotalMarked(rest) as real, Price(TotalUsd(rs[1..]), bps), |rs| - 1, Tolerance(bps));
      assert TotalMarked(es) as real == es[0].markedUpMicrocents as real + TotalMarked(rest) as real;
    }
  }

  lemma PriceOfNothing(bps: nat)
    ensures Price(0.0, bps) == 0.0
  {
  }

  lemma ErrorsAdd(m: real, p: real, m': real, p': real, n: nat, t: real)
    requires -t <= m - p <= t && -(n as real * t) <= m' - p' <= n as real * t
    ensures -((n + 1) as real * t) <= (m + m') - (p + p') <= (n + 1) as real * t
  {
    assert (n + 1) as real * t == n as real * t + t;
  }

  lemma PriceAdds(x: real, y: real, bps: nat)
    ensures Price(x + y, bps) == Price(x, bps) + Price(y, bps)
  {
    var c := 1000000.0 * (1.0 + bps as real / 10000.0);
    assert c * (x + y) == c * x + c * y;
  }

  /** The event stands for the record: every field carried over, the cost rounded, the markup applied. */
  predicate Mirrors(e: SpendEvent, r: SpendRecord, markup: real) {
    && e.litellmRequestId == r.requestId && e.tenantId == r.tenantId && e.feature == r.feature && e.model == r.model
    && e.promptTokens == r.promptTokens && e.completionTokens == r.completionTokens && e.occurredAt == r.occurredAt
    && DollarsToMicrocents(r.spendUsd) == Ok(e.rawCostMicrocents)
    && ApplyMarkup(e.rawCostMicrocents, markup) == Ok(e.markedUpMicrocents)
  }

  lemma OneMirrors(r: SpendRecord, markup: real)
    ensures NormaliseOne(r, markup).Ok? <==> r.spendUsd >= 0.0 && IsInteger(markup) && markup >= 0.0
    ensures NormaliseOne(r, markup).Ok? ==> Mirrors(NormaliseOne(r, markup).value, r, markup)
    ensures NormaliseOne(r, markup).Err? ==>
              NormaliseOne(r, markup).error == if r.spendUsd < 0.0 then Negative else BadMarkup
  {
    if r.spendUsd >= 0.0 {
      assert (r.spendUsd * 1000000.0 + 0.5).Floor >= 0;
      MarkupIsTheFloorOfThePrice((r.spendUsd * 1000000.0 + 0.5).Floor, markup);
    }
  }

  /** A batch succeeds exactly when every spend is non-negative and, unless it is empty, the effective markup is
      a non-negative integer; then events stand for records one by one and in order, and outside the
      managed mode nothing is marked up. */
  lemma {:induction false} EventsMirrorRecords(rs: seq<SpendRecord>, mode: Mode, markupBps: real)
    ensures NormaliseSpendEvents(rs, mode, markupBps).Ok? <==>
              && (forall r <- rs :: r.spendUsd >= 0.0)
              && (rs != [] && mode.Managed? ==> IsInteger(markupBps) && markupBps >= 0.0)
    ensures NormaliseSpendEvents(rs, mode, markupBps).Ok? ==>
              var es := NormaliseSpendEvents(rs, mode, markupBps).value;
              && |es| == |rs|
              && forall i :: 0 <= i < |rs| ==>
                   && Mirrors(es[i], rs[i], if mode.Managed? then markupBps else 0.0)
                   && (!mode.Managed? ==> es[i].markedUpMicrocents == es[i].rawCostMicrocents)
    ensures NormaliseSpendEvents(rs, mode, markupBps).Err? ==>
              && rs != []
              && NormaliseSpendEvents(rs, mode, markupBps).error ==
                   if rs[0].spendUsd >= 0.0 && mode.Managed? && !(IsInteger(markupBps) && markupBps >= 0.0)
                   then BadMarkup else Negative
    decreases |rs|
  {
    hide NormaliseOne, DollarsToMicrocents;
    if rs != [] {
      EventsMirrorRecords(rs[1..], mode, markupBps);
      assert forall r <- rs :: r == rs[0] || r in rs[1..];
      OneMirrors(rs[0], if mode.Managed? then markupBps else 0.0);
    }
  }
}
