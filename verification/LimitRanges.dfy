/** Fitting the exposer container's resources into the namespace's LimitRanges. */
module LimitRanges {
  import opened Api
  import opened GoMath
  import opened Rounding

  datatype Resource = Memory | Cpu | OtherResource(name: string)

  /** A LimitRange item. Quantities are counted in billionths, the finest grain of the API. */
  datatype Item = Item(kind: string, min: map<Resource, int>, max: map<Resource, int>, ratio: map<Resource, int>)

  const MILLI := 1_000_000
  const ONE := 1_000_000_000

  /** Quantity.MilliValue rounds away from zero to whole thousandths. */
  function MilliValue(q: int): (m: int)
    ensures q >= 0 ==> m >= 0 && (m - 1) * MILLI < q <= m * MILLI
  {
    if q >= 0 then (q + MILLI - 1) / MILLI else -((-q + MILLI - 1) / MILLI)
  }

  /** One resource's request and limit, and one item's bounds on it. */
  datatype Ask = Ask(request: Option<int>, limit: Option<int>)

  datatype Bounds = Bounds(min: Option<int>, max: Option<int>, ratio: Option<int>)

  function Get(m: map<Resource, int>, name: Resource): (q: Option<int>)
  {
    if name in m then Some(m[name]) else None
  }

  predicate Applies(item: Item)
  {
    item.kind == "Container" || item.kind == "Pod"
  }

  function BoundsOn(items: seq<Item>, name: Resource): (bs: seq<Bounds>)
  {
    if items == [] then []
    else
      var i := items[0];
      (if Applies(i) then [Bounds(Get(i.min, name), Get(i.max, name), Get(i.ratio, name))] else [])
      + BoundsOn(items[1..], name)
  }

  function Raised(v: Option<int>, min: Option<int>): (r: Option<int>)
  {
    if v.Some? && min.Some? && v.value < min.value then min else v
  }

  /** Max is compared with the value before it is raised to Min. */
  function Excess(v: Option<int>, max: Option<int>): (n: nat)
  {
    if v.Some? && max.Some? && v.value > max.value then 1 else 0
  }

  /** The limit is more than `ratio` times the request, as far as the rounded quotient shows. */
  predicate Fires(request: int, limit: int, ratio: int)
  {
    QuoMilli(MilliValue(limit), MilliValue(request)) > MilliValue(ratio)
  }

  /** The request after the limit/request ratio has been brought under its maximum. */
  function RatioFix(request: int, limit: int, ratio: int): (r: int)
  {
    if Fires(request, limit, ratio)
    then QuoMilli(MilliValue(limit), MilliValue(ratio)) * MILLI
    else request
  }

  function Fit(a: Ask, b: Bounds): (a': Ask)
  {
    var request, limit := Raised(a.request, b.min), Raised(a.limit, b.min);
    if b.ratio.Some? && request.Some? && limit.Some?
    then Ask(Some(RatioFix(request.value, limit.value, b.ratio.value)), limit)
    else Ask(request, limit)
  }

  function FitAll(a: Ask, bs: seq<Bounds>): (a': Ask)
    decreases |bs|
  {
    if bs == [] then a else FitAll(Fit(a, bs[0]), bs[1..])
  }

  function Errors(a: Ask, bs: seq<Bounds>): (n: nat)
    decreases |bs|
  {
    if bs == [] then 0
    else Excess(a.request, bs[0].max) + Excess(a.limit, bs[0].max) + Errors(Fit(a, bs[0]), bs[1..])
  }

  // ---------------------------------------------------------------- the ratio fix

  /** A quantity whose milli-value fits an int64, as every API object's does. */
  predicate InRange(q: int)
  {
    0 <= q && MilliValue(q) <= MAX_INT64
  }

  /** The rounded quotient behind a fix that fires: at least the request and at most the limit, both
      rounded up to a thousandth, and within half a thousandth of limit/ratio. The first quotient may
      overflow, which can only happen when it exceeds every ratio. */
  lemma FixBounds(request: int, limit: int, ratio: int)
    requires InRange(request) && InRange(limit) && InRange(ratio) && ratio >= ONE
    requires Fires(request, limit, ratio)
    ensures var y := QuoMilli(MilliValue(limit), MilliValue(ratio));
            && MilliValue(request) <= y <= MilliValue(limit)
            && (2 * y - 1) * MilliValue(ratio) < 2000 * MilliValue(limit) <= (2 * y + 1) * MilliValue(ratio)
  {
    var l, q, r := MilliValue(limit), MilliValue(request), MilliValue(ratio);
    assert q > 0 && r >= 1000;
    Bracket(l * 1000, q);
    Bracket(l * 1000, r);
    var x, y := RoundHalfDown(l * 1000, q), RoundHalfDown(l * 1000, r);
    assert x > r;
    QuotientBelow(l, r, y);
    QuotientAbove(l, q, r, x, y);
  }

  lemma Scale(a: int, b: int, c: int)
    requires a <= b && 0 <= c
    ensures a * c <= b * c
  {
  }

  lemma QuotientBelow(l: nat, r: int, y: int)
    requires r >= 1000 && (2 * y - 1) * r < 2000 * l
    ensures y <= l
  {
    if y >= l + 1 {
      Scale(2 * l + 1, 2 * y - 1, r);
      Scale(1000, r, 2 * l + 1);
    }
  }

  lemma QuotientAbove(l: nat, q: int, r: int, x: int, y: int)
    requires q > 0 && r > 0 && x > r && (2 * x - 1) * q < 2000 * l <= (2 * y + 1) * r
    ensures q <= y
  {
    Scale(2 * r + 1, 2 * x - 1, q);
    if y <= q - 1 {
      Scale(2 * y + 1, 2 * q - 1, r);
      Distribute(q, r);
    }
  }

  lemma Distribute(q: int, r: int)
    ensures (2 * r + 1) * q == 2 * (r * q) + q && (2 * q - 1) * r == 2 * (r * q) - r
  {
  }

  lemma WholeMilli(q: int)
    requires q >= 0
    ensures MilliValue(q) * MILLI == q <==> q % MILLI == 0
  {
  }

  lemma FixRaises(request: int, limit: int, ratio: int)
    requires InRange(request) && InRange(limit) && InRange(ratio) && ratio >= ONE
    ensures var f := RatioFix(request, limit, ratio);
            && request <= f && InRange(f)
            && (f <= MilliValue(limit) * MILLI || f == request)
            && RatioFix(f, limit, ratio) == f
  {
    if Fires(request, limit, ratio) {
      FixBounds(request, limit, ratio);
    }
  }

  /** A fix exceeds the limit exactly when the limit is not a whole number of thousandths and the
      ratio is close enough to one to round the quotient up to it. */
  lemma FixExceedsLimitIff(request: int, limit: int, ratio: int)
    requires InRange(request) && InRange(limit) && InRange(ratio) && ratio >= ONE
    requires Fires(request, limit, ratio)
    ensures RatioFix(request, limit, ratio) > limit <==>
            limit % MILLI != 0 && (2 * MilliValue(limit) - 1) * MilliValue(ratio) < 2000 * MilliValue(limit)
  {
    FixBounds(request, limit, ratio);
    WholeMilli(limit);
    var l, r := MilliValue(limit), MilliValue(ratio);
    var y := QuoMilli(l, r);
    if y < l {
      Scale(2 * y + 1, 2 * l - 1, r);
    }
  }

  /** The limit is at most `ratio` times the request, but for half a thousandth: in the quotient if no
      correction was called for, in the request if there was one. */
  predicate RatioMet(request: int, limit: int, ratio: int)
  {
    var q, l, r := MilliValue(request), MilliValue(limit), MilliValue(ratio);
    2000 * l <= (2 * r + 1) * q || 2000 * l <= (2 * q + 1) * r
  }

  /** After an item with a ratio has been dealt with, the ratio of the new limit to the new request is met.
      A request of nothing is never corrected, and a quotient that overflows may not be. */
  lemma RatioHoldsAfterFit(a: Ask, b: Bounds)
    requires FineAsk(a) && Sane(b) && a.request.Some? && a.limit.Some? && b.ratio.Some?
    requires Raised(a.request, b.min).value > 0
    requires 1000 * MilliValue(Raised(a.limit, b.min).value) <= MAX_INT64
    ensures var a' := Fit(a, b); RatioMet(a'.request.value, a'.limit.value, b.ratio.value)
  {
    var request, limit := Raised(a.request, b.min).value, Raised(a.limit, b.min).value;
    FixMeetsRatio(request, limit, b.ratio.value);
  }

  lemma FixMeetsRatio(request: int, limit: int, ratio: int)
    requires InRange(request) && InRange(limit) && InRange(ratio) && ratio >= ONE && request > 0
    requires 1000 * MilliValue(limit) <= MAX_INT64
    ensures RatioMet(RatioFix(request, limit, ratio), limit, ratio)
  {
    var l, q, r := MilliValue(limit), MilliValue(request), MilliValue(ratio);
    if Fires(request, limit, ratio) {
      FixBounds(request, limit, ratio);
      assert MilliValue(QuoMilli(l, r) * MILLI) == QuoMilli(l, r);
    } else {
      QuotientAtMost(l, q, r);
    }
  }

  lemma QuotientAtMost(l: nat, q: int, r: int)
    requires q > 0 && 1000 * l <= MAX_INT64 && QuoMilli(l, q) <= r
    ensures 2000 * l <= (2 * r + 1) * q
  {
    Bracket(l * 1000, q);
    var x := RoundHalfDown(l * 1000, q);
    SmallQuotient(l * 1000, q, x);
    Scale(2 * x + 1, 2 * r + 1, q);
  }

  lemma SmallQuotient(n: nat, q: int, x: int)
    requires q > 0 && x >= 0 && (2 * x - 1) * q < 2 * n
    ensures x <= n
  {
    if x > n {
      Scale(1, q, 2 * x - 1);
    }
  }

  /** Rounding down can leave the ratio slightly exceeded: 100m over 33m is more than 3. */
  lemma RatioMayStayExceeded()
    ensures var f := RatioFix(1 * MILLI, 100 * MILLI, 3 * ONE); f == 33 * MILLI && Fires(f, 100 * MILLI, 3 * ONE)
  {
    Bracket(100_000, 1);
    Bracket(100_000, 3000);
    Bracket(100_000, 33);
  }

  // ---------------------------------------------------------------- the fold over the items

  predicate FineQuantity(q: Option<int>)
  {
    q.Some? ==> InRange(q.value)
  }

  /** Items the API server accepts: quantities in range, ratios of at least one. */
  predicate Sane(b: Bounds)
  {
    FineQuantity(b.min) && FineQuantity(b.max) && FineQuantity(b.ratio) && (b.ratio.Some? ==> b.ratio.value >= ONE)
  }

  predicate SaneAll(bs: seq<Bounds>)
  {
    forall i :: 0 <= i < |bs| ==> Sane(bs[i])
  }

  predicate FineAsk(a: Ask)
  {
    FineQuantity(a.request) && FineQuantity(a.limit)
  }

  predicate Grows(v: Option<int>, w: Option<int>)
  {
    v.Some? == w.Some? && (v.Some? ==> v.value <= w.value)
  }

  predicate Meets(v: Option<int>, min: Option<int>)
  {
    v.Some? && min.Some? ==> v.value >= min.value
  }

  predicate Under(v: Option<int>, max: Option<int>)
  {
    v.Some? && max.Some? ==> v.value <= max.value
  }

  /** The request is at most the limit, rounded up to a whole thousandth. */
  predicate Ordered(a: Ask)
  {
    a.request.Some? && a.limit.Some? ==> a.request.value <= MilliValue(a.limit.value) * MILLI
  }

  lemma FitStep(a: Ask, b: Bounds)
    requires FineAsk(a) && Sane(b)
    ensures var a' := Fit(a, b);
            && FineAsk(a')
            && Grows(a.request, a'.request) && Grows(a.limit, a'.limit)
            && Meets(a'.request, b.min) && Meets(a'.limit, b.min)
            && a'.limit == Raised(a.limit, b.min)
            && (Ordered(a) ==> Ordered(a'))
            && (a'.request == Raised(a.request, b.min)
                || (a'.limit.Some? && a'.request.value <= MilliValue(a'.limit.value) * MILLI))
  {
    var request, limit := Raised(a.request, b.min), Raised(a.limit, b.min);
    if b.ratio.Some? && request.Some? && limit.Some? {
      FixRaises(request.value, limit.value, b.ratio.value);
    }
  }

  /** Whatever the items, nothing decreases, every Min holds at the end, and a request within its
      limit, rounded up to a thousandth, stays within it so rounded. */
  lemma {:induction false} FitAllFits(a: Ask, bs: seq<Bounds>)
    requires FineAsk(a) && SaneAll(bs)
    ensures var a' := FitAll(a, bs);
            && FineAsk(a')
            && Grows(a.request, a'.request) && Grows(a.limit, a'.limit)
            && (forall i :: 0 <= i < |bs| ==> Meets(a'.request, bs[i].min) && Meets(a'.limit, bs[i].min))
            && (Ordered(a) ==> Ordered(a'))
    decreases |bs|
  {
    if bs != [] {
      FitStep(a, bs[0]);
      FitAllFits(Fit(a, bs[0]), bs[1..]);
      var a' := FitAll(a, bs);
      forall i | 0 <= i < |bs|
        ensures Meets(a'.request, bs[i].min) && Meets(a'.limit, bs[i].min)
      {
        if i > 0 {
          assert bs[i] == bs[1..][i - 1];
        }
      }
    }
  }

  /** The final limit is the greatest of the initial one and all Mins, so the items' order is immaterial. */
  lemma {:induction false} FinalLimitIsGreatest(a: Ask, bs: seq<Bounds>)
    requires FineAsk(a) && SaneAll(bs) && a.limit.Some?
    ensures var limit := FitAll(a, bs).limit;
            && limit.Some?
            && (limit == a.limit || exists i :: 0 <= i < |bs| && bs[i].min == limit)
            && a.limit.value <= limit.value
            && (forall i :: 0 <= i < |bs| && bs[i].min.Some? ==> bs[i].min.value <= limit.value)
    decreases |bs|
  {
    FitAllFits(a, bs);
    if bs != [] {
      FitStep(a, bs[0]);
      FinalLimitIsGreatest(Fit(a, bs[0]), bs[1..]);
      var limit := FitAll(a, bs).limit;
      if limit != Fit(a, bs[0]).limit {
        var i :| 0 <= i < |bs| - 1 && bs[1..][i].min == limit;
        assert bs[i + 1].min == limit;
      } else if limit != a.limit {
        assert bs[0].min == limit;
      }
    }
  }

  predicate Whole(q: Option<int>)
  {
    q.Some? ==> q.value % MILLI == 0
  }

  predicate Within(a: Ask)
  {
    a.request.Some? && a.limit.Some? && a.request.value <= a.limit.value
  }

  /** The limit exceeds the request so little that no ratio, not even one, calls for a correction.
      A request of nothing counts as one thousandth, since a Min may raise it to that. */
  predicate Close(request: int, limit: int)
  {
    2000 * MilliValue(limit) <= 2001 * Positive(MilliValue(request))
  }

  function Positive(m: int): (p: int)
    ensures p >= 1 && p >= m
  {
    if m < 1 then 1 else m
  }

  /** The limit is in whole thousandths or close to the request. */
  predicate Tight(a: Ask)
  {
    a.request.Some? && a.limit.Some? && (Whole(a.limit) || Close(a.request.value, a.limit.value))
  }

  lemma QuotientAtMostOne(l: nat, q: nat)
    requires 2000 * l <= 2001 * Positive(q)
    ensures QuoMilli(l, q) <= 1000
  {
    if q > 0 {
      Bracket(l * 1000, q);
      var x := RoundHalfDown(l * 1000, q);
      if x > 1000 {
        Scale(2001, 2 * x - 1, q);
      }
    }
  }

  lemma QuotientAboveOne(l: nat, q: int)
    requires q > 0 && 2000 * l > 2001 * q && l <= MAX_INT64 && (q >= 1000 || l <= 1000)
    ensures QuoMilli(l, q) > 1000
  {
    Bracket(l * 1000, q);
    var x := RoundHalfDown(l * 1000, q);
    if x <= 1000 {
      Scale(2 * x + 1, 2001, q);
    }
    QuotientFits(l, q, x);
  }

  lemma QuotientByOne(l: nat)
    requires l <= MAX_INT64
    ensures QuoMilli(l, 1000) == l
  {
  }

  lemma FixWhenApart(request: int, limit: int)
    requires InRange(request) && InRange(limit) && request > 0
    requires 2000 * MilliValue(limit) > 2001 * MilliValue(request)
    requires MilliValue(request) >= 1000 || MilliValue(limit) <= 1000
    ensures RatioFix(request, limit, ONE) == MilliValue(limit) * MILLI
  {
    QuotientAboveOne(MilliValue(limit), MilliValue(request));
    QuotientByOne(MilliValue(limit));
  }

  lemma QuotientFits(l: nat, q: int, x: int)
    requires q > 0 && (2 * x - 1) * q < 2000 * l
    ensures q >= 1000 ==> x <= l
    ensures l <= 1000 ==> x <= 1_000_000
  {
    if q >= 1000 && x > l {
      QuotientBelow(l, q, x);
    }
    if l <= 1000 && x > 1_000_000 {
      Scale(1, q, 2 * x - 1);
    }
  }

  lemma CloseNeedsNoFix(request: int, limit: int, ratio: int)
    requires InRange(request) && InRange(limit) && InRange(ratio) && ratio >= ONE && Close(request, limit)
    ensures RatioFix(request, limit, ratio) == request
  {
    QuotientAtMostOne(MilliValue(limit), MilliValue(request));
  }

  lemma WholeFixStaysWithin(request: int, limit: int, ratio: int)
    requires InRange(request) && InRange(limit) && InRange(ratio) && ratio >= ONE && limit % MILLI == 0
    ensures RatioFix(request, limit, ratio) == request || RatioFix(request, limit, ratio) <= limit
  {
    WholeMilli(limit);
    FixRaises(request, limit, ratio);
  }

  lemma RaisingKeepsClose(request: int, limit: int, min: Option<int>)
    requires 0 <= request && 0 <= limit
    ensures var r, l := Raised(Some(request), min).value, Raised(Some(limit), min).value;
            (Close(request, limit) || l != limit ==> Close(r, l))
  {
    var r, l := Raised(Some(request), min).value, Raised(Some(limit), min).value;
    MilliMonotone(request, r);
    if l <= r {
      MilliMonotone(l, r);
    }
  }

  /** Being tight is kept, and then a request ends where its Min put it or within the limit. */
  lemma TightStep(a: Ask, b: Bounds)
    requires FineAsk(a) && Sane(b) && Tight(a)
    ensures var a' := Fit(a, b);
            && Tight(a')
            && (a'.request == Raised(a.request, b.min) || a'.request.value <= a'.limit.value)
  {
    var request, limit := Raised(a.request, b.min).value, Raised(a.limit, b.min).value;
    RaisingKeepsClose(a.request.value, a.limit.value, b.min);
    if b.ratio.Some? {
      if limit % MILLI == 0 {
        WholeFixStaysWithin(request, limit, b.ratio.value);
      } else {
        CloseNeedsNoFix(request, limit, b.ratio.value);
      }
    }
  }

  lemma MilliMonotone(p: int, q: int)
    requires 0 <= p <= q
    ensures MilliValue(p) <= MilliValue(q)
  {
  }

  /** A request within a tight limit stays within it, whatever the items. */
  lemma {:induction false} TightLimitsAreNeverExceeded(a: Ask, bs: seq<Bounds>)
    requires FineAsk(a) && SaneAll(bs) && Within(a) && Tight(a)
    ensures Within(FitAll(a, bs))
    decreases |bs|
  {
    if bs != [] {
      FitStep(a, bs[0]);
      TightStep(a, bs[0]);
      TightLimitsAreNeverExceeded(Fit(a, bs[0]), bs[1..]);
    }
  }

  /** An item that lifts the request above a limit that is not tight, with no error and no Min above Max. */
  function Escape(a: Ask): (b: Bounds)
    requires a.limit.Some?
  {
    Bounds(Some(if MilliValue(a.limit.value) <= 1000 then 1 else ONE), a.limit, Some(ONE))
  }

  lemma LooseRequestEscapes(a: Ask)
    requires FineAsk(a) && a.request.Some? && a.limit.Some? && !Tight(a)
    ensures var b := Escape(a);
            && Sane(b) && Under(b.min, b.max) && Errors(a, [b]) == 0
            && FitAll(a, [b]) == Ask(Some(MilliValue(a.limit.value) * MILLI), a.limit)
            && MilliValue(a.limit.value) * MILLI > a.limit.value
  {
    var b := Escape(a);
    var request := Raised(a.request, b.min).value;
    WholeMilli(a.limit.value);
    assert a.request.value <= a.limit.value && b.min.value <= a.limit.value;
    assert Raised(a.limit, b.min) == a.limit;
    FixWhenApart(request, a.limit.value);
    assert Fit(a, b) == Ask(Some(MilliValue(a.limit.value) * MILLI), a.limit);
    assert FitAll(a, [b]) == FitAll(Fit(a, b), []);
    assert Errors(a, [b]) == Excess(a.request, b.max) + Excess(a.limit, b.max) + Errors(Fit(a, b), []);
  }

  /** Exactly the tight limits hold their requests under every list of items. */
  lemma WithinLimitsIffTight(a: Ask)
    requires FineAsk(a) && Within(a)
    ensures (forall bs :: SaneAll(bs) ==> Within(FitAll(a, bs))) <==> Tight(a)
  {
    if Tight(a) {
      forall bs | SaneAll(bs)
        ensures Within(FitAll(a, bs))
      {
        TightLimitsAreNeverExceeded(a, bs);
      }
    } else {
      LooseRequestEscapes(a);
      assert SaneAll([Escape(a)]);
    }
  }

  /** For instance: a request of 1m, a limit and Max of 99.5m and a ratio of one give a request of 100m. */
  lemma FineLimitIsExceeded()
    ensures var a, b := Ask(Some(MILLI), Some(99_500_000)), Bounds(None, Some(99_500_000), Some(ONE));
            Errors(a, [b]) == 0 && FitAll(a, [b]) == Ask(Some(100 * MILLI), Some(99_500_000))
  {
    FixWhenApart(MILLI, 99_500_000);
  }

  /** Every bound below x, as far as it is given. */
  predicate AllUnder(bs: seq<Bounds>, v: Option<int>)
  {
    forall i :: 0 <= i < |bs| ==> Under(v, bs[i].max)
  }

  predicate MinsUnder(bs: seq<Bounds>, max: Option<int>)
  {
    forall i :: 0 <= i < |bs| ==> Under(bs[i].min, max)
  }

  /** A value that starts under a maximum and is only raised to Mins under it stays there. */
  lemma {:induction false} StaysUnder(a: Ask, bs: seq<Bounds>, max: int)
    requires FineAsk(a) && SaneAll(bs) && Tight(a)
    requires Under(a.request, Some(max)) && Under(a.limit, Some(max))
    requires forall i :: 0 <= i < |bs| ==> Under(bs[i].min, Some(max))
    ensures Under(FitAll(a, bs).request, Some(max)) && Under(FitAll(a, bs).limit, Some(max))
    decreases |bs|
  {
    if bs != [] {
      FitStep(a, bs[0]);
      TightStep(a, bs[0]);
      StaysUnder(Fit(a, bs[0]), bs[1..], max);
    }
  }

  /** Every Max holds at the end exactly when no error is reported and every Min is under every Max:
      the check itself only sees the values before they are raised. */
  predicate MaxesToldByErrors(a: Ask, bs: seq<Bounds>)
  {
    var a' := FitAll(a, bs);
    (AllUnder(bs, a'.request) && AllUnder(bs, a'.limit)) <==>
    (Errors(a, bs) == 0 && forall i :: 0 <= i < |bs| ==> MinsUnder(bs, bs[i].max))
  }

  lemma MaxesHoldIff(a: Ask, bs: seq<Bounds>)
    requires FineAsk(a) && SaneAll(bs) && Tight(a)
    ensures MaxesToldByErrors(a, bs)
  {
    FinalLimitIsGreatest(a, bs);
    var a' := FitAll(a, bs);
    if Errors(a, bs) != 0 {
      ErrorsAreLasting(a, bs);
    } else if forall i :: 0 <= i < |bs| ==> MinsUnder(bs, bs[i].max) {
      MaxesHold(a, bs, bs);
    } else {
      var i :| 0 <= i < |bs| && !MinsUnder(bs, bs[i].max);
      var j :| 0 <= j < |bs| && !Under(bs[j].min, bs[i].max);
      assert !Under(a'.limit, bs[i].max);
    }
  }

  /** An error is never premature: the value it complains about only grows. */
  lemma {:induction false} ErrorsAreLasting(a: Ask, bs: seq<Bounds>)
    requires FineAsk(a) && SaneAll(bs) && Errors(a, bs) != 0
    ensures !(AllUnder(bs, FitAll(a, bs).request) && AllUnder(bs, FitAll(a, bs).limit))
    decreases |bs|
  {
    FitStep(a, bs[0]);
    var a', end := Fit(a, bs[0]), FitAll(a, bs);
    if Errors(a', bs[1..]) != 0 {
      ErrorsAreLasting(a', bs[1..]);
      var i :| 0 <= i < |bs| - 1 && !(Under(end.request, bs[1..][i].max) && Under(end.limit, bs[1..][i].max));
      assert bs[1..][i] == bs[i + 1];
    } else {
      FitAllFits(a', bs[1..]);
      assert !(Under(end.request, bs[0].max) && Under(end.limit, bs[0].max));
    }
  }

  /** Some Max lies below the initial limit or below the Min of an earlier item. */
  predicate EarlyMaxBroken(a: Ask, bs: seq<Bounds>)
  {
    exists i :: 0 <= i < |bs| && !(Under(a.limit, bs[i].max) && MinsUnder(bs[..i], bs[i].max))
  }

  /** For a request within a tight limit, exactly then is an error reported: the request never gets above
      the limit, and the limit an item sees is the greatest of the initial one and the Mins before it. */
  lemma {:induction false} ErrorsIff(a: Ask, bs: seq<Bounds>)
    requires FineAsk(a) && SaneAll(bs) && Within(a) && Tight(a)
    ensures Errors(a, bs) != 0 <==> EarlyMaxBroken(a, bs)
    decreases |bs|
  {
    if bs != [] {
      FitStep(a, bs[0]);
      TightStep(a, bs[0]);
      var a', rest := Fit(a, bs[0]), bs[1..];
      ErrorsIff(a', rest);
      forall i | 0 <= i < |rest|
        ensures (Under(a'.limit, rest[i].max) && MinsUnder(rest[..i], rest[i].max)) <==>
                (Under(a.limit, bs[i + 1].max) && MinsUnder(bs[..i + 1], bs[i + 1].max))
      {
        MinsUnderHead(bs[..i + 1], bs[i + 1].max);
        assert bs[..i + 1][1..] == rest[..i];
      }
      if EarlyMaxBroken(a', rest) {
        var i :| 0 <= i < |rest| && !(Under(a'.limit, rest[i].max) && MinsUnder(rest[..i], rest[i].max));
        assert !(Under(a.limit, bs[i + 1].max) && MinsUnder(bs[..i + 1], bs[i + 1].max));
      }
      if EarlyMaxBroken(a, bs) {
        var i :| 0 <= i < |bs| && !(Under(a.limit, bs[i].max) && MinsUnder(bs[..i], bs[i].max));
        if i > 0 {
          assert !(Under(a'.limit, rest[i - 1].max) && MinsUnder(rest[..i - 1], rest[i - 1].max));
        }
      }
    }
  }

  lemma MinsUnderHead(bs: seq<Bounds>, max: Option<int>)
    requires bs != []
    ensures MinsUnder(bs, max) <==> Under(bs[0].min, max) && MinsUnder(bs[1..], max)
  {
    if Under(bs[0].min, max) && MinsUnder(bs[1..], max) {
      forall i | 0 <= i < |bs|
        ensures Under(bs[i].min, max)
      {
        assert i > 0 ==> bs[i] == bs[1..][i - 1];
      }
    }
  }

  /** `rest` is what is left of the items `all`. */
  lemma {:induction false} MaxesHold(a: Ask, rest: seq<Bounds>, all: seq<Bounds>)
    requires FineAsk(a) && SaneAll(rest) && a.request.Some? && a.limit.Some? && Tight(a)
    requires forall i :: 0 <= i < |rest| ==> rest[i] in all
    requires forall b :: b in all ==> MinsUnder(all, b.max)
    requires Errors(a, rest) == 0
    ensures AllUnder(rest, FitAll(a, rest).request) && AllUnder(rest, FitAll(a, rest).limit)
    decreases |rest|
  {
    if rest != [] {
      FitStep(a, rest[0]);
      TightStep(a, rest[0]);
      var a' := Fit(a, rest[0]);
      MaxesHold(a', rest[1..], all);
      if rest[0].max.Some? {
        assert forall i :: 0 <= i < |rest| ==> Under(rest[i].min, rest[0].max);
        StaysUnder(a, rest, rest[0].max.value);
      }
      var end := FitAll(a, rest);
      forall i | 0 <= i < |rest|
        ensures Under(end.request, rest[i].max) && Under(end.limit, rest[i].max)
      {
        if i > 0 {
          assert rest[i] == rest[1..][i - 1];
        }
      }
    }
  }

  /** Being tight is also necessary for that. */
  lemma MaxesToldByErrorsIffTight(a: Ask)
    requires FineAsk(a) && a.request.Some? && a.limit.Some?
    ensures (forall bs :: SaneAll(bs) ==> MaxesToldByErrors(a, bs)) <==> Tight(a)
  {
    if Tight(a) {
      forall bs | SaneAll(bs)
        ensures MaxesToldByErrors(a, bs)
      {
        MaxesHoldIff(a, bs);
      }
    } else {
      LooseRequestEscapes(a);
      var bs := [Escape(a)];
      assert SaneAll(bs) && !Under(FitAll(a, bs).request, bs[0].max);
      assert !MaxesToldByErrors(a, bs);
    }
  }

  /** The gap: Max is checked before raising to Min, so a Min above Max passes unreported. */
  lemma UnreportedMaximum()
    ensures var a := Ask(Some(50 * MILLI), Some(50 * MILLI));
            var bs := [Bounds(Some(200 * MILLI), Some(100 * MILLI), None)];
            Errors(a, bs) == 0 && !AllUnder(bs, FitAll(a, bs).limit)
  {
  }
}
