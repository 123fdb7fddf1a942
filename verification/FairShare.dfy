/** Each member's decayed share of what the club consumed (gpu_broker/fairshare.py).

    Hours and shares are exact reals; `decay` stands for halving every half-life. */
module FairShare {
  import opened Wrappers
  import opened Money
  import opened Ledger

  /** Where the window stands: the moment, and the oldest time that still counts. */
  datatype Window = Window(now: real, cutoff: real)

  /** How much a settlement of this age still counts. */
  function Weight(decay: real -> real, age: real): real {
    if age <= 0.0 then 1.0 else decay(age)
  }

  predicate Counts(e: Entry, c: Currency, cutoff: real) {
    e.kind == Settle && e.currency == c && cutoff <= e.at && e.user.Some?
  }

  function Weighted(decay: real -> real, e: Entry, c: Currency, w: Window): real {
    if Counts(e, c, w.cutoff) then e.amount as real * Weight(decay, w.now - e.at) else 0.0
  }

  /** What one row adds to one member's usage. */
  function WeightedFor(decay: real -> real, e: Entry, u: UserId, c: Currency, w: Window): real {
    if e.user == Some(u) then Weighted(decay, e, c, w) else 0.0
  }

  /** One member's decayed usage in a currency. */
  function UsageOf(decay: real -> real, l: seq<Entry>, u: UserId, c: Currency, w: Window): real {
    if l == [] then 0.0
    else UsageOf(decay, l[..|l| - 1], u, c, w) + WeightedFor(decay, l[|l| - 1], u, c, w)
  }

  /** Everybody's. */
  function UsageTotal(decay: real -> real, l: seq<Entry>, c: Currency, w: Window): real {
    if l == [] then 0.0
    else UsageTotal(decay, l[..|l| - 1], c, w) + Weighted(decay, l[|l| - 1], c, w)
  }

  function Ratio(x: real, y: real): real {
    if y <= 0.0 then 0.0 else x / y
  }

  /** One member's part of one currency; nobody has a part of a currency nobody used. */
  function Part(decay: real -> real, l: seq<Entry>, u: UserId, c: Currency, w: Window): real {
    Ratio(UsageOf(decay, l, u, c, w), UsageTotal(decay, l, c, w))
  }

  datatype Blend = Blend(usd: real, gpuHours: real)

  function Positive(x: real): real {
    if x <= 0.0 then 0.0 else x
  }

  function Mix(b: Blend, x: real, y: real): real {
    Positive(b.usd) * x + Positive(b.gpuHours) * y
  }

  /** The blended share; a currency with no positive weight is left out altogether. */
  function ShareOf(decay: real -> real, l: seq<Entry>, u: UserId, b: Blend, w: Window): real {
    Ratio(Mix(b, Part(decay, l, u, Usd, w), Part(decay, l, u, GpuHour, w)), Positive(b.usd) + Positive(b.gpuHours))
  }

  // --------------------------------------------------------------- the computation

  /** A dictionary in insertion order. */
  datatype Usage = Usage(order: seq<UserId>, amount: map<UserId, real>)
  {
    function Get(u: UserId): real {
      if u in amount then amount[u] else 0.0
    }

    /** The sum of its values. */
    function Sum(): real
      requires WellKept(this)
    {
      SumOf(order, amount)
    }
  }

  ghost predicate Distinct(us: seq<UserId>) {
    forall i, j :: 0 <= i < j < |us| ==> us[i] != us[j]
  }

  predicate WellKept(d: Usage) {
    && (forall i :: 0 <= i < |d.order| ==> d.order[i] in d.amount)
    && (forall u :: u in d.amount ==> u in d.order)
    && (forall i, j :: 0 <= i < j < |d.order| ==> d.order[i] != d.order[j])
  }

  function SumOf(order: seq<UserId>, amount: map<UserId, real>): real
    requires forall i :: 0 <= i < |order| ==> order[i] in amount
  {
    if order == [] then 0.0 else SumOf(order[..|order| - 1], amount) + amount[order[|order| - 1]]
  }

  /** `totals[u] = totals.get(u, 0) + x`. */
  method AddTo(d: Usage, u: UserId, x: real) returns (d': Usage)
    requires WellKept(d)
    ensures WellKept(d') && d'.Sum() == d.Sum() + x
    ensures forall v :: d'.Get(v) == (if v == u then d.Get(v) + x else d.Get(v))
  {
    if u in d.amount {
      Raised(d, u, x);
      d' := d.(amount := d.amount[u := d.amount[u] + x]);
    } else {
      Entered(d, u, x);
      d' := Usage(d.order + [u], d.amount[u := x]);
    }
  }

  lemma Raised(d: Usage, u: UserId, x: real)
    requires WellKept(d) && u in d.amount
    ensures var d' := d.(amount := d.amount[u := d.amount[u] + x]);
            WellKept(d') && d'.Sum() == d.Sum() + x
  {
    SumUpdated(d.order, d.amount, u, d.amount[u] + x);
  }

  lemma Entered(d: Usage, u: UserId, x: real)
    requires WellKept(d) && u !in d.amount
    ensures var d' := Usage(d.order + [u], d.amount[u := x]);
            WellKept(d') && d'.Sum() == d.Sum() + x
  {
    EnteredWell(d, u, x);
    SumSame(d.order, d.amount, d.amount[u := x]);
    assert (d.order + [u])[..|d.order|] == d.order;
  }

  lemma EnteredWell(d: Usage, u: UserId, x: real)
    requires WellKept(d) && u !in d.amount
    ensures WellKept(Usage(d.order + [u], d.amount[u := x]))
  {
    var order := d.order + [u];
    assert order[|d.order|] == u;
    forall v | v in d.amount ensures v in order {
      assert v in d.order;
    }
  }

  lemma {:induction false} SumSame(order: seq<UserId>, a: map<UserId, real>, b: map<UserId, real>)
    requires forall i :: 0 <= i < |order| ==> order[i] in a && order[i] in b && a[order[i]] == b[order[i]]
    ensures SumOf(order, a) == SumOf(order, b)
  {
    if order != [] {
      SumSame(order[..|order| - 1], a, b);
    }
  }

  lemma {:induction false} SumUpdated(order: seq<UserId>, a: map<UserId, real>, u: UserId, x: real)
    requires forall i :: 0 <= i < |order| ==> order[i] in a
    requires forall i, j :: 0 <= i < j < |order| ==> order[i] != order[j]
    requires u in order
    ensures SumOf(order, a[u := x]) == SumOf(order, a) - a[u] + x
  {
    var n := |order| - 1;
    if order[n] == u {
      SumSame(order[..n], a, a[u := x]);
    } else {
      SumUpdated(order[..n], a, u, x);
    }
  }

  /** `decayed_usage`: one pass over the settlements. A member's usage is the sum of their own settlements in the
      currency that are no older than the window, each weighted by its age. */
  method DecayedUsage(decay: real -> real, l: seq<Entry>, c: Currency, w: Window) returns (d: Usage)
    ensures WellKept(d) && d.Sum() == UsageTotal(decay, l, c, w)
    ensures forall u :: d.Get(u) == UsageOf(decay, l, u, c, w)
    ensures forall u :: d.Get(u) == SumReals(RowsFor(decay, l, u, c, w))
  {
    d := Usage([], map[]);
    for i := 0 to |l|
      invariant WellKept(d) && d.Sum() == UsageTotal(decay, l[..i], c, w)
      invariant forall u :: d.Get(u) == UsageOf(decay, l[..i], u, c, w)
    {
      OneRowMore(decay, l, i, c, w);
      if Counts(l[i], c, w.cutoff) {
        var x := l[i].amount as real * Weight(decay, w.now - l[i].at);
        assert x == Weighted(decay, l[i], c, w);
        d := AddTo(d, l[i].user.value, x);
      }
    }
    assert l[..|l|] == l;
    UsageAddsUp(decay, l, c, w);
  }

  lemma UsageAddsUp(decay: real -> real, l: seq<Entry>, c: Currency, w: Window)
    ensures forall u :: UsageOf(decay, l, u, c, w) == SumReals(RowsFor(decay, l, u, c, w))
  {
    forall u ensures UsageOf(decay, l, u, c, w) == SumReals(RowsFor(decay, l, u, c, w)) {
      UsageIsSum(decay, l, u, c, w);
    }
  }

  lemma OneRowMore(decay: real -> real, l: seq<Entry>, i: nat, c: Currency, w: Window)
    requires i < |l|
    ensures UsageTotal(decay, l[..i + 1], c, w) == UsageTotal(decay, l[..i], c, w) + Weighted(decay, l[i], c, w)
    ensures forall u :: UsageOf(decay, l[..i + 1], u, c, w)
                     == UsageOf(decay, l[..i], u, c, w) + WeightedFor(decay, l[i], u, c, w)
  {
    assert l[..i + 1][..i] == l[..i];
  }

  /** One turn of the loop over currencies: every member's part, times the currency's weight. */
  method BlendIn(blended: map<UserId, real>, usage: Usage, weight: real) returns (r: map<UserId, real>)
    requires WellKept(usage)
    ensures forall u :: Lookup(r, u) == Lookup(blended, u) + Contribution(weight, usage.Get(u), usage.Sum())
  {
    hide Contribution, SumOf;
    r := blended;
    if weight <= 0.0 {
      NothingToAdd(weight, usage.Sum());
      return;
    }
    var total := usage.Sum();
    if total <= 0.0 {
      NothingToAdd(weight, total);
      return;
    }
    AbsentAddNothing(weight, usage, total);
    for i := 0 to |usage.order|
      invariant forall u :: u in usage.order[..i] ==>
                  Lookup(r, u) == Lookup(blended, u) + Contribution(weight, usage.Get(u), total)
      invariant forall u :: u !in usage.order[..i] ==> Lookup(r, u) == Lookup(blended, u)
    {
      var u := usage.order[i];
      r := r[u := Lookup(r, u) + Contribution(weight, usage.amount[u], total)];
      assert usage.order[..i + 1] == usage.order[..i] + [u];
    }
    assert usage.order[..|usage.order|] == usage.order;
  }

  lemma NothingToAdd(weight: real, total: real)
    requires weight <= 0.0 || total <= 0.0
    ensures forall x :: Contribution(weight, x, total) == 0.0
  {
  }

  lemma AbsentAddNothing(weight: real, usage: Usage, total: real)
    requires WellKept(usage)
    ensures forall u :: u !in usage.order ==> Contribution(weight, usage.Get(u), total) == 0.0
  {
    forall u | u !in usage.order ensures Contribution(weight, usage.Get(u), total) == 0.0 {
      assert usage.Get(u) == 0.0;
    }
  }

  function Contribution(weight: real, x: real, total: real): real {
    Positive(weight) * Ratio(x, total)
  }

  function Lookup(m: map<UserId, real>, u: UserId): real {
    if u in m then m[u] else 0.0
  }

  /** `usage_shares`. Whoever alone consumed a currency within the window has the whole of it. */
  method UsageShares(decay: real -> real, l: seq<Entry>, b: Blend, w: Window) returns (shares: map<UserId, real>)
    ensures forall u :: Lookup(shares, u) == ShareOf(decay, l, u, b, w)
    ensures forall u, v :: Decays(decay) && OnlySpender(l, u, Usd, w.cutoff) && b.gpuHours <= 0.0 < b.usd ==>
              Lookup(shares, v) == (if v == u then 1.0 else 0.0)
    ensures forall u, v :: Decays(decay) && OnlySpender(l, u, GpuHour, w.cutoff) && b.usd <= 0.0 < b.gpuHours ==>
              Lookup(shares, v) == (if v == u then 1.0 else 0.0)
    ensures forall u, v :: Decays(decay) && OnlySpender(l, u, Usd, w.cutoff) && OnlySpender(l, v, GpuHour, w.cutoff)
                           && u != v && 0.0 < b.usd && 0.0 < b.gpuHours ==>
              Lookup(shares, u) == b.usd / (b.usd + b.gpuHours) && Lookup(shares, v) == b.gpuHours / (b.usd + b.gpuHours)
  {
    hide UsageOf, UsageTotal, Contribution, SumOf, ShareOf, OnlySpender, Decays;
    if Decays(decay) {
      SoleShares(decay, l, b, w);
    }
    var usd := DecayedUsage(decay, l, Usd, w);
    var blended := BlendIn(map[], usd, b.usd);
    var hours := DecayedUsage(decay, l, GpuHour, w);
    blended := BlendIn(blended, hours, b.gpuHours);
    var weightTotal := Positive(b.usd) + Positive(b.gpuHours);
    BlendIs(decay, l, b, w, usd, hours, blended);
    if weightTotal <= 0.0 {
      return map[];
    }
    shares := Normalised(blended, weightTotal);
  }

  lemma BlendIs(decay: real -> real, l: seq<Entry>, b: Blend, w: Window, usd: Usage, hours: Usage, m: map<UserId, real>)
    requires WellKept(usd) && usd.Sum() == UsageTotal(decay, l, Usd, w)
    requires WellKept(hours) && hours.Sum() == UsageTotal(decay, l, GpuHour, w)
    requires forall u :: usd.Get(u) == UsageOf(decay, l, u, Usd, w)
    requires forall u :: hours.Get(u) == UsageOf(decay, l, u, GpuHour, w)
    requires forall u :: Lookup(m, u) == Contribution(b.usd, usd.Get(u), usd.Sum())
                                         + Contribution(b.gpuHours, hours.Get(u), hours.Sum())
    ensures forall u :: ShareOf(decay, l, u, b, w) == Ratio(Lookup(m, u), Positive(b.usd) + Positive(b.gpuHours))
  {
    hide UsageOf, UsageTotal, Ratio, Positive, Lookup;
    forall u ensures ShareOf(decay, l, u, b, w) == Ratio(Lookup(m, u), Positive(b.usd) + Positive(b.gpuHours)) {
      assert usd.Get(u) == UsageOf(decay, l, u, Usd, w) && hours.Get(u) == UsageOf(decay, l, u, GpuHour, w);
      assert Lookup(m, u) == Mix(b, Part(decay, l, u, Usd, w), Part(decay, l, u, GpuHour, w));
    }
  }

  function Normalised(m: map<UserId, real>, total: real): (r: map<UserId, real>)
    requires 0.0 < total
    ensures forall u :: Lookup(r, u) == Ratio(Lookup(m, u), total)
  {
    map u | u in m :: m[u] / total
  }

  // ------------------------------------------------------------------ what it means

  /** All that is used of `0.5 ** (age / half_life)`: it is positive and turns sums into products. */
  ghost predicate Decays(decay: real -> real) {
    && decay(0.0) == 1.0
    && (forall x :: 0.0 < decay(x))
    && (forall x, y :: Multiplies(decay, x, y))
  }

  predicate Multiplies(decay: real -> real, x: real, y: real) {
    decay(x + y) == decay(x) * decay(y)
  }

  /** Nobody else settled anything in this currency since the cutoff, and this member did. */
  ghost predicate OnlySpender(l: seq<Entry>, u: UserId, c: Currency, cutoff: real) {
    && (forall i :: 0 <= i < |l| && l[i].kind == Settle && l[i].currency == c && cutoff <= l[i].at ==>
          (l[i].user.Some? ==> l[i].user == Some(u)) && 0 <= l[i].amount)
    && exists i :: 0 <= i < |l| && l[i].kind == Settle && l[i].currency == c && cutoff <= l[i].at
                   && l[i].user == Some(u) && 0 < l[i].amount
  }

  /** A row of another kind or currency, or older than the window, changes nobody's usage. */
  lemma RowOutside(decay: real -> real, l: seq<Entry>, e: Entry, c: Currency, w: Window)
    requires e.kind != Settle || e.currency != c || e.at < w.cutoff
    ensures forall u :: UsageOf(decay, l + [e], u, c, w) == UsageOf(decay, l, u, c, w)
    ensures UsageTotal(decay, l + [e], c, w) == UsageTotal(decay, l, c, w)
  {
    assert (l + [e])[..|l|] == l;
  }

  /** A settlement within the window raises its member's usage by its decayed amount, and nobody else's. */
  lemma RowInside(decay: real -> real, l: seq<Entry>, e: Entry, u: UserId, c: Currency, w: Window)
    requires e.kind == Settle && e.currency == c && w.cutoff <= e.at && e.user == Some(u)
    ensures var x := e.amount as real * (if w.now <= e.at then 1.0 else decay(w.now - e.at));
            && UsageOf(decay, l + [e], u, c, w) == UsageOf(decay, l, u, c, w) + x
            && UsageTotal(decay, l + [e], c, w) == UsageTotal(decay, l, c, w) + x
            && forall v :: v != u ==> UsageOf(decay, l + [e], v, c, w) == UsageOf(decay, l, v, c, w)
  {
    assert (l + [e])[..|l|] == l;
  }

  /** What one member alone used is all that was used. */
  lemma {:induction false} SoleUsage(decay: real -> real, l: seq<Entry>, u: UserId, c: Currency, w: Window)
    requires Decays(decay)
    requires forall i :: 0 <= i < |l| && l[i].kind == Settle && l[i].currency == c && w.cutoff <= l[i].at ==>
               (l[i].user.Some? ==> l[i].user == Some(u)) && 0 <= l[i].amount
    ensures 0.0 <= UsageOf(decay, l, u, c, w) == UsageTotal(decay, l, c, w)
    ensures forall v :: v != u ==> UsageOf(decay, l, v, c, w) == 0.0
    ensures (exists i :: 0 <= i < |l| && l[i].kind == Settle && l[i].currency == c && w.cutoff <= l[i].at
                         && l[i].user == Some(u) && 0 < l[i].amount)
            ==> 0.0 < UsageOf(decay, l, u, c, w)
  {
    hide Decays;
    if l != [] {
      var n := |l| - 1;
      var e := l[n];
      SoleUsage(decay, l[..n], u, c, w);
      if e.kind == Settle && e.currency == c && w.cutoff <= e.at && e.user == Some(u) {
        WeightPositive(decay, w.now - e.at);
        ProductNotNegative(e.amount as real, Weight(decay, w.now - e.at));
        if 0 < e.amount {
          ProductPositive(e.amount as real, Weight(decay, w.now - e.at));
        }
      }
    }
  }

  lemma WeightPositive(decay: real -> real, age: real)
    requires Decays(decay)
    ensures 0.0 < Weight(decay, age)
  {
  }

  lemma ProductPositive(x: real, y: real)
    requires 0.0 < x && 0.0 < y
    ensures 0.0 < x * y
  {
  }

  lemma SolePart(decay: real -> real, l: seq<Entry>, u: UserId, c: Currency, w: Window)
    requires Decays(decay) && OnlySpender(l, u, c, w.cutoff)
    ensures forall v :: Part(decay, l, v, c, w) == (if v == u then 1.0 else 0.0)
  {
    SoleUsage(decay, l, u, c, w);
    WholeOrNothing(UsageTotal(decay, l, c, w));
  }

  lemma WholeOrNothing(x: real)
    requires 0.0 < x
    ensures Ratio(x, x) == 1.0 && Ratio(0.0, x) == 0.0
  {
  }

  lemma MixOfParts(b: Blend, x: real, y: real)
    ensures b.gpuHours <= 0.0 < b.usd ==> Ratio(Mix(b, x, y), Positive(b.usd) + Positive(b.gpuHours)) == x
    ensures b.usd <= 0.0 < b.gpuHours ==> Ratio(Mix(b, x, y), Positive(b.usd) + Positive(b.gpuHours)) == y
    ensures 0.0 < b.usd && 0.0 < b.gpuHours && {x, y} == {0.0, 1.0} ==>
              Ratio(Mix(b, x, y), Positive(b.usd) + Positive(b.gpuHours))
                == (if x == 1.0 then b.usd else b.gpuHours) / (b.usd + b.gpuHours)
  {
    if 0.0 < b.usd && 0.0 < b.gpuHours && {x, y} == {0.0, 1.0} {
      assert x in {x, y} && y in {x, y} && 0.0 in {x, y} && 1.0 in {x, y};
      assert (x == 1.0 && y == 0.0) || (x == 0.0 && y == 1.0);
    }
  }

  lemma SoleShare(decay: real -> real, l: seq<Entry>, u: UserId, v: UserId, b: Blend, w: Window)
    requires Decays(decay)
    ensures OnlySpender(l, u, Usd, w.cutoff) && b.gpuHours <= 0.0 < b.usd ==>
              ShareOf(decay, l, v, b, w) == (if v == u then 1.0 else 0.0)
    ensures OnlySpender(l, u, GpuHour, w.cutoff) && b.usd <= 0.0 < b.gpuHours ==>
              ShareOf(decay, l, v, b, w) == (if v == u then 1.0 else 0.0)
    ensures OnlySpender(l, u, Usd, w.cutoff) && OnlySpender(l, v, GpuHour, w.cutoff) && u != v
            && 0.0 < b.usd && 0.0 < b.gpuHours ==>
              ShareOf(decay, l, u, b, w) == b.usd / (b.usd + b.gpuHours)
              && ShareOf(decay, l, v, b, w) == b.gpuHours / (b.usd + b.gpuHours)
  {
    hide Decays, OnlySpender, Part, Ratio, Mix, Positive;
    MixOfParts(b, Part(decay, l, u, Usd, w), Part(decay, l, u, GpuHour, w));
    MixOfParts(b, Part(decay, l, v, Usd, w), Part(decay, l, v, GpuHour, w));
    if OnlySpender(l, u, Usd, w.cutoff) {
      SolePart(decay, l, u, Usd, w);
    }
    if OnlySpender(l, u, GpuHour, w.cutoff) {
      SolePart(decay, l, u, GpuHour, w);
    }
    if OnlySpender(l, v, GpuHour, w.cutoff) {
      SolePart(decay, l, v, GpuHour, w);
    }
  }

  lemma SoleShares(decay: real -> real, l: seq<Entry>, b: Blend, w: Window)
    requires Decays(decay)
    ensures forall u, v :: OnlySpender(l, u, Usd, w.cutoff) && b.gpuHours <= 0.0 < b.usd ==>
              ShareOf(decay, l, v, b, w) == (if v == u then 1.0 else 0.0)
    ensures forall u, v :: OnlySpender(l, u, GpuHour, w.cutoff) && b.usd <= 0.0 < b.gpuHours ==>
              ShareOf(decay, l, v, b, w) == (if v == u then 1.0 else 0.0)
    ensures forall u, v :: OnlySpender(l, u, Usd, w.cutoff) && OnlySpender(l, v, GpuHour, w.cutoff)
                           && u != v && 0.0 < b.usd && 0.0 < b.gpuHours ==>
              ShareOf(decay, l, u, b, w) == b.usd / (b.usd + b.gpuHours)
              && ShareOf(decay, l, v, b, w) == b.gpuHours / (b.usd + b.gpuHours)
  {
    hide Decays, OnlySpender, ShareOf;
    forall u: UserId, v: UserId {
      SoleShare(decay, l, u, v, b, w);
    }
  }

  lemma ProductNotNegative(x: real, y: real)
    requires 0.0 <= x && 0.0 <= y
    ensures 0.0 <= x * y
  {
  }

  lemma WeightedNotNegative(decay: real -> real, e: Entry, c: Currency, w: Window)
    requires Decays(decay) && 0 <= e.amount
    ensures 0.0 <= Weighted(decay, e, c, w)
  {
    ProductNotNegative(e.amount as real, Weight(decay, w.now - e.at));
  }

  predicate NoneNegative(decay: real -> real, l: seq<Entry>, c: Currency, w: Window) {
    forall i :: 0 <= i < |l| ==> 0.0 <= Weighted(decay, l[i], c, w)
  }

  lemma NoRowIsNegative(decay: real -> real, l: seq<Entry>, c: Currency, w: Window)
    requires Decays(decay) && NoNegatives(l)
    ensures NoneNegative(decay, l, c, w)
  {
    forall i | 0 <= i < |l| ensures 0.0 <= Weighted(decay, l[i], c, w) {
      WeightedNotNegative(decay, l[i], c, w);
    }
  }

  function GroupUsage(decay: real -> real, l: seq<Entry>, us: seq<UserId>, c: Currency, w: Window): real {
    if us == [] then 0.0
    else GroupUsage(decay, l, us[..|us| - 1], c, w) + UsageOf(decay, l, us[|us| - 1], c, w)
  }

  lemma {:induction false} NobodyUsed(decay: real -> real, us: seq<UserId>, c: Currency, w: Window)
    ensures GroupUsage(decay, [], us, c, w) == 0.0
  {
    if us != [] {
      NobodyUsed(decay, us[..|us| - 1], c, w);
    }
  }

  function WeightedForGroup(decay: real -> real, e: Entry, us: seq<UserId>, c: Currency, w: Window): real {
    if e.user.Some? && e.user.value in us then Weighted(decay, e, c, w) else 0.0
  }

  /** One row adds to a group of distinct members at most once. */
  lemma {:induction false} OneRow(decay: real -> real, l: seq<Entry>, us: seq<UserId>, c: Currency, w: Window)
    requires l != [] && Distinct(us)
    ensures GroupUsage(decay, l, us, c, w)
         == GroupUsage(decay, l[..|l| - 1], us, c, w) + WeightedForGroup(decay, l[|l| - 1], us, c, w)
  {
    if us != [] {
      var e, front, u := l[|l| - 1], us[..|us| - 1], us[|us| - 1];
      OneRow(decay, l, front, c, w);
      assert us == front + [u] && u !in front;
      assert WeightedForGroup(decay, e, us, c, w)
          == WeightedForGroup(decay, e, front, c, w) + WeightedFor(decay, e, u, c, w);
    }
  }

  /** What any group of distinct members used is part of the total. */
  lemma {:induction false} GroupWithinTotal(decay: real -> real, l: seq<Entry>, us: seq<UserId>, c: Currency, w: Window)
    requires NoneNegative(decay, l, c, w) && Distinct(us)
    ensures 0.0 <= GroupUsage(decay, l, us, c, w) <= UsageTotal(decay, l, c, w)
  {
    if l == [] {
      NobodyUsed(decay, us, c, w);
    } else {
      GroupWithinTotal(decay, l[..|l| - 1], us, c, w);
      OneRow(decay, l, us, c, w);
      assert 0.0 <= Weighted(decay, l[|l| - 1], c, w);
    }
  }

  lemma RatioInUnit(x: real, y: real)
    requires 0.0 <= x <= y
    ensures 0.0 <= Ratio(x, y) <= 1.0
  {
  }

  lemma NotMoreThan(p: real, x: real)
    requires 0.0 <= p && 0.0 <= x <= 1.0
    ensures 0.0 <= p * x <= p
  {
    assert 0.0 <= p * (1.0 - x);
  }

  lemma SumWithin(x: real, p: real, y: real, q: real)
    requires 0.0 <= x <= p && 0.0 <= y <= q
    ensures 0.0 <= x + y <= p + q
  {
  }

  lemma MeanWithin(p: real, x: real, q: real, y: real)
    requires 0.0 <= p && 0.0 <= q && 0.0 <= x <= 1.0 && 0.0 <= y <= 1.0
    ensures 0.0 <= p * x + q * y <= p + q
  {
    NotMoreThan(p, x);
    NotMoreThan(q, y);
    SumWithin(p * x, p, q * y, q);
  }

  lemma MixWithin(b: Blend, x: real, y: real)
    requires 0.0 <= x <= 1.0 && 0.0 <= y <= 1.0
    ensures 0.0 <= Mix(b, x, y) <= Positive(b.usd) + Positive(b.gpuHours)
  {
    MeanWithin(Positive(b.usd), x, Positive(b.gpuHours), y);
  }

  function SumOfShares(decay: real -> real, l: seq<Entry>, us: seq<UserId>, b: Blend, w: Window): real {
    if us == [] then 0.0
    else SumOfShares(decay, l, us[..|us| - 1], b, w) + ShareOf(decay, l, us[|us| - 1], b, w)
  }

  function SumOfParts(decay: real -> real, l: seq<Entry>, us: seq<UserId>, c: Currency, w: Window): real {
    if us == [] then 0.0
    else SumOfParts(decay, l, us[..|us| - 1], c, w) + Part(decay, l, us[|us| - 1], c, w)
  }

  lemma RatiosAdd(x: real, y: real, z: real)
    ensures Ratio(x, z) + Ratio(y, z) == Ratio(x + y, z)
  {
  }

  lemma MixesAdd(b: Blend, x: real, dx: real, y: real, dy: real)
    ensures Mix(b, x + dx, y + dy) == Mix(b, x, y) + Mix(b, dx, dy)
  {
  }

  /** The parts of a group are the group's part. */
  lemma {:induction false} PartsOfGroup(decay: real -> real, l: seq<Entry>, us: seq<UserId>, c: Currency, w: Window)
    ensures SumOfParts(decay, l, us, c, w) == Ratio(GroupUsage(decay, l, us, c, w), UsageTotal(decay, l, c, w))
  {
    if us != [] {
      PartsOfGroup(decay, l, us[..|us| - 1], c, w);
      RatiosAdd(GroupUsage(decay, l, us[..|us| - 1], c, w), UsageOf(decay, l, us[|us| - 1], c, w),
                UsageTotal(decay, l, c, w));
    }
  }

  lemma PartsInUnit(decay: real -> real, l: seq<Entry>, us: seq<UserId>, c: Currency, w: Window)
    requires NoneNegative(decay, l, c, w) && Distinct(us)
    ensures 0.0 <= SumOfParts(decay, l, us, c, w) <= 1.0
  {
    PartsOfGroup(decay, l, us, c, w);
    GroupWithinTotal(decay, l, us, c, w);
    RatioInUnit(GroupUsage(decay, l, us, c, w), UsageTotal(decay, l, c, w));
  }

  lemma {:induction false} SharesOfGroup(decay: real -> real, l: seq<Entry>, us: seq<UserId>, b: Blend, w: Window)
    ensures SumOfShares(decay, l, us, b, w)
         == Ratio(Mix(b, SumOfParts(decay, l, us, Usd, w), SumOfParts(decay, l, us, GpuHour, w)),
                  Positive(b.usd) + Positive(b.gpuHours))
  {
    if us != [] {
      var front, u := us[..|us| - 1], us[|us| - 1];
      SharesOfGroup(decay, l, front, b, w);
      var x, y := SumOfParts(decay, l, front, Usd, w), SumOfParts(decay, l, front, GpuHour, w);
      var dx, dy := Part(decay, l, u, Usd, w), Part(decay, l, u, GpuHour, w);
      MixesAdd(b, x, dx, y, dy);
      RatiosAdd(Mix(b, x, y), Mix(b, dx, dy), Positive(b.usd) + Positive(b.gpuHours));
    }
  }

  /** The shares of any distinct members add up to at most the whole. */
  lemma SharesSumToAtMostOne(decay: real -> real, l: seq<Entry>, us: seq<UserId>, b: Blend, w: Window)
    requires Decays(decay) && NoNegatives(l) && Distinct(us)
    ensures 0.0 <= SumOfShares(decay, l, us, b, w) <= 1.0
  {
    NoRowIsNegative(decay, l, Usd, w);
    NoRowIsNegative(decay, l, GpuHour, w);
    SharesOfGroup(decay, l, us, b, w);
    PartsInUnit(decay, l, us, Usd, w);
    PartsInUnit(decay, l, us, GpuHour, w);
    MixWithin(b, SumOfParts(decay, l, us, Usd, w), SumOfParts(decay, l, us, GpuHour, w));
    RatioInUnit(Mix(b, SumOfParts(decay, l, us, Usd, w), SumOfParts(decay, l, us, GpuHour, w)),
                Positive(b.usd) + Positive(b.gpuHours));
  }

  /** A share is a share: between nothing and everything. */
  lemma ShareInUnit(decay: real -> real, l: seq<Entry>, u: UserId, b: Blend, w: Window)
    requires Decays(decay) && NoNegatives(l)
    ensures 0.0 <= ShareOf(decay, l, u, b, w) <= 1.0
  {
    SharesSumToAtMostOne(decay, l, [u], b, w);
    assert [u][..0] == [];
  }

  // ------------------------------------------------------------------ time passing

  /** No settlement leaves the window between two moments, and none is dated in the future. */
  predicate SameWindow(l: seq<Entry>, w: Window, v: Window) {
    && w.now <= v.now
    && forall i :: 0 <= i < |l| ==> Stays(l[i], w, v)
  }

  predicate Stays(e: Entry, w: Window, v: Window) {
    e.kind == Settle ==> e.at <= w.now && (w.cutoff <= e.at <==> v.cutoff <= e.at)
  }

  lemma WeightScales(decay: real -> real, age: real, d: real)
    requires Decays(decay) && 0.0 <= age && 0.0 <= d
    ensures Weight(decay, age + d) == decay(d) * Weight(decay, age)
  {
    assert Multiplies(decay, age, d);
  }

  lemma Reassociate(x: real, y: real, z: real)
    ensures x * (z * y) == z * (x * y)
  {
  }

  lemma RowScales(decay: real -> real, e: Entry, c: Currency, w: Window, v: Window)
    requires Decays(decay) && w.now <= v.now && Stays(e, w, v)
    ensures Weighted(decay, e, c, v) == decay(v.now - w.now) * Weighted(decay, e, c, w)
  {
    if Counts(e, c, w.cutoff) {
      WeightScales(decay, w.now - e.at, v.now - w.now);
      assert v.now - e.at == (w.now - e.at) + (v.now - w.now);
      Reassociate(e.amount as real, Weight(decay, w.now - e.at), decay(v.now - w.now));
    }
  }

  function SumReals(xs: seq<real>): real {
    if xs == [] then 0.0 else SumReals(xs[..|xs| - 1]) + xs[|xs| - 1]
  }

  predicate ScaledBy(x: real, y: real, k: real) {
    y == k * x
  }

  predicate Scaled(xs: seq<real>, ys: seq<real>, k: real) {
    |xs| == |ys| && forall i :: 0 <= i < |xs| ==> ScaledBy(xs[i], ys[i], k)
  }

  lemma Distributes(k: real, x: real, y: real)
    ensures k * x + k * y == k * (x + y)
  {
  }

  lemma {:induction false} SumScales(xs: seq<real>, ys: seq<real>, k: real)
    requires Scaled(xs, ys, k)
    ensures ScaledBy(SumReals(xs), SumReals(ys), k)
  {
    if xs != [] {
      var n := |xs| - 1;
      SumScales(xs[..n], ys[..n], k);
      assert ScaledBy(xs[n], ys[n], k);
      Distributes(k, SumReals(xs[..n]), xs[n]);
    }
  }

  /** What each row adds to one member's usage, and to everybody's. */
  function RowsFor(decay: real -> real, l: seq<Entry>, u: UserId, c: Currency, w: Window): (xs: seq<real>)
    ensures |xs| == |l|
    ensures forall i :: 0 <= i < |l| ==>
              xs[i] == (if l[i].kind == Settle && l[i].currency == c && w.cutoff <= l[i].at && l[i].user == Some(u)
                        then l[i].amount as real * (if w.now <= l[i].at then 1.0 else decay(w.now - l[i].at)) else 0.0)
  {
    seq(|l|, i requires 0 <= i < |l| => WeightedFor(decay, l[i], u, c, w))
  }

  function Rows(decay: real -> real, l: seq<Entry>, c: Currency, w: Window): seq<real> {
    seq(|l|, i requires 0 <= i < |l| => Weighted(decay, l[i], c, w))
  }

  lemma {:induction false} UsageIsSum(decay: real -> real, l: seq<Entry>, u: UserId, c: Currency, w: Window)
    ensures UsageOf(decay, l, u, c, w) == SumReals(RowsFor(decay, l, u, c, w))
    ensures UsageTotal(decay, l, c, w) == SumReals(Rows(decay, l, c, w))
  {
    if l != [] {
      var n := |l| - 1;
      UsageIsSum(decay, l[..n], u, c, w);
      assert RowsFor(decay, l, u, c, w)[..n] == RowsFor(decay, l[..n], u, c, w);
      assert Rows(decay, l, c, w)[..n] == Rows(decay, l[..n], c, w);
    }
  }

  lemma RowsScale(decay: real -> real, l: seq<Entry>, c: Currency, w: Window, v: Window)
    requires Decays(decay) && SameWindow(l, w, v)
    ensures Scaled(Rows(decay, l, c, w), Rows(decay, l, c, v), decay(v.now - w.now))
  {
    var xs, ys, k := Rows(decay, l, c, w), Rows(decay, l, c, v), decay(v.now - w.now);
    forall i | 0 <= i < |l| ensures ScaledBy(xs[i], ys[i], k) {
      RowScales(decay, l[i], c, w, v);
    }
  }

  lemma RowsForScale(decay: real -> real, l: seq<Entry>, u: UserId, c: Currency, w: Window, v: Window)
    requires Decays(decay) && SameWindow(l, w, v)
    ensures Scaled(RowsFor(decay, l, u, c, w), RowsFor(decay, l, u, c, v), decay(v.now - w.now))
  {
    var xs, ys, k := RowsFor(decay, l, u, c, w), RowsFor(decay, l, u, c, v), decay(v.now - w.now);
    forall i | 0 <= i < |l| ensures ScaledBy(xs[i], ys[i], k) {
      RowScales(decay, l[i], c, w, v);
    }
  }

  lemma SameRatio(k: real, x: real, y: real, x': real, y': real)
    requires 0.0 < k && ScaledBy(x, x', k) && ScaledBy(y, y', k)
    ensures Ratio(x', y') == Ratio(x, y)
  {
    if 0.0 < y {
      assert 0.0 < y';
      assert (x / y) * y' == x';
    } else {
      assert y' <= 0.0;
    }
  }

  lemma RatioOfScaled(xs: seq<real>, ys: seq<real>, xs': seq<real>, ys': seq<real>, k: real)
    requires 0.0 < k && Scaled(xs, xs', k) && Scaled(ys, ys', k)
    ensures Ratio(SumReals(xs'), SumReals(ys')) == Ratio(SumReals(xs), SumReals(ys))
  {
    SumScales(xs, xs', k);
    SumScales(ys, ys', k);
    SameRatio(k, SumReals(xs), SumReals(ys), SumReals(xs'), SumReals(ys'));
  }

  lemma PartStays(decay: real -> real, l: seq<Entry>, u: UserId, c: Currency, w: Window, v: Window)
    requires Decays(decay) && SameWindow(l, w, v)
    ensures Part(decay, l, u, c, v) == Part(decay, l, u, c, w)
  {
    RowsScale(decay, l, c, w, v);
    RowsForScale(decay, l, u, c, w, v);
    UsageIsSum(decay, l, u, c, w);
    UsageIsSum(decay, l, u, c, v);
    RatioOfScaled(RowsFor(decay, l, u, c, w), Rows(decay, l, c, w),
                  RowsFor(decay, l, u, c, v), Rows(decay, l, c, v), decay(v.now - w.now));
  }

  /** Time alone moves nobody's share: decay fades every settlement by the same factor. */
  lemma SharesIgnoreTime(decay: real -> real, l: seq<Entry>, u: UserId, b: Blend, w: Window, v: Window)
    requires Decays(decay) && SameWindow(l, w, v)
    ensures ShareOf(decay, l, u, b, v) == ShareOf(decay, l, u, b, w)
  {
    PartStays(decay, l, u, Usd, w, v);
    PartStays(decay, l, u, GpuHour, w, v);
  }
}
