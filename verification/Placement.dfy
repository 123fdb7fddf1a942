/** Finding a backend for a job (gpu_broker/placement.py; gpu_broker/scheduler.py `_fallback_tier`). */
module Placement {
  import opened Wrappers
  import opened Money
  import opened Ledger
  import opened Tables

  /** A configured backend. */
  datatype Site = Site(id: BackendId, tier: Tier, currency: Currency, gpus: set<GpuType>)

  /** What placement looks at in a job. */
  datatype Want = Want(gpu: GpuType, currency: Currency, pinned: Option<Tier>)

  datatype Why = WrongCurrency | NoSuchGpu | NoFreeSlot

  datatype Reason = FirstFit | NoTierPresent | NothingFree

  datatype Placement = Placement(backend: Option<Site>, reason: Reason, skipped: seq<(BackendId, Why)>)

  /** Slots free right now. A backend nobody reports on has none. */
  function FreeOn(free: map<BackendId, int>, b: BackendId): int {
    if b in free then free[b] else 0
  }

  predicate Suits(s: Site, w: Want) {
    s.currency == w.currency && w.gpu in s.gpus
  }

  predicate Eligible(s: Site, w: Want, free: map<BackendId, int>) {
    Suits(s, w) && 0 < FreeOn(free, s.id)
  }

  /** The first thing wrong with a backend that is not eligible. */
  function WhyNot(s: Site, w: Want): Why {
    if s.currency != w.currency then WrongCurrency
    else if w.gpu !in s.gpus then NoSuchGpu
    else NoFreeSlot
  }

  function IndexOf(order: seq<Tier>, t: Tier): (i: nat)
    requires t in order
    ensures i < |order| && order[i] == t && t !in order[..i]
  {
    if order[0] == t then 0
    else
      var i := 1 + IndexOf(order[1..], t);
      assert order[..i] == [order[0]] + order[1..][..i - 1];
      i
  }

  /** The tiers a job may use, dearest last. A pinned job has given up everything above its pin. */
  function EffectiveOrder(order: seq<Tier>, pinned: Option<Tier>): (r: seq<Tier>)
    ensures order != [] ==> r != []
  {
    if pinned.None? then order
    else if pinned.value in order then order[IndexOf(order, pinned.value)..]
    else [pinned.value]
  }

  function InTier(sites: seq<Site>, t: Tier): seq<Site> {
    if sites == [] then []
    else InTier(sites[..|sites| - 1], t) + (if sites[|sites| - 1].tier == t then [sites[|sites| - 1]] else [])
  }

  /** Every backend in the order it is considered: tier by tier, and as listed within a tier. */
  function Candidates(order: seq<Tier>, sites: seq<Site>): seq<Site> {
    if order == [] then []
    else Candidates(order[..|order| - 1], sites) + InTier(sites, order[|order| - 1])
  }

  function Skips(cs: seq<Site>, w: Want): seq<(BackendId, Why)> {
    seq(|cs|, i requires 0 <= i < |cs| => (cs[i].id, WhyNot(cs[i], w)))
  }

  ghost predicate NoneEligible(cs: seq<Site>, w: Want, free: map<BackendId, int>) {
    forall i :: 0 <= i < |cs| ==> !Eligible(cs[i], w, free)
  }

  /** What a search through `cs` in order comes to: the first eligible backend and what was passed
      over to reach it, or nothing and everything passed over. */
  ghost predicate Searched(cs: seq<Site>, w: Want, free: map<BackendId, int>,
                           found: Option<Site>, skipped: seq<(BackendId, Why)>) {
    match found
    case Some(s) =>
      && |skipped| < |cs| && cs[|skipped|] == s && Eligible(s, w, free)
      && NoneEligible(cs[..|skipped|], w, free) && skipped == Skips(cs[..|skipped|], w)
    case None => NoneEligible(cs, w, free) && skipped == Skips(cs, w)
  }

  /** The first backend in a list that has a slot and suits the job. */
  function FirstEligible(cs: seq<Site>, w: Want, free: map<BackendId, int>): Option<Site> {
    if cs == [] then None
    else if Eligible(cs[0], w, free) then Some(cs[0])
    else FirstEligible(cs[1..], w, free)
  }

  /** The backend a job would be placed on right now, if any. */
  function Taker(w: Want, sites: seq<Site>, tiers: seq<Tier>, free: map<BackendId, int>): Option<Site> {
    FirstEligible(Candidates(EffectiveOrder(tiers, w.pinned), sites), w, free)
  }

  lemma {:induction false} PassOver(cs: seq<Site>, w: Want, free: map<BackendId, int>, n: nat)
    requires n <= |cs| && NoneEligible(cs[..n], w, free)
    ensures FirstEligible(cs, w, free) == FirstEligible(cs[n..], w, free)
  {
    if n == 0 {
      assert cs[0..] == cs;
    } else {
      assert cs[..n][..n - 1] == cs[..n - 1] && cs[..n][n - 1] == cs[n - 1];
      PassOver(cs, w, free, n - 1);
      assert cs[n - 1..][1..] == cs[n..];
    }
  }

  /** Any search that ends as it should finds that one. */
  lemma SearchFindsFirst(cs: seq<Site>, w: Want, free: map<BackendId, int>,
                         found: Option<Site>, skipped: seq<(BackendId, Why)>)
    requires Searched(cs, w, free, found, skipped)
    ensures found == FirstEligible(cs, w, free)
  {
    var n := if found.Some? then |skipped| else |cs|;
    assert found.None? ==> cs[..n] == cs && cs[n..] == [];
    PassOver(cs, w, free, n);
  }

  /** A configured backend that takes the job's currency and type and has a slot free. */
  predicate CanTake(s: Site, w: Want, free: map<BackendId, int>) {
    s.currency == w.currency && w.gpu in s.gpus && s.id in free && 0 < free[s.id]
  }

  /** Of the backends that can take the job, `found` is the first listed in the earliest of these tiers that has one;
      nothing is found exactly when no tier has one. */
  ghost predicate Cheapest(order: seq<Tier>, sites: seq<Site>, w: Want, free: map<BackendId, int>, found: Option<Site>) {
    match found
    case None => forall k :: 0 <= k < |sites| && CanTake(sites[k], w, free) ==> sites[k].tier !in order
    case Some(s) =>
      exists i :: && 0 <= i < |sites| && sites[i] == s && CanTake(s, w, free)
                  && s.tier in order && IsCheapest(order, sites, w, free, i)
  }

  ghost predicate IsCheapest(order: seq<Tier>, sites: seq<Site>, w: Want, free: map<BackendId, int>, i: nat)
    requires i < |sites| && sites[i].tier in order
  {
    forall k :: 0 <= k < |sites| && CanTake(sites[k], w, free) && sites[k].tier in order ==>
      IndexOf(order, sites[i].tier) < IndexOf(order, sites[k].tier) || (sites[k].tier == sites[i].tier && i <= k)
  }

  /** Where a job belongs: without a pin on the cheapest backend that can take it, and with one on the cheapest
      from the pin on. A pin that is no longer a tier of the configuration leaves only backends that still claim it. */
  ghost predicate Placed(w: Want, sites: seq<Site>, tiers: seq<Tier>, free: map<BackendId, int>, found: Option<Site>) {
    && (w.pinned.None? ==> Cheapest(tiers, sites, w, free, found))
    && (w.pinned.Some? && w.pinned.value in tiers ==>
          Cheapest(tiers[IndexOf(tiers, w.pinned.value)..], sites, w, free, found))
    && (w.pinned.Some? && w.pinned.value !in tiers ==> Cheapest([w.pinned.value], sites, w, free, found))
  }

  /** What is wrong with a backend that was passed over. */
  predicate Blames(s: Site, w: Want, free: map<BackendId, int>, why: Why) {
    match why
    case WrongCurrency => s.currency != w.currency
    case NoSuchGpu => s.currency == w.currency && w.gpu !in s.gpus
    case NoFreeSlot => s.currency == w.currency && w.gpu in s.gpus && (s.id !in free || free[s.id] <= 0)
  }

  /** Every backend passed over is a configured one, with what is wrong with it. */
  ghost predicate Reasoned(sites: seq<Site>, w: Want, free: map<BackendId, int>, skipped: seq<(BackendId, Why)>) {
    forall k :: 0 <= k < |skipped| ==> Justified(sites, w, free, skipped[k])
  }

  ghost predicate Justified(sites: seq<Site>, w: Want, free: map<BackendId, int>, skip: (BackendId, Why)) {
    exists i :: 0 <= i < |sites| && sites[i].id == skip.0 && Blames(sites[i], w, free, skip.1)
  }

  lemma SkippedWithReason(order: seq<Tier>, sites: seq<Site>, w: Want, free: map<BackendId, int>,
                          found: Option<Site>, skipped: seq<(BackendId, Why)>)
    requires Searched(Candidates(order, sites), w, free, found, skipped)
    ensures Reasoned(sites, w, free, skipped)
  {
    hide Candidates;
    var cs := Candidates(order, sites);
    forall k | 0 <= k < |skipped| ensures Justified(sites, w, free, skipped[k]) {
      CandidatesHave(order, sites, cs[k]);
      var i :| 0 <= i < |sites| && sites[i] == cs[k];
      assert found.Some? ==> cs[..|skipped|][k] == cs[k];
      assert !Eligible(cs[k], w, free);
      assert sites[i].id == skipped[k].0 && Blames(sites[i], w, free, skipped[k].1);
    }
  }

  lemma {:induction false} FirstOfTwo(a: seq<Site>, b: seq<Site>, w: Want, free: map<BackendId, int>)
    ensures FirstEligible(a + b, w, free)
         == (if FirstEligible(a, w, free).Some? then FirstEligible(a, w, free) else FirstEligible(b, w, free))
  {
    if a == [] {
      assert a + b == b;
    } else {
      assert (a + b)[0] == a[0] && (a + b)[1..] == a[1..] + b;
      FirstOfTwo(a[1..], b, w, free);
    }
  }

  /** The first backend listed in one tier that can take the job, by its place in the list. */
  lemma {:induction false} FirstInTier(sites: seq<Site>, t: Tier, w: Want, free: map<BackendId, int>)
    returns (i: nat)
    ensures var found := FirstEligible(InTier(sites, t), w, free);
            && (found.None? ==> forall k :: 0 <= k < |sites| && CanTake(sites[k], w, free) ==> sites[k].tier != t)
            && (found.Some? ==>
                  && i < |sites| && sites[i] == found.value && sites[i].tier == t && CanTake(sites[i], w, free)
                  && forall k :: 0 <= k < |sites| && CanTake(sites[k], w, free) && sites[k].tier == t ==> i <= k)
  {
    i := 0;
    if sites != [] {
      var n := |sites| - 1;
      var front, last := InTier(sites[..n], t), if sites[n].tier == t then [sites[n]] else [];
      var k := FirstInTier(sites[..n], t, w, free);
      FirstOfTwo(front, last, w, free);
      i := if FirstEligible(front, w, free).Some? then k else n;
    }
  }

  lemma {:induction false} FirstAt(order: seq<Tier>, t: Tier, i: nat)
    requires i < |order| && order[i] == t && t !in order[..i]
    ensures IndexOf(order, t) == i
  {
    if 0 < i {
      assert order[..i][0] == order[0];
      assert order[..i] == [order[0]] + order[1..][..i - 1];
      FirstAt(order[1..], t, i - 1);
    }
  }

  lemma IndexInFront(order: seq<Tier>, n: nat, t: Tier)
    requires n <= |order| && t in order[..n]
    ensures t in order && IndexOf(order, t) == IndexOf(order[..n], t) < n
  {
    var i := IndexOf(order[..n], t);
    assert order[i] == t && order[..i] == order[..n][..i];
    FirstAt(order, t, i);
  }

  /** The search through the candidates finds the cheapest. */
  lemma {:induction false} CandidatesGiveCheapest(order: seq<Tier>, sites: seq<Site>, w: Want, free: map<BackendId, int>)
    ensures Cheapest(order, sites, w, free, FirstEligible(Candidates(order, sites), w, free))
  {
    hide Candidates, InTier, CanTake;
    if order == [] {
      NoTiers(sites, w, free);
    } else {
      var n := |order| - 1;
      var front, t := order[..n], order[n];
      CandidatesGiveCheapest(front, sites, w, free);
      var i := FirstInTier(sites, t, w, free);
      OneTierLonger(order, sites);
      FirstOfTwo(Candidates(front, sites), InTier(sites, t), w, free);
      OneTierAdds(order, sites, w, free, FirstEligible(Candidates(front, sites), w, free),
                  FirstEligible(InTier(sites, t), w, free), i);
    }
  }

  /** The backend a job would be placed on is the one it belongs on. */
  lemma TakerIsPlaced(w: Want, sites: seq<Site>, tiers: seq<Tier>, free: map<BackendId, int>)
    ensures Placed(w, sites, tiers, free, Taker(w, sites, tiers, free))
  {
    hide Cheapest, Candidates, FirstEligible, IndexOf;
    match w.pinned {
      case None => CandidatesGiveCheapest(tiers, sites, w, free);
      case Some(pin) =>
        var order := if pin in tiers then tiers[IndexOf(tiers, pin)..] else [pin];
        CandidatesGiveCheapest(order, sites, w, free);
        assert EffectiveOrder(tiers, w.pinned) == order;
    }
  }

  lemma NoTiers(sites: seq<Site>, w: Want, free: map<BackendId, int>)
    ensures FirstEligible(Candidates([], sites), w, free) == None
  {
  }

  lemma OneTierLonger(order: seq<Tier>, sites: seq<Site>)
    requires order != []
    ensures Candidates(order, sites) == Candidates(order[..|order| - 1], sites) + InTier(sites, order[|order| - 1])
  {
  }

  lemma OneTierAdds(order: seq<Tier>, sites: seq<Site>, w: Want, free: map<BackendId, int>,
                    before: Option<Site>, here: Option<Site>, i: nat)
    requires order != [] && Cheapest(order[..|order| - 1], sites, w, free, before)
    requires var t := order[|order| - 1];
             && (here.None? ==> forall k :: 0 <= k < |sites| && CanTake(sites[k], w, free) ==> sites[k].tier != t)
             && (here.Some? ==>
                   && i < |sites| && sites[i] == here.value && sites[i].tier == t && CanTake(sites[i], w, free)
                   && forall k :: 0 <= k < |sites| && CanTake(sites[k], w, free) && sites[k].tier == t ==> i <= k)
    ensures Cheapest(order, sites, w, free, if before.Some? then before else here)
  {
    hide CanTake, IndexOf;
    var n := |order| - 1;
    var front, t := order[..n], order[n];
    assert order == front + [t];
    if before.Some? {
      var j :| 0 <= j < |sites| && sites[j] == before.value && CanTake(sites[j], w, free) && sites[j].tier in front
               && IsCheapest(front, sites, w, free, j);
      forall k | 0 <= k < |sites| && CanTake(sites[k], w, free) && sites[k].tier in order
        ensures IndexOf(order, sites[j].tier) < IndexOf(order, sites[k].tier) || (sites[k].tier == sites[j].tier && j <= k)
      {
        IndexInFront(order, n, sites[j].tier);
        if sites[k].tier in front {
          IndexInFront(order, n, sites[k].tier);
        } else {
          FirstAt(order, t, n);
        }
      }
      assert IsCheapest(order, sites, w, free, j);
    } else if here.Some? {
      assert IsCheapest(order, sites, w, free, i);
    }
  }

  /** The backends of one tier, as listed. */
  method SearchTier(w: Want, sites: seq<Site>, tier: Tier, free: map<BackendId, int>)
    returns (found: Option<Site>, skipped: seq<(BackendId, Why)>)
    ensures Searched(InTier(sites, tier), w, free, found, skipped)
  {
    found, skipped := None, [];
    for k := 0 to |sites|
      invariant NoneEligible(InTier(sites[..k], tier), w, free)
      invariant skipped == Skips(InTier(sites[..k], tier), w)
    {
      var s := sites[k];
      NextSite(sites, tier, k);
      if s.tier == tier {
        if s.currency != w.currency {
          skipped := skipped + [(s.id, WrongCurrency)];
        } else if w.gpu !in s.gpus {
          skipped := skipped + [(s.id, NoSuchGpu)];
        } else if FreeOn(free, s.id) <= 0 {
          skipped := skipped + [(s.id, NoFreeSlot)];
        } else {
          found := Some(s);
          return;
        }
      }
    }
    assert sites[..|sites|] == sites;
  }

  lemma NextSite(sites: seq<Site>, tier: Tier, k: nat)
    requires k < |sites|
    ensures InTier(sites[..k + 1], tier)
         == InTier(sites[..k], tier) + (if sites[k].tier == tier then [sites[k]] else [])
    ensures InTier(sites[..k + 1], tier) <= InTier(sites, tier)
  {
    assert sites[..k + 1][..k] == sites[..k];
    InTierPrefix(sites, tier, k + 1);
  }

  /** `choose`: the first eligible backend in the effective tier order, with every backend
      passed over on the way and why, or every candidate and why when there is none. Without a pin that is the
      first listed in the cheapest tier that can take the job, and with one the same from the pin on. */
  method Choose(w: Want, sites: seq<Site>, tiers: seq<Tier>, free: map<BackendId, int>) returns (p: Placement)
    requires tiers != []
    ensures Searched(Candidates(EffectiveOrder(tiers, w.pinned), sites), w, free, p.backend, p.skipped)
    ensures p.backend == Taker(w, sites, tiers, free)
    ensures Placed(w, sites, tiers, free, p.backend) && Reasoned(sites, w, free, p.skipped)
    ensures p.reason == (if p.backend.Some? then FirstFit
                         else if Candidates(EffectiveOrder(tiers, w.pinned), sites) == [] then NoTierPresent
                         else NothingFree)
  {
    hide Placed, Reasoned;
    var skipped: seq<(BackendId, Why)> := [];
    var order := EffectiveOrder(tiers, w.pinned);
    TakerIsPlaced(w, sites, tiers, free);
    for i := 0 to |order|
      invariant Searched(Candidates(order[..i], sites), w, free, None, skipped)
    {
      var found, more := SearchTier(w, sites, order[i], free);
      OneTierMore(order, sites, i, w, free, skipped, found, more);
      skipped := skipped + more;
      if found.Some? {
        SearchFindsFirst(Candidates(order, sites), w, free, found, skipped);
        SkippedWithReason(order, sites, w, free, found, skipped);
        return Placement(found, FirstFit, skipped);
      }
    }
    assert order[..|order|] == order;
    SearchFindsFirst(Candidates(order, sites), w, free, None, skipped);
    SkippedWithReason(order, sites, w, free, None, skipped);
    EmptyTiers(order, sites);
    var unknown := HasUnknownTier(order, sites);
    return Placement(None, if unknown && skipped == [] then NoTierPresent else NothingFree, skipped);
  }

  lemma OneTierMore(order: seq<Tier>, sites: seq<Site>, i: nat, w: Want, free: map<BackendId, int>,
                    skipped: seq<(BackendId, Why)>, found: Option<Site>, more: seq<(BackendId, Why)>)
    requires i < |order|
    requires Searched(Candidates(order[..i], sites), w, free, None, skipped)
    requires Searched(InTier(sites, order[i]), w, free, found, more)
    ensures found.None? ==> Searched(Candidates(order[..i + 1], sites), w, free, None, skipped + more)
    ensures found.Some? ==> Searched(Candidates(order, sites), w, free, found, skipped + more)
  {
    var a, b := Candidates(order[..i], sites), InTier(sites, order[i]);
    assert order[..i + 1][..i] == order[..i];
    SearchJoins(a, b, w, free, skipped, found, more);
    if found.Some? {
      CandidatesPrefix(order, sites, i + 1);
      SearchExtends(a + b, Candidates(order, sites), w, free, found, skipped + more);
    }
  }

  lemma SearchJoins(a: seq<Site>, b: seq<Site>, w: Want, free: map<BackendId, int>,
                    skipped: seq<(BackendId, Why)>, found: Option<Site>, more: seq<(BackendId, Why)>)
    requires Searched(a, w, free, None, skipped) && Searched(b, w, free, found, more)
    ensures Searched(a + b, w, free, found, skipped + more)
  {
    if found.Some? {
      assert (a + b)[..|skipped + more|] == a + b[..|more|];
    }
  }

  lemma SearchExtends(a: seq<Site>, b: seq<Site>, w: Want, free: map<BackendId, int>,
                      found: Option<Site>, skipped: seq<(BackendId, Why)>)
    requires a <= b && found.Some? && Searched(a, w, free, found, skipped)
    ensures Searched(b, w, free, found, skipped)
  {
    assert b[..|skipped|] == a[..|skipped|];
  }

  method HasUnknownTier(order: seq<Tier>, sites: seq<Site>) returns (b: bool)
    ensures b <==> exists i :: 0 <= i < |order| && InTier(sites, order[i]) == []
  {
    b := false;
    for i := 0 to |order|
      invariant b <==> exists k :: 0 <= k < i && InTier(sites, order[k]) == []
    {
      if InTier(sites, order[i]) == [] {
        b := true;
      }
    }
  }

  lemma {:induction false} CandidatesPrefix(order: seq<Tier>, sites: seq<Site>, i: nat)
    requires i <= |order|
    ensures Candidates(order[..i], sites) <= Candidates(order, sites)
    decreases |order|
  {
    if i < |order| {
      CandidatesPrefix(order[..|order| - 1], sites, i);
      assert order[..|order| - 1][..i] == order[..i];
    } else {
      assert order[..i] == order;
    }
  }

  lemma {:induction false} InTierPrefix(sites: seq<Site>, t: Tier, k: nat)
    requires k <= |sites|
    ensures InTier(sites[..k], t) <= InTier(sites, t)
  {
    if k < |sites| {
      InTierPrefix(sites[..|sites| - 1], t, k);
      assert sites[..|sites| - 1][..k] == sites[..k];
    } else {
      assert sites[..k] == sites;
    }
  }

  lemma {:induction false} EmptyTiers(order: seq<Tier>, sites: seq<Site>)
    ensures Candidates(order, sites) == [] <==> forall i :: 0 <= i < |order| ==> InTier(sites, order[i]) == []
  {
    if order != [] {
      var n := |order| - 1;
      EmptyTiers(order[..n], sites);
      assert forall i :: 0 <= i < n ==> order[..n][i] == order[i];
    }
  }

  lemma {:induction false} InTierHas(sites: seq<Site>, t: Tier, s: Site)
    ensures s in InTier(sites, t) <==> s in sites && s.tier == t
  {
    if sites != [] {
      InTierHas(sites[..|sites| - 1], t, s);
      assert sites == sites[..|sites| - 1] + [sites[|sites| - 1]];
    }
  }

  /** A backend is ever considered exactly when it is configured in one of the job's tiers. */
  lemma {:induction false} CandidatesHave(order: seq<Tier>, sites: seq<Site>, s: Site)
    ensures s in Candidates(order, sites) <==> s in sites && s.tier in order
  {
    if order != [] {
      var n := |order| - 1;
      CandidatesHave(order[..n], sites, s);
      InTierHas(sites, order[n], s);
      assert order == order[..n] + [order[n]];
    }
  }

  /** `validate_order` accepts exactly the configurations in which no backend is dead weight:
      every one of them is a candidate for every job that is not pinned. */
  predicate OrderAccepted(tiers: seq<Tier>, sites: seq<Site>) {
    forall i :: 0 <= i < |sites| ==> sites[i].tier in tiers
  }

  lemma AcceptedIffUsable(tiers: seq<Tier>, sites: seq<Site>)
    ensures OrderAccepted(tiers, sites)
       <==> forall i :: 0 <= i < |sites| ==> sites[i] in Candidates(EffectiveOrder(tiers, None), sites)
  {
    forall i | 0 <= i < |sites|
      ensures sites[i].tier in tiers <==> sites[i] in Candidates(EffectiveOrder(tiers, None), sites)
    {
      CandidatesHave(tiers, sites, sites[i]);
    }
  }

  /** What a pinned job can be placed on: nothing in a tier listed only above its pin. */
  lemma PinHolds(tiers: seq<Tier>, sites: seq<Site>, pin: Tier, s: Site)
    ensures s in Candidates(EffectiveOrder(tiers, Some(pin)), sites)
       <==> s in sites && (if pin in tiers then s.tier in tiers[IndexOf(tiers, pin)..] else s.tier == pin)
  {
    CandidatesHave(EffectiveOrder(tiers, Some(pin)), sites, s);
  }

  /** The tiers below the one a job is at now. */
  function Below(tiers: seq<Tier>, current: Tier): seq<Tier> {
    if current in tiers then tiers[IndexOf(tiers, current) + 1..] else tiers
  }

  predicate SomeSuits(sites: seq<Site>, t: Tier, w: Want) {
    exists k :: 0 <= k < |sites| && sites[k].tier == t && Suits(sites[k], w)
  }

  /** The first tier below the one a job is at with a backend that could run the job, if any. */
  ghost predicate IsFallback(w: Want, sites: seq<Site>, tiers: seq<Tier>, spot: Tier, t: Option<Tier>) {
    var after := Below(tiers, w.pinned.GetOr(spot));
    match t
    case Some(tier) =>
      exists i :: 0 <= i < |after| && after[i] == tier && SomeSuits(sites, tier, w)
                  && forall k :: 0 <= k < i ==> !SomeSuits(sites, after[k], w)
    case None => forall k :: 0 <= k < |after| ==> !SomeSuits(sites, after[k], w)
  }

  /** So a job moves down, never up or sideways: a fallback has a backend that takes the job, stands below the tier the
      job is pinned to (or the spot tier), and no tier in between has one. */
  lemma FallbackIsNextBelow(w: Want, sites: seq<Site>, tiers: seq<Tier>, spot: Tier, t: Option<Tier>)
    requires IsFallback(w, sites, tiers, spot, t)
    ensures var current := match w.pinned case Some(p) => p case None => spot;
            var below := if current in tiers then tiers[IndexOf(tiers, current) + 1..] else tiers;
            && (t.Some? ==>
                  && t.value in below
                  && exists k :: 0 <= k < |sites| && sites[k].tier == t.value
                                 && sites[k].currency == w.currency && w.gpu in sites[k].gpus)
            && forall k :: 0 <= k < |sites| && sites[k].tier in below
                           && sites[k].currency == w.currency && w.gpu in sites[k].gpus ==>
                 t.Some? && IndexOf(below, t.value) <= IndexOf(below, sites[k].tier)
  {
    hide IndexOf;
    var after := Below(tiers, w.pinned.GetOr(spot));
    forall k | 0 <= k < |sites| && sites[k].tier in after && Suits(sites[k], w)
      ensures t.Some? && IndexOf(after, t.value) <= IndexOf(after, sites[k].tier)
    {
      var at := IndexOf(after, sites[k].tier);
      assert after[at] == sites[k].tier && SomeSuits(sites, after[at], w);
      if t.Some? {
        var i :| 0 <= i < |after| && after[i] == t.value && SomeSuits(sites, t.value, w)
                 && forall j :: 0 <= j < i ==> !SomeSuits(sites, after[j], w);
        NotAfter(after, t.value, i);
      }
    }
    if t.Some? {
      var k :| 0 <= k < |sites| && sites[k].tier == t.value && Suits(sites[k], w);
      assert sites[k].currency == w.currency;
    }
  }

  /** The first place of a tier is no later than any of its places. */
  lemma {:induction false} NotAfter(order: seq<Tier>, t: Tier, i: nat)
    requires i < |order| && order[i] == t
    ensures IndexOf(order, t) <= i
  {
    if 0 < i {
      if order[0] != t {
        NotAfter(order[1..], t, i - 1);
      }
    }
  }

  /** `_fallback_tier`. */
  method FallbackTier(w: Want, sites: seq<Site>, tiers: seq<Tier>, spot: Tier) returns (t: Option<Tier>)
    ensures IsFallback(w, sites, tiers, spot, t)
  {
    var after := Below(tiers, w.pinned.GetOr(spot));
    for i := 0 to |after|
      invariant forall k :: 0 <= k < i ==> !SomeSuits(sites, after[k], w)
    {
      for k := 0 to |sites|
        invariant forall j :: 0 <= j < k ==> !(sites[j].tier == after[i] && Suits(sites[j], w))
      {
        if sites[k].tier == after[i] && Suits(sites[k], w) {
          assert SomeSuits(sites, after[i], w);
          return Some(after[i]);
        }
      }
    }
    return None;
  }

  /** A job pinned to its fallback tier always has a backend that could take it:
      a pin alone never strands a job in the queue. */
  lemma PinNeverStrands(w: Want, sites: seq<Site>, tiers: seq<Tier>, tier: Tier)
    requires SomeSuits(sites, tier, w)
    ensures exists s :: s in Candidates(EffectiveOrder(tiers, Some(tier)), sites) && Suits(s, w)
  {
    var k :| 0 <= k < |sites| && sites[k].tier == tier && Suits(sites[k], w);
    var s := sites[k];
    PinHolds(tiers, sites, tier, s);
    if tier in tiers {
      var i := IndexOf(tiers, tier);
      assert tiers[i..][0] == tier;
    }
    assert s in Candidates(EffectiveOrder(tiers, Some(tier)), sites);
  }
}
