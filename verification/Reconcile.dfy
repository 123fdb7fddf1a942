/** Comparing the machines with the records (gpu_broker/scheduler.py `reconcile`; gpu_broker/reaper.py). */
module Reconcile {
  import opened Wrappers
  import opened Money
  import opened States
  import opened Ledger
  import opened Tables
  import opened World
  import opened Books
  import opened Store
  import opened Engine
  import Advance

  /** One entry of a backend's `list_resources`. */
  datatype Resource = Resource(handle: Handle, job: Option<JobId>)

  datatype Finding =
    | Untagged(handle: Handle)
    | Orphan(handle: Handle, job: JobId)
    | Lost(handle: Handle, job: JobId)

  /** The last active job that names the machine: the one a dictionary keyed by machine keeps. */
  predicate LastHolder(jobs: seq<Job>, n: nat, j: JobId, h: Handle) {
    j < n && Advance.Holds(jobs, j, h) && forall i :: j < i < n ==> !Advance.Holds(jobs, i, h)
  }

  lemma OneLastHolder(jobs: seq<Job>, n: nat, i: JobId, j: JobId, h: Handle)
    requires LastHolder(jobs, n, i, h) && LastHolder(jobs, n, j, h)
    ensures i == j
  {
  }

  /** `our_active`. */
  method OurActive(store: Store) returns (ours: map<Handle, JobId>)
    ensures forall h, j: JobId :: h in ours && ours[h] == j <==> LastHolder(store.jobs, |store.jobs|, j, h)
    ensures forall h :: h in ours <==> Advance.Recorded(store.jobs, h)
  {
    ours := map[];
    for n := 0 to |store.jobs|
      invariant forall h :: h in ours ==> LastHolder(store.jobs, n, ours[h], h)
      invariant forall h :: h in ours <==> exists j: JobId :: j < n && Advance.Holds(store.jobs, j, h)
    {
      var job := store.jobs[n];
      if job.state in ACTIVE && job.place.Some? {
        assert Advance.Holds(store.jobs, n, job.place.value);
        ours := ours[job.place.value := n];
      }
    }
    forall h, j: JobId | LastHolder(store.jobs, |store.jobs|, j, h) ensures h in ours && ours[h] == j {
      assert Advance.Holds(store.jobs, j, h);
      OneLastHolder(store.jobs, |store.jobs|, j, ours[h], h);
    }
  }

  ghost predicate Listed(listing: seq<Resource>, h: Handle) {
    exists i :: 0 <= i < |listing| && listing[i].handle == h
  }

  /** Exactly what `reconcile` reports about these records and this listing of the machines. */
  ghost predicate Exact(jobs: seq<Job>, listing: seq<Resource>, found: seq<Finding>) {
    && (forall h :: Untagged(h) in found <==> Resource(h, None) in listing)
    && (forall h, j :: Orphan(h, j) in found <==> Resource(h, Some(j)) in listing && !Advance.Recorded(jobs, h))
    && (forall h, j :: Lost(h, j) in found <==> LastHolder(jobs, |jobs|, j, h) && !Listed(listing, h))
  }

  /** The first loop of `reconcile`: what the backends are holding. */
  method CheckMachines(ours: map<Handle, JobId>, listing: seq<Resource>) returns (found: seq<Finding>, seen: set<Handle>)
    ensures forall h :: Untagged(h) in found <==> Resource(h, None) in listing
    ensures forall h, j :: Orphan(h, j) in found <==> Resource(h, Some(j)) in listing && h !in ours
    ensures forall h, j :: Lost(h, j) !in found
    ensures forall h :: h in seen <==> Listed(listing, h)
  {
    found, seen := [], {};
    for i := 0 to |listing|
      invariant forall h :: Untagged(h) in found <==> Resource(h, None) in listing[..i]
      invariant forall h, j :: Orphan(h, j) in found <==> Resource(h, Some(j)) in listing[..i] && h !in ours
      invariant forall h, j :: Lost(h, j) !in found
      invariant forall h :: h in seen <==> exists k :: 0 <= k < i && listing[k].handle == h
    {
      var resource := listing[i];
      seen := seen + {resource.handle};
      assert listing[..i + 1] == listing[..i] + [resource];
      if resource.job.None? {
        found := found + [Untagged(resource.handle)];
      } else if resource.handle !in ours {
        found := found + [Orphan(resource.handle, resource.job.value)];
      }
    }
    assert listing[..|listing|] == listing;
  }

  /** The second loop: what the records say that no backend is holding. */
  method CheckRecords(ours: map<Handle, JobId>, seen: set<Handle>, found: seq<Finding>) returns (all: seq<Finding>)
    ensures forall f :: f in all
              <==> f in found || (f.Lost? && f.handle in ours && ours[f.handle] == f.job && f.handle !in seen)
  {
    all := found;
    var rest := ours.Keys;
    while rest != {}
      invariant rest <= ours.Keys
      invariant forall f :: f in all
                  <==> f in found || (f.Lost? && f.handle in ours.Keys - rest && ours[f.handle] == f.job
                                      && f.handle !in seen)
      decreases |rest|
    {
      var h :| h in rest;
      if h !in seen {
        all := all + [Lost(h, ours[h])];
      }
      rest := rest - {h};
    }
  }

  /** `reconcile`: reports, and changes nothing. */
  method Compare(store: Store, listing: seq<Resource>) returns (found: seq<Finding>)
    ensures Exact(store.jobs, listing, found)
  {
    var ours := OurActive(store);
    var some, seen := CheckMachines(ours, listing);
    found := CheckRecords(ours, seen, some);
  }

  // ------------------------------------------------------ what the reports amount to

  /** What the configured backends report when they report the truth. */
  ghost predicate TrueListing(cfg: Config, w: World, listing: seq<Resource>) {
    forall h, tag :: Resource(h, tag) in listing
      <==> h in w.machines && w.machines[h].live && w.machines[h].job == tag && h.backend in cfg.backends
  }

  lemma HoldersAreKnown(w: World, j: JobId, h: Handle)
    requires PlacesKnown(w) && Advance.Holds(w.db.jobs, j, h)
    ensures h in w.machines && w.machines[h].job == Some(j)
    ensures LastHolder(w.db.jobs, |w.db.jobs|, j, h)
  {
    assert PlaceKnown(w, j);
    forall i: JobId | j < i < |w.db.jobs| ensures !Advance.Holds(w.db.jobs, i, h) {
      assert PlaceKnown(w, i);
    }
  }

  lemma ListedIffUp(cfg: Config, w: World, listing: seq<Resource>, h: Handle)
    requires TrueListing(cfg, w, listing)
    ensures Listed(listing, h) <==> h in w.machines && w.machines[h].live && h.backend in cfg.backends
  {
    if Listed(listing, h) {
      var i :| 0 <= i < |listing| && listing[i].handle == h;
      assert Resource(h, listing[i].job) in listing;
    }
    if h in w.machines && w.machines[h].live && h.backend in cfg.backends {
      assert Resource(h, w.machines[h].job) in listing;
      var i :| 0 <= i < |listing| && listing[i] == Resource(h, w.machines[h].job);
    }
  }

  /** In every state the broker can reach, `reconcile` reports exactly the machines that are up with no active
      job naming them, where their backend is configured, and the active jobs whose machine is not up. A job on
      a backend that is no longer configured is reported lost whether its machine is up or not. */
  lemma ReportsAreDrift(cfg: Config, w: World, listing: seq<Resource>, found: seq<Finding>)
    requires Inv(cfg, w) && TrueListing(cfg, w, listing) && Exact(w.db.jobs, listing, found)
    ensures forall h, j: JobId :: Orphan(h, j) in found
              <==> h in Advance.Orphans(w) && h.backend in cfg.backends && w.machines[h].job == Some(j)
    ensures forall h, j: JobId :: Lost(h, j) in found
              <==> Advance.Holds(w.db.jobs, j, h) && (j in Advance.Lost(w) || h.backend !in cfg.backends)
    ensures forall h :: Untagged(h) in found
              <==> h in w.machines && w.machines[h] == Machine(None, true) && h.backend in cfg.backends
  {
    forall h, j | Advance.Holds(w.db.jobs, j, h)
      ensures LastHolder(w.db.jobs, |w.db.jobs|, j, h)
    {
      HoldersAreKnown(w, j, h);
    }
    forall h ensures Listed(listing, h) <==> h in w.machines && w.machines[h].live && h.backend in cfg.backends {
      ListedIffUp(cfg, w, listing, h);
    }
  }

  /** Every drift there is has a finding: an orphan on a configured backend as an orphan, and a job that is
      lost or left between attempts as lost. */
  ghost predicate CoversAll(cfg: Config, w: World, found: seq<Finding>) {
    && (forall h :: h in Advance.Orphans(w) && h.backend in cfg.backends ==>
          exists j: JobId :: w.machines[h].job == Some(j) && Orphan(h, j) in found)
    && (forall j :: j in Advance.Lost(w) + Advance.Stranded(w) ==> exists h :: Lost(h, j) in found)
  }

  /** The one kind of drift `reconcile` is blind to is a job left between attempts: no report ever calls one
      lost, and the reports cover everything if and only if there is none. */
  lemma OnlyStrandedIsMissed(cfg: Config, w: World, listing: seq<Resource>, found: seq<Finding>)
    requires Inv(cfg, w) && TrueListing(cfg, w, listing) && Exact(w.db.jobs, listing, found)
    ensures forall h, j: JobId :: Lost(h, j) in found ==> j !in Advance.Stranded(w)
    ensures CoversAll(cfg, w, found) <==> Advance.Stranded(w) == {}
  {
    ReportsAreDrift(cfg, w, listing, found);
    forall j | j in Advance.Lost(w) ensures exists h :: Lost(h, j) in found {
      var h := w.db.jobs[j].place.value;
      assert Advance.Holds(w.db.jobs, j, h);
      assert Lost(h, j) in found;
    }
    forall h | h in Advance.Orphans(w) && h.backend in cfg.backends
      ensures exists j: JobId :: w.machines[h].job == Some(j) && Orphan(h, j) in found
    {
      assert Orphan(h, w.machines[h].job.value) in found;
    }
    if j :| j in Advance.Stranded(w) {
      assert forall h :: Lost(h, j) !in found;
      assert j in Advance.Lost(w) + Advance.Stranded(w);
    }
  }

  // --------------------------------------------------------------------------- reap

  /** `_why_orphaned`: None means the machine is legitimately busy. Machines are compared by the name
      their backend gave them; which backend that was is not looked at. */
  datatype Why = NoTag | NoRecord | JobIsOver | JobIsElsewhere

  function WhyOrphaned(jobs: seq<Job>, r: Resource): Option<Why> {
    if r.job.None? then Some(NoTag)
    else if r.job.value >= |jobs| then Some(NoRecord)
    else if jobs[r.job.value].state in TERMINAL then Some(JobIsOver)
    else
      var place := jobs[r.job.value].place;
      if place.Some? && place.value.serial == r.handle.serial then None else Some(JobIsElsewhere)
  }

  /** The machine's own job is on a machine of the same name that another backend owns. */
  predicate Namesake(jobs: seq<Job>, r: Resource) {
    && r.job.Some? && r.job.value < |jobs| && jobs[r.job.value].state !in TERMINAL
    && jobs[r.job.value].place.Some? && jobs[r.job.value].place != Some(r.handle)
    && jobs[r.job.value].place.value.serial == r.handle.serial
  }

  /** No two backends have given one name. */
  ghost predicate NamesApart(machines: map<Handle, Machine>) {
    forall g, h :: g in machines && h in machines && g.serial == h.serial ==> g == h
  }

  /** The two reports agree about every machine that is up, except that `reap` overlooks an orphan
      exactly when its job is running on a machine of the same name elsewhere. Where names are apart,
      as those of the shipped backends are, they agree about all of them. */
  lemma ReapAgrees(cfg: Config, w: World, r: Resource)
    requires Inv(cfg, w) && r.handle in w.machines && w.machines[r.handle] == Machine(r.job, true)
    ensures WhyOrphaned(w.db.jobs, r).Some?
       <==> r.job.None? || (r.handle in Advance.Orphans(w) && !Namesake(w.db.jobs, r))
    ensures NamesApart(w.machines) ==>
              (WhyOrphaned(w.db.jobs, r).Some? <==> r.job.None? || r.handle in Advance.Orphans(w))
  {
    if r.job.Some? {
      var j := r.job.value;
      if j < |w.db.jobs| {
        assert PlaceKnown(w, j);
        StatesAreSplit(w.db.jobs[j].state);
        assert Advance.Holds(w.db.jobs, j, r.handle)
          <==> w.db.jobs[j].state in ACTIVE && w.db.jobs[j].place == Some(r.handle);
      }
      if Advance.Recorded(w.db.jobs, r.handle) {
        var i :| 0 <= i < |w.db.jobs| && Advance.Holds(w.db.jobs, i, r.handle);
        assert PlaceKnown(w, i);
      }
    }
  }

  /** A listed machine with what `reap` worked out about it. Without a launch time its cost is unknown. */
  datatype Leak = Leak(resource: Resource, user: Option<UserId>, currency: Currency, burned: Option<real>)

  predicate Charges(jobs: seq<Job>, leak: Leak) {
    WhyOrphaned(jobs, leak.resource).Some? && leak.burned.Some?
  }

  /** What has been charged to a machine's name: charges do not say which backend gave it. */
  function ChargedFor(l: seq<Entry>, leak: Leak): int {
    Total(l, OfMachine(leak.resource.handle.serial, leak.currency), Abandoned)
  }

  predicate SameName(a: Leak, b: Leak) {
    a.resource.handle.serial == b.resource.handle.serial && a.currency == b.currency
  }

  /** Appending an abandonment raises one name's charge by its amount. */
  lemma ChargeGrows(db: Db, h: Handle, tag: Option<JobId>, user: Option<UserId>, currency: Currency, amount: int,
                    leak: Leak)
    requires 0 <= amount
    ensures ChargedFor(Charged(db, h, tag, user, currency, amount).ledger, leak)
         == ChargedFor(db.ledger, leak)
            + (if leak.resource.handle.serial == h.serial && leak.currency == currency then amount else 0)
  {
    if 0 < amount {
      var row := Entry(tag, user, currency, Abandoned, amount, db.clock.period, db.clock.now, Some(h.serial));
      TotalAppend(db.ledger, row, OfMachine(leak.resource.handle.serial, leak.currency), Abandoned);
    }
  }

  /** The charge is the whole cost of a machine of that name among the first `n` that `reap` charges. */
  ghost predicate DueTo(jobs: seq<Job>, leaks: seq<Leak>, n: nat, leak: Leak, charge: int)
    requires n <= |leaks|
  {
    exists i :: 0 <= i < n && Charges(jobs, leaks[i]) && SameName(leaks[i], leak)
                && charge == Quantize(leaks[i].burned.value)
  }

  /** What `reap` has done after the first `n` machines: the name of each it charges carries at least that
      machine's cost, and a charge that changed is exactly such a cost and was lower before. */
  ghost predicate ChargedUpTo(jobs: seq<Job>, l0: seq<Entry>, l: seq<Entry>, leaks: seq<Leak>, n: nat)
    requires n <= |leaks|
  {
    && (forall k :: 0 <= k < n && Charges(jobs, leaks[k]) ==> Quantize(leaks[k].burned.value) <= ChargedFor(l, leaks[k]))
    && (forall leak :: ChargedFor(l, leak) == ChargedFor(l0, leak)
                       || (ChargedFor(l0, leak) < ChargedFor(l, leak) && DueTo(jobs, leaks, n, leak, ChargedFor(l, leak))))
  }

  lemma DueToMore(jobs: seq<Job>, leaks: seq<Leak>, n: nat, leak: Leak, charge: int)
    requires n < |leaks|
    ensures DueTo(jobs, leaks, n, leak, charge) ==> DueTo(jobs, leaks, n + 1, leak, charge)
    ensures Charges(jobs, leaks[n]) && SameName(leaks[n], leak) && charge == Quantize(leaks[n].burned.value)
            ==> DueTo(jobs, leaks, n + 1, leak, charge)
  {
  }

  lemma ChargedOneMore(jobs: seq<Job>, l0: seq<Entry>, l: seq<Entry>, l': seq<Entry>, leaks: seq<Leak>, n: nat)
    requires n < |leaks| && ChargedUpTo(jobs, l0, l, leaks, n)
    requires Charges(jobs, leaks[n]) || l' == l
    requires Charges(jobs, leaks[n]) ==>
               forall other :: ChargedFor(l', other)
                 == (if SameName(leaks[n], other) && ChargedFor(l, other) < Quantize(leaks[n].burned.value)
                     then Quantize(leaks[n].burned.value) else ChargedFor(l, other))
    ensures ChargedUpTo(jobs, l0, l', leaks, n + 1)
  {
    hide ChargedFor, DueTo, WhyOrphaned;
    forall leak
      ensures ChargedFor(l', leak) == ChargedFor(l0, leak)
           || (ChargedFor(l0, leak) < ChargedFor(l', leak) && DueTo(jobs, leaks, n + 1, leak, ChargedFor(l', leak)))
    {
      DueToMore(jobs, leaks, n, leak, ChargedFor(l', leak));
    }
  }

  /** `reap`: the name of every leaked machine of known cost ends up charged at least that cost, a charge that
      changed is exactly one machine's whole cost and was lower before, and a pass that finds every name already
      charged writes nothing: passes may overlap or repeat. */
  method Reap(engine: Engine, leaks: seq<Leak>)
    requires engine.Valid()
    modifies engine, engine.store
    ensures engine.Valid() && old(engine.done) <= engine.done
    ensures forall k :: |old(engine.done)| <= k < |engine.done| ==> engine.done[k].Abandon?
    ensures engine.store.jobs == old(engine.store.jobs)
    ensures ChargedUpTo(engine.store.jobs, old(engine.store.ledger), engine.store.ledger, leaks, |leaks|)
    ensures (forall i :: 0 <= i < |leaks| && Charges(engine.store.jobs, leaks[i]) ==>
               Quantize(leaks[i].burned.value) <= ChargedFor(old(engine.store.ledger), leaks[i]))
            ==> engine.done == old(engine.done)
  {
    hide Reached, After, WhyOrphaned, ChargedFor, ChargedUpTo;
    NothingCharged(engine.store.jobs, engine.store.ledger, leaks);
    for i := 0 to |leaks|
      invariant engine.Valid() && old(engine.done) <= engine.done
      invariant forall k :: |old(engine.done)| <= k < |engine.done| ==> engine.done[k].Abandon?
      invariant engine.store.jobs == old(engine.store.jobs)
      invariant ChargedUpTo(engine.store.jobs, old(engine.store.ledger), engine.store.ledger, leaks, i)
      invariant (forall k :: 0 <= k < i && Charges(engine.store.jobs, leaks[k]) ==>
                   Quantize(leaks[k].burned.value) <= ChargedFor(old(engine.store.ledger), leaks[k]))
                ==> engine.done == old(engine.done) && engine.store.ledger == old(engine.store.ledger)
    {
      ghost var before := engine.store.ledger;
      var why := WhyOrphaned(engine.store.jobs, leaks[i].resource);
      if why.Some? && leaks[i].burned.Some? {
        ChargeOne(engine, leaks[i]);
      }
      ChargedOneMore(engine.store.jobs, old(engine.store.ledger), before, engine.store.ledger, leaks, i);
    }
  }

  lemma NothingCharged(jobs: seq<Job>, l: seq<Entry>, leaks: seq<Leak>)
    ensures ChargedUpTo(jobs, l, l, leaks, 0)
  {
  }

  method ChargeOne(engine: Engine, leak: Leak)
    requires engine.Valid() && leak.burned.Some?
    modifies engine, engine.store
    ensures engine.Valid() && old(engine.done) <= engine.done
    ensures forall k :: |old(engine.done)| <= k < |engine.done| ==> engine.done[k].Abandon?
    ensures engine.store.jobs == old(engine.store.jobs)
    ensures forall other :: ChargedFor(engine.store.ledger, other)
              == (if SameName(leak, other) && ChargedFor(old(engine.store.ledger), other) < Quantize(leak.burned.value)
                  then Quantize(leak.burned.value) else ChargedFor(old(engine.store.ledger), other))
    ensures Quantize(leak.burned.value) <= ChargedFor(old(engine.store.ledger), leak)
            ==> engine.done == old(engine.done) && engine.store.ledger == old(engine.store.ledger)
  {
    hide Reached, After;
    engine.Good();
    NoNegativeRows(engine.store.View());
    ghost var db := engine.store.View();
    TotalNonNegative(db.ledger, OfMachine(leak.resource.handle.serial, leak.currency), Abandoned);
    var delta := engine.Abandon(leak.resource.handle, leak.resource.job, leak.user, leak.currency, leak.burned.value);
    ghost var known := if leak.resource.job.Some? && leak.resource.job.value < |db.jobs| then leak.resource.job else None;
    forall other
      ensures ChargedFor(engine.store.ledger, other)
           == ChargedFor(db.ledger, other) + (if SameName(leak, other) then delta else 0)
    {
      ChargeGrows(db, leak.resource.handle, known, leak.user, leak.currency, delta, other);
    }
  }

  // ------------------------------------------------- machines of one name, one charge

  /** What one machine costs, if `reap` charges it. */
  function Cost(jobs: seq<Job>, leak: Leak): nat {
    if Charges(jobs, leak) then AtLeastZero(Quantize(leak.burned.value)) else 0
  }

  /** What the machines of one name among the first `n` cost together. */
  function GroupCost(jobs: seq<Job>, leaks: seq<Leak>, n: nat, name: Leak): nat
    requires n <= |leaks|
  {
    if n == 0 then 0
    else GroupCost(jobs, leaks, n - 1, name)
         + (if SameName(leaks[n - 1], name) then Cost(jobs, leaks[n - 1]) else 0)
  }

  /** This machine goes by the name and costs something. */
  predicate Burns(jobs: seq<Job>, leaks: seq<Leak>, i: nat, name: Leak) {
    i < |leaks| && SameName(leaks[i], name) && 0 < Cost(jobs, leaks[i])
  }

  ghost predicate Namesakes(jobs: seq<Job>, leaks: seq<Leak>, name: Leak) {
    exists i: nat, k: nat :: i < k && Burns(jobs, leaks, i, name) && Burns(jobs, leaks, k, name)
  }

  lemma {:induction false} OneOfGroup(jobs: seq<Job>, leaks: seq<Leak>, n: nat, i: nat, name: Leak)
    requires i < n <= |leaks| && SameName(leaks[i], name)
    ensures Cost(jobs, leaks[i]) <= GroupCost(jobs, leaks, n, name)
  {
    if i < n - 1 {
      OneOfGroup(jobs, leaks, n - 1, i, name);
    }
  }

  lemma {:induction false} TwoOfGroup(jobs: seq<Job>, leaks: seq<Leak>, n: nat, i: nat, k: nat, name: Leak)
    requires i < k < n <= |leaks| && SameName(leaks[i], name) && SameName(leaks[k], name)
    ensures Cost(jobs, leaks[i]) + Cost(jobs, leaks[k]) <= GroupCost(jobs, leaks, n, name)
  {
    if k < n - 1 {
      TwoOfGroup(jobs, leaks, n - 1, i, k, name);
    } else {
      OneOfGroup(jobs, leaks, n - 1, i, name);
    }
  }

  /** Without two machines of the name that cost something, the group costs what one of them does. */
  lemma {:induction false} LoneGroup(jobs: seq<Job>, leaks: seq<Leak>, n: nat, name: Leak) returns (i: nat)
    requires n <= |leaks| && !Namesakes(jobs, leaks, name)
    ensures GroupCost(jobs, leaks, n, name) == 0
         || (i < n && Burns(jobs, leaks, i, name) && Cost(jobs, leaks[i]) == GroupCost(jobs, leaks, n, name))
  {
    i := 0;
    if 0 < n {
      i := LoneGroup(jobs, leaks, n - 1, name);
      if Burns(jobs, leaks, n - 1, name) {
        assert GroupCost(jobs, leaks, n - 1, name) == 0;
        i := n - 1;
      }
    }
  }

  /** After a pass a name carries what its machines cost together if and only if it already did before, or
      no two of them cost anything: where two backends gave one name, the second machine is charged only
      what it costs beyond the first. */
  lemma NamesakesShareACharge(jobs: seq<Job>, l0: seq<Entry>, l: seq<Entry>, leaks: seq<Leak>, name: Leak)
    requires ChargedUpTo(jobs, l0, l, leaks, |leaks|) && 0 <= ChargedFor(l0, name)
    ensures GroupCost(jobs, leaks, |leaks|, name) <= ChargedFor(l, name)
       <==> GroupCost(jobs, leaks, |leaks|, name) <= ChargedFor(l0, name) || !Namesakes(jobs, leaks, name)
  {
    hide WhyOrphaned;
    var group, charge := GroupCost(jobs, leaks, |leaks|, name), ChargedFor(l, name);
    if !Namesakes(jobs, leaks, name) {
      var i := LoneGroup(jobs, leaks, |leaks|, name);
      assert 0 < group ==> Charges(jobs, leaks[i]) && ChargedFor(l, leaks[i]) == charge;
    } else if ChargedFor(l0, name) < charge {
      var i :| 0 <= i < |leaks| && Charges(jobs, leaks[i]) && SameName(leaks[i], name)
               && charge == Quantize(leaks[i].burned.value);
      var a: nat, b: nat :| a < b && Burns(jobs, leaks, a, name) && Burns(jobs, leaks, b, name);
      if a == i {
        TwoOfGroup(jobs, leaks, |leaks|, i, b, name);
      } else if a < i {
        TwoOfGroup(jobs, leaks, |leaks|, a, i, name);
      } else {
        TwoOfGroup(jobs, leaks, |leaks|, i, a, name);
      }
    }
  }
}
