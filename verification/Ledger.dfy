/** The append-only ledger and the sums every balance is read from
    (gpu_broker/store.py `_aggregate` and the queries that call it). */
module Ledger {
  import opened Wrappers
  import opened Money

  type JobId = nat
  type UserId = nat
  /** Billing periods are numbered in calendar order. */
  type Period = nat

  type BackendId = nat

  /** A machine, named by the backend that owns it and that backend's own name for it. */
  datatype Handle = Handle(backend: BackendId, serial: nat)

  datatype Kind = Reserve | Release | Settle | Abandoned

  /** One ledger row. Only an ABANDONED row may lack a job or a user, and only it names a machine:
      by the name its backend gave it, without the backend. */
  datatype Entry = Entry(job: Option<JobId>, user: Option<UserId>, currency: Currency,
                         kind: Kind, amount: int, period: Period, at: real, machine: Option<nat>)

  /** The WHERE clauses of the store's aggregate queries, and three the proofs use. */
  datatype Query =
    | OfJob(job: JobId, currency: Currency)
    | OfJobAnyCurrency(job: JobId)
    | OfUser(user: UserId, currency: Currency, period: Period)
    | OfPool(currency: Currency, period: Period)
    | OfMachine(name: nat, currency: Currency)
    | OfUserEver(user: UserId, currency: Currency)
    | OfUserOutside(user: UserId, currency: Currency, period: Period)

  predicate Matches(q: Query, e: Entry) {
    match q
    case OfJob(job, currency) => e.job == Some(job) && e.currency == currency
    case OfJobAnyCurrency(job) => e.job == Some(job)
    case OfUser(user, currency, period) =>
      e.user == Some(user) && e.currency == currency && e.period == period
    case OfPool(currency, period) => e.currency == currency && e.period == period
    case OfMachine(name, currency) => e.machine == Some(name) && e.currency == currency
    case OfUserEver(user, currency) => e.user == Some(user) && e.currency == currency
    case OfUserOutside(user, currency, period) =>
      e.user == Some(user) && e.currency == currency && e.period != period
  }

  function HeldIn(e: Entry, q: Query): int {
    if !Matches(q, e) then 0
    else if e.kind == Reserve then e.amount
    else if e.kind == Release then -e.amount
    else 0
  }

  function AmountIn(e: Entry, q: Query, kind: Kind): int {
    if Matches(q, e) && e.kind == kind then e.amount else 0
  }

  /** RESERVE minus RELEASE over the matching rows. */
  function Held(l: seq<Entry>, q: Query): int {
    if l == [] then 0 else Held(l[..|l| - 1], q) + HeldIn(l[|l| - 1], q)
  }

  /** The matching rows of one kind, added up. */
  function Total(l: seq<Entry>, q: Query, kind: Kind): int {
    if l == [] then 0 else Total(l[..|l| - 1], q, kind) + AmountIn(l[|l| - 1], q, kind)
  }

  /** What the store calls spent: settlements and abandoned capacity together. */
  function Spent(l: seq<Entry>, q: Query): int {
    Total(l, q, Settle) + Total(l, q, Abandoned)
  }

  /** The store's one aggregate query: a pass over the rows with two accumulators. */
  method Aggregate(l: seq<Entry>, q: Query) returns (held: int, spent: int)
    ensures held == Held(l, q) && spent == Spent(l, q)
  {
    held, spent := 0, 0;
    for i := 0 to |l|
      invariant held == Held(l[..i], q) && spent == Spent(l[..i], q)
    {
      var e := l[i];
      assert l[..i + 1] == l[..i] + [e];
      HeldAppend(l[..i], e, q);
      TotalAppend(l[..i], e, q, Settle);
      TotalAppend(l[..i], e, q, Abandoned);
      if Matches(q, e) {
        if e.kind == Reserve {
          held := held + e.amount;
        } else if e.kind == Release {
          held := held - e.amount;
        } else {
          spent := spent + e.amount;
        }
      }
    }
    assert l[..|l|] == l;
  }

  lemma HeldAppend(l: seq<Entry>, e: Entry, q: Query)
    ensures Held(l + [e], q) == Held(l, q) + HeldIn(e, q)
  {
    assert (l + [e])[..|l|] == l;
  }

  lemma TotalAppend(l: seq<Entry>, e: Entry, q: Query, kind: Kind)
    ensures Total(l + [e], q, kind) == Total(l, q, kind) + AmountIn(e, q, kind)
  {
    assert (l + [e])[..|l|] == l;
  }

  /** What one more row counts for: a RESERVE raises what is held and a RELEASE lowers it, a SETTLE or an ABANDONED
      row raises what is spent, and each by its amount, for its own job, user, month and machine only. */
  lemma RowCounts(l: seq<Entry>, e: Entry, j: JobId, u: UserId, c: Currency, p: Period, m: nat)
    ensures var held := if e.kind == Reserve then e.amount else if e.kind == Release then -e.amount else 0;
            var spent := if e.kind in {Settle, Abandoned} then e.amount else 0;
            && Held(l + [e], OfJob(j, c)) == Held(l, OfJob(j, c))
                 + (if e.job == Some(j) && e.currency == c then held else 0)
            && Held(l + [e], OfUser(u, c, p)) == Held(l, OfUser(u, c, p))
                 + (if e.user == Some(u) && e.currency == c && e.period == p then held else 0)
            && Spent(l + [e], OfUser(u, c, p)) == Spent(l, OfUser(u, c, p))
                 + (if e.user == Some(u) && e.currency == c && e.period == p then spent else 0)
            && Spent(l + [e], OfPool(c, p)) == Spent(l, OfPool(c, p))
                 + (if e.currency == c && e.period == p then spent else 0)
            && Spent(l + [e], OfJobAnyCurrency(j)) == Spent(l, OfJobAnyCurrency(j))
                 + (if e.job == Some(j) then spent else 0)
            && Total(l + [e], OfMachine(m, c), Abandoned) == Total(l, OfMachine(m, c), Abandoned)
                 + (if e.machine == Some(m) && e.currency == c && e.kind == Abandoned then e.amount else 0)
  {
    assert (l + [e])[..|l|] == l;
  }

  predicate NoNegatives(l: seq<Entry>) {
    forall i :: 0 <= i < |l| ==> 0 <= l[i].amount
  }

  lemma {:induction false} TotalNonNegative(l: seq<Entry>, q: Query, kind: Kind)
    requires NoNegatives(l)
    ensures 0 <= Total(l, q, kind)
  {
    if l != [] {
      TotalNonNegative(l[..|l| - 1], q, kind);
    }
  }

  /** A query that matches nothing adds up to nothing. */
  lemma {:induction false} NothingMatches(l: seq<Entry>, q: Query, kind: Kind)
    requires forall i :: 0 <= i < |l| ==> !Matches(q, l[i])
    ensures Held(l, q) == 0 && Total(l, q, kind) == 0
  {
    if l != [] {
      NothingMatches(l[..|l| - 1], q, kind);
    }
  }

  /** What one job settled in its currency is part of what the job spent at all. */
  lemma {:induction false} SettledWithinSpend(l: seq<Entry>, job: JobId, currency: Currency)
    requires NoNegatives(l)
    ensures Total(l, OfJob(job, currency), Settle) <= Spent(l, OfJobAnyCurrency(job))
  {
    if l != [] {
      SettledWithinSpend(l[..|l| - 1], job, currency);
    }
  }

  /** A user's hold over all time is the hold of one period plus the hold of the others. */
  lemma {:induction false} HoldSplitsByPeriod(l: seq<Entry>, user: UserId, currency: Currency, period: Period)
    ensures Held(l, OfUserEver(user, currency))
         == Held(l, OfUser(user, currency, period)) + Held(l, OfUserOutside(user, currency, period))
  {
    if l != [] {
      HoldSplitsByPeriod(l[..|l| - 1], user, currency, period);
    }
  }
}
