/** The checks a request passes before anything is reserved for it (gpu_broker/admission.py).

    Amounts that have not been stored yet are real numbers of quanta. */
module Admission {
  import opened Wrappers
  import opened Money
  import opened Ledger
  import opened Tables

  datatype Gpu = Gpu(currency: Currency, price: real)

  datatype Limits = Limits(gpus: map<GpuType, Gpu>, maxHours: real, startup: real, maxCommand: nat,
                           maxJobUsd: real, maxJobGpuHours: real, maxQueued: nat)
  {
    function MaxJob(c: Currency): real {
      if c == Usd then maxJobUsd else maxJobGpuHours
    }
  }

  /** Typos raise, and leave no record. */
  datatype Typo = UnknownGpuType | HoursNotPositive | HoursOverLimit | CommandTooLong | UnknownUser

  /** Policy refuses, and the refusal is a row. */
  datatype Refusal =
    | UserSuspended
    | InvalidBudget
    | JobCapExceeded(short: int)
    | QueueDepthExceeded
    | UserBudgetExceeded(short: int)

  function ValidateRequest(l: Limits, gpu: GpuType, hours: real, command: nat): (r: Option<Typo>)
    ensures r.None? <==> gpu in l.gpus && 0.0 < hours <= l.maxHours && command <= l.maxCommand
  {
    if gpu !in l.gpus then Some(UnknownGpuType)
    else if hours <= 0.0 then Some(HoursNotPositive)
    else if l.maxHours < hours then Some(HoursOverLimit)
    else if l.maxCommand < command then Some(CommandTooLong)
    else None
  }

  function CheckMembership(suspended: bool): Option<Refusal> {
    if suspended then Some(UserSuspended) else None
  }

  function CheckJobCap(cap: real, reserved: real): Option<Refusal> {
    if reserved <= 0.0 then Some(InvalidBudget)
    else if cap < reserved then Some(JobCapExceeded(Quantize(reserved - cap)))
    else None
  }

  function CheckQueueDepth(limit: nat, queued: nat): Option<Refusal> {
    if queued < limit then None else Some(QueueDepthExceeded)
  }

  function CheckUserBudget(budget: real, committed: int, reserved: real): Option<Refusal> {
    var available := budget - committed as real;
    if reserved <= available then None else Some(UserBudgetExceeded(Quantize(reserved - available)))
  }

  /** What an accepted reservation becomes once it is rounded still fits the budget rounded the same way. */
  lemma AcceptedFits(budget: real, committed: int, reserved: real)
    requires 0.0 < reserved && CheckUserBudget(budget, committed, reserved).None?
    ensures 0 <= Quantize(reserved) && committed + Quantize(reserved) <= Nearest(budget)
  {
    QuantizeMonotone(reserved, budget - committed as real);
    NearestMinusWhole(budget, committed);
  }

  /** A reservation can be accepted and then rounded past the budget exactly when what is left of the
      budget itself rounds up: never when the budget is a whole number of quanta. */
  lemma OverrunExactly(budget: real, committed: int)
    requires 0.0 < budget - committed as real
    ensures (exists r: real :: 0.0 < r && CheckUserBudget(budget, committed, r).None?
                               && budget < (committed + Quantize(r)) as real)
       <==> budget - committed as real < Quantize(budget - committed as real) as real
    ensures budget == budget.Floor as real ==> budget - committed as real >= Quantize(budget - committed as real) as real
  {
    var available := budget - committed as real;
    forall r: real | 0.0 < r && CheckUserBudget(budget, committed, r).None?
      ensures Quantize(r) <= Quantize(available)
    {
      QuantizeMonotone(r, available);
    }
    if available < Quantize(available) as real {
      assert CheckUserBudget(budget, committed, available).None?;
      assert budget < (committed + Quantize(available)) as real;
    }
    if budget == budget.Floor as real {
      QuantizeWhole(budget.Floor - committed);
    }
  }

  /** The shortfall in a refusal is never negative, and is what has to be found, to the nearest quantum. */
  lemma ShortfallIsNamed(budget: real, committed: int, reserved: real)
    requires CheckUserBudget(budget, committed, reserved).Some?
    ensures var short := CheckUserBudget(budget, committed, reserved).value.short;
            && 0 <= short
            && reserved <= budget - committed as real + short as real + 0.5
            && budget - committed as real + short as real <= reserved + 0.5
  {
  }
}
