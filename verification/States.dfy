/** The states a job can be in and the moves between them (gpu_broker/states.py). */
module States {

  datatype JobState =
    | Queued | Allocating | Running
    | Completed | Failed | Cancelled | Refused
    | Checkpointing | Preempted | Resuming | Reclaimed

  const TERMINAL: set<JobState> := {Completed, Failed, Cancelled, Refused, Reclaimed}

  /** The states in which a machine is held for the job. */
  const ACTIVE: set<JobState> := {Allocating, Running, Checkpointing, Resuming}

  /** The states in which part of a reservation may still be held. */
  const HOLDS_BUDGET: set<JobState> := {Queued} + ACTIVE + {Preempted}

  function LegalTransitions(from: JobState): set<JobState> {
    match from
    case Queued => {Allocating, Cancelled, Failed}
    case Allocating => {Running, Resuming, Completed, Failed, Cancelled, Preempted}
    case Resuming => {Running, Completed, Failed, Cancelled}
    case Running => {Completed, Failed, Cancelled, Checkpointing, Preempted, Reclaimed}
    case Checkpointing => {Preempted, Failed, Completed}
    case Preempted => {Queued, Cancelled, Failed}
    case Completed => {}
    case Failed => {}
    case Cancelled => {}
    case Refused => {}
    case Reclaimed => {}
  }

  predicate CanTransition(from: JobState, to: JobState) {
    to in LegalTransitions(from)
  }

  /** Every state is exactly one of: holding budget, or terminal.
      Exactly the terminal states have no way out, and no edge enters REFUSED,
      so a refused job never was, and never becomes, anything else. */
  lemma StatesAreSplit(s: JobState)
    ensures s in HOLDS_BUDGET <==> s !in TERMINAL
    ensures s in TERMINAL <==> forall to :: !CanTransition(s, to)
    ensures !CanTransition(s, Refused)
    ensures CanTransition(s, Queued) <==> s == Preempted
  {
    if s !in TERMINAL {
      assert CanTransition(s, Failed);
    }
  }

  /** Where each state can be entered from. */
  lemma EnteredFrom(s: JobState)
    ensures CanTransition(s, Queued) <==> s == Preempted
    ensures CanTransition(s, Allocating) <==> s == Queued
    ensures CanTransition(s, Resuming) <==> s == Allocating
    ensures CanTransition(s, Running) <==> s in {Allocating, Resuming}
    ensures CanTransition(s, Checkpointing) <==> s == Running
    ensures CanTransition(s, Preempted) <==> s in {Allocating, Running, Checkpointing}
    ensures CanTransition(s, Completed) <==> s in ACTIVE
    ensures CanTransition(s, Failed) <==> s in HOLDS_BUDGET
    ensures CanTransition(s, Cancelled) <==> s in HOLDS_BUDGET && s != Checkpointing
    ensures CanTransition(s, Reclaimed) <==> s == Running
    ensures !CanTransition(s, Refused)
  {
  }

  /** Capacity is taken only from the queue, and given back only by ending or being preempted. */
  lemma ActiveBoundary(from: JobState, to: JobState)
    requires CanTransition(from, to)
    ensures from !in ACTIVE && to in ACTIVE <==> from == Queued && to == Allocating
    ensures from in ACTIVE && to !in ACTIVE ==> to in TERMINAL || to == Preempted
  {
  }
}
