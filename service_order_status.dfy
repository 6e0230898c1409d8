/** The eleven states of a service order and the table of the transitions
    allowed between them. */
module ServiceOrderStatuses {
  import opened Wrappers

  datatype ServiceOrderStatus =
    | Requested | Received | InDiagnosis | AwaitingApproval | Approved | Rejected
    | Scheduled | InExecution | Finished | Delivered | Cancelled
  {
    /** The enumeration's string value, as interpolated into messages. */
    function Name(): string {
      match this
      case Requested => "REQUESTED"
      case Received => "RECEIVED"
      case InDiagnosis => "IN_DIAGNOSIS"
      case AwaitingApproval => "AWAITING_APPROVAL"
      case Approved => "APPROVED"
      case Rejected => "REJECTED"
      case Scheduled => "SCHEDULED"
      case InExecution => "IN_EXECUTION"
      case Finished => "FINISHED"
      case Delivered => "DELIVERED"
      case Cancelled => "CANCELLED"
    }
  }

  /** The row of the transition table for `s`, in the order written there. */
  function AllowedTransitions(s: ServiceOrderStatus): seq<ServiceOrderStatus> {
    match s
    case Requested => [Received, Cancelled, Rejected]
    case Received => [InDiagnosis, Cancelled, Rejected]
    case InDiagnosis => [AwaitingApproval, Cancelled, Rejected]
    case AwaitingApproval => [Approved, Rejected, Cancelled]
    case Approved => [Scheduled, InExecution, Cancelled, Rejected]
    case Rejected => [Cancelled]
    case Scheduled => [InExecution, Cancelled, Rejected]
    case InExecution => [Finished, Cancelled, Rejected]
    case Finished => [Delivered, Cancelled, Rejected]
    case Delivered => [Cancelled, Rejected]
    case Cancelled => []
  }

  predicate CanTransition(from: ServiceOrderStatus, to: ServiceOrderStatus) {
    to in AllowedTransitions(from)
  }

  /** The states `isInFinalState` names. */
  predicate IsFinalStatus(s: ServiceOrderStatus) {
    s in [Delivered, Cancelled, Rejected]
  }

  /** A position along the workflow that every allowed transition
      increases. */
  function Rank(s: ServiceOrderStatus): (r: nat)
    ensures r <= 10
  {
    match s
    case Requested => 0
    case Received => 1
    case InDiagnosis => 2
    case AwaitingApproval => 3
    case Approved => 4
    case Scheduled => 5
    case InExecution => 6
    case Finished => 7
    case Delivered => 8
    case Rejected => 9
    case Cancelled => 10
  }

  // ---------------------------------------------------------------------
  // Properties of the table

  /** Different states have different names. */
  lemma NameIsInjective(a: ServiceOrderStatus, b: ServiceOrderStatus)
    requires a.Name() == b.Name()
    ensures a == b
  {
    assert a.Name()[|a.Name()| - 1] == b.Name()[|b.Name()| - 1];
    assert |a.Name()| == |b.Name()|;
    assert a.Name()[0] == b.Name()[0];
  }

  /** No row holds its own state, and no row repeats a state. */
  lemma NoSelfTransitions(s: ServiceOrderStatus)
    ensures !CanTransition(s, s)
    ensures var row := AllowedTransitions(s);
      forall i, j :: 0 <= i < j < |row| ==> row[i] != row[j]
  {
  }

  /** Cancelling is allowed from every state except `Cancelled`, whose row
      is empty. */
  lemma CancelAllowedUnlessCancelled(s: ServiceOrderStatus)
    ensures CanTransition(s, Cancelled) <==> s != Cancelled
    ensures AllowedTransitions(Cancelled) == []
  {
  }

  /** Rejecting is allowed in one step from every state except `Rejected`
      and `Cancelled`. */
  lemma RejectAllowedUnlessRejectedOrCancelled(s: ServiceOrderStatus)
    ensures CanTransition(s, Rejected) <==> s != Rejected && s != Cancelled
  {
  }

  /** Nothing leads back to `Requested`. */
  lemma RequestedIsNeverATarget(s: ServiceOrderStatus)
    ensures !CanTransition(s, Requested)
  {
  }

  /** Final states lead only to final states, and `Delivered` and `Rejected`
      still have somewhere to go: final does not mean stuck. */
  lemma FinalStatesAreClosed(s: ServiceOrderStatus, t: ServiceOrderStatus)
    ensures IsFinalStatus(s) && CanTransition(s, t) ==> IsFinalStatus(t)
    ensures IsFinalStatus(s) <==> s == Delivered || s == Cancelled || s == Rejected
    ensures CanTransition(Delivered, Rejected) && CanTransition(Rejected, Cancelled)
  {
  }

  /** Every allowed transition moves strictly forward along the workflow. */
  lemma TransitionIncreasesRank(s: ServiceOrderStatus, t: ServiceOrderStatus)
    requires CanTransition(s, t)
    ensures Rank(s) < Rank(t)
  {
  }

  // ---------------------------------------------------------------------
  // Sequences of transitions

  /** Step `i` of a run starting in `s` is allowed from the status before it. */
  predicate StepAllowed(s: ServiceOrderStatus, steps: seq<ServiceOrderStatus>, i: nat)
    requires i < |steps|
  {
    CanTransition(if i == 0 then s else steps[i - 1], steps[i])
  }

  /** Status updates applied one after another; `None` once one of them is
      refused. A run is accepted exactly when every step is allowed from the
      status before it, and then it ends in the last status asked for. */
  function Run(s: ServiceOrderStatus, steps: seq<ServiceOrderStatus>): (r: Option<ServiceOrderStatus>)
    ensures r.Some? <==> forall i :: 0 <= i < |steps| ==> StepAllowed(s, steps, i)
    ensures r.Some? ==> r.value == if steps == [] then s else steps[|steps| - 1]
    decreases steps
  {
    if steps == [] then Some(s)
    else if CanTransition(s, steps[0]) then
      assert StepAllowed(s, steps, 0);
      assert forall j :: 0 <= j < |steps| - 1 ==> StepAllowed(steps[0], steps[1..], j) == StepAllowed(s, steps, j + 1);
      assert forall i :: 1 <= i < |steps| ==> StepAllowed(s, steps, i) == StepAllowed(steps[0], steps[1..], i - 1);
      assert |steps| > 1 ==> steps[1..][|steps| - 2] == steps[|steps| - 1];
      Run(steps[0], steps[1..])
    else
      assert !StepAllowed(s, steps, 0);
      None
  }

  /** Running two sequences one after the other is running their
      concatenation. */
  lemma {:induction false} RunConcat(s: ServiceOrderStatus, a: seq<ServiceOrderStatus>, b: seq<ServiceOrderStatus>)
    ensures Run(s, a + b) == match Run(s, a) case Some(m) => Run(m, b) case None => None
    decreases a
  {
    if a == [] {
      assert a + b == b;
    } else {
      assert (a + b)[0] == a[0] && (a + b)[1..] == a[1..] + b;
      if CanTransition(s, a[0]) {
        RunConcat(a[0], a[1..], b);
      }
    }
  }

  /** Each accepted step raises the rank, so a run of `n` steps raises it by
      at least `n`. */
  lemma {:induction false} RunRaisesRank(s: ServiceOrderStatus, steps: seq<ServiceOrderStatus>)
    requires Run(s, steps).Some?
    ensures Rank(s) + |steps| <= Rank(Run(s, steps).value)
    decreases steps
  {
    if steps != [] {
      TransitionIncreasesRank(s, steps[0]);
      RunRaisesRank(steps[0], steps[1..]);
    }
  }

  /** No order comes back to a state it has left, so no accepted run is
      longer than ten steps. */
  lemma NoCycles(s: ServiceOrderStatus, steps: seq<ServiceOrderStatus>)
    requires Run(s, steps).Some?
    ensures Run(s, steps) == Some(s) ==> steps == []
    ensures |steps| <= 10
  {
    RunRaisesRank(s, steps);
  }

  /** Once final, an order stays final; once cancelled, it stays
      cancelled. */
  lemma {:induction false} FinalStaysFinal(s: ServiceOrderStatus, steps: seq<ServiceOrderStatus>)
    requires IsFinalStatus(s) && Run(s, steps).Some?
    ensures IsFinalStatus(Run(s, steps).value)
    ensures s == Cancelled ==> steps == []
    decreases steps
  {
    if steps != [] {
      FinalStatesAreClosed(s, steps[0]);
      FinalStaysFinal(steps[0], steps[1..]);
    }
  }

  /** One step of a run: the first status is checked, then the rest runs
      from it. */
  lemma RunCons(s: ServiceOrderStatus, t: ServiceOrderStatus, rest: seq<ServiceOrderStatus>)
    ensures Run(s, [t] + rest) == if CanTransition(s, t) then Run(t, rest) else None
  {
    assert ([t] + rest)[0] == t && ([t] + rest)[1..] == rest;
  }

  /** The workflow from reception to delivery, one step at a time. */
  lemma HappyPath()
    ensures Run(Received, [InDiagnosis, AwaitingApproval, Approved, Scheduled, InExecution, Finished, Delivered])
            == Some(Delivered)
    ensures Run(Requested, [Received, InDiagnosis, AwaitingApproval, Approved, InExecution, Finished, Delivered])
            == Some(Delivered)
  {
    var executing := [InExecution, Finished, Delivered];
    ExecutionToDelivery(executing);
    ApprovalThroughScheduling(executing);
    ApprovalStraightToExecution(executing);
  }

  /** The last three steps, reached from scheduling or straight from
      approval. */
  lemma ExecutionToDelivery(executing: seq<ServiceOrderStatus>)
    requires executing == [InExecution, Finished, Delivered]
    ensures Run(Scheduled, executing) == Some(Delivered) && Run(Approved, executing) == Some(Delivered)
  {
    var delivered := [Delivered];
    RunCons(Finished, Delivered, []);
    assert [Delivered] + [] == delivered;
    var finished := [Finished] + delivered;
    RunCons(InExecution, Finished, delivered);
    assert executing == [InExecution] + finished;
    RunCons(Scheduled, InExecution, finished);
    RunCons(Approved, InExecution, finished);
  }

  /** From reception, through approval and scheduling, to delivery. */
  lemma ApprovalThroughScheduling(executing: seq<ServiceOrderStatus>)
    requires Run(Scheduled, executing) == Some(Delivered) && executing == [InExecution, Finished, Delivered]
    ensures Run(Received, [InDiagnosis, AwaitingApproval, Approved, Scheduled, InExecution, Finished, Delivered])
            == Some(Delivered)
  {
    var scheduled := [Scheduled] + executing;
    RunCons(Approved, Scheduled, executing);
    var approved := [Approved] + scheduled;
    RunCons(AwaitingApproval, Approved, scheduled);
    var awaiting := [AwaitingApproval] + approved;
    RunCons(InDiagnosis, AwaitingApproval, approved);
    RunCons(Received, InDiagnosis, awaiting);
    assert [InDiagnosis] + awaiting
           == [InDiagnosis, AwaitingApproval, Approved, Scheduled, InExecution, Finished, Delivered];
  }

  /** From the request, through approval straight to execution, to
      delivery. */
  lemma ApprovalStraightToExecution(executing: seq<ServiceOrderStatus>)
    requires Run(Approved, executing) == Some(Delivered) && executing == [InExecution, Finished, Delivered]
    ensures Run(Requested, [Received, InDiagnosis, AwaitingApproval, Approved, InExecution, Finished, Delivered])
            == Some(Delivered)
  {
    var approved := [Approved] + executing;
    RunCons(AwaitingApproval, Approved, executing);
    var awaiting := [AwaitingApproval] + approved;
    RunCons(InDiagnosis, AwaitingApproval, approved);
    var diagnosing := [InDiagnosis] + awaiting;
    RunCons(Received, InDiagnosis, awaiting);
    RunCons(Requested, Received, diagnosing);
    assert [Received] + diagnosing
           == [Received, InDiagnosis, AwaitingApproval, Approved, InExecution, Finished, Delivered];
  }
}
