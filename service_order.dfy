/** The service order, the aggregate the workshop's workflow revolves
    around. Every status change goes through one check against the
    transition table. */
module ServiceOrders {
  import opened Wrappers
  import opened BaseEntities
  import opened ServiceOrderStatuses
  import opened StatusTransitionErrors

  class ServiceOrder {
    const base: BaseEntity
    var status: ServiceOrderStatus
    const requestDate: nat
    var deliveryDate: Option<nat>
    var cancellationReason: Option<string>
    var notes: Option<string>
    const clientId: string
    const vehicleId: string

    constructor (id: string, status: ServiceOrderStatus, requestDate: nat, deliveryDate: Option<nat>,
                 cancellationReason: Option<string>, notes: Option<string>,
                 clientId: string, vehicleId: string, createdAt: nat, updatedAt: nat)
      ensures fresh(base) && base.id == id && base.createdAt == createdAt && base.updatedAt == updatedAt
      ensures this.status == status && this.requestDate == requestDate && this.deliveryDate == deliveryDate
      ensures this.cancellationReason == cancellationReason && this.notes == notes
      ensures this.clientId == clientId && this.vehicleId == vehicleId
    {
      base := new BaseEntity(id, createdAt, updatedAt);
      this.status := status;
      this.requestDate := requestDate;
      this.deliveryDate := deliveryDate;
      this.cancellationReason := cancellationReason;
      this.notes := notes;
      this.clientId := clientId;
      this.vehicleId := vehicleId;
    }

    /** A new order as the customer requests it. */
    static method Create(clientId: string, vehicleId: string, notes: Option<string>, now: nat)
      returns (o: ServiceOrder)
      ensures fresh(o) && fresh(o.base) && o.IsNew(Requested, clientId, vehicleId, notes, now)
    {
      o := new ServiceOrder("", Requested, now, None, None, notes, clientId, vehicleId, now, now);
    }

    /** A new order opened by an employee, already received. */
    static method CreateReceived(clientId: string, vehicleId: string, notes: Option<string>, now: nat)
      returns (o: ServiceOrder)
      ensures fresh(o) && fresh(o.base) && o.IsNew(Received, clientId, vehicleId, notes, now)
    {
      o := new ServiceOrder("", Received, now, None, None, notes, clientId, vehicleId, now, now);
    }

    /** What both factories promise: unsaved, in `initial`, requested,
        created and updated at `now`, nothing delivered or cancelled. */
    ghost predicate IsNew(initial: ServiceOrderStatus, clientId: string, vehicleId: string,
                          notes: Option<string>, now: nat)
      reads this, base
    {
      && base.id == "" && status == initial
      && requestDate == now && base.createdAt == now && base.updatedAt == now
      && deliveryDate == None && cancellationReason == None && this.notes == notes
      && this.clientId == clientId && this.vehicleId == vehicleId
    }

    /** The check every status change makes first: a refused transition
        carries the current state, the one asked for and the current row of
        the table. */
    function ValidateStatusTransition(newStatus: ServiceOrderStatus): (r: Outcome<InvalidServiceOrderStatusTransition>)
      reads this
      ensures r.Pass? <==> CanTransition(status, newStatus)
      ensures r.Fail? ==> r.error.currentStatus == status && r.error.newStatus == newStatus
                          && r.error.allowedStatuses == AllowedTransitions(status)
    {
      var allowed := AllowedTransitions(status);
      if newStatus !in allowed then Fail(InvalidServiceOrderStatusTransition(status, newStatus, allowed))
      else Pass
    }

    /** The outcome of an attempt to move to `target`: allowed, the status
        becomes `target` and the clock moves to `now`; refused, the error
        describes the attempt and the status and clock stay. Delivery date
        and notes never change. */
    twostate predicate Attempted(target: ServiceOrderStatus, now: nat, new r: Outcome<InvalidServiceOrderStatusTransition>)
      reads this, base
    {
      && (CanTransition(old(status), target) ==> r == Pass && status == target && base.updatedAt == now)
      && (!CanTransition(old(status), target) ==>
            && r == Fail(InvalidServiceOrderStatusTransition(old(status), target, AllowedTransitions(old(status))))
            && status == old(status) && base.updatedAt == old(base.updatedAt))
      && deliveryDate == old(deliveryDate) && notes == old(notes)
    }

    /** `updateStatus`: any target, through the table. The cancellation
        reason is left as it is, even when the target is `Cancelled`. */
    method UpdateStatus(newStatus: ServiceOrderStatus, now: nat) returns (r: Outcome<InvalidServiceOrderStatusTransition>)
      modifies this, base
      ensures Attempted(newStatus, now, r)
      ensures cancellationReason == old(cancellationReason)
    {
      r := ValidateStatusTransition(newStatus);
      if r.Fail? {
        return;
      }
      status := newStatus;
      base.SetUpdatedAt(now);
    }

    method MarkReceived(now: nat) returns (r: Outcome<InvalidServiceOrderStatusTransition>)
      modifies this, base
      ensures Attempted(Received, now, r) && cancellationReason == old(cancellationReason)
    {
      r := UpdateStatus(Received, now);
    }

    method MarkInDiagnosis(now: nat) returns (r: Outcome<InvalidServiceOrderStatusTransition>)
      modifies this, base
      ensures Attempted(InDiagnosis, now, r) && cancellationReason == old(cancellationReason)
    {
      r := UpdateStatus(InDiagnosis, now);
    }

    method MarkAwaitingApproval(now: nat) returns (r: Outcome<InvalidServiceOrderStatusTransition>)
      modifies this, base
      ensures Attempted(AwaitingApproval, now, r) && cancellationReason == old(cancellationReason)
    {
      r := UpdateStatus(AwaitingApproval, now);
    }

    method MarkApproved(now: nat) returns (r: Outcome<InvalidServiceOrderStatusTransition>)
      modifies this, base
      ensures Attempted(Approved, now, r) && cancellationReason == old(cancellationReason)
    {
      r := UpdateStatus(Approved, now);
    }

    method MarkRejected(now: nat) returns (r: Outcome<InvalidServiceOrderStatusTransition>)
      modifies this, base
      ensures Attempted(Rejected, now, r) && cancellationReason == old(cancellationReason)
    {
      r := UpdateStatus(Rejected, now);
    }

    method MarkScheduled(now: nat) returns (r: Outcome<InvalidServiceOrderStatusTransition>)
      modifies this, base
      ensures Attempted(Scheduled, now, r) && cancellationReason == old(cancellationReason)
    {
      r := UpdateStatus(Scheduled, now);
    }

    method MarkInExecution(now: nat) returns (r: Outcome<InvalidServiceOrderStatusTransition>)
      modifies this, base
      ensures Attempted(InExecution, now, r) && cancellationReason == old(cancellationReason)
    {
      r := UpdateStatus(InExecution, now);
    }

    method MarkFinished(now: nat) returns (r: Outcome<InvalidServiceOrderStatusTransition>)
      modifies this, base
      ensures Attempted(Finished, now, r) && cancellationReason == old(cancellationReason)
    {
      r := UpdateStatus(Finished, now);
    }

    method MarkDelivered(now: nat) returns (r: Outcome<InvalidServiceOrderStatusTransition>)
      modifies this, base
      ensures Attempted(Delivered, now, r) && cancellationReason == old(cancellationReason)
    {
      r := UpdateStatus(Delivered, now);
    }

    /** `cancel`: allowed from every state but `Cancelled`, and the only
        operation that records a cancellation reason. */
    method Cancel(reason: string, now: nat) returns (r: Outcome<InvalidServiceOrderStatusTransition>)
      modifies this, base
      ensures Attempted(Cancelled, now, r)
      ensures r.Pass? <==> old(status) != Cancelled
      ensures cancellationReason == if r.Pass? then Some(reason) else old(cancellationReason)
    {
      CancelAllowedUnlessCancelled(status);
      r := ValidateStatusTransition(Cancelled);
      if r.Fail? {
        return;
      }
      status := Cancelled;
      cancellationReason := Some(reason);
      base.SetUpdatedAt(now);
    }

    /** Allowed in any state; the status does not change. */
    method UpdateDeliveryDate(deliveryDate: nat, now: nat)
      modifies this, base
      ensures this.deliveryDate == Some(deliveryDate) && base.updatedAt == now
      ensures status == old(status) && cancellationReason == old(cancellationReason) && notes == old(notes)
    {
      this.deliveryDate := Some(deliveryDate);
      base.SetUpdatedAt(now);
    }

    /** Allowed in any state; the status does not change. */
    method UpdateNotes(notes: string, now: nat)
      modifies this, base
      ensures this.notes == Some(notes) && base.updatedAt == now
      ensures status == old(status) && cancellationReason == old(cancellationReason)
      ensures deliveryDate == old(deliveryDate)
    {
      this.notes := Some(notes);
      base.SetUpdatedAt(now);
    }

    /** Delivered, cancelled or rejected. A final order can still move, but
        only to another final state. */
    function IsInFinalState(): (r: bool)
      reads this
      ensures r <==> status == Delivered || status == Cancelled || status == Rejected
      ensures r ==> forall t :: CanTransition(status, t) ==> IsFinalStatus(t)
    {
      IsFinalStatus(status)
    }
  }

  /** The workflow of the test suite: an order opened by an employee goes
      through every stage to delivery, each step allowed, and can then not
      go back to `Requested`. */
  method LifecycleScenario(clientId: string, vehicleId: string) returns (o: ServiceOrder)
    ensures fresh(o) && o.status == Delivered && o.base.updatedAt == 8
  {
    o := ServiceOrder.CreateReceived(clientId, vehicleId, None, 1);
    DiagnoseAndApprove(o);
    ExecuteAndDeliver(o);
    var r := o.UpdateStatus(Requested, 9);
    assert r == Fail(InvalidServiceOrderStatusTransition(Delivered, Requested, [Cancelled, Rejected]));
  }

  /** The first half of the workflow: diagnosis, then the customer's approval. */
  method DiagnoseAndApprove(o: ServiceOrder)
    requires o.status == Received
    modifies o, o.base
    ensures o.status == Approved && o.base.updatedAt == 4
  {
    var r := o.MarkInDiagnosis(2);
    assert r == Pass && o.status == InDiagnosis;
    r := o.MarkAwaitingApproval(3);
    assert o.status == AwaitingApproval;
    r := o.MarkApproved(4);
  }

  /** The second half: scheduling, execution, completion and delivery. */
  method ExecuteAndDeliver(o: ServiceOrder)
    requires o.status == Approved
    modifies o, o.base
    ensures o.status == Delivered && o.base.updatedAt == 8
  {
    var r := o.MarkScheduled(5);
    assert o.status == Scheduled;
    r := o.MarkInExecution(6);
    assert o.status == InExecution;
    r := o.MarkFinished(7);
    assert o.status == Finished;
    r := o.MarkDelivered(8);
  }

  /** A new order cannot skip reception, and after cancelling nothing is
      allowed. */
  method RefusedTransitionsScenario(clientId: string, vehicleId: string) returns (o: ServiceOrder)
    ensures fresh(o) && o.status == Cancelled && o.cancellationReason == Some("Test")
  {
    o := ServiceOrder.Create(clientId, vehicleId, None, 1);
    var r := o.MarkInDiagnosis(2);
    assert r.Fail? && o.status == Requested && o.base.updatedAt == 1;
    r := o.UpdateStatus(Finished, 3);
    assert r.Fail?;
    r := o.Cancel("Test", 4);
    assert r == Pass;
    r := o.MarkReceived(5);
    assert r == Fail(InvalidServiceOrderStatusTransition(Cancelled, Received, []));
  }
}
