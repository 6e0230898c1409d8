/** The error raised when a service order is asked for a transition its
    current state does not allow. */
module StatusTransitionErrors {
  import opened ServiceOrderStatuses

  const ErrorCode := "InvalidServiceOrderStatusTransitionException"
  const Separator := ", "

  /** `Array.prototype.join`: the parts in order, `sep` only between two of
      them. */
  function Join(parts: seq<string>, sep: string): (r: string)
    ensures parts == [] ==> r == ""
    ensures |parts| == 1 ==> r == parts[0]
  {
    if parts == [] then ""
    else if |parts| == 1 then parts[0]
    else parts[0] + sep + Join(parts[1..], sep)
  }

  /** The names of the states, in order. */
  function Names(ss: seq<ServiceOrderStatus>): (r: seq<string>)
    ensures |r| == |ss|
    ensures forall i :: 0 <= i < |ss| ==> r[i] == ss[i].Name()
  {
    if ss == [] then [] else [ss[0].Name()] + Names(ss[1..])
  }

  /** The state the order was in, the one asked for, and the row of the
      table for the first. */
  datatype InvalidServiceOrderStatusTransition =
    InvalidServiceOrderStatusTransition(
      currentStatus: ServiceOrderStatus,
      newStatus: ServiceOrderStatus,
      allowedStatuses: seq<ServiceOrderStatus>)
  {
    function Message(): string {
      "Invalid status transition from " + currentStatus.Name() + " to " + newStatus.Name()
        + ". Allowed transitions: " + Join(Names(allowedStatuses), Separator)
    }

    function Code(): string {
      ErrorCode
    }

    /** The base class copies the code into `name`. */
    function Name(): (r: string)
      ensures r == Code()
    {
      Code()
    }
  }

  /** Joining one more part adds the separator and that part at the end. */
  lemma {:induction false} JoinSnoc(parts: seq<string>, x: string, sep: string)
    requires parts != []
    ensures Join(parts + [x], sep) == Join(parts, sep) + sep + x
    decreases |parts|
  {
    if |parts| == 1 {
      assert parts + [x] == [parts[0], x];
      assert [parts[0], x][1..] == [x];
    } else {
      assert (parts + [x])[1..] == parts[1..] + [x];
      JoinSnoc(parts[1..], x, sep);
    }
  }

  /** The joined length: every part, and one separator between each pair. */
  lemma {:induction false} JoinLength(parts: seq<string>, sep: string)
    requires parts != []
    ensures |Join(parts, sep)| == TotalLength(parts) + (|parts| - 1) * |sep|
    decreases |parts|
  {
    if |parts| > 1 {
      JoinLength(parts[1..], sep);
    }
  }

  function TotalLength(parts: seq<string>): nat {
    if parts == [] then 0 else |parts[0]| + TotalLength(parts[1..])
  }

  lemma RequestedRowJoined()
    ensures Join(Names(AllowedTransitions(Requested)), Separator) == "RECEIVED" + ", " + "CANCELLED" + ", " + "REJECTED"
  {
    var names := Names([Received, Cancelled, Rejected]);
    assert names == ["RECEIVED", "CANCELLED", "REJECTED"];
    assert names[1..] == ["CANCELLED", "REJECTED"];
    assert names[1..][1..] == ["REJECTED"];
  }

  /** The message of the source's own scenario: `REQUESTED` may go only to
      `RECEIVED`, `CANCELLED` or `REJECTED`. */
  lemma RequestedToInDiagnosisMessage(e: InvalidServiceOrderStatusTransition)
    requires e == InvalidServiceOrderStatusTransition(Requested, InDiagnosis, AllowedTransitions(Requested))
    ensures e.Message()
      == "Invalid status transition from " + "REQUESTED" + " to " + "IN_DIAGNOSIS"
         + ". Allowed transitions: " + ("RECEIVED" + ", " + "CANCELLED" + ", " + "REJECTED")
  {
    RequestedRowJoined();
  }

  /** From `Cancelled` nothing is allowed, and the message ends with the
      empty list. */
  lemma FromCancelledMessage(t: ServiceOrderStatus)
    ensures InvalidServiceOrderStatusTransition(Cancelled, t, AllowedTransitions(Cancelled)).Message()
      == "Invalid status transition from CANCELLED to " + t.Name() + ". Allowed transitions: "
  {
  }
}
