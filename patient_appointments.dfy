/** The patient's appointment list: status colour and icon, which appointments offer a
    cancel button, the cancel dialog and the local update after a cancellation. */
module PatientAppointments {
  import opened Js
  import opened Http
  import opened Browser
  import opened Records
  import opened Seqs

  /** The message of a failed cancellation. */
  const CancelFailedText: string := "Failed to cancel appointment"

  /** `getStatusColor`: fixed colours for completed, cancelled and pending, grey otherwise;
      chosen on the lower-cased status. */
  function StatusColor(status: string): (c: string)
    ensures c == "#4CAF50" <==> ToLower(status) == "completed"
    ensures c == "#F44336" <==> ToLower(status) == "cancelled"
    ensures c == "#FFC107" <==> ToLower(status) == "pending"
    ensures c == "#9E9E9E" <==> ToLower(status) !in {"completed", "cancelled", "pending"}
  {
    match ToLower(status)
    case "completed" => "#4CAF50"
    case "cancelled" => "#F44336"
    case "pending" => "#FFC107"
    case _ => "#9E9E9E"
  }

  datatype Icon = CheckCircle | XCircle | Clock | AlertCircle

  /** `getStatusIcon`: the same three cases as the colour, AlertCircle otherwise. */
  function StatusIcon(status: string): (i: Icon)
    ensures i == CheckCircle <==> ToLower(status) == "completed"
    ensures i == XCircle <==> ToLower(status) == "cancelled"
    ensures i == Clock <==> ToLower(status) == "pending"
    ensures i == AlertCircle <==> ToLower(status) !in {"completed", "cancelled", "pending"}
  {
    match ToLower(status)
    case "completed" => CheckCircle
    case "cancelled" => XCircle
    case "pending" => Clock
    case _ => AlertCircle
  }

  /** The icon and the colour fall in the same case for every status. */
  lemma IconFollowsColor(status: string)
    ensures StatusIcon(status) == AlertCircle <==> StatusColor(status) == "#9E9E9E"
    ensures StatusIcon(status) == Clock <==> StatusColor(status) == "#FFC107"
  {
  }

  /** The cancel button is shown only for appointments whose status is exactly "pending". */
  predicate CanCancel(a: Appointment)
  {
    a.status == "pending"
  }

  /** The request body of a cancellation. */
  datatype CancelRequest = CancelRequest(id: string, reason: string)

  /** The local update after a cancellation: the record with that id becomes cancelled and
      carries the reason; every other record stays as it was. */
  function ApplyCancel(apts: seq<Appointment>, id: string, reason: string): (r: seq<Appointment>)
    ensures |r| == |apts|
    ensures forall i :: 0 <= i < |apts| && apts[i].id != id ==> r[i] == apts[i]
    ensures forall i :: 0 <= i < |apts| && apts[i].id == id ==>
              r[i] == apts[i].(status := "cancelled", cancelReason := Some(reason))
    ensures forall a :: a in r && a.id == id ==> !CanCancel(a)
  {
    UpdateWhere(apts, (a: Appointment) => a.id == id,
                (a: Appointment) => a.(status := "cancelled", cancelReason := Some(reason)))
  }

  /** Cancelling twice with the same reason is the same as cancelling once. */
  lemma ApplyCancelIdempotent(apts: seq<Appointment>, id: string, reason: string)
    ensures ApplyCancel(ApplyCancel(apts, id, reason), id, reason) == ApplyCancel(apts, id, reason)
  {
    var once := ApplyCancel(apts, id, reason);
    var twice := ApplyCancel(once, id, reason);
    forall i | 0 <= i < |apts| ensures twice[i] == once[i] {
      assert once[i].id == apts[i].id;
    }
  }

  class PatientAppointmentsPage {
    var appointments: seq<Appointment>
    var error: string
    var selected: Option<Appointment>
    var cancelDialogOpen: bool
    var cancelReason: string

    constructor (apts: seq<Appointment>)
      ensures appointments == apts && error == "" && selected.None?
      ensures !cancelDialogOpen && cancelReason == ""
    {
      appointments := apts;
      error, selected, cancelDialogOpen, cancelReason := "", None, false, "";
    }

    /** `handleCancelClick`. */
    method HandleCancelClick(a: Appointment)
      modifies this
      ensures selected == Some(a) && cancelDialogOpen
      ensures appointments == old(appointments) && error == old(error) && cancelReason == old(cancelReason)
    {
      selected := Some(a);
      cancelDialogOpen := true;
    }

    /** Typing in the reason field. */
    method EditReason(text: string)
      modifies this
      ensures cancelReason == text
      ensures appointments == old(appointments) && error == old(error)
      ensures selected == old(selected) && cancelDialogOpen == old(cancelDialogOpen)
    {
      cancelReason := text;
    }

    /** "Keep Appointment": the dialog closes; the selection and the reason stay. */
    method KeepAppointment()
      modifies this
      ensures !cancelDialogOpen
      ensures appointments == old(appointments) && error == old(error)
      ensures selected == old(selected) && cancelReason == old(cancelReason)
    {
      cancelDialogOpen := false;
    }

    /** `handleCancelAppointment`, given the outcome of the cancel request; returns the
        body sent. */
    method HandleCancelAppointment(outcome: Outcome<()>) returns (sent: Option<CancelRequest>)
      modifies this
      ensures old(selected).None? ==>
                sent.None? && error == CancelFailedText &&
                appointments == old(appointments) && selected == old(selected) &&
                cancelDialogOpen == old(cancelDialogOpen) && cancelReason == old(cancelReason)
      ensures old(selected).Some? ==> sent == Some(CancelRequest(old(selected).value.id, old(cancelReason)))
      ensures sent.Some? && outcome.Ok? ==>
                appointments == ApplyCancel(old(appointments), sent.value.id, old(cancelReason)) &&
                !cancelDialogOpen && cancelReason == "" && selected.None? && error == old(error)
      ensures sent.Some? && outcome.Fail? ==>
                appointments == old(appointments) && error == ServerText(outcome.err, CancelFailedText) &&
                selected == old(selected) && cancelDialogOpen == old(cancelDialogOpen) &&
                cancelReason == old(cancelReason)
    {
      sent := None;
      if selected.None? {
        error := ServerText(Thrown(NullIdError), CancelFailedText);
        return;
      }
      var id := selected.value.id;
      sent := Some(CancelRequest(id, cancelReason));
      match outcome {
        case Ok(_) =>
          appointments := ApplyCancel(appointments, id, cancelReason);
          cancelDialogOpen := false;
          cancelReason := "";
          selected := None;
        case Fail(e) =>
          error := ServerText(e, CancelFailedText);
      }
    }
  }
}
