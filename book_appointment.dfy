/** The patient's appointment-booking form: slot labels, the field-change rule, the
    slot-list refresh, and the checks and request of the submit handler. Available
    slots are computed by the server; the form only shows what it is sent. */
module BookAppointment {
  import opened Js
  import opened Http
  import opened Browser
  import opened Records

  // ---------------------------------------------------------------- slot labels

  /** The text before the first ':' (`time.split(':')[0]`). */
  function BeforeColon(s: string): (r: string)
    ensures |r| <= |s| && r == s[..|r|] && ':' !in r
    ensures |r| < |s| ==> s[|r|] == ':'
  {
    if s == [] || s[0] == ':' then [] else [s[0]] + BeforeColon(s[1..])
  }

  function HourField(time: string): string
  {
    BeforeColon(time)
  }

  /** `time.split(':')[1]` as it is interpolated: the text between the first and the
      second ':', or "undefined" when there is no ':' at all. */
  function MinuteText(time: string): string
  {
    var h := BeforeColon(time);
    if |h| == |time| then "undefined" else BeforeColon(time[|h| + 1..])
  }

  /** `hourNum % 12 || 12`: NaN and the multiples of 12 show as 12. */
  function Hour12(h: Option<int>): (r: int)
    ensures h.None? || h.value >= 0 ==> 1 <= r <= 12
    ensures h.Some? && h.value >= 0 ==> r % 12 == h.value % 12
  {
    if h.None? || JsRem(h.value, 12) == 0 then 12 else JsRem(h.value, 12)
  }

  /** `hourNum >= 12 ? 'PM' : 'AM'`; NaN compares false. */
  function Meridiem(h: Option<int>): string
  {
    if h.Some? && h.value >= 12 then "PM" else "AM"
  }

  /** How JS prints an integer. */
  function IntText(n: int): string
  {
    if n < 0 then "-" + NatText(-n) else NatText(n)
  }

  /** The label of a parsed hour and its minute text. */
  function SlotLabel(h: Option<int>, minutes: string): (r: string)
    ensures |r| >= 3 && r[|r| - 3] == ' '
    ensures r[|r| - 2..] == Meridiem(h)
  {
    var m := Meridiem(h);
    var r := IntText(Hour12(h)) + ":" + minutes + " " + m;
    assert r[|r| - 3..] == " " + m;
    r
  }

  /** `formatTimeSlot`: a 24-hour "HH:MM" slot shown as "h:MM AM" or "h:MM PM". */
  function FormatTimeSlot(time: string): (r: string)
    ensures |r| >= 3 && r[|r| - 3] == ' '
    ensures r[|r| - 2..] == "PM" <==> (var h := ParseInt(HourField(time)); h.Some? && h.value >= 12)
    ensures r[|r| - 2..] == "AM" || r[|r| - 2..] == "PM"
  {
    SlotLabel(ParseInt(HourField(time)), MinuteText(time))
  }

  /** Reading a 12-hour label back: the label with its AM/PM marker determines the
      24-hour hour it was made from. */
  function To24(hour12: int, meridiem: string): int
  {
    hour12 % 12 + (if meridiem == "PM" then 12 else 0)
  }

  /** No hour of the day is lost by the 12-hour display. */
  lemma TwelveHourRoundTrip(h: int)
    requires 0 <= h < 24
    ensures To24(Hour12(Some(h)), Meridiem(Some(h))) == h
  {
    var r := Hour12(Some(h));
    assert r % 12 == h % 12;
    if h >= 12 {
      assert h % 12 == h - 12;
    } else {
      assert h % 12 == h;
    }
  }

  /** The two-digit text of a number below 100 ("09", "14"). */
  function TwoDigits(n: nat): (r: string)
    requires n < 100
    ensures |r| == 2 && IsDigit(r[0]) && IsDigit(r[1])
  {
    [DigitChar(n / 10), DigitChar(n % 10)]
  }

  lemma ParseTwoDigits(n: nat)
    requires n < 100
    ensures ParseInt(TwoDigits(n)) == Some(n)
  {
    var t := TwoDigits(n);
    assert DigitsValue(t) == n by {
      assert DigitsValue(t[..1]) == n / 10 by {
        assert t[..1][..0] == [];
      }
      assert t[..|t| - 1] == t[..1];
    }
    ParseDigits(t);
  }

  lemma {:induction false} BeforeColonAppend(a: string, b: string)
    requires ':' !in a
    ensures BeforeColon(a + ":" + b) == a
  {
    if a != [] {
      assert (a + ":" + b)[1..] == a[1..] + ":" + b;
      BeforeColonAppend(a[1..], b);
    }
  }

  /** A slot "HH:MM" of the 24-hour grid is shown with its hour in 1..12, the minutes
      copied unchanged and "PM" exactly for the hours 12 to 23. */
  lemma FormatGridSlot(h: nat, m: nat)
    requires h < 24 && m < 60
    ensures var shown := Hour12(Some(h));
            1 <= shown <= 12 &&
            FormatTimeSlot(TwoDigits(h) + ":" + TwoDigits(m))
              == NatText(shown) + ":" + TwoDigits(m) + (if h >= 12 then " PM" else " AM")
  {
    var hh, mm := TwoDigits(h), TwoDigits(m);
    var time := hh + ":" + mm;
    BeforeColonAppend(hh, mm);
    BeforeColonAppend(mm, "");
    assert time[|hh| + 1..] == mm;
    assert mm + ":" + "" == mm + ":";
    assert BeforeColon(mm) == mm by {
      assert BeforeColon(mm + ":") == mm;
      assert ':' !in mm;
    }
    ParseTwoDigits(h);
  }

  /** An hour field that is not a number shows as 12 and "AM". */
  lemma FormatUnreadableHour(time: string)
    requires ParseInt(HourField(time)).None?
    ensures FormatTimeSlot(time) == "12:" + MinuteText(time) + " AM"
  {
    UnreadableLabel(MinuteText(time));
  }

  lemma UnreadableLabel(m: string)
    ensures SlotLabel(None, m) == "12:" + m + " AM"
  {
    assert IntText(Hour12(None)) == "12" by {
      assert NatText(12) == NatText(1) + [DigitChar(2)];
    }
    assert SlotLabel(None, m) == "12" + ":" + m + " " + "AM";
  }

  // ---------------------------------------------------------------- the form

  /** The form as first shown and as reset after a booking. */
  function BlankForm(): (f: Fields)
    ensures forall k :: k in f <==> k in {"doctorId", "date", "time", "reason"}
    ensures forall k :: k in f ==> f[k] == ""
  {
    map["doctorId" := "", "date" := "", "time" := "", "reason" := ""]
  }

  /** Changing the doctor or the date invalidates the chosen time. */
  predicate ClearsTime(name: string)
  {
    name == "date" || name == "doctorId"
  }

  /** `handleChange`: the named field takes the value; after a doctor or date change the
      time becomes ''; nothing else changes. */
  function ChangeField(form: Fields, name: string, value: string): (r: Fields)
    ensures name in r && r[name] == value
    ensures ClearsTime(name) ==> "time" in r && r["time"] == ""
    ensures forall k :: k in r <==> k in form || k == name || (ClearsTime(name) && k == "time")
    ensures forall k :: k in form && k != name && !(ClearsTime(name) && k == "time") ==> r[k] == form[k]
  {
    var f := form[name := value];
    if ClearsTime(name) then f["time" := ""] else f
  }

  /** The slot list is emptied when the doctor or the date is not chosen. */
  predicate SlotsCleared(form: Fields)
  {
    Get(form, "doctorId") == "" || Get(form, "date") == ""
  }

  // ---------------------------------------------------------------- submitting

  /** The request body: exactly the four form fields. */
  datatype BookingRequest = BookingRequest(doctorId: string, date: string, time: string, reason: string)

  /** What the submit handler decides before it sends anything. */
  datatype SubmitCheck = SessionExpired | MissingFields | PastDate | Ready(request: BookingRequest)

  predicate AllFilled(form: Fields)
  {
    Get(form, "doctorId") != "" && Get(form, "date") != "" &&
    Get(form, "time") != "" && Get(form, "reason") != ""
  }

  /** The messages of the submit handler. */
  const SessionExpiredText: string := "Your session has expired. Please login again."
  const MissingFieldsText: string := "Please fill in all required fields"
  const PastDateText: string := "Cannot book appointments for past dates"
  const BookingFailedText: string := "Failed to book appointment. Please try again."
  /** The messages of the slot refresh. */
  const NoTokenText: string := "Authentication token not found. Please login again."
  const InvalidSlotsText: string := "Invalid response format from server. Please try again."
  const NoSlotsText: string := "No available slots for the selected date. Please choose another date."
  const NoSlotServiceText: string := "The available slots service is not available. Please try again later."
  const SlotsFailedText: string := "Failed to fetch available time slots. Please try again."

  /** The checks of `handleSubmit`, in their order: a stored token, then the four required
      fields, then a date that is not before today. `dayOf` gives the day number a date
      string denotes. */
  function CheckSubmission(token: string, form: Fields, dayOf: string -> int, today: int): (c: SubmitCheck)
    ensures c == SessionExpired <==> token == ""
    ensures c == MissingFields <==> token != "" && !AllFilled(form)
    ensures c == PastDate <==> token != "" && AllFilled(form) && dayOf(Get(form, "date")) < today
    ensures c.Ready? <==> token != "" && AllFilled(form) && dayOf(Get(form, "date")) >= today
    ensures c.Ready? ==> c.request == BookingRequest(Get(form, "doctorId"), Get(form, "date"),
                                                     Get(form, "time"), Get(form, "reason"))
  {
    if token == "" then SessionExpired
    else if !AllFilled(form) then MissingFields
    else if dayOf(Get(form, "date")) < today then PastDate
    else Ready(BookingRequest(Get(form, "doctorId"), Get(form, "date"), Get(form, "time"), Get(form, "reason")))
  }

  function CheckMessage(c: SubmitCheck): string
    requires !c.Ready?
  {
    match c
    case SessionExpired => SessionExpiredText
    case MissingFields => MissingFieldsText
    case PastDate => PastDateText
  }

  /** After the doctor or the date changes, the form cannot be submitted until a time is
      picked again. */
  lemma ChangeForcesNewTime(token: string, form: Fields, name: string, value: string,
                            dayOf: string -> int, today: int)
    requires token != "" && ClearsTime(name)
    ensures CheckSubmission(token, ChangeField(form, name, value), dayOf, today) == MissingFields
  {
    assert Get(ChangeField(form, name, value), "time") == "";
  }

  /** The appointment a successful booking response carries. */
  datatype Booking = Booking(doctor: Option<Person>, date: string, time: string)

  /** The body of a successful booking response; `appointment` may be absent. */
  datatype BookedReply = BookedReply(message: string, appointment: Option<Booking>)

  function DoctorLabel(doctor: Option<Person>): string
  {
    if doctor.Some? then "Dr. " + doctor.value.firstName + " " + doctor.value.lastName
    else "Unknown Doctor"
  }

  function SuccessText(booking: Booking): string
  {
    "Appointment booked successfully with " + DoctorLabel(booking.doctor) +
    " for " + booking.date + " at " + booking.time
  }

  /** `error.response?.data?.error || error.response?.data?.message || error.message ||
      fallback`. */
  function BookingErrorText(e: HttpError): (r: string)
    ensures r != ""
    ensures e.dataError != "" ==> r == e.dataError
    ensures e.dataError == "" && e.dataMessage != "" ==> r == e.dataMessage
    ensures e.dataError == "" && e.dataMessage == "" && e.message != "" ==> r == e.message
    ensures e.dataError == "" && e.dataMessage == "" && e.message == "" ==> r == BookingFailedText
  {
    Or(e.dataError, Or(e.dataMessage, Or(e.message, BookingFailedText)))
  }

  // ---------------------------------------------------------------- slot refresh

  /** The body of the available-slots response (`response.data.availableSlots`). */
  datatype SlotsReply = SlotsReply(availableSlots: Option<seq<string>>)

  /** The slots the page keeps after a fetch with that outcome. */
  function SlotsAfter(outcome: Outcome<SlotsReply>): (r: seq<string>)
    ensures outcome.Fail? ==> r == []
    ensures outcome.Ok? && outcome.data.availableSlots.Some? ==> r == outcome.data.availableSlots.value
  {
    if outcome.Ok? && outcome.data.availableSlots.Some? then outcome.data.availableSlots.value else []
  }

  /** The error the page shows after a fetch with that outcome ("" for none). */
  function SlotsError(outcome: Outcome<SlotsReply>): (r: string)
    ensures r == "" <==> outcome.Ok? && outcome.data.availableSlots.Some? && outcome.data.availableSlots.value != []
  {
    match outcome
    case Ok(reply) =>
      if reply.availableSlots.None? then InvalidSlotsText
      else if reply.availableSlots.value == [] then NoSlotsText
      else ""
    case Fail(e) =>
      if HasStatus(e, 404) then NoSlotServiceText
      else ServerText(e, SlotsFailedText)
  }

  // ---------------------------------------------------------------- page state

  class BookingPage {
    var appointmentData: Fields
    var availableSlots: seq<string>
    var error: string
    var success: string
    var loading: bool

    constructor ()
      ensures appointmentData == BlankForm() && availableSlots == []
      ensures error == "" && success == "" && !loading
    {
      appointmentData := BlankForm();
      availableSlots := [];
      error, success, loading := "", "", false;
    }

    /** `handleChange`. */
    method HandleChange(name: string, value: string)
      modifies this
      ensures appointmentData == ChangeField(old(appointmentData), name, value)
      ensures error == ""
      ensures availableSlots == old(availableSlots) && success == old(success) && loading == old(loading)
    {
      appointmentData := appointmentData[name := value];
      error := "";
      if ClearsTime(name) {
        appointmentData := appointmentData[name := value]["time" := ""];
      }
    }

    /** `fetchAvailableSlots`, given what the server answers. */
    method FetchAvailableSlots(store: LocalStorage, outcome: Outcome<SlotsReply>) returns (nav: Option<string>)
      modifies this
      ensures appointmentData == old(appointmentData) && success == old(success) && loading == old(loading)
      ensures SlotsCleared(appointmentData) ==> availableSlots == [] && error == "" && nav == None
      ensures !SlotsCleared(appointmentData) && store.Read("token") == "" ==>
                availableSlots == old(availableSlots) && nav == Some("/login") &&
                error == NoTokenText
      ensures !SlotsCleared(appointmentData) && store.Read("token") != "" ==>
                availableSlots == SlotsAfter(outcome) && error == SlotsError(outcome) && nav == None
    {
      error := "";
      nav := None;
      if Get(appointmentData, "doctorId") == "" || Get(appointmentData, "date") == "" {
        availableSlots := [];
        return;
      }
      var token := store.Read("token");
      if token == "" {
        error := NoTokenText;
        nav := Some("/login");
        return;
      }
      availableSlots := SlotsAfter(outcome);
      error := SlotsError(outcome);
    }

    /** The effect that runs when the doctor or the date changes: fetch when both are
        chosen, otherwise empty the slot list. */
    method SlotsEffect(store: LocalStorage, outcome: Outcome<SlotsReply>) returns (nav: Option<string>)
      modifies this
      ensures appointmentData == old(appointmentData) && success == old(success) && loading == old(loading)
      ensures SlotsCleared(appointmentData) ==> availableSlots == [] && nav == None && error == old(error)
      ensures !SlotsCleared(appointmentData) && store.Read("token") == "" ==>
                availableSlots == old(availableSlots) && nav == Some("/login") && error == NoTokenText
      ensures !SlotsCleared(appointmentData) && store.Read("token") != "" ==>
                availableSlots == SlotsAfter(outcome) && error == SlotsError(outcome) && nav == None
    {
      if Get(appointmentData, "doctorId") != "" && Get(appointmentData, "date") != "" {
        nav := FetchAvailableSlots(store, outcome);
      } else {
        availableSlots := [];
        nav := None;
      }
    }

    /** `handleSubmit`: returns where the page navigates and the request it sends, if any. */
    method HandleSubmit(store: LocalStorage, dayOf: string -> int, today: int, outcome: Outcome<BookedReply>)
      returns (nav: Option<string>, sent: Option<BookingRequest>)
      modifies this
      ensures var c := CheckSubmission(store.Read("token"), old(appointmentData), dayOf, today);
              && (c.Ready? <==> sent.Some?)
              && (c.Ready? ==> sent.value == c.request)
              && (!c.Ready? ==> error == CheckMessage(c) && success == "" &&
                                appointmentData == old(appointmentData))
              && (nav == Some("/login") <==> c == SessionExpired ||
                                             (c.Ready? && outcome.Fail? && HasStatus(outcome.err, 401)))
      ensures sent.Some? && outcome.Ok? && outcome.data.message != "" && outcome.data.appointment.Some? ==>
                appointmentData == BlankForm() && success == SuccessText(outcome.data.appointment.value) && error == ""
      ensures sent.Some? && outcome.Ok? && outcome.data.message != "" && outcome.data.appointment.None? ==>
                appointmentData == old(appointmentData) && success == "" && error == UndefinedDoctorIdError
      ensures sent.Some? && outcome.Ok? && outcome.data.message == "" ==>
                appointmentData == old(appointmentData) && success == "" && error == ""
      ensures sent.Some? && outcome.Fail? ==>
                appointmentData == old(appointmentData) && success == "" &&
                error == BookingErrorText(outcome.err)
      ensures !loading && availableSlots == old(availableSlots)
    {
      error := "";
      success := "";
      loading := true;
      nav, sent := None, None;
      var token := store.Read("token");
      if token == "" {
        error := SessionExpiredText;
        nav := Some("/login");
        loading := false;
        return;
      }
      var c := CheckSubmission(token, appointmentData, dayOf, today);
      if !c.Ready? {
        error := CheckMessage(c);
        loading := false;
        return;
      }
      sent := Some(c.request);
      match outcome {
        case Ok(reply) =>
          if reply.message != "" {
            if reply.appointment.None? {
              error := BookingErrorText(Thrown(UndefinedDoctorIdError));
            } else {
              success := SuccessText(reply.appointment.value);
              appointmentData := BlankForm();
            }
          }
        case Fail(e) =>
          error := BookingErrorText(e);
          if HasStatus(e, 401) {
            nav := Some("/login");
          }
      }
      loading := false;
    }
  }
}
