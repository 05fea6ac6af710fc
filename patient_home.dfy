/** The patient's home page: upcoming appointments, recent prescriptions and the
    "No recent activity" placeholder. */
module PatientHome {
  import opened Js
  import opened Http
  import opened Browser
  import opened Records
  import opened Seqs

  /** The message of a failed load. */
  const FetchFailedText: string := "Error fetching your information"

  /** `date >= now`, with both sides as day numbers. */
  predicate IsUpcoming(a: Appointment, now: int)
  {
    a.date >= now
  }

  /** The appointments from `now` on, in list order. */
  function FromToday(apts: seq<Appointment>, now: int): (r: seq<Appointment>)
    ensures forall a :: multiset(r)[a] == if IsUpcoming(a, now) then multiset(apts)[a] else 0
  {
    FilterCounts((a: Appointment) => IsUpcoming(a, now), apts);
    Filter((a: Appointment) => IsUpcoming(a, now), apts)
  }

  /** The appointments from `now` on, earliest first. */
  function Upcoming(apts: seq<Appointment>, now: int): (r: seq<Appointment>)
    ensures SortedBy(DateKey, r)
    ensures multiset(r) == multiset(FromToday(apts, now))
    ensures forall a :: a in r <==> a in apts && IsUpcoming(a, now)
    ensures forall a :: multiset(r)[a] == if IsUpcoming(a, now) then multiset(apts)[a] else 0
  {
    FilterCounts((a: Appointment) => IsUpcoming(a, now), apts);
    var kept := FromToday(apts, now);
    var r := SortBy(DateKey, kept);
    assert forall a :: a in r <==> a in kept by {
      forall a ensures a in r <==> a in kept {
        calc {
          a in r;
          a in multiset(r);
          a in multiset(kept);
          a in kept;
        }
      }
    }
    r
  }

  /** Appointments on the same day keep their list order: the sort is stable. */
  lemma UpcomingKeepsDayOrder(apts: seq<Appointment>, now: int, day: int)
    ensures Filter(KeyIs(DateKey, day), Upcoming(apts, now)) ==
            Filter(KeyIs(DateKey, day), FromToday(apts, now))
  {
    SortByStable(DateKey, FromToday(apts, now), day);
  }

  /** What the prescription line shows: the diagnosis, else the first medication's name,
      else "Medication". */
  datatype PrescriptionSummary = PrescriptionSummary(diagnosis: string, medicationNames: seq<string>)

  function PrescriptionTitle(p: PrescriptionSummary): (t: string)
    ensures p.diagnosis != "" ==> t == "Prescription: " + p.diagnosis
    ensures p.diagnosis == "" && p.medicationNames != [] && p.medicationNames[0] != "" ==>
              t == "Prescription: " + p.medicationNames[0]
    ensures p.diagnosis == "" && (p.medicationNames == [] || p.medicationNames[0] == "") ==>
              t == "Prescription: Medication"
  {
    var first := if p.medicationNames == [] then "" else p.medicationNames[0];
    "Prescription: " + Or(p.diagnosis, Or(first, "Medication"))
  }

  /** The "Recent Activity" list. */
  datatype Activity = Activity(appointments: seq<Appointment>, prescriptions: seq<PrescriptionSummary>, noRecentActivity: bool)

  function RecentActivity(upcoming: seq<Appointment>, prescriptions: seq<PrescriptionSummary>): (r: Activity)
    ensures |r.appointments| == if |upcoming| < 3 then |upcoming| else 3
    ensures |r.prescriptions| == if |prescriptions| < 3 then |prescriptions| else 3
    ensures r.appointments == upcoming[..|r.appointments|]
    ensures r.prescriptions == prescriptions[..|r.prescriptions|]
    ensures r.noRecentActivity <==> upcoming == [] && prescriptions == []
    ensures r.noRecentActivity <==> r.appointments == [] && r.prescriptions == []
  {
    Activity(Take(upcoming, 3), Take(prescriptions, 3), |upcoming| == 0 && |prescriptions| == 0)
  }

  /** The three replies the page waits for together. */
  datatype HomeReply = HomeReply(profile: Fields, appointments: seq<Appointment>, prescriptions: Option<seq<PrescriptionSummary>>)

  class PatientHomePage {
    var patientInfo: Fields
    var upcomingAppointments: seq<Appointment>
    var recentPrescriptions: seq<PrescriptionSummary>
    var error: string

    constructor ()
      ensures upcomingAppointments == [] && recentPrescriptions == [] && error == ""
      ensures patientInfo == map["firstName" := "", "lastName" := "", "email" := ""]
    {
      patientInfo := map["firstName" := "", "lastName" := "", "email" := ""];
      upcomingAppointments, recentPrescriptions, error := [], [], "";
    }

    function Shown(): Activity
      reads this
    {
      RecentActivity(upcomingAppointments, recentPrescriptions)
    }

    /** `fetchData`, given the combined outcome of the three requests and the current
        day; returns the route navigated to. */
    method FetchData(store: LocalStorage, now: int, outcome: Outcome<HomeReply>) returns (nav: Option<string>)
      modifies this
      ensures store.Read("token") == "" ==>
                nav == Some("/login") && upcomingAppointments == old(upcomingAppointments) &&
                recentPrescriptions == old(recentPrescriptions) && error == old(error) &&
                patientInfo == old(patientInfo)
      ensures store.Read("token") != "" && outcome.Ok? ==>
                nav.None? && error == "" && patientInfo == outcome.data.profile &&
                upcomingAppointments == Upcoming(outcome.data.appointments, now) &&
                recentPrescriptions == (if outcome.data.prescriptions.Some? then outcome.data.prescriptions.value else [])
      ensures store.Read("token") != "" && outcome.Fail? ==>
                error == ServerText(outcome.err, FetchFailedText) &&
                (nav.Some? <==> HasStatus(outcome.err, 401)) && (nav.Some? ==> nav.value == "/login") &&
                upcomingAppointments == old(upcomingAppointments) &&
                recentPrescriptions == old(recentPrescriptions) && patientInfo == old(patientInfo)
    {
      nav := None;
      if store.Read("token") == "" {
        nav := Some("/login");
        return;
      }
      match outcome {
        case Ok(reply) =>
          patientInfo := reply.profile;
          upcomingAppointments := Upcoming(reply.appointments, now);
          recentPrescriptions := if reply.prescriptions.Some? then reply.prescriptions.value else [];
          error := "";
        case Fail(e) =>
          error := ServerText(e, FetchFailedText);
          if HasStatus(e, 401) {
            nav := Some("/login");
          }
      }
    }
  }
}
