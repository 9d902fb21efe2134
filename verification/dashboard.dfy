/** The counting and recent-activity selection of Eldercare.py's
    `dashboard_data` route, without the HTTP wrapper. */
module Dashboard {
  import opened Base
  import opened Records
  import opened Store
  import opened Sorting
  import Eldercare

  const PerCategory: nat := 5
  const Shown: nat := 5

  datatype ActivityKind = MedicationActivity | AppointmentActivity | VitalSignActivity

  datatype Activity = Activity(kind: ActivityKind, description: string, timestamp: string)

  datatype Summary = Summary(medicationCount: nat, appointmentCount: nat, vitalCount: nat,
                             noteCount: nat, recentActivities: seq<Activity>)

  /** `len([x for x in listing if isinstance(x, dict)])`: every record is a
      dictionary and no character of a sentinel text is. */
  function Count<T>(l: Listing<T>): nat
  {
    |ItemsOf(l)|
  }

  function OfMedication(m: Medication): Activity
  {
    Activity(MedicationActivity, "Added " + m.name + " - " + m.dosage, m.dateAdded)
  }

  function OfAppointment(a: Appointment): Activity
  {
    Activity(AppointmentActivity, "Scheduled with " + a.doctor + " on " + a.date, a.date)
  }

  function OfVitalSign(v: VitalSign): Activity
  {
    Activity(VitalSignActivity, "Recorded " + v.kind + ": " + v.value, v.timestamp)
  }

  function MedicationActivities(ms: seq<Medication>): (r: seq<Activity>)
    ensures |r| == |ms| && forall i :: 0 <= i < |ms| ==> r[i] == OfMedication(ms[i])
  {
    seq(|ms|, i requires 0 <= i < |ms| => OfMedication(ms[i]))
  }

  function AppointmentActivities(appts: seq<Appointment>): (r: seq<Activity>)
    ensures |r| == |appts| && forall i :: 0 <= i < |appts| ==> r[i] == OfAppointment(appts[i])
  {
    seq(|appts|, i requires 0 <= i < |appts| => OfAppointment(appts[i]))
  }

  function VitalSignActivities(vs: seq<VitalSign>): (r: seq<Activity>)
    ensures |r| == |vs| && forall i :: 0 <= i < |vs| ==> r[i] == OfVitalSign(vs[i])
  {
    seq(|vs|, i requires 0 <= i < |vs| => OfVitalSign(vs[i]))
  }

  function TimestampOf(a: Activity): string
  {
    a.timestamp
  }

  /** The activities considered: the last five of each category as its getter
      returns it (a sentinel contributes none), medications first, then
      appointments, then vital signs. */
  function Candidates(n: Nurse): seq<Activity>
  {
    MedicationActivities(Last(ItemsOf(Eldercare.GetMedications(n)), PerCategory))
    + AppointmentActivities(Last(ItemsOf(Eldercare.GetAppointments(n)), PerCategory))
    + VitalSignActivities(Last(ItemsOf(Eldercare.GetVitalSigns(n)), PerCategory))
  }

  /** `a` describes one of the five newest records of its own section. */
  predicate IsRecentEntry(d: UserData, a: Activity)
  {
    || (exists m :: m in Last(d.medications, PerCategory) && a == OfMedication(m))
    || (exists ap :: ap in Last(d.appointments, PerCategory) && a == OfAppointment(ap))
    || (exists v :: v in Last(d.vitalSigns, PerCategory) && a == OfVitalSign(v))
  }

  lemma FromMedications(ms: seq<Medication>, a: Activity)
    requires a in MedicationActivities(ms)
    ensures exists m :: m in ms && a == OfMedication(m)
  {
    var i :| 0 <= i < |ms| && MedicationActivities(ms)[i] == a;
    assert ms[i] in ms;
  }

  lemma FromAppointments(appts: seq<Appointment>, a: Activity)
    requires a in AppointmentActivities(appts)
    ensures exists ap :: ap in appts && a == OfAppointment(ap)
  {
    var i :| 0 <= i < |appts| && AppointmentActivities(appts)[i] == a;
    assert appts[i] in appts;
  }

  lemma FromVitalSigns(vs: seq<VitalSign>, a: Activity)
    requires a in VitalSignActivities(vs)
    ensures exists v :: v in vs && a == OfVitalSign(v)
  {
    var i :| 0 <= i < |vs| && VitalSignActivities(vs)[i] == a;
    assert vs[i] in vs;
  }

  lemma CandidatesAreRecent(n: Nurse)
    ensures forall a :: a in Candidates(n) ==> IsRecentEntry(n.data, a)
  {
    var cm := MedicationActivities(Last(n.data.medications, PerCategory));
    var ca := AppointmentActivities(Last(n.data.appointments, PerCategory));
    var cv := VitalSignActivities(Last(n.data.vitalSigns, PerCategory));
    assert Candidates(n) == cm + ca + cv;
    forall a | a in Candidates(n)
      ensures IsRecentEntry(n.data, a)
    {
      assert a in cm || a in ca || a in cv;
      if a in cm {
        FromMedications(Last(n.data.medications, PerCategory), a);
      } else if a in ca {
        FromAppointments(Last(n.data.appointments, PerCategory), a);
      } else {
        FromVitalSigns(Last(n.data.vitalSigns, PerCategory), a);
      }
    }
  }

  /** The newest `Shown` candidates: `sort(key=timestamp, reverse=True)`
      followed by `[:5]`. */
  function Recent(n: Nurse): (r: seq<Activity>)
    ensures forall a :: a in r ==> IsRecentEntry(n.data, a)
    ensures forall t :: WithKey(r, TimestampOf, t) <= WithKey(Candidates(n), TimestampOf, t)
  {
    CandidatesAreRecent(n);
    TopDesc(Candidates(n), TimestampOf, Shown)
  }

  /** `dashboard_data`: each count is the size of its section (the sentinel
      returned for no appointments counts as zero), and the recent activities
      are the min(5, candidates) newest candidates by timestamp text, newest
      first. Every one describes one of the five newest records of its
      section, so notes never appear, and no candidate left out is newer than
      one kept. */
  function DashboardData(n: Nurse): (r: Summary)
    ensures r.medicationCount == |n.data.medications|
    ensures r.appointmentCount == |n.data.appointments|
    ensures r.vitalCount == |n.data.vitalSigns|
    ensures r.noteCount == |n.notes|
    ensures |r.recentActivities| == Min(Shown, |Candidates(n)|)
    ensures SortedDesc(r.recentActivities, TimestampOf)
    ensures multiset(r.recentActivities) <= multiset(Candidates(n))
    ensures forall a :: a in r.recentActivities ==> IsRecentEntry(n.data, a)
    ensures forall x, y :: x in multiset(Candidates(n)) - multiset(r.recentActivities) && y in r.recentActivities ==>
      LexLe(x.timestamp, y.timestamp)
    ensures forall t :: WithKey(r.recentActivities, TimestampOf, t) <= WithKey(Candidates(n), TimestampOf, t)
  {
    Summary(Count(Eldercare.GetMedications(n)), Count(Eldercare.GetAppointments(n)),
            Count(Eldercare.GetVitalSigns(n)), |n.notes|, Recent(n))
  }
}
