/** The state of one nurse and the ways an operation may change it. */
module Store {
  import opened History
  import opened Records

  /** One `ElderlyVirtualNurse`: its store, its session history and its
      in-memory notes (app.py's nurse has no notes list; there it stays empty). */
  datatype Nurse = Nurse(data: UserData, history: seq<Turn>, notes: seq<Note>)

  /** The nurse after an operation and the text the operation returns. */
  datatype Step = Step(nurse: Nurse, message: string)

  /** `after` is `before` with `m` appended to the medications and nothing else changed. */
  predicate MedicationAppended(before: Nurse, after: Nurse, m: Medication)
  {
    && after.data.medications == before.data.medications + [m]
    && after.data.appointments == before.data.appointments
    && after.data.vitalSigns == before.data.vitalSigns
    && after.data.generalHealthNotes == before.data.generalHealthNotes
    && after.history == before.history
    && after.notes == before.notes
  }

  /** `after` is `before` with `a` appended to the appointments and nothing else changed. */
  predicate AppointmentAppended(before: Nurse, after: Nurse, a: Appointment)
  {
    && after.data.medications == before.data.medications
    && after.data.appointments == before.data.appointments + [a]
    && after.data.vitalSigns == before.data.vitalSigns
    && after.data.generalHealthNotes == before.data.generalHealthNotes
    && after.history == before.history
    && after.notes == before.notes
  }

  /** `after` is `before` with `v` appended to the vital signs and nothing else changed. */
  predicate VitalSignAppended(before: Nurse, after: Nurse, v: VitalSign)
  {
    && after.data.medications == before.data.medications
    && after.data.appointments == before.data.appointments
    && after.data.vitalSigns == before.data.vitalSigns + [v]
    && after.data.generalHealthNotes == before.data.generalHealthNotes
    && after.history == before.history
    && after.notes == before.notes
  }

  /** `after` is `before` with `note` appended to the in-memory notes; the
      store and the history are untouched. */
  predicate NoteAppended(before: Nurse, after: Nurse, note: Note)
  {
    && after.data == before.data
    && after.history == before.history
    && after.notes == before.notes + [note]
  }

  function WithMedication(n: Nurse, m: Medication): (r: Nurse)
    ensures MedicationAppended(n, r, m)
  {
    n.(data := n.data.(medications := n.data.medications + [m]))
  }

  function WithAppointment(n: Nurse, a: Appointment): (r: Nurse)
    ensures AppointmentAppended(n, r, a)
  {
    n.(data := n.data.(appointments := n.data.appointments + [a]))
  }

  function WithVitalSign(n: Nurse, v: VitalSign): (r: Nurse)
    ensures VitalSignAppended(n, r, v)
  {
    n.(data := n.data.(vitalSigns := n.data.vitalSigns + [v]))
  }

  function WithNote(n: Nurse, note: Note): (r: Nurse)
    ensures NoteAppended(n, r, note)
  {
    n.(notes := n.notes + [note])
  }
}
