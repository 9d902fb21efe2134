/** The nurse of Eldercare.py: medication and vital-sign adds refuse empty
    required fields, only appointments and notes answer an empty section with a
    sentinel text, and free-form notes live in memory beside the store. */
module Eldercare {
  import opened Base
  import opened Calendar
  import opened History
  import opened Records
  import opened Store
  import opened Chat

  const MissingMedicationFields := "Error: Name, dosage, and schedule are required"
  const BadDateFormat := "Please use YYYY-MM-DD format for the date."
  const MissingVitalFields := "Error: Type and value are required"
  const NoteAdded := "Note added successfully"
  const NoAppointments := "No appointments currently scheduled."
  const NoNotes := "No health notes recorded yet."

  /** `__init__`: the loaded store with its sections filled in, an empty
      history and no notes. */
  function Init(file: Option<StoredFile>): (n: Nurse)
    ensures n.data == Load(file)
    ensures n.history == [] && n.notes == []
    ensures file.None? ==> Consistent(n)
  {
    Nurse(Load(file), [], [])
  }

  /** `_add_to_history`: the history becomes the most recent `MaxTurns` turns
      of the old history followed by the new one; nothing else changes. */
  function AddToHistory(n: Nurse, role: Role, content: string): (r: Nurse)
    ensures |r.history| == Min(|n.history| + 1, MaxTurns)
    ensures r.history == (n.history + [Turn(role, content)])[|n.history| + 1 - |r.history|..]
    ensures r.history[|r.history| - 1] == Turn(role, content)
    ensures r.data == n.data && r.notes == n.notes
  {
    n.(history := AddTurn(n.history, Turn(role, content)))
  }

  /** `add_medication`: refused, with nothing changed, when the name, the
      dosage or the schedule is empty; otherwise exactly one record carrying
      the given fields is appended to the medications and nothing else changes.
      `id` and `today` stand for the uuid prefix and the current date. */
  function AddMedication(n: Nurse, name: string, dosage: string, schedule: string, notes: string,
                         id: string, today: string): (r: Step)
    ensures name == "" || dosage == "" || schedule == "" ==>
      r.nurse == n && r.message == MissingMedicationFields
    ensures name != "" && dosage != "" && schedule != "" ==>
      && MedicationAppended(n, r.nurse, Medication(id, name, dosage, schedule, notes, today))
      && r.message == "Successfully added medication: " + name
  {
    if name == "" || dosage == "" || schedule == "" then Step(n, MissingMedicationFields)
    else
      Step(WithMedication(n, Medication(id, name, dosage, schedule, notes, today)),
           "Successfully added medication: " + name)
  }

  /** `add_appointment`: a date that is not a real `YYYY-MM-DD` calendar date
      is refused with the format message and nothing changes; otherwise one
      record whose date is the given text is appended and nothing else changes. */
  function AddAppointment(n: Nurse, doctor: string, date: string, time: string, location: string,
                          notes: string, id: string): (r: Step)
    ensures ParseDate(date).None? ==> r.nurse == n && r.message == BadDateFormat
    ensures ParseDate(date).Some? ==>
      && AppointmentAppended(n, r.nurse, Appointment(id, doctor, date, time, location, notes))
      && r.message == "Appointment scheduled with " + doctor + " on " + date + " at " + time + ", " + location
  {
    if ParseDate(date).None? then Step(n, BadDateFormat)
    else
      Step(WithAppointment(n, Appointment(id, doctor, date, time, location, notes)),
           "Appointment scheduled with " + doctor + " on " + date + " at " + time + ", " + location)
  }

  /** `add_vital_sign`: refused, with nothing changed, when the type or the
      value is empty; otherwise exactly one reading is appended to the vital
      signs and nothing else changes. `now` stands for the current time. */
  function AddVitalSign(n: Nurse, kind: string, value: string, notes: string, id: string,
                        now: string): (r: Step)
    ensures kind == "" || value == "" ==> r.nurse == n && r.message == MissingVitalFields
    ensures kind != "" && value != "" ==>
      && VitalSignAppended(n, r.nurse, VitalSign(id, kind, value, now, notes))
      && r.message == "Successfully recorded " + kind + ": " + value
  {
    if kind == "" || value == "" then Step(n, MissingVitalFields)
    else
      Step(WithVitalSign(n, VitalSign(id, kind, value, now, notes)),
           "Successfully recorded " + kind + ": " + value)
  }

  /** `add_note`: always appends one note to the in-memory notes and never
      touches the store. */
  function AddNote(n: Nurse, title: string, content: string, id: string, now: string): (r: Step)
    ensures NoteAppended(n, r.nurse, Note(id, title, content, now))
    ensures r.message == NoteAdded
  {
    Step(WithNote(n, Note(id, title, content, now)), NoteAdded)
  }

  /** `get_medications`: always the section itself, even when empty. */
  function GetMedications(n: Nurse): (r: Listing<Medication>)
    ensures r.Items? && r.items == n.data.medications
  {
    Items(n.data.medications)
  }

  /** `get_appointments`: the sentinel text exactly when there are no
      appointments, otherwise the section itself. */
  function GetAppointments(n: Nurse): (r: Listing<Appointment>)
    ensures r.Sentinel? <==> n.data.appointments == []
    ensures r.Sentinel? ==> r.text == NoAppointments
    ensures r.Items? ==> r.items == n.data.appointments
  {
    Listed(n.data.appointments, NoAppointments)
  }

  /** `get_vital_signs`: always the section itself, even when empty. */
  function GetVitalSigns(n: Nurse): (r: Listing<VitalSign>)
    ensures r.Items? && r.items == n.data.vitalSigns
  {
    Items(n.data.vitalSigns)
  }

  /** `get_notes`: the sentinel text exactly when there are no notes,
      otherwise the notes themselves. */
  function GetNotes(n: Nurse): (r: Listing<Note>)
    ensures r.Sentinel? <==> n.notes == []
    ensures r.Sentinel? ==> r.text == NoNotes
    ensures r.Items? ==> r.items == n.notes
  {
    Listed(n.notes, NoNotes)
  }

  /** The context dictionary of a chat turn. */
  function ChatContext(n: Nurse): Context
  {
    Context(GetMedications(n), GetAppointments(n), GetVitalSigns(n))
  }

  /** `process_user_input`. An exit word returns the farewell without calling
      the model or changing anything. Any other input records the user turn
      and sends the context and the text of the retained turns, the input
      last; a non-empty reply is recorded as an assistant turn and returned as
      it is, while an empty reply or an exception gives a fallback text and
      leaves the user turn unanswered. The store and the notes never change. */
  function ProcessUserInput(n: Nurse, input: string, outcome: ModelOutcome): (r: ChatStep)
    ensures r.nurse.data == n.data && r.nurse.notes == n.notes
    ensures IsExitWord(input) ==> r.nurse == n && r.reply == Farewell && r.request.None?
    ensures !IsExitWord(input) ==>
      && r.request.Some?
      && r.request.value.context == Context(Items(n.data.medications), Listed(n.data.appointments, NoAppointments), Items(n.data.vitalSigns))
      && r.request.value.turns == Contents(AddTurn(n.history, Turn(User, input)))
      && r.request.value.turns[|r.request.value.turns| - 1] == input
    ensures !IsExitWord(input) && Answered(outcome) ==>
      && r.reply == outcome.text
      && r.nurse.history == AddTurn(AddTurn(n.history, Turn(User, input)), Turn(Assistant, outcome.text))
      && |r.nurse.history| >= 2
      && r.nurse.history[|r.nurse.history| - 2..] == [Turn(User, input), Turn(Assistant, outcome.text)]
    ensures !IsExitWord(input) && !Answered(outcome) ==>
      && r.reply == FallbackReply(outcome)
      && r.nurse.history == AddTurn(n.history, Turn(User, input))
      && r.nurse.history[|r.nurse.history| - 1] == Turn(User, input)
  {
    Respond(n, ChatContext(n), input, outcome)
  }

  /** The operations that change a nurse. */
  datatype Op =
    | AddMedicationOp(name: string, dosage: string, schedule: string, notes: string, id: string, today: string)
    | AddAppointmentOp(doctor: string, date: string, time: string, location: string, notes: string, id: string)
    | AddVitalSignOp(kind: string, value: string, notes: string, id: string, now: string)
    | AddNoteOp(title: string, content: string, id: string, now: string)
    | ChatOp(input: string, outcome: ModelOutcome)

  function Apply(n: Nurse, op: Op): Nurse
  {
    match op
    case AddMedicationOp(name, dosage, schedule, notes, id, today) =>
      AddMedication(n, name, dosage, schedule, notes, id, today).nurse
    case AddAppointmentOp(doctor, date, time, location, notes, id) =>
      AddAppointment(n, doctor, date, time, location, notes, id).nurse
    case AddVitalSignOp(kind, value, notes, id, now) =>
      AddVitalSign(n, kind, value, notes, id, now).nurse
    case AddNoteOp(title, content, id, now) =>
      AddNote(n, title, content, id, now).nurse
    case ChatOp(input, outcome) =>
      ProcessUserInput(n, input, outcome).nurse
  }

  function Run(n: Nurse, ops: seq<Op>): Nurse
    decreases |ops|
  {
    if ops == [] then n else Run(Apply(n, ops[0]), ops[1..])
  }

  /** What a nurse started on a fresh store keeps true: a bounded history,
      medications and vital signs with their required fields, and appointments
      on real calendar dates. */
  predicate Consistent(n: Nurse)
  {
    && |n.history| <= MaxTurns
    && (forall m :: m in n.data.medications ==> m.name != "" && m.dosage != "" && m.schedule != "")
    && (forall a :: a in n.data.appointments ==> ParseDate(a.date).Some?)
    && (forall v :: v in n.data.vitalSigns ==> v.kind != "" && v.value != "")
  }

  lemma {:induction false} RunKeepsConsistent(n: Nurse, ops: seq<Op>)
    requires Consistent(n)
    ensures Consistent(Run(n, ops))
    decreases |ops|
  {
    if ops != [] {
      ApplyKeepsConsistent(n, ops[0]);
      RunKeepsConsistent(Apply(n, ops[0]), ops[1..]);
    }
  }

  lemma ApplyKeepsConsistent(n: Nurse, op: Op)
    requires Consistent(n)
    ensures Consistent(Apply(n, op))
  {
    var r := Apply(n, op);
    match op
    case AddMedicationOp(name, dosage, schedule, notes, id, today) =>
      assert forall m :: m in r.data.medications ==> m in n.data.medications || m == Medication(id, name, dosage, schedule, notes, today);
    case AddAppointmentOp(doctor, date, time, location, notes, id) =>
      assert forall a :: a in r.data.appointments ==> a in n.data.appointments || a == Appointment(id, doctor, date, time, location, notes);
    case AddVitalSignOp(kind, value, notes, id, now) =>
      assert forall v :: v in r.data.vitalSigns ==> v in n.data.vitalSigns || v == VitalSign(id, kind, value, now, notes);
    case AddNoteOp(title, content, id, now) =>
    case ChatOp(input, outcome) =>
  }

  /** The record an operation adds to each section: none, or the one it was
      asked to add when that add is accepted. */
  function MedicationAdded(op: Op): seq<Medication>
  {
    match op
    case AddMedicationOp(name, dosage, schedule, notes, id, today) =>
      if name != "" && dosage != "" && schedule != "" then [Medication(id, name, dosage, schedule, notes, today)] else []
    case _ => []
  }

  function AppointmentAdded(op: Op): seq<Appointment>
  {
    match op
    case AddAppointmentOp(doctor, date, time, location, notes, id) =>
      if ParseDate(date).Some? then [Appointment(id, doctor, date, time, location, notes)] else []
    case _ => []
  }

  function VitalSignAdded(op: Op): seq<VitalSign>
  {
    match op
    case AddVitalSignOp(kind, value, notes, id, now) =>
      if kind != "" && value != "" then [VitalSign(id, kind, value, now, notes)] else []
    case _ => []
  }

  function NoteAddedBy(op: Op): seq<Note>
  {
    match op
    case AddNoteOp(title, content, id, now) => [Note(id, title, content, now)]
    case _ => []
  }

  /** The records a sequence of operations adds to each section, in order. */
  function MedicationsAdded(ops: seq<Op>): seq<Medication>
  {
    if ops == [] then [] else MedicationAdded(ops[0]) + MedicationsAdded(ops[1..])
  }

  function AppointmentsAdded(ops: seq<Op>): seq<Appointment>
  {
    if ops == [] then [] else AppointmentAdded(ops[0]) + AppointmentsAdded(ops[1..])
  }

  function VitalSignsAdded(ops: seq<Op>): seq<VitalSign>
  {
    if ops == [] then [] else VitalSignAdded(ops[0]) + VitalSignsAdded(ops[1..])
  }

  function NotesAdded(ops: seq<Op>): seq<Note>
  {
    if ops == [] then [] else NoteAddedBy(ops[0]) + NotesAdded(ops[1..])
  }

  lemma ApplyAppendsAcceptedRecord(n: Nurse, op: Op)
    ensures Apply(n, op).data.medications == n.data.medications + MedicationAdded(op)
    ensures Apply(n, op).data.appointments == n.data.appointments + AppointmentAdded(op)
    ensures Apply(n, op).data.vitalSigns == n.data.vitalSigns + VitalSignAdded(op)
    ensures Apply(n, op).data.generalHealthNotes == n.data.generalHealthNotes
    ensures Apply(n, op).notes == n.notes + NoteAddedBy(op)
  {
  }

  /** After any sequence of operations each section holds its old records
      followed by exactly the accepted adds of its own kind, in order; the
      general health notes never change. */
  lemma {:induction false} RunAppendsAcceptedRecords(n: Nurse, ops: seq<Op>)
    ensures Run(n, ops).data.medications == n.data.medications + MedicationsAdded(ops)
    ensures Run(n, ops).data.appointments == n.data.appointments + AppointmentsAdded(ops)
    ensures Run(n, ops).data.vitalSigns == n.data.vitalSigns + VitalSignsAdded(ops)
    ensures Run(n, ops).data.generalHealthNotes == n.data.generalHealthNotes
    ensures Run(n, ops).notes == n.notes + NotesAdded(ops)
    decreases |ops|
  {
    if ops == [] {
      assert n.data.medications + [] == n.data.medications;
      assert n.data.appointments + [] == n.data.appointments;
      assert n.data.vitalSigns + [] == n.data.vitalSigns;
      assert n.notes + [] == n.notes;
    } else {
      var op := ops[0];
      var n1 := Apply(n, op);
      ApplyAppendsAcceptedRecord(n, op);
      RunAppendsAcceptedRecords(n1, ops[1..]);
      assert Run(n, ops) == Run(n1, ops[1..]);
      AppendAssoc(n.data.medications, MedicationAdded(op), MedicationsAdded(ops[1..]));
      AppendAssoc(n.data.appointments, AppointmentAdded(op), AppointmentsAdded(ops[1..]));
      AppendAssoc(n.data.vitalSigns, VitalSignAdded(op), VitalSignsAdded(ops[1..]));
      AppendAssoc(n.notes, NoteAddedBy(op), NotesAdded(ops[1..]));
    }
  }
}
