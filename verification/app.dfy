/** The nurse of app.py: no medication or vital-sign field is checked, every
    getter answers an empty section with a sentinel text, and there is no
    notes list. */
module App {
  import opened Base
  import opened Calendar
  import opened History
  import opened Records
  import opened Store
  import opened Chat

  const BadDateFormat := "Please use YYYY-MM-DD format for the date."
  const NoMedications := "No medications currently tracked."
  const NoAppointments := "No appointments currently scheduled."
  const NoVitalSigns := "No vital signs recorded yet."

  /** `__init__`: all four sections exist afterwards; sections found in the
      file are kept as they are, missing ones start empty, and a file that is
      missing or not valid JSON gives the all-empty store. The history starts
      empty. */
  function Init(file: Option<StoredFile>): (n: Nurse)
    ensures file.None? ==> n.data == NoData
    ensures file.Some? ==> n.data == UserData(OrEmpty(file.value.medications), OrEmpty(file.value.appointments),
                                              OrEmpty(file.value.vitalSigns), OrEmpty(file.value.generalHealthNotes))
    ensures n.history == [] && n.notes == []
    ensures file.None? ==> Consistent(n)
  {
    Nurse(Load(file), [], [])
  }

  /** `_add_to_history`: the history becomes the most recent `MaxTurns` turns
      of the old history followed by the new one; nothing else changes. */
  function AddToHistory(n: Nurse, role: Role, content: string): (r: Nurse)
    ensures |r.history| == Min(|n.history| + 1, MaxTurns)
    ensures r.history == (n.history + [Turn(role, content)])[|n.history| + 1 - |r.history|..]
    ensures r.history[|r.history| - 1] == Turn(role, content)
    ensures r.data == n.data && r.notes == n.notes
  {
    n.(history := AddTurn(n.history, Turn(role, content)))
  }

  /** `add_medication`: no field is checked; exactly one record carrying the
      given fields, empty or not, is appended and nothing else changes. */
  function AddMedication(n: Nurse, name: string, dosage: string, schedule: string, notes: string,
                         id: string, today: string): (r: Step)
    ensures MedicationAppended(n, r.nurse, Medication(id, name, dosage, schedule, notes, today))
    ensures r.message == "Added medication: " + name + ", " + dosage + ", " + schedule
  {
    Step(WithMedication(n, Medication(id, name, dosage, schedule, notes, today)),
         "Added medication: " + name + ", " + dosage + ", " + schedule)
  }

  /** `add_appointment`: a date that is not a real `YYYY-MM-DD` calendar date
      is refused with the format message and nothing changes; otherwise one
      record whose date is the given text is appended and nothing else changes. */
  function AddAppointment(n: Nurse, doctor: string, date: string, time: string, location: string,
                          notes: string, id: string): (r: Step)
    ensures ParseDate(date).None? ==> r.nurse == n && r.message == BadDateFormat
    ensures ParseDate(date).Some? ==>
      && AppointmentAppended(n, r.nurse, Appointment(id, doctor, date, time, location, notes))
      && r.message == "Appointment scheduled with " + doctor + " on " + date + " at " + time + ", " + location
  {
    if ParseDate(date).None? then Step(n, BadDateFormat)
    else
      Step(WithAppointment(n, Appointment(id, doctor, date, time, location, notes)),
           "Appointment scheduled with " + doctor + " on " + date + " at " + time + ", " + location)
  }

  /** `add_vital_sign`: no field is checked; exactly one reading is appended to
      the vital signs and nothing else changes. */
  function AddVitalSign(n: Nurse, kind: string, value: string, notes: string, id: string,
                        now: string): (r: Step)
    ensures VitalSignAppended(n, r.nurse, VitalSign(id, kind, value, now, notes))
    ensures r.message == "Recorded " + kind + ": " + value
  {
    Step(WithVitalSign(n, VitalSign(id, kind, value, now, notes)), "Recorded " + kind + ": " + value)
  }

  /** `get_medications`: the sentinel text exactly when there are no
      medications, otherwise the section itself. */
  function GetMedications(n: Nurse): (r: Listing<Medication>)
    ensures r.Sentinel? <==> n.data.medications == []
    ensures r.Sentinel? ==> r.text == NoMedications
    ensures r.Items? ==> r.items == n.data.medications
  {
    Listed(n.data.medications, NoMedications)
  }

  /** `get_appointments`: the sentinel text exactly when there are no
      appointments, otherwise the section itself. */
  function GetAppointments(n: Nurse): (r: Listing<Appointment>)
    ensures r.Sentinel? <==> n.data.appointments == []
    ensures r.Sentinel? ==> r.text == NoAppointments
    ensures r.Items? ==> r.items == n.data.appointments
  {
    Listed(n.data.appointments, NoAppointments)
  }

  /** `get_vital_signs`: the sentinel text exactly when there are no vital
      signs, otherwise the section itself. */
  function GetVitalSigns(n: Nurse): (r: Listing<VitalSign>)
    ensures r.Sentinel? <==> n.data.vitalSigns == []
    ensures r.Sentinel? ==> r.text == NoVitalSigns
    ensures r.Items? ==> r.items == n.data.vitalSigns
  {
    Listed(n.data.vitalSigns, NoVitalSigns)
  }

  /** The context dictionary of a chat turn. */
  function ChatContext(n: Nurse): Context
  {
    Context(GetMedications(n), GetAppointments(n), GetVitalSigns(n))
  }

  /** The context of one turn can mix the two shapes: with medications on
      record but no appointments or vital signs, the model sees the list
      beside two sentinel texts. */
  lemma ContextMixesShapes(n: Nurse)
    requires n.data.medications != [] && n.data.appointments == [] && n.data.vitalSigns == []
    ensures ChatContext(n) == Context(Items(n.data.medications), Sentinel(NoAppointments), Sentinel(NoVitalSigns))
  {
  }

  /** `process_user_input`. An exit word returns the farewell without calling
      the model or changing anything. Any other input records the user turn
      and sends the context and the text of the retained turns, the input
      last; a non-empty reply is recorded as an assistant turn and returned as
      it is, while an empty reply or an exception gives a fallback text and
      leaves the user turn unanswered. The store never changes. */
  function ProcessUserInput(n: Nurse, input: string, outcome: ModelOutcome): (r: ChatStep)
    ensures r.nurse.data == n.data && r.nurse.notes == n.notes
    ensures IsExitWord(input) ==> r.nurse == n && r.reply == Farewell && r.request.None?
    ensures !IsExitWord(input) ==>
      && r.request.Some?
      && r.request.value.context == Context(Listed(n.data.medications, NoMedications), Listed(n.data.appointments, NoAppointments),
                                 Listed(n.data.vitalSigns, NoVitalSigns))
      && r.request.value.turns == Contents(AddTurn(n.history, Turn(User, input)))
      && r.request.value.turns[|r.request.value.turns| - 1] == input
    ensures !IsExitWord(input) && Answered(outcome) ==>
      && r.reply == outcome.text
      && r.nurse.history == AddTurn(AddTurn(n.history, Turn(User, input)), Turn(Assistant, outcome.text))
      && |r.nurse.history| >= 2
      && r.nurse.history[|r.nurse.history| - 2..] == [Turn(User, input), Turn(Assistant, outcome.text)]
    ensures !IsExitWord(input) && !Answered(outcome) ==>
      && r.reply == FallbackReply(outcome)
      && r.nurse.history == AddTurn(n.history, Turn(User, input))
      && r.nurse.history[|r.nurse.history| - 1] == Turn(User, input)
  {
    Respond(n, ChatContext(n), input, outcome)
  }

  /** The operations that change a nurse. */
  datatype Op =
    | AddMedicationOp(name: string, dosage: string, schedule: string, notes: string, id: string, today: string)
    | AddAppointmentOp(doctor: string, date: string, time: string, location: string, notes: string, id: string)
    | AddVitalSignOp(kind: string, value: string, notes: string, id: string, now: string)
    | ChatOp(input: string, outcome: ModelOutcome)

  function Apply(n: Nurse, op: Op): Nurse
  {
    match op
    case AddMedicationOp(name, dosage, schedule, notes, id, today) =>
      AddMedication(n, name, dosage, schedule, notes, id, today).nurse
    case AddAppointmentOp(doctor, date, time, location, notes, id) =>
      AddAppointment(n, doctor, date, time, location, notes, id).nurse
    case AddVitalSignOp(kind, value, notes, id, now) =>
      AddVitalSign(n, kind, value, notes, id, now).nurse
    case ChatOp(input, outcome) =>
      ProcessUserInput(n, input, outcome).nurse
  }

  function Run(n: Nurse, ops: seq<Op>): Nurse
    decreases |ops|
  {
    if ops == [] then n else Run(Apply(n, ops[0]), ops[1..])
  }

  /** What an app.py nurse started on a fresh store keeps true: a bounded
      history, appointments on real calendar dates, and no notes. */
  predicate Consistent(n: Nurse)
  {
    && |n.history| <= MaxTurns
    && (forall a :: a in n.data.appointments ==> ParseDate(a.date).Some?)
    && n.notes == []
  }

  lemma ApplyKeepsConsistent(n: Nurse, op: Op)
    requires Consistent(n)
    ensures Consistent(Apply(n, op))
  {
    var r := Apply(n, op);
    match op
    case AddAppointmentOp(doctor, date, time, location, notes, id) =>
      assert forall a :: a in r.data.appointments ==> a in n.data.appointments || a == Appointment(id, doctor, date, time, location, notes);
    case _ =>
  }

  lemma {:induction false} RunKeepsConsistent(n: Nurse, ops: seq<Op>)
    requires Consistent(n)
    ensures Consistent(Run(n, ops))
    decreases |ops|
  {
    if ops != [] {
      ApplyKeepsConsistent(n, ops[0]);
      RunKeepsConsistent(Apply(n, ops[0]), ops[1..]);
    }
  }

  /** The record an operation adds to each section. app.py accepts every
      medication and vital sign as given, and an appointment whose date is a
      real calendar date. */
  function MedicationAdded(op: Op): seq<Medication>
  {
    match op
    case AddMedicationOp(name, dosage, schedule, notes, id, today) => [Medication(id, name, dosage, schedule, notes, today)]
    case _ => []
  }

  function AppointmentAdded(op: Op): seq<Appointment>
  {
    match op
    case AddAppointmentOp(doctor, date, time, location, notes, id) =>
      if ParseDate(date).Some? then [Appointment(id, doctor, date, time, location, notes)] else []
    case _ => []
  }

  function VitalSignAdded(op: Op): seq<VitalSign>
  {
    match op
    case AddVitalSignOp(kind, value, notes, id, now) => [VitalSign(id, kind, value, now, notes)]
    case _ => []
  }

  /** The records a sequence of operations adds to each section, in order. */
  function MedicationsAdded(ops: seq<Op>): seq<Medication>
  {
    if ops == [] then [] else MedicationAdded(ops[0]) + MedicationsAdded(ops[1..])
  }

  function AppointmentsAdded(ops: seq<Op>): seq<Appointment>
  {
    if ops == [] then [] else AppointmentAdded(ops[0]) + AppointmentsAdded(ops[1..])
  }

  function VitalSignsAdded(ops: seq<Op>): seq<VitalSign>
  {
    if ops == [] then [] else VitalSignAdded(ops[0]) + VitalSignsAdded(ops[1..])
  }

  lemma ApplyAppendsEveryRecord(n: Nurse, op: Op)
    ensures Apply(n, op).data.medications == n.data.medications + MedicationAdded(op)
    ensures Apply(n, op).data.appointments == n.data.appointments + AppointmentAdded(op)
    ensures Apply(n, op).data.vitalSigns == n.data.vitalSigns + VitalSignAdded(op)
    ensures Apply(n, op).data.generalHealthNotes == n.data.generalHealthNotes
    ensures Apply(n, op).notes == n.notes
  {
  }

  /** After any sequence of operations each section holds its old records
      followed by every medication and vital sign asked for and every
      appointment on a real date, in order; the general health notes and the
      notes list never change. */
  lemma {:induction false} RunAddsEveryRecord(n: Nurse, ops: seq<Op>)
    ensures Run(n, ops).data.medications == n.data.medications + MedicationsAdded(ops)
    ensures Run(n, ops).data.appointments == n.data.appointments + AppointmentsAdded(ops)
    ensures Run(n, ops).data.vitalSigns == n.data.vitalSigns + VitalSignsAdded(ops)
    ensures Run(n, ops).data.generalHealthNotes == n.data.generalHealthNotes
    ensures Run(n, ops).notes == n.notes
    decreases |ops|
  {
    if ops == [] {
      assert n.data.medications + [] == n.data.medications;
      assert n.data.appointments + [] == n.data.appointments;
      assert n.data.vitalSigns + [] == n.data.vitalSigns;
    } else {
      var op := ops[0];
      var n1 := Apply(n, op);
      ApplyAppendsEveryRecord(n, op);
      RunAddsEveryRecord(n1, ops[1..]);
      assert Run(n, ops) == Run(n1, ops[1..]);
      AppendAssoc(n.data.medications, MedicationAdded(op), MedicationsAdded(ops[1..]));
      AppendAssoc(n.data.appointments, AppointmentAdded(op), AppointmentsAdded(ops[1..]));
      AppendAssoc(n.data.vitalSigns, VitalSignAdded(op), VitalSignsAdded(ops[1..]));
    }
  }
}
