/** The health records a nurse keeps and the JSON document they live in. */
module Records {
  import opened Base

  datatype Medication = Medication(id: string, name: string, dosage: string, schedule: string,
                                   notes: string, dateAdded: string)

  datatype Appointment = Appointment(id: string, doctor: string, date: string, time: string,
                                     location: string, notes: string)

  datatype VitalSign = VitalSign(id: string, kind: string, value: string, timestamp: string,
                                 notes: string)

  /** A free-form note, held only in memory and never written to the file. */
  datatype Note = Note(id: string, title: string, content: string, timestamp: string)

  /** An entry of the `general_health_notes` section; nothing writes or reads
      one, so it stays opaque text. */
  type HealthNote = string

  /** `user_data`: the four sections of the store, each in insertion order. */
  datatype UserData = UserData(medications: seq<Medication>, appointments: seq<Appointment>,
                               vitalSigns: seq<VitalSign>, generalHealthNotes: seq<HealthNote>)

  const NoData := UserData([], [], [], [])

  /** The JSON document as decoded from disk; a section whose key is missing is None. */
  datatype StoredFile = StoredFile(medications: Option<seq<Medication>>,
                                   appointments: Option<seq<Appointment>>,
                                   vitalSigns: Option<seq<VitalSign>>,
                                   generalHealthNotes: Option<seq<HealthNote>>)

  function OrEmpty<T>(o: Option<seq<T>>): seq<T>
  {
    if o.Some? then o.value else []
  }

  /** `_load_user_data` followed by the default-section loop of `__init__`.
      `file` is None when the file is missing or is not valid JSON. */
  function Load(file: Option<StoredFile>): (d: UserData)
    ensures file.None? ==> d == NoData
    ensures file.Some? && file.value.medications.Some? ==> d.medications == file.value.medications.value
    ensures file.Some? && file.value.medications.None? ==> d.medications == []
    ensures file.Some? && file.value.appointments.Some? ==> d.appointments == file.value.appointments.value
    ensures file.Some? && file.value.appointments.None? ==> d.appointments == []
    ensures file.Some? && file.value.vitalSigns.Some? ==> d.vitalSigns == file.value.vitalSigns.value
    ensures file.Some? && file.value.vitalSigns.None? ==> d.vitalSigns == []
    ensures file.Some? && file.value.generalHealthNotes.Some? ==> d.generalHealthNotes == file.value.generalHealthNotes.value
    ensures file.Some? && file.value.generalHealthNotes.None? ==> d.generalHealthNotes == []
  {
    match file
    case None => NoData
    case Some(f) => UserData(OrEmpty(f.medications), OrEmpty(f.appointments),
                             OrEmpty(f.vitalSigns), OrEmpty(f.generalHealthNotes))
  }

  /** `_save_user_data`: the whole store is written with all four sections, and
      loading the result gives the store back. */
  function Save(d: UserData): (f: StoredFile)
    ensures f.medications.Some? && f.appointments.Some? && f.vitalSigns.Some? && f.generalHealthNotes.Some?
    ensures Load(Some(f)) == d
  {
    StoredFile(Some(d.medications), Some(d.appointments), Some(d.vitalSigns), Some(d.generalHealthNotes))
  }

  /** What a getter returns: the section itself, or a fixed text standing in
      for an empty section. */
  datatype Listing<T> = Items(items: seq<T>) | Sentinel(text: string)

  /** How the dashboard and the list routes read a listing: a sentinel text
      holds no records. */
  function ItemsOf<T>(l: Listing<T>): seq<T>
  {
    match l
    case Items(s) => s
    case Sentinel(_) => []
  }

  /** The getter shape that answers an empty section with `text`: no record is
      lost, since the sentinel appears only when there is nothing to list. */
  function Listed<T>(s: seq<T>, text: string): (r: Listing<T>)
    ensures r.Sentinel? <==> s == []
    ensures r.Sentinel? ==> r.text == text
    ensures ItemsOf(r) == s
  {
    if s == [] then Sentinel(text) else Items(s)
  }
}
