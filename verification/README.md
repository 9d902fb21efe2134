# Elderly virtual nurse — record store, session history and turn handler

This project models the `ElderlyVirtualNurse` of the eldercare assistant in
Dafny. The nurse keeps the user's medications, appointments, vital signs and
general health notes in a four-section store. It keeps a session history
capped at the 20 most recent turns, and it answers chat messages by sending a
persona prompt, the records and the history to a language model. The
repository holds two near-identical variants of the nurse:

- `Eldercare.py` refuses medication and vital-sign adds with empty required
  fields. Only its appointment and note getters use an "empty" sentinel text.
  It also has an in-memory notes list and a dashboard summary.
- `app.py` checks no medication or vital-sign field. All three of its getters
  answer an empty section with a sentinel text.

Both variants accept an appointment only when its date is a real calendar date
in `YYYY-MM-DD` form, as Python's `strptime` reads it.

The model is functional. Every operation is a pure function from a nurse
state, and its inputs, to the next state and the returned text. The modules
are:

- `Base`: option type and the last-n slice.
- `Calendar`: the date check.
- `History`: the session history.
- `Records`: record types, loading and saving, and the list-or-sentinel getter
  result.
- `Store`: the nurse state and the "only this section grew" frame predicates.
- `Chat`: the exit words and the turn handler.
- `Eldercare` and `App`: one thin module per source file, over this shared base.
- `Sorting`: stable descending sort by a string key.
- `Dashboard`: the counting and recent-activity selection.

Some things are passed in as parameters:

- The language-model call is an outcome: `Reply(text)`, `NoResponse` or
  `Raised(error)`.
- The uuid prefix and the current date or time are strings.
- The decoded JSON file is a `StoredFile`, or None when it is missing or not
  valid JSON.

On these points the model follows `Eldercare.py` and `app.py` as written:

- The exit words are compared without any whitespace stripping: `" bye"` is a
  normal message (`Chat.KnownExitWords`).
- In `Eldercare.py` an empty store lists its medications and vital signs as
  empty lists, not as sentinel texts. Only `app.py` answers with a sentinel.
- `Eldercare.py` refuses empty medication and vital-sign fields; `app.py`
  records them.

## Model

| member | source | states |
|---|---|---|
| Base.Last | Eldercare.py:70 | the slice `[-n:]`: exactly min(n, length) elements, and they are the final ones |
| Base.LastOfLast | Eldercare.py:67-70 | trimming to the last n, appending, and trimming again equals a single trim of the whole |
| Calendar.DaysInMonth | Eldercare.py:90 | month lengths of the Gregorian calendar; 29 days only in February of a leap year |
| Calendar.MatchMonth | Eldercare.py:90 | the `%m` alternatives match one or two characters and give a month in 1..12 |
| Calendar.MatchDay | Eldercare.py:90 | the `%d` alternatives (including a space-padded day) match one or two characters and give a day in 1..31 |
| Calendar.ParseDate | Eldercare.py:90 | an accepted date is a valid Gregorian date in years 1..9999, written in 8 to 10 characters with `-` after the year |
| Calendar.CanonicalAcceptedIffValid | Eldercare.py:88-103 | on zero-padded `YYYY-MM-DD` text, the check accepts exactly the real calendar dates, with the written fields |
| Calendar.Format | Eldercare.py:90 | the round-trip partner of the date check: the zero-padded `%Y-%m-%d` text of a date, whose fields are the date |
| Calendar.FormatThenParse | Eldercare.py:90 | the date check accepts every valid date written in zero-padded `%Y-%m-%d` form and reads back the same date |
| Calendar.KnownCanonicalDates | Eldercare.py:88-103 | 2024-05-01 and 2024-02-29 are accepted; 2024-13-40 and 2023-02-29 are refused |
| Calendar.KnownLenientDates | Eldercare.py:90 | an unpadded 2024-5-1 is accepted; trailing text after the day is refused |
| History.AddTurn | Eldercare.py:67-70 | the history becomes the last min(n+1, 20) turns of the old history plus the new turn, which is newest |
| History.AddTurnsKeepsMostRecent | Eldercare.py:67-70 | after any number of turns, the history is exactly the 20 most recent turns in their original order |
| History.EndsWithPair | Eldercare.py:135-156 | two turns recorded in a row are the two newest turns, in that order |
| History.Contents | Eldercare.py:151 | the model is sent the text of each retained turn, in order |
| Records.Load | Eldercare.py:51-61 | a missing file or one that is not valid JSON gives the all-empty store; a section present in the file is kept unchanged; a missing one is empty |
| Records.Save | Eldercare.py:63-65 | the whole store is written with all four sections, and loading it back gives the same store |
| Records.Listed | Eldercare.py:123-126 | the sentinel appears exactly when the section is empty, and the listed records are always the section |
| Chat.Lower | Eldercare.py:132 | lower-casing keeps the length and maps each letter A-Z to a-z |
| Chat.LowerIsWordIffSpells | Eldercare.py:132 | lower-casing gives a lower-case word exactly when the input spells it with each letter in either case |
| Chat.ExitWordIffSpelled | Eldercare.py:132-133 | an input ends the chat exactly when it spells exit, quit or bye, in any mix of cases and with nothing else |
| Chat.KnownExitWords | Eldercare.py:132-133 | "BYE", "Quit" and "exit" end the chat; " bye", "bye!" and "goodbye" do not |
| Chat.Respond | Eldercare.py:131-161 | farewell with no model call and no change for an exit word; otherwise the user turn is recorded and the request carries the context and the turn texts; the reply is recorded only when non-empty |
| Eldercare.Init | Eldercare.py:22-49 | a new nurse has the loaded store, an empty history and no notes; a fresh store satisfies the invariant |
| Eldercare.AddToHistory | Eldercare.py:67-70 | the history keeps the last min(n+1, 20) turns with the new one newest; store and notes unchanged |
| Eldercare.AddMedication | Eldercare.py:72-86 | an empty name, dosage or schedule gives the error text and no change; otherwise exactly one record with the given fields is appended to medications only |
| Eldercare.AddAppointment | Eldercare.py:88-103 | an invalid calendar date gives the format message and no change; otherwise one record whose date is the input text is appended to appointments only |
| Eldercare.AddVitalSign | Eldercare.py:105-118 | an empty type or value gives the error text and no change; otherwise one reading is appended to vital signs only |
| Eldercare.AddNote | Eldercare.py:163-171 | one note is appended to the in-memory notes; the store and the history are untouched |
| Eldercare.GetMedications | Eldercare.py:120-121 | always the medications list itself, never a sentinel, even when empty |
| Eldercare.GetAppointments | Eldercare.py:123-126 | the sentinel text exactly when there are no appointments, otherwise the list itself |
| Eldercare.GetVitalSigns | Eldercare.py:128-129 | always the vital-signs list itself, never a sentinel, even when empty |
| Eldercare.GetNotes | Eldercare.py:173-176 | the sentinel text exactly when there are no notes, otherwise the notes themselves |
| Eldercare.ProcessUserInput | Eldercare.py:131-161 | exit words end the chat with no change or model call; otherwise the user turn is recorded and the model gets the context (listed medications and vitals) and turn texts; a non-empty reply is recorded and returned verbatim, anything else leaves the user turn unpaired |
| Eldercare.ApplyKeepsConsistent | Eldercare.py:72-118 | no operation breaks the invariant: bounded history, required medication and vital fields non-empty, appointment dates valid |
| Eldercare.RunKeepsConsistent | Eldercare.py:72-161 | the invariant survives any sequence of adds, notes and chat turns |
| Eldercare.ApplyAppendsAcceptedRecord | Eldercare.py:72-171 | one operation appends to each section exactly the record it adds there when accepted, and nothing otherwise |
| Eldercare.RunAppendsAcceptedRecords | Eldercare.py:72-171 | after any operations, each section is its old records followed by exactly the accepted adds of its kind in order; general health notes never change |
| App.Init | app.py:22-59 | all four sections exist; sections in the file are kept, missing ones empty, a missing file or one that is not valid JSON gives the all-empty store; empty history |
| App.AddToHistory | app.py:65-68 | the history keeps the last min(n+1, 20) turns with the new one newest; store unchanged |
| App.AddMedication | app.py:70-81 | never refuses: exactly one record with the given fields, empty or not, is appended to medications and nothing else changes |
| App.AddAppointment | app.py:83-98 | an invalid calendar date gives the format message and no change; otherwise one record whose date is the input text is appended to appointments only |
| App.AddVitalSign | app.py:100-110 | never refuses: exactly one reading is appended to vital signs and nothing else changes |
| App.GetMedications | app.py:112-115 | the sentinel text exactly when there are no medications, otherwise the list itself |
| App.GetAppointments | app.py:117-120 | the sentinel text exactly when there are no appointments, otherwise the list itself |
| App.GetVitalSigns | app.py:122-125 | the sentinel text exactly when there are no vital signs, otherwise the list itself |
| App.ContextMixesShapes | app.py:133-137 | with medications but no appointments or vitals, the model's context holds a list beside two sentinel texts |
| App.ProcessUserInput | app.py:127-157 | exit words end the chat with no change or model call; otherwise the user turn is recorded and the model gets the sentinel-or-list context and turn texts; only a non-empty reply is recorded |
| App.ApplyKeepsConsistent | app.py:70-110 | no operation breaks the invariant: bounded history, appointment dates valid, no notes |
| App.RunKeepsConsistent | app.py:70-157 | the invariant survives any sequence of adds and chat turns |
| App.ApplyAppendsEveryRecord | app.py:70-110 | one operation appends every medication or vital sign it adds, an appointment only on a real date, and nothing else; general health notes and notes unchanged |
| App.RunAddsEveryRecord | app.py:70-110 | after any operations, medications and vital signs are their old records followed by the record of every add of their kind, in order; appointments are followed by exactly the adds on a real date; general health notes and notes never change |
| Sorting.LexLeReflexive | Eldercare.py:291 | every timestamp text is ordered with itself |
| Sorting.LexLeTotal | Eldercare.py:291 | any two timestamp texts are ordered one way or the other |
| Sorting.LexLeTransitive | Eldercare.py:291 | the text order is transitive |
| Sorting.LexLeAntisymmetric | Eldercare.py:291 | texts ordered both ways are equal |
| Sorting.WithKeyAppend | Eldercare.py:291 | picking the elements with one key distributes over concatenation |
| Sorting.Insert | Eldercare.py:291 | inserting into a sorted sequence keeps it sorted and adds exactly that element |
| Sorting.InsertStable | Eldercare.py:291 | an inserted element lands before the elements that share its key |
| Sorting.SortDesc | Eldercare.py:291 | the result is a permutation in non-increasing key order, and elements with equal keys keep their order |
| Sorting.PrefixHoldsLargest | Eldercare.py:292 | no element left out of a prefix of a sorted sequence has a larger key than one kept |
| Sorting.PrefixKeepsEarliest | Eldercare.py:292 | among the elements sharing a key, a prefix keeps the earliest ones, in their order |
| Sorting.TopDesc | Eldercare.py:290-292 | sort-then-`[:k]` keeps min(k, n) elements of the input, largest first, none left out is larger than one kept, and among equal keys it keeps the earliest ones in input order |
| Dashboard.MedicationActivities | Eldercare.py:260-268 | one activity per medication, in order, stamped with its date added |
| Dashboard.AppointmentActivities | Eldercare.py:270-278 | one activity per appointment, in order, stamped with its date |
| Dashboard.VitalSignActivities | Eldercare.py:280-288 | one activity per reading, in order, stamped with its timestamp |
| Dashboard.CandidatesAreRecent | Eldercare.py:257-288 | every candidate describes one of the five newest records of its section |
| Dashboard.Recent | Eldercare.py:290-292 | every recent activity describes one of the five newest medications, appointments or vital signs |
| Dashboard.DashboardData | Eldercare.py:250-300 | counts equal section sizes (no appointments counts 0); at most five recent activities in non-increasing timestamp order, drawn from the candidates, none newer left out; among equal timestamps the earliest candidates are kept, in candidate order; notes never appear |

## Left out

- The Flask routes, request parsing, `jsonify` and HTTP status codes are left out. Of `dashboard_data`, only the counting and the recent-activity selection are modelled.
- Reading and writing the JSON file is I/O and is left out. The decoded document is a parameter. Crash safety and atomic writes are not modelled.
- Read errors other than a missing file or invalid JSON (`PermissionError`, `IsADirectoryError`, `UnicodeDecodeError`) propagate out of `__init__`; since the nurse is built at import, the app does not start. The model has no such outcome.
- `StoredFile` cannot represent a present section whose value is not a list (kept by the default-section loop, so the next `.append` fails) or extra top-level keys (kept in `user_data` and written back by `_save_user_data`).
- A file whose top level is not an object, and records that lack keys, are left out. The dashboard would raise `KeyError` on such records.
- The Gemini call is a foreign service. Its outcome is a parameter, which may be text, no response, or an exception message.
- `uuid4` ids and `datetime.now()` are non-deterministic. They are parameters, and no id uniqueness is claimed.
- The `json.dumps` layout of the context and the persona prompt wording are left out. The request keeps the context as a structure.
- The API-key check at import, `print` logging and the `user_name`/file-name attributes are left out.
- Record fields are strings. JSON `null` or non-string values, such as a missing form field in app.py or a `None` date raising `TypeError`, are not modelled.
- Concurrent requests against the single shared nurse are left out. The model is sequential.
- Calendar.ParseDate: treats only the ASCII digits 0-9 as digits. Python's `\d` in the `strptime` pattern also accepts other Unicode decimal digits.
- Chat.Lower: lower-cases only A-Z, not full Unicode `str.lower()`. The only non-ASCII characters that lower-case into ASCII letters are U+212A (to `k`, in no exit word) and U+0130 (to `i` plus a combining dot, which changes the length). So the set of exit words recognised is the same.
