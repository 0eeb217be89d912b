# PhysioDynamik clinic booking, modelled in Dafny

This project models the in-memory core of the PhysioDynamik prototype: a
physiotherapy clinic where therapists publish availability windows, patients
book appointments against a system-wide pool of time labels ("10:00 AM"),
appointments are scheduled and cancelled, and registration input is checked.
Everything in the source is single-threaded list, dictionary and field
mutation, and the model keeps that form:

- `Clinic` (clinic.dfy): classes `Appointment`, `Therapist`, `Patient` and
  `SystemClass` with the source's fields. Lists the source changes in place
  (`AvailabilitySlots`, `AppointmentList`, `Appointments`, `AvailableSlots`,
  `Therapists`, `Patients`) are `seq` fields that the methods reassign; every
  method's `modifies` names exactly the fields it changes, so "nothing else
  changes" is part of each contract. Appointments are shared objects: the one a
  patient books is the same object in the system's list, so cancelling it is
  seen from both.
- `Availability` (availability.dfy): what the availability list becomes after
  one `AddAvailability` (`AddSlot`) and after a batch upload (`AddAll`), with
  an independent left-to-right reading of a batch (`NewWindows`) and lemmas
  tying them together.
- `SlotPool` (slot_pool.dfy): the initial label pool and first-occurrence
  removal (`RemoveFirst`, what `List<string>.Remove` does), with its lemmas.
- `Registration` (registration.dfy): `char.IsWhiteSpace` /
  `string.IsNullOrWhiteSpace`, the `RegistrationForm` class with its detail
  dictionary, and the account validator with its ordered error list.
- `Sequences`, `DateTimes` (common.dfy): duplicate-freedom and
  `DateTime.MinValue`.
- `Scenario` (scenario.dfy): the demonstration run of TestFile.cs as
  assertion-carrying methods (book "10:00 AM", cancel, the label stays
  consumed; upload windows for therapist 101), plus account and form examples.

Conventions. `DateTime` is an integer tick count and `DateTime.MinValue` is 0.
`DateTime.Now` and `new Random().Next(1000, 9999)` are parameters of
`SelectAppointment`; the `requires 1000 <= appointmentID < 9999` states the
contract of `Random.Next` (upper bound excluded), not a demand on the caller.
Fields that the core only sets at construction (identifiers, names, e-mail,
`Time`) are `const`. An `AvailabilitySlot` is a value with just `StartTime` and
`EndTime`; since the source compares slots by exactly those two fields, "same
window" is equality of slot values.

Behaviour of the code that a reader of the design might not expect (the model
follows the code):

- `ScheduleAppointment` sets `Status` to "Scheduled" whatever it was, so a
  cancelled appointment can be revived; there is no forbidden transition.
- The label pool is a list, not a set: booking removes the first occurrence
  only. The initial pool has no repeats, and `SlotPool.RemoveFirstFromDistinct`
  shows that then the booked label is gone.
- `SelectAppointment` never looks at the therapist registry: `therapistID` is
  copied into the appointment unchecked, and the therapist's own
  `AppointmentList` is never updated.
- Cancelling never returns the label to the pool.
- Appointment identifiers come from `Random.Next(1000, 9999)`: 1000 to 9998,
  with collisions possible and unchecked.

## Model

| member | source | states |
|---|---|---|
| `Clinic.Appointment.constructor` | Prototype1.cs:275-282 | the five given fields are stored and `Date` is `DateTime.MinValue` |
| `Clinic.Appointment.ScheduleAppointment` | Prototype1.cs:286-291 | `Date` becomes the argument and `Status` becomes "Scheduled" from any prior status; nothing else changes |
| `Clinic.Appointment.CancelAppointment` | Prototype1.cs:294-298 | `Status` becomes "Cancelled" and no other field changes, so a second cancel changes nothing |
| `Clinic.Therapist.constructor` | Prototype1.cs:198-204 | identity fields stored, appointment and availability lists empty |
| `Clinic.Therapist.AddAvailability` | Prototype1.cs:208-223 | returns false and leaves the list unchanged when a listed slot has the same start and end; otherwise returns true and the list is the old list with the slot appended; a duplicate-free list stays duplicate-free |
| `Clinic.Patient.constructor` | Prototype1.cs:24-31 | the five given fields are stored and the appointment list is empty |
| `Clinic.Patient.SelectAppointment` | Prototype1.cs:82-100 | an unavailable label leaves the patient's list and both system lists unchanged; an available one appends one fresh appointment to the patient with status "Scheduled", this patient's id, the given therapist id, an id in [1000, 9999) and time `now`, appends the same object to the system's appointments and removes the first occurrence of the label from the pool |
| `Clinic.FindTherapist` | Prototype1.cs:349 | the index of the first therapist with the identifier, or -1 exactly when no therapist has it |
| `Clinic.SystemClass.constructor` | Prototype1.cs:309-319 | the pool starts as "9:00 AM", "10:00 AM", "11:00 AM", "1:00 PM", "2:00 PM" and every directory list is empty |
| `Clinic.SystemClass.AddPatient` | Prototype1.cs:321-331 | a null patient changes nothing; otherwise it is appended, with no duplicate check |
| `Clinic.SystemClass.AddTherapist` | Prototype1.cs:335-344 | a null therapist changes nothing; otherwise it is appended, with no duplicate check |
| `Clinic.SystemClass.UploadTherapistAvailabilities` | Prototype1.cs:347-361 | with an unknown id no therapist's slots change; otherwise only the first therapist with that id changes, and its list becomes the result of adding each slot of the batch in order; no therapist's appointment list changes |
| `Clinic.SystemClass.CheckSlotAvailability` | Prototype1.cs:405-408 | true exactly when some position of the pool holds the label; reads the pool only |
| `Clinic.SystemClass.AddAppointment` | Prototype1.cs:411-429 | with a non-null appointment and a label in the pool, the appointment is appended and the first occurrence of the label removed, so the pool shrinks by one; a null appointment or an absent label changes neither list |
| `Availability.AddSlotKeepsDistinct` | Prototype1.cs:208-223 | adding a slot to a duplicate-free list keeps it duplicate-free, and the slot is listed afterwards |
| `Availability.AddAllAppendsNewWindows` | Prototype1.cs:352-355 | an upload keeps the old list as a prefix and appends, in input order, exactly the batch slots whose window was not already listed, counting those added earlier in the same batch |
| `Availability.AddAllKeepsDistinct` | Prototype1.cs:347-361 | an upload keeps a duplicate-free list duplicate-free |
| `Availability.AddAllMembers` | Prototype1.cs:347-361 | after an upload a window is listed exactly when it was listed before or occurs in the batch |
| `Availability.AddAllIdempotent` | Prototype1.cs:347-361 | uploading the same batch twice leaves the list as uploading it once |
| `SlotPool.RemoveFirstAbsent` | Prototype1.cs:422 | removing a label that is not in the pool leaves the pool unchanged |
| `SlotPool.RemoveFirstAt` | Prototype1.cs:422 | removal cuts out exactly the first position holding the label and keeps the rest in order |
| `SlotPool.RemoveFirstCount` | Prototype1.cs:419-424 | booking a present label shrinks the pool by one, and the multiset of labels loses exactly one copy of it |
| `SlotPool.RemoveFirstFromDistinct` | Prototype1.cs:310-313 | in a pool without repeats (as the initial one), the booked label is gone afterwards, every other label stays, and no repeat appears |
| `Registration.RegistrationForm.constructor` | Prototype1.cs:594-597 | the form id is stored and the detail dictionary is empty |
| `Registration.RegistrationForm.AddPatientDetail` | Prototype1.cs:600-617 | a blank key or value leaves the dictionary unchanged; otherwise the key maps to the value, other keys keep their values, and the key count grows by one only when the key was new |
| `Registration.RegistrationForm.ValidateInformation` | Prototype1.cs:620-635 | true exactly when each of Name, Email, PhoneNumber and DateOfBirth is present with a non-blank value |
| `Registration.ValidateAccountDetails` | Prototype1.cs:657-670 | the flag is true exactly when the error list is empty; "Passwords do not match." is listed exactly when the password differs from its confirmation; at most seven messages |
| `Registration.AccountErrorsFollowChecks` | Prototype1.cs:659-667 | the error list is exactly the messages of the failed checks, one each, in the fixed check order |
| `Registration.AccountMessageIffCheckFails` | Prototype1.cs:661-667 | each check's message is in the error list exactly when that check fails |
| `Registration.CreateAccount` | Prototype1.cs:672-685 | succeeds exactly when e-mail, password, names and phone are non-blank, the passwords match and the birth date is not `DateTime.MinValue` |

## Left out

- Console output: every `Console.WriteLine` message (success and failure notices) is dropped; the outcome is carried by return values and state only.
- `Patient.RegisterPatient`: interactive console input and `DateTime.TryParse`; its logic is `CreateAccount` followed by `AddPatient`, both modelled.
- `Patient.GetPatientByID`, `MedicalRecord.GetMedicalRecordByPatientID`, `SystemClass.RunSystem`: MySQL queries and console input.
- `CheckSlotAvailability(int, string)`: it compares culture-dependent `DateTime.ToString("h:mm tt")` text, which a tick count does not determine.
- Printing-only members: `ViewPatientInformation`, `DisplayTherapistAvailabilities`, `DisplayAvailableSlots`, `GetAppointments`, `ViewStatus`, `ViewMedicalRecord`, `DisplayFormDetails`, `Upload`, `ViewResource`, `SubmitAssessment`, `ProvideFeedback`, `AssignAssessment`, `SendNotification`, `ConfirmationEmail.Send`.
- `Assessment`, `MedicalRecord`, `ConfirmationEmail` and the `Account` fields: data holders with no behaviour in the core; `PaymentMethods`, `MedicalRecord` and `PaymentConfirmed` fields are not modelled.
- Property setters on identifiers and names: the core never uses them, so those fields are constants.
- Null strings: strings are never null in the model, so `string.IsNullOrWhiteSpace` is the all-whitespace test; null is modelled only for the object arguments of `AddPatient`, `AddTherapist` and `AddAppointment`.
- `AvailabilitySlot` identity: slots are values, so two list entries cannot alias one mutable slot object; the source never mutates a slot after construction.
- `DateTime.Kind`: `DateTime` equality compares ticks only, which is what integer equality models.
- Program.cs: duplicate data-holder classes and a demonstration `Main` with no decision logic.
