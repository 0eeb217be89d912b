/**
 * The demonstration run of TestFile.cs, split into its availability part and
 * its booking part, with what each step leaves behind stated as assertions.
 * now stands for DateTime.Now and appointmentID for the number
 * Random.Next(1000, 9999) draws; the interactive registration step is not
 * part of this run.
 */
module Scenario {
  import opened Availability
  import opened Clinic
  import opened Registration
  import opened DateTimes

  /** One hour in DateTime ticks. */
  const Hour: int := 36_000_000_000

  /** Therapist 101 gets one window directly, then two more by upload; repeats and unknown identifiers change nothing. */
  method AvailabilityDemo(now: int)
  {
    var system := new SystemClass();
    var therapist := new Therapist(101, "Dr. Smith", "dr.smith@example.com", "Physiotherapy");
    system.AddTherapist(therapist);
    var first := Slot(now + Hour, now + 2 * Hour);
    var added := therapist.AddAvailability(first);
    assert added && therapist.AvailabilitySlots == [first];
    var again := therapist.AddAvailability(first);
    assert !again && therapist.AvailabilitySlots == [first];

    var second, third := Slot(now + 3 * Hour, now + 4 * Hour), Slot(now + 5 * Hour, now + 6 * Hour);
    assert FindTherapist(system.Therapists, 101) == 0;
    assert [second, third][..1] == [second];
    assert AddAll([first], [second]) == [first, second];
    system.UploadTherapistAvailabilities(101, [second, third]);
    assert therapist.AvailabilitySlots == [first, second, third];

    assert FindTherapist(system.Therapists, 202) == -1;
    system.UploadTherapistAvailabilities(202, [Slot(now, now + Hour)]);
    assert therapist.AvailabilitySlots == [first, second, third];
  }

  /** Patient 1 books "10:00 AM", cannot book it twice, cancels twice and reschedules; the label is never returned. */
  method BookingDemo(now: int, appointmentID: int)
    requires 1000 <= appointmentID < 9999
  {
    var system := new SystemClass();
    var patient := new Patient("John Doe", 1, "john.doe@example.com", "123-456-7890", 627667488000000000);

    assert system.CheckSlotAvailability("10:00 AM");
    patient.SelectAppointment(system, "10:00 AM", 101, appointmentID, now);
    assert |patient.AppointmentList| == 1;
    var booked := patient.AppointmentList[0];
    assert booked.Status == Scheduled && booked.PatientID == 1 && booked.TherapistID == 101;
    assert system.Appointments == [booked];
    assert system.AvailableSlots == ["9:00 AM", "11:00 AM", "1:00 PM", "2:00 PM"];

    patient.SelectAppointment(system, "10:00 AM", 101, appointmentID, now);
    assert patient.AppointmentList == [booked] && system.Appointments == [booked];

    booked.CancelAppointment();
    booked.CancelAppointment();
    assert booked.Status == Cancelled && system.Appointments[0].Status == Cancelled;
    assert booked.Date == MinValue && booked.AppointmentID == appointmentID;
    assert system.AvailableSlots == ["9:00 AM", "11:00 AM", "1:00 PM", "2:00 PM"];

    booked.ScheduleAppointment(now + 24 * Hour);
    assert booked.Status == Scheduled && booked.Date == now + 24 * Hour;
  }

  /** Account creation on the demo patient's details: accepted as typed, refused with a mismatched confirmation. */
  method AccountDemo()
  {
    var dob := 627667488000000000;
    assert !IsWhiteSpace('j') && !IsWhiteSpace('s') && !IsWhiteSpace('J') && !IsWhiteSpace('D') && !IsWhiteSpace('1');
    assert "john.doe@example.com"[0] == 'j' && "secret"[0] == 's' && "John"[0] == 'J';
    assert "Doe"[0] == 'D' && "123-456-7890"[0] == '1';
    assert CreateAccount("john.doe@example.com", "secret", "secret", "John", "Doe", "123-456-7890", dob);
    var (ok, errors) := ValidateAccountDetails("john.doe@example.com", "secret", "secreT", "John", "Doe", "123-456-7890", dob);
    assert !ok && PasswordMismatch in errors;
    assert !CreateAccount("john.doe@example.com", "secret", "secret", "John", "Doe", "123-456-7890", MinValue);
  }

  /** The registration form: a blank value is refused, a repeated key is overwritten, and the four required fields validate. */
  method RegistrationDemo()
  {
    var form := new RegistrationForm(7);
    form.AddPatientDetail("Name", " ");
    assert form.PatientDetails == map[];
    assert "Name"[0] == 'N' && "John Doe"[0] == 'J' && "Jane Doe"[0] == 'J' && !IsWhiteSpace('N') && !IsWhiteSpace('J');
    form.AddPatientDetail("Name", "John Doe");
    form.AddPatientDetail("Name", "Jane Doe");
    assert form.PatientDetails == map["Name" := "Jane Doe"];
    var incomplete := form.ValidateInformation();
    assert !Given(form.PatientDetails, RequiredFields[1]);
    assert !incomplete;
  }
}
