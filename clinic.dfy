/**
 * The clinic's in-memory objects: appointments, therapists with their
 * availability lists, patients with their appointment lists, and the system
 * object that owns the label pool and the directories. Every list the source
 * changes in place is a field that the methods reassign; DateTime values are
 * tick counts.
 */
module Clinic {
  import opened Sequences
  import opened Availability
  import opened SlotPool
  import opened DateTimes


  const Scheduled: string := "Scheduled"
  const Cancelled: string := "Cancelled"

  /** An appointment; its status and date are the only fields the source changes after construction. */
  class Appointment {
    const AppointmentID: int
    const PatientID: int
    const TherapistID: int
    const Time: int
    var Status: string
    var Date: int

    constructor (appointmentID: int, patientID: int, therapistID: int, time: int, status: string)
      ensures AppointmentID == appointmentID && PatientID == patientID && TherapistID == therapistID
      ensures Time == time && Status == status && Date == MinValue
    {
      AppointmentID := appointmentID;
      PatientID := patientID;
      TherapistID := therapistID;
      Time := time;
      Status := status;
      Date := MinValue;
    }

    /** Sets the date and forces the status to Scheduled, whatever it was (a cancelled appointment is revived). */
    method ScheduleAppointment(date: int)
      modifies this`Date, this`Status
      ensures Date == date && Status == Scheduled
    {
      Date := date;
      Status := Scheduled;
    }

    /** Sets the status to Cancelled; the date and every other field stay as they were. */
    method CancelAppointment()
      modifies this`Status
      ensures Status == Cancelled
    {
      Status := Cancelled;
    }
  }

  class Therapist {
    const TherapistID: int
    const Name: string
    const Email: string
    const Specialty: string
    var AppointmentList: seq<Appointment>
    var AvailabilitySlots: seq<Slot>

    constructor (therapistID: int, name: string, email: string, specialty: string)
      ensures TherapistID == therapistID && Name == name && Email == email && Specialty == specialty
      ensures AppointmentList == [] && AvailabilitySlots == []
    {
      TherapistID := therapistID;
      Name := name;
      Email := email;
      Specialty := specialty;
      AppointmentList := [];
      AvailabilitySlots := [];
    }

    /**
     * Rejects a slot whose start and end equal those of a listed slot (false, no
     * change); otherwise appends it (true). A duplicate-free list stays so.
     */
    method AddAvailability(slot: Slot) returns (added: bool)
      modifies this`AvailabilitySlots
      ensures added <==> slot !in old(AvailabilitySlots)
      ensures AvailabilitySlots == AddSlot(old(AvailabilitySlots), slot)
      ensures Distinct(old(AvailabilitySlots)) ==> Distinct(AvailabilitySlots)
    {
      var i := 0;
      while i < |AvailabilitySlots|
        invariant 0 <= i <= |AvailabilitySlots|
        invariant AvailabilitySlots == old(AvailabilitySlots)
        invariant forall j :: 0 <= j < i ==> AvailabilitySlots[j] != slot
      {
        var existing := AvailabilitySlots[i];
        if existing.StartTime == slot.StartTime && existing.EndTime == slot.EndTime {
          return false;
        }
        i := i + 1;
      }
      AvailabilitySlots := AvailabilitySlots + [slot];
      added := true;
      if Distinct(old(AvailabilitySlots)) {
        AddSlotKeepsDistinct(old(AvailabilitySlots), slot);
      }
    }
  }

  class Patient {
    const Name: string
    const PatientID: int
    const Email: string
    const PhoneNumber: string
    const DateOfBirth: int
    var AppointmentList: seq<Appointment>

    constructor (name: string, patientID: int, email: string, phoneNumber: string, dateOfBirth: int)
      ensures Name == name && PatientID == patientID && Email == email
      ensures PhoneNumber == phoneNumber && DateOfBirth == dateOfBirth
      ensures AppointmentList == []
    {
      Name := name;
      PatientID := patientID;
      Email := email;
      PhoneNumber := phoneNumber;
      DateOfBirth := dateOfBirth;
      AppointmentList := [];
    }

    /**
     * Books slot for this patient with the given therapist. The identifier is
     * what Random.Next(1000, 9999) drew and now is DateTime.Now. An unavailable
     * slot changes nothing; an available one creates one Scheduled appointment,
     * records it on the patient and in the system, and consumes the label.
     */
    method SelectAppointment(system: SystemClass, slot: string, therapistID: int, appointmentID: int, now: int)
      requires 1000 <= appointmentID < 9999
      modifies this`AppointmentList, system`Appointments, system`AvailableSlots
      ensures !old(system.CheckSlotAvailability(slot)) ==>
        && AppointmentList == old(AppointmentList)
        && system.Appointments == old(system.Appointments)
        && system.AvailableSlots == old(system.AvailableSlots)
      ensures old(system.CheckSlotAvailability(slot)) ==>
        && |AppointmentList| == |old(AppointmentList)| + 1
        && var a := AppointmentList[|AppointmentList| - 1];
        && AppointmentList == old(AppointmentList) + [a]
        && fresh(a)
        && a.Status == Scheduled
        && a.PatientID == PatientID
        && a.TherapistID == therapistID
        && a.AppointmentID == appointmentID && 1000 <= a.AppointmentID < 9999
        && a.Time == now && a.Date == MinValue
        && system.Appointments == old(system.Appointments) + [a]
        && system.AvailableSlots == RemoveFirst(old(system.AvailableSlots), slot)
    {
      if system.CheckSlotAvailability(slot) {
        var appointment := new Appointment(appointmentID, PatientID, therapistID, now, Scheduled);
        system.AddAppointment(appointment, slot);
        AppointmentList := AppointmentList + [appointment];
      }
    }
  }

  /**
   * The index of the first therapist with the given identifier, or -1 when there
   * is none (what List.Find locates).
   */
  function FindTherapist(therapists: seq<Therapist>, therapistID: int): (k: int)
    ensures -1 <= k < |therapists|
    ensures k == -1 <==> forall j :: 0 <= j < |therapists| ==> therapists[j].TherapistID != therapistID
    ensures 0 <= k ==> therapists[k].TherapistID == therapistID
    ensures forall j :: 0 <= j < k ==> therapists[j].TherapistID != therapistID
    decreases |therapists|
  {
    if therapists == [] then -1
    else if therapists[0].TherapistID == therapistID then 0
    else
      var k := FindTherapist(therapists[1..], therapistID);
      if k == -1 then -1 else k + 1
  }

  class SystemClass {
    var SystemID: int
    var AvailableSlots: seq<string>
    var Appointments: seq<Appointment>
    var Therapists: seq<Therapist>
    var Patients: seq<Patient>

    constructor ()
      ensures SystemID == 0 && AvailableSlots == InitialLabels
      ensures Appointments == [] && Therapists == [] && Patients == []
    {
      SystemID := 0;
      AvailableSlots := InitialLabels;
      Appointments := [];
      Therapists := [];
      Patients := [];
    }

    /** Appends a patient; a null patient is rejected and nothing changes. No duplicate check. */
    method AddPatient(patient: Patient?)
      modifies this`Patients
      ensures patient == null ==> Patients == old(Patients)
      ensures patient != null ==> Patients == old(Patients) + [patient]
    {
      if patient == null {
        return;
      }
      Patients := Patients + [patient];
    }

    /** Appends a therapist; a null therapist is rejected and nothing changes. No duplicate check. */
    method AddTherapist(therapist: Therapist?)
      modifies this`Therapists
      ensures therapist == null ==> Therapists == old(Therapists)
      ensures therapist != null ==> Therapists == old(Therapists) + [therapist]
    {
      if therapist == null {
        return;
      }
      Therapists := Therapists + [therapist];
    }

    /**
     * Applies AddAvailability, in order, to every slot of availabilities on the
     * first therapist with the given identifier. Only that therapist's list
     * changes; with an unknown identifier nothing changes.
     */
    method UploadTherapistAvailabilities(therapistID: int, availabilities: seq<Slot>)
      modifies Therapists
      ensures var k := FindTherapist(Therapists, therapistID);
        && (0 <= k ==> Therapists[k].AvailabilitySlots == AddAll(old(Therapists[k].AvailabilitySlots), availabilities))
        && forall t :: t in Therapists && (k == -1 || t != Therapists[k]) ==> t.AvailabilitySlots == old(t.AvailabilitySlots)
      ensures forall t :: t in Therapists ==> t.AppointmentList == old(t.AppointmentList)
    {
      var k := FindTherapist(Therapists, therapistID);
      if k != -1 {
        var therapist := Therapists[k];
        var i := 0;
        while i < |availabilities|
          invariant 0 <= i <= |availabilities|
          invariant therapist.AvailabilitySlots == AddAll(old(therapist.AvailabilitySlots), availabilities[..i])
          invariant forall t :: t in Therapists && t != therapist ==> t.AvailabilitySlots == old(t.AvailabilitySlots)
          invariant forall t :: t in Therapists ==> t.AppointmentList == old(t.AppointmentList)
        {
          var _ := therapist.AddAvailability(availabilities[i]);
          assert availabilities[..i + 1][..i] == availabilities[..i];
          i := i + 1;
        }
        assert availabilities[..i] == availabilities;
      }
    }

    /** Whether the label is in the system-wide pool; reads the pool and changes nothing. */
    predicate CheckSlotAvailability(slot: string)
      reads this
      ensures CheckSlotAvailability(slot) <==> exists i :: 0 <= i < |AvailableSlots| && AvailableSlots[i] == slot
    {
      slot in AvailableSlots
    }

    /**
     * Records an appointment for an available slot: the appointment is appended
     * and the first occurrence of the label leaves the pool. A null appointment
     * or an unavailable slot changes nothing.
     */
    method AddAppointment(appointment: Appointment?, slot: string)
      modifies this`Appointments, this`AvailableSlots
      ensures appointment != null && old(CheckSlotAvailability(slot)) ==>
        && Appointments == old(Appointments) + [appointment]
        && AvailableSlots == RemoveFirst(old(AvailableSlots), slot)
        && |AvailableSlots| == |old(AvailableSlots)| - 1
      ensures appointment == null || !old(CheckSlotAvailability(slot)) ==>
        Appointments == old(Appointments) && AvailableSlots == old(AvailableSlots)
    {
      if appointment == null {
        return;
      }
      if CheckSlotAvailability(slot) {
        Appointments := Appointments + [appointment];
        RemoveFirstCount(AvailableSlots, slot);
        AvailableSlots := RemoveFirst(AvailableSlots, slot);
      }
    }
  }
}
