/**
 * The appointment booking screen (src/components/AppointmentBooking.tsx): four
 * selections and a confirmation flag, the gate that reveals the time slots, the
 * doctor list filtered by specialty, and the book / modify / confirm steps.
 */
module Booking {
  import opened Sequences
  import Routing

  datatype Doctor = Doctor(name: string, specialty: string)

  function Specialties(): seq<string>
  {
    [ "Medicina General", "Cardiología", "Dermatología", "Ginecología",
      "Pediatría", "Traumatología", "Oftalmología", "Neurología" ]
  }

  function Locations(): seq<string>
  {
    [ "Centro de Salud Norte", "Centro de Salud Sur", "Hospital Universitario",
      "Clínica Especializada", "Centro Médico Central" ]
  }

  function AvailableSlots(): seq<string>
  {
    [ "09:00", "09:30", "10:00", "10:30", "11:00", "11:30",
      "16:00", "16:30", "17:00", "17:30", "18:00", "18:30" ]
  }

  function Doctors(): seq<Doctor>
  {
    [ Doctor("Dr. García López", "Medicina General"),
      Doctor("Dra. Martínez Ruiz", "Cardiología"),
      Doctor("Dr. Rodríguez Sánchez", "Dermatología"),
      Doctor("Dra. López Fernández", "Ginecología") ]
  }

  /** The time slots appear only once specialty, location and date are all chosen (non-empty strings are truthy). */
  function SlotsGateOpen(specialty: string, location: string, date: string): (open: bool)
    ensures open <==> specialty != "" && location != "" && date != ""
  {
    specialty != "" && location != "" && date != ""
  }

  /**
   * Picking any offered specialty and any offered location, with a date, opens
   * the slot grid; the placeholder option (the empty value) of either select
   * closes it again.
   */
  lemma DropDownChoicesOpenGate(specialty: string, location: string, date: string)
    requires date != ""
    ensures specialty in Specialties() && location in Locations() ==> SlotsGateOpen(specialty, location, date)
    ensures !SlotsGateOpen("", location, date) && !SlotsGateOpen(specialty, "", date)
  {
  }

  /** The doctors of one specialty, in list order. */
  function DoctorsFor(doctors: seq<Doctor>, specialty: string): (r: seq<Doctor>)
    ensures forall d :: d in r <==> d in doctors && d.specialty == specialty
    ensures forall d :: multiset(r)[d] == if d.specialty == specialty then multiset(doctors)[d] else 0
    ensures IsSubsequence(r, doctors)
  {
    var p := (d: Doctor) => d.specialty == specialty;
    FilterMembership(doctors, p);
    FilterMultiset(doctors, p);
    FilterIsSubsequence(doctors, p);
    Filter(doctors, p)
  }

  /** Pediatrics is offered in the drop-down, but no listed doctor practises it. */
  lemma NoPediatrician()
    ensures "Pediatría" in Specialties()
    ensures DoctorsFor(Doctors(), "Pediatría") == []
  {
    assert Specialties()[4] == "Pediatría";
    FilterEmptyIff(Doctors(), (d: Doctor) => d.specialty == "Pediatría");
  }

  /** Every listed doctor practises a specialty of the drop-down. */
  lemma DoctorsPractiseOfferedSpecialties(d: Doctor)
    requires d in Doctors()
    ensures d.specialty in Specialties()
  {
    var i :| 0 <= i < |Doctors()| && Doctors()[i] == d;
    assert Doctors()[i].specialty == Specialties()[i];
  }

  /** No time appears twice among the slots, so at most one slot is highlighted. */
  lemma SlotsDistinct(i: nat, j: nat)
    requires i < j < |AvailableSlots()|
    ensures AvailableSlots()[i] != AvailableSlots()[j]
  {
  }

  class AppointmentBooking {
    var selectedSpecialty: string
    var selectedLocation: string
    var selectedDate: string
    var selectedTime: string
    var showConfirmation: bool

    constructor ()
      ensures selectedSpecialty == "" && selectedLocation == "" && selectedDate == "" && selectedTime == ""
      ensures !showConfirmation && !SlotsShown()
    {
      selectedSpecialty := "";
      selectedLocation := "";
      selectedDate := "";
      selectedTime := "";
      showConfirmation := false;
    }

    /** The four selections, for stating what a step keeps. */
    function Selections(): (string, string, string, string)
      reads this
    {
      (selectedSpecialty, selectedLocation, selectedDate, selectedTime)
    }

    /** The slot grid: on the selection page, once specialty, location and date are all chosen. */
    function SlotsShown(): (shown: bool)
      reads this
      ensures shown <==> !showConfirmation && selectedSpecialty != "" && selectedLocation != "" && selectedDate != ""
    {
      !showConfirmation && SlotsGateOpen(selectedSpecialty, selectedLocation, selectedDate)
    }

    /** A slot button is highlighted when it is the selected time. */
    function SlotHighlighted(slot: string): (highlighted: bool)
      reads this
      ensures highlighted <==> selectedTime == slot
    {
      selectedTime == slot
    }

    /** The professionals section: inside the slot grid, once a time is chosen. */
    function ProfessionalsShown(): (shown: bool)
      reads this
      ensures shown <==> SlotsShown() && selectedTime != ""
      ensures shown ==> selectedSpecialty != "" && selectedLocation != "" && selectedDate != ""
    {
      SlotsShown() && selectedTime != ""
    }

    /**
     * The doctors offered to book with: none unless the professionals section
     * shows (a time chosen while the slot grid is open), and then the listed
     * doctors of the selected specialty, every copy and in list order.
     */
    function ListedDoctors(): (r: seq<Doctor>)
      reads this
      ensures !ProfessionalsShown() ==> r == []
      ensures selectedTime == "" || showConfirmation ==> r == []
      ensures ProfessionalsShown() ==> r == DoctorsFor(Doctors(), selectedSpecialty)
      ensures ProfessionalsShown() ==> forall d :: d in r <==> d in Doctors() && d.specialty == selectedSpecialty
      ensures ProfessionalsShown() ==> IsSubsequence(r, Doctors())
    {
      if ProfessionalsShown() then DoctorsFor(Doctors(), selectedSpecialty) else []
    }

    method SetSpecialty(v: string)
      modifies this
      ensures selectedSpecialty == v
      ensures selectedLocation == old(selectedLocation) && selectedDate == old(selectedDate)
      ensures selectedTime == old(selectedTime) && showConfirmation == old(showConfirmation)
    {
      selectedSpecialty := v;
    }

    method SetLocation(v: string)
      modifies this
      ensures selectedLocation == v
      ensures selectedSpecialty == old(selectedSpecialty) && selectedDate == old(selectedDate)
      ensures selectedTime == old(selectedTime) && showConfirmation == old(showConfirmation)
    {
      selectedLocation := v;
    }

    method SetDate(v: string)
      modifies this
      ensures selectedDate == v
      ensures selectedSpecialty == old(selectedSpecialty) && selectedLocation == old(selectedLocation)
      ensures selectedTime == old(selectedTime) && showConfirmation == old(showConfirmation)
    {
      selectedDate := v;
    }

    /** A slot button: that slot, and no other of the grid, becomes the highlighted one. */
    method SelectSlot(k: nat)
      requires k < |AvailableSlots()|
      modifies this
      ensures selectedTime == AvailableSlots()[k]
      ensures forall i :: 0 <= i < |AvailableSlots()| ==> (SlotHighlighted(AvailableSlots()[i]) <==> i == k)
      ensures selectedSpecialty == old(selectedSpecialty) && selectedLocation == old(selectedLocation)
      ensures selectedDate == old(selectedDate) && showConfirmation == old(showConfirmation)
    {
      selectedTime := AvailableSlots()[k];
      forall i | 0 <= i < |AvailableSlots()|
        ensures SlotHighlighted(AvailableSlots()[i]) <==> i == k
      {
        if i < k {
          SlotsDistinct(i, k);
        } else if k < i {
          SlotsDistinct(k, i);
        }
      }
    }

    /** "Seleccionar" next to a doctor: switch to the confirmation page. */
    method BookAppointment()
      modifies this
      ensures showConfirmation && !SlotsShown()
      ensures Selections() == old(Selections())
    {
      showConfirmation := true;
    }

    /** "Modificar": back to the selection page with every selection kept. */
    method Modify()
      modifies this
      ensures !showConfirmation
      ensures Selections() == old(Selections())
      ensures SlotsShown() == SlotsGateOpen(selectedSpecialty, selectedLocation, selectedDate)
    {
      showConfirmation := false;
    }

    /** "Confirmar Cita": leave the confirmation page and send the shell to the dashboard. */
    method ConfirmBooking(app: Routing.App)
      modifies this, app
      ensures !showConfirmation && Selections() == old(Selections())
      ensures app.currentView == "dashboard" && app.CurrentScreen() == Routing.PatientDashboard
      ensures app.isAuthenticated == old(app.isAuthenticated) && app.userRole == old(app.userRole)
    {
      showConfirmation := false;
      app.Navigate("dashboard");
    }
  }
}
