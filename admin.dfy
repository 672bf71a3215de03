/**
 * The administrative waiting-list panel (src/components/AdminPanel.tsx): the
 * fixed waiting list, the urgency filter, the urgency label and colour, the
 * three-band score bar, and the edit modal.
 */
module Admin {
  import opened Types
  import opened Sequences

  datatype WaitingEntry = WaitingEntry(
    id: int,
    patientName: string,
    healthId: string,
    specialty: string,
    urgency: string,
    urgencyScore: int,
    requestDate: string,
    estimatedWait: string,
    symptoms: string)

  /** The waiting list the panel shows. */
  function WaitingList(): seq<WaitingEntry>
  {
    [ WaitingEntry(1, "María García López", "12345678A", "Cardiología", "high", 85,
                   "2025-01-10", "3-5 días", "Dolor en el pecho, dificultad respiratoria"),
      WaitingEntry(2, "Juan Martínez Ruiz", "87654321B", "Traumatología", "medium", 65,
                   "2025-01-12", "1-2 semanas", "Dolor en rodilla tras caída"),
      WaitingEntry(3, "Ana Rodríguez Sánchez", "11223344C", "Dermatología", "low", 35,
                   "2025-01-14", "3-4 semanas", "Revisión lunar en brazo"),
      WaitingEntry(4, "Carlos López Fernández", "55667788D", "Cardiología", "high", 92,
                   "2025-01-13", "1-2 días", "Hipertensión severa, mareos frecuentes") ]
  }

  /** The urgency tags the label and colour switches have a case for. */
  const KnownUrgencies: set<string> := {"high", "medium", "low"}

  /** The options of the filter drop-down. */
  const FilterOptions: seq<string> := ["all", "high", "medium", "low"]

  /** The colours the panel uses for urgency badges and score bars. */
  datatype Tone = Red | Yellow | Green | Gray

  /** Severity order of the score-bar colours: green below yellow below red. Gray is never a band. */
  function Severity(t: Tone): nat
    requires t != Gray
  {
    match t
    case Green => 0
    case Yellow => 1
    case Red => 2
  }

  /** The entries with urgency tag `filter`, in list order; the tag "all" keeps every entry. */
  function FilterWaitingList(list: seq<WaitingEntry>, filter: string): (r: seq<WaitingEntry>)
    ensures filter == "all" ==> r == list
    ensures filter != "all" ==> forall e :: e in r <==> e in list && e.urgency == filter
    ensures filter != "all" ==>
              forall e :: multiset(r)[e] == if e.urgency == filter then multiset(list)[e] else 0
    ensures IsSubsequence(r, list) && |r| <= |list|
  {
    if filter == "all" then
      IsSubsequenceRefl(list);
      list
    else
      var p := (e: WaitingEntry) => e.urgency == filter;
      FilterMembership(list, p);
      FilterMultiset(list, p);
      FilterIsSubsequence(list, p);
      Filter(list, p)
  }

  /** Applying the same filter to an already filtered list changes nothing. */
  lemma FilterWaitingListIdempotent(list: seq<WaitingEntry>, filter: string)
    ensures FilterWaitingList(FilterWaitingList(list, filter), filter) == FilterWaitingList(list, filter)
  {
    if filter != "all" {
      FilterIdempotent(list, (e: WaitingEntry) => e.urgency == filter);
    }
  }

  /** The "no patients in this category" message shows exactly when no entry passes the filter. */
  lemma EmptyStateIff(list: seq<WaitingEntry>, filter: string)
    ensures |FilterWaitingList(list, filter)| == 0 <==>
              if filter == "all" then list == [] else forall e :: e in list ==> e.urgency != filter
  {
    if filter != "all" {
      FilterEmptyIff(list, (e: WaitingEntry) => e.urgency == filter);
    }
  }

  /** On the shipped list, the high-urgency filter keeps patients 1 and 4, scored 85 and 92. */
  lemma HighFilterOnWaitingList()
    ensures |FilterWaitingList(WaitingList(), "high")| == 2
    ensures FilterWaitingList(WaitingList(), "high")[0].id == 1
    ensures FilterWaitingList(WaitingList(), "high")[0].urgencyScore == 85
    ensures FilterWaitingList(WaitingList(), "high")[1].id == 4
    ensures FilterWaitingList(WaitingList(), "high")[1].urgencyScore == 92
  {
    var list := WaitingList();
    var p := (e: WaitingEntry) => e.urgency == "high";
    assert list[1..][1..][1..][1..] == [];
    assert Filter(list, p) == [list[0], list[3]];
  }

  /** Every option of the drop-down selects at least one patient of the shipped list. */
  lemma NoOptionEmptiesWaitingList(filter: string)
    requires filter in FilterOptions
    ensures |FilterWaitingList(WaitingList(), filter)| > 0
  {
    var list := WaitingList();
    var sample := if filter == "all" || filter == "high" then list[0]
                   else if filter == "medium" then list[1] else list[2];
    assert sample in list;
  }

  /** The badge text of an urgency tag; unknown tags read "Normal". */
  function UrgencyLabel(urgency: string): (text: string)
    ensures text == "Normal" <==> urgency !in KnownUrgencies
    ensures urgency == "high" ==> text == "Alta"
    ensures urgency == "medium" ==> text == "Media"
    ensures urgency == "low" ==> text == "Baja"
  {
    match urgency
    case "high" => "Alta"
    case "medium" => "Media"
    case "low" => "Baja"
    case _ => "Normal"
  }

  /** The badge colour of an urgency tag; the switch is total, unknown tags are gray. */
  function UrgencyColor(urgency: string): (tone: Tone)
    ensures tone == Gray <==> urgency !in KnownUrgencies
    ensures urgency == "high" ==> tone == Red
    ensures urgency == "medium" ==> tone == Yellow
    ensures urgency == "low" ==> tone == Green
  {
    match urgency
    case "high" => Red
    case "medium" => Yellow
    case "low" => Green
    case _ => Gray
  }

  /** Distinct known tags get distinct labels and distinct colours. */
  lemma UrgencyBadgesDistinguishTags(u: string, v: string)
    requires u in KnownUrgencies && v in KnownUrgencies && u != v
    ensures UrgencyLabel(u) != UrgencyLabel(v)
    ensures UrgencyColor(u) != UrgencyColor(v)
  {
  }

  /** The label falls back to "Normal" exactly when the colour falls back to gray. */
  lemma LabelAndColorFallBackTogether(u: string)
    ensures UrgencyLabel(u) == "Normal" <==> UrgencyColor(u) == Gray
  {
  }

  /** The colour of the score bar: red from 80, yellow from 60, green below. */
  function ScoreBand(score: int): (tone: Tone)
    ensures tone != Gray
    ensures tone == Red <==> score >= 80
    ensures tone == Yellow <==> 60 <= score < 80
    ensures tone == Green <==> score < 60
  {
    if score >= 80 then Red else if score >= 60 then Yellow else Green
  }

  /** A higher score never gets a less severe bar. */
  lemma ScoreBandMonotone(s: int, t: int)
    requires s <= t
    ensures Severity(ScoreBand(s)) <= Severity(ScoreBand(t))
  {
  }

  /** On the shipped list, each patient's score bar has the colour of their urgency badge. */
  lemma WaitingListBandsMatchUrgency(e: WaitingEntry)
    requires e in WaitingList()
    ensures ScoreBand(e.urgencyScore) == UrgencyColor(e.urgency)
  {
  }

  class AdminPanel {
    var selectedFilter: string
    var showEditModal: bool
    var selectedPatient: Option<WaitingEntry>

    constructor ()
      ensures selectedFilter == "all" && !showEditModal && selectedPatient == None
      ensures VisibleEntries() == WaitingList() && !EditModalShown()
    {
      selectedFilter := "all";
      showEditModal := false;
      selectedPatient := None;
    }

    /**
     * The rows of the table: the whole list under "all", otherwise exactly the
     * entries with the selected urgency, in list order.
     */
    function VisibleEntries(): (rows: seq<WaitingEntry>)
      reads this
      ensures selectedFilter == "all" ==> rows == WaitingList()
      ensures selectedFilter != "all" ==> forall e :: e in rows <==> e in WaitingList() && e.urgency == selectedFilter
      ensures IsSubsequence(rows, WaitingList())
    {
      FilterWaitingList(WaitingList(), selectedFilter)
    }

    /**
     * The empty-state message: never under "all", since the list is not empty;
     * under a tag, exactly when no patient of the list carries it.
     */
    function EmptyStateShown(): (shown: bool)
      reads this
      ensures shown <==> selectedFilter != "all" && forall e :: e in WaitingList() ==> e.urgency != selectedFilter
    {
      EmptyStateIff(WaitingList(), selectedFilter);
      |VisibleEntries()| == 0
    }

    /** The edit modal is rendered only when it is open and a patient is selected. */
    function EditModalShown(): (shown: bool)
      reads this
      ensures shown <==> showEditModal && selectedPatient != None
    {
      showEditModal && selectedPatient.Some?
    }

    /** Choosing an option of the drop-down. */
    method SetFilter(filter: string)
      modifies this
      ensures selectedFilter == filter
      ensures VisibleEntries() == FilterWaitingList(WaitingList(), filter)
      ensures showEditModal == old(showEditModal) && selectedPatient == old(selectedPatient)
    {
      selectedFilter := filter;
    }

    /** The edit button of a row: select the patient and open the modal. */
    method EditPatient(patient: WaitingEntry)
      modifies this
      ensures selectedPatient == Some(patient) && showEditModal && EditModalShown()
      ensures selectedFilter == old(selectedFilter)
    {
      selectedPatient := Some(patient);
      showEditModal := true;
    }

    /** "Cancelar" in the modal: close it, keeping the selection. */
    method CancelEdit()
      modifies this
      ensures !showEditModal && !EditModalShown()
      ensures selectedPatient == old(selectedPatient) && selectedFilter == old(selectedFilter)
    {
      showEditModal := false;
    }

    /** "Guardar Cambios" in the modal: close it; no patient data changes. */
    method SaveEdit()
      modifies this
      ensures !showEditModal && !EditModalShown()
      ensures selectedPatient == old(selectedPatient) && selectedFilter == old(selectedFilter)
      ensures VisibleEntries() == old(VisibleEntries())
    {
      showEditModal := false;
    }

    /**
     * The delete button of a row. Whatever the answer to the confirmation
     * dialog, the list, the filter and the modal stay as they are; the answer
     * only decides whether the notice of deletion is shown.
     */
    method DeletePatient(patientId: int, confirmed: bool) returns (noticeShown: bool)
      ensures noticeShown == confirmed
      ensures VisibleEntries() == old(VisibleEntries()) && selectedPatient == old(selectedPatient)
    {
      noticeShown := confirmed;
    }
  }
}
