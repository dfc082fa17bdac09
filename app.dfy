/**
 * The application shell: which screen shows, who is using it, which patient
 * is open, and the roster of patients that record edits are written back to.
 */
module App {
  import opened Wrappers
  import opened UserRoles
  import opened MockData
  import opened CinLookup
  import Header

  /** The screens, one per value of `currentView`. */
  datatype View = RoleSelectionView | PatientLoginView | DoctorSearchView | PatientRecordsView | ChatbotView

  /** Where a role lands after choosing it, and where "back" from a record page returns to. */
  function HomeView(role: Role): (v: View)
    ensures v == DoctorSearchView <==> role.Doctor?
    ensures v == PatientLoginView <==> role.Patient?
  {
    if role == Doctor then DoctorSearchView else PatientLoginView
  }

  /**
   * `handleUpdateRecords`'s roster: every patient whose CIN equals `cin`
   * exactly gets the new records; everyone else is kept as is.
   */
  function UpdateRoster(ps: seq<Patient>, cin: string, records: seq<MedicalRecord>): (out: seq<Patient>)
    ensures |out| == |ps|
    ensures forall i :: 0 <= i < |ps| ==> out[i] == if ps[i].cin == cin then ps[i].(records := records) else ps[i]
  {
    if ps == [] then []
    else [if ps[0].cin == cin then ps[0].(records := records) else ps[0]] + UpdateRoster(ps[1..], cin, records)
  }

  /** Updating records never changes who is on the roster: the CINs stay as they were. */
  lemma UpdateKeepsCins(ps: seq<Patient>, cin: string, records: seq<MedicalRecord>)
    ensures Cins(UpdateRoster(ps, cin, records)) == Cins(ps)
  {
  }

  /** Any search over the updated roster stops at the same position as over the old one. */
  lemma {:induction false} UpdateKeepsFindIndex(ps: seq<Patient>, cin: string, records: seq<MedicalRecord>, query: string, mode: MatchMode)
    ensures FindIndex(UpdateRoster(ps, cin, records), query, mode) == FindIndex(ps, query, mode)
  {
    if ps != [] {
      var out := UpdateRoster(ps, cin, records);
      assert out[1..] == UpdateRoster(ps[1..], cin, records);
      UpdateKeepsFindIndex(ps[1..], cin, records, query, mode);
    }
  }

  /** After the records of a patient are written back, searching that patient again shows the new records. */
  lemma UpdateVisibleToSearch(ps: seq<Patient>, p: Patient, records: seq<MedicalRecord>, query: string)
    requires Find(ps, query, IgnoringCase) == Some(p)
    ensures Find(UpdateRoster(ps, p.cin, records), query, IgnoringCase) == Some(p.(records := records))
  {
    UpdateKeepsFindIndex(ps, p.cin, records, query, IgnoringCase);
  }

  class AppState {
    var patients: seq<Patient>
    var userRole: Option<Role>
    var currentView: View
    var selectedPatient: Option<Patient>

    /**
     * The states the handlers can reach: a role exactly off the role screen,
     * an open patient exactly on the record and chat screens, each screen
     * with the role that leads to it, the roster's CINs those of the seed,
     * and the open patient on the roster.
     */
    predicate Valid()
      reads this
    {
      && (userRole.None? <==> currentView == RoleSelectionView)
      && (selectedPatient.Some? <==> currentView == PatientRecordsView || currentView == ChatbotView)
      && (currentView == DoctorSearchView ==> userRole == Some(Doctor))
      && (currentView == PatientLoginView || currentView == ChatbotView ==> userRole == Some(Role.Patient))
      && Cins(patients) == SeedCins
      && (selectedPatient.Some? ==> exists i :: 0 <= i < |patients| && patients[i].cin == selectedPatient.value.cin)
    }

    /** The application opens on the role screen over the seed roster. */
    constructor ()
      ensures Valid()
      ensures patients == MockPatients && userRole == None && currentView == RoleSelectionView && selectedPatient == None
    {
      patients := MockPatients;
      SeedCinsListed();
      userRole := None;
      currentView := RoleSelectionView;
      selectedPatient := None;
    }

    /** Whether the header offers logout: exactly when a role is chosen, that is, off the role screen. */
    function LogoutOffered(): (offered: bool)
      reads this
      requires Valid()
      ensures offered <==> currentView != RoleSelectionView
    {
      userRole.Some?
    }

    /** The header's role badge key: shown exactly off the role screen. */
    function HeaderBadge(): (k: Option<string>)
      reads this
      requires Valid()
      ensures k.Some? <==> currentView != RoleSelectionView
      ensures currentView == DoctorSearchView ==> k == Some("doctorRole")
      ensures currentView == PatientLoginView || currentView == ChatbotView ==> k == Some("patientRole")
      ensures userRole.Some? ==> k == Some(if userRole.value == Doctor then "doctorRole" else "patientRole")
    {
      Header.RoleBadgeKey(userRole)
    }

    /** The record page renders when its view is current and both a patient and a role are set; the invariant makes the extra checks redundant. */
    function RecordPageRendered(): (shown: bool)
      reads this
      requires Valid()
      ensures shown <==> currentView == PatientRecordsView
    {
      currentView == PatientRecordsView && selectedPatient.Some? && userRole.Some?
    }

    /** The chat renders when its view is current and a patient is set; again only the view matters. */
    function ChatRendered(): (shown: bool)
      reads this
      requires Valid()
      ensures shown <==> currentView == ChatbotView
    {
      currentView == ChatbotView && selectedPatient.Some?
    }

    /**
     * `handleRoleSelection`: records the role and moves to that role's home
     * screen. It is reached from the role screen, and again within the same
     * click (see `ClickRoleButton`).
     */
    method SelectRole(role: Role)
      requires Valid()
      requires currentView == RoleSelectionView || (userRole == Some(role) && currentView == HomeView(role))
      modifies this
      ensures Valid()
      ensures userRole == Some(role) && currentView == HomeView(role)
      ensures patients == old(patients) && selectedPatient == old(selectedPatient)
    {
      userRole := Some(role);
      currentView := HomeView(role);
    }

    /**
     * A click on a role card's button: the button's handler and then the
     * card's handler both select the role. The second call changes nothing.
     */
    method ClickRoleButton(role: Role)
      requires Valid() && currentView == RoleSelectionView
      modifies this
      ensures Valid()
      ensures userRole == Some(role) && currentView == HomeView(role)
      ensures patients == old(patients) && selectedPatient == old(selectedPatient)
    {
      SelectRole(role);
      SelectRole(role);
    }

    /** `handlePatientLogin`: the seed patient the login found is opened. */
    method LogInPatient(p: Patient)
      requires Valid() && currentView == PatientLoginView && p in MockPatients
      modifies this
      ensures Valid()
      ensures selectedPatient == Some(p) && currentView == PatientRecordsView
      ensures patients == old(patients) && userRole == old(userRole)
    {
      SeedCinsListed();
      var i :| 0 <= i < |MockPatients| && MockPatients[i] == p;
      assert patients[i].cin == Cins(patients)[i] == Cins(MockPatients)[i];
      selectedPatient := Some(p);
      currentView := PatientRecordsView;
    }

    /** `handleDoctorPatientFound`: the roster patient the search found is opened. */
    method OpenFoundPatient(p: Patient)
      requires Valid() && currentView == DoctorSearchView && p in patients
      modifies this
      ensures Valid()
      ensures selectedPatient == Some(p) && currentView == PatientRecordsView
      ensures patients == old(patients) && userRole == old(userRole)
    {
      var i :| 0 <= i < |patients| && patients[i] == p;
      selectedPatient := Some(p);
      currentView := PatientRecordsView;
    }

    /** `handleBack`: closes the patient and returns to the role's home screen. */
    method Back()
      requires Valid() && currentView == PatientRecordsView
      modifies this
      ensures Valid()
      ensures selectedPatient == None && currentView == HomeView(old(userRole).value)
      ensures patients == old(patients) && userRole == old(userRole)
    {
      selectedPatient := None;
      currentView := HomeView(userRole.value);
    }

    /** `handleLogout` (also the login screen's back button): forgets role and patient; the roster survives. */
    method Logout()
      requires Valid()
      modifies this
      ensures Valid()
      ensures userRole == None && selectedPatient == None && currentView == RoleSelectionView
      ensures patients == old(patients)
    {
      userRole := None;
      selectedPatient := None;
      currentView := RoleSelectionView;
    }

    /**
     * `handleUpdateRecords`: with a patient open, the roster entries with its
     * CIN and the open patient take the new records; with none, nothing happens.
     */
    method UpdateRecords(records: seq<MedicalRecord>)
      requires Valid()
      modifies this
      ensures Valid()
      ensures old(selectedPatient).None? ==> patients == old(patients) && selectedPatient == None
      ensures old(selectedPatient).Some? ==>
        && patients == UpdateRoster(old(patients), old(selectedPatient).value.cin, records)
        && selectedPatient == Some(old(selectedPatient).value.(records := records))
      ensures userRole == old(userRole) && currentView == old(currentView)
    {
      if selectedPatient.Some? {
        var p := selectedPatient.value;
        UpdateKeepsCins(patients, p.cin, records);
        var i :| 0 <= i < |patients| && patients[i].cin == p.cin;
        patients := UpdateRoster(patients, p.cin, records);
        assert patients[i].cin == p.cin;
        selectedPatient := Some(p.(records := records));
      }
    }

    /** `handleNavigateToChatbot`: the chat button exists only on a patient's own record page. */
    method OpenChat()
      requires Valid() && currentView == PatientRecordsView && userRole == Some(Role.Patient)
      modifies this
      ensures Valid()
      ensures currentView == ChatbotView
      ensures patients == old(patients) && userRole == old(userRole) && selectedPatient == old(selectedPatient)
    {
      currentView := ChatbotView;
    }

    /** `handleBackFromChatbot`: back to the same patient's record page. */
    method CloseChat()
      requires Valid() && currentView == ChatbotView
      modifies this
      ensures Valid()
      ensures currentView == PatientRecordsView
      ensures patients == old(patients) && userRole == old(userRole) && selectedPatient == old(selectedPatient)
    {
      currentView := PatientRecordsView;
    }
  }
}
