/**
 * The patient's login screen: a CIN typed exactly as stored, looked up in
 * the seed roster (not in the application's live roster), with an error
 * flag that any edit clears.
 */
module PatientLogin {
  import opened Wrappers
  import opened Text
  import opened MockData
  import opened CinLookup

  /** `handleLogin`'s lookup: the first seed patient whose CIN equals the typed text exactly. */
  function LoginLookup(cin: string): (r: Option<Patient>)
    ensures r.Some? ==> r.value in MockPatients && r.value.cin == cin
    ensures r.None? <==> forall j :: 0 <= j < |MockPatients| ==> MockPatients[j].cin != cin
  {
    Find(MockPatients, cin, Exact)
  }

  /** Every seed patient can log in with their own CIN, and a login only ever yields a seed patient. */
  lemma LoginFindsSeedPatient(p: Patient, cin: string)
    requires p in MockPatients
    ensures LoginLookup(p.cin) == Some(p)
    ensures LoginLookup(cin).Some? ==> LoginLookup(cin).value in MockPatients && LoginLookup(cin).value.cin == cin
  {
    SeedCinsDistinct();
    var k :| 0 <= k < |MockPatients| && MockPatients[k] == p;
    FindExactOwnCin(MockPatients, k);
  }

  /** The login is case-sensitive: a lower-case CIN is refused although the doctor's search accepts it. */
  lemma LoginIsCaseSensitive()
    ensures LoginLookup("ab123456") == None
    ensures Find(MockPatients, "ab123456", IgnoringCase) == Some(AhmedBenSalem)
  {
    SeedDistinctIgnoringCase();
    assert MockPatients[0] == AhmedBenSalem;
    assert SameIgnoringCase("ab123456", AhmedBenSalem.cin);
    FindCaseVariant(MockPatients, 0, "ab123456");
    var q := "ab123456";
    assert q[0] == 'a';
    assert AhmedBenSalem.cin[0] == 'A' && FatimaGharbi.cin[0] == 'C' && MohamedTrabelsi.cin[0] == 'E';
    assert NoMatch(MockPatients, q, Exact);
  }

  class LoginForm {
    var cin: string
    var error: bool

    /** The screen opens with an empty field and no error. */
    constructor ()
      ensures cin == "" && !error
    {
      cin := "";
      error := false;
    }

    /** Typing replaces the field and hides the error. */
    method Edit(text: string)
      modifies this
      ensures cin == text && !error
    {
      cin := text;
      error := false;
    }

    /** The example buttons appear only inside the error alert; a click fills in that patient's CIN and hides the error. */
    method UseExample(p: Patient)
      requires error && p in MockPatients
      modifies this
      ensures cin == p.cin && !error
      ensures LoginLookup(cin) == Some(p)
    {
      cin := p.cin;
      error := false;
      LoginFindsSeedPatient(p, cin);
    }

    /**
     * `handleLogin`: a hit is handed to `onLogin` and leaves the error flag
     * as it was; a miss raises the error. The typed text is kept either way.
     */
    method Submit() returns (found: Option<Patient>)
      modifies this
      ensures found == LoginLookup(cin) && cin == old(cin)
      ensures found.None? ==> error
      ensures found.Some? ==> error == old(error) && found.value in MockPatients
    {
      found := LoginLookup(cin);
      if found.None? {
        error := true;
      }
    }
  }
}
