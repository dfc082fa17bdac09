/**
 * The doctor's search screen: a CIN looked up case-insensitively in the
 * roster the application passes in, an error flag that only a search
 * changes, and one example button per roster entry.
 */
module CinSearch {
  import opened Wrappers
  import opened Text
  import opened MockData
  import opened CinLookup

  /** `handleSearch`'s lookup: the first roster entry whose upper-cased CIN equals the upper-cased query. */
  function SearchLookup(ps: seq<Patient>, query: string): (r: Option<Patient>)
    ensures r.Some? ==> r.value in ps && ToUpper(r.value.cin) == ToUpper(query)
    ensures r.None? <==> forall j :: 0 <= j < |ps| ==> ToUpper(ps[j].cin) != ToUpper(query)
    ensures r.Some? ==>
      exists i :: 0 <= i < |ps| && r.value == ps[i] && ToUpper(ps[i].cin) == ToUpper(query) &&
        forall j :: 0 <= j < i ==> ToUpper(ps[j].cin) != ToUpper(query)
  {
    Find(ps, query, IgnoringCase)
  }

  /**
   * With case-insensitively distinct CINs, the i-th example button
   * (`exampleCINs`, the roster's `Cins`), and any case variant of it, finds
   * exactly the i-th patient.
   */
  lemma ExampleFindsItsPatient(ps: seq<Patient>, i: nat, query: string)
    requires DistinctIgnoringCase(ps)
    requires i < |ps| && SameIgnoringCase(query, ps[i].cin)
    ensures SearchLookup(ps, Cins(ps)[i]) == Some(ps[i])
    ensures SearchLookup(ps, query) == Some(ps[i])
  {
    assert SameIgnoringCase(ps[i].cin, ps[i].cin);
    FindCaseVariant(ps, i, ps[i].cin);
    FindCaseVariant(ps, i, query);
  }

  /** A search fails exactly when no roster CIN agrees with the query up to ASCII case. */
  lemma SearchMissIff(ps: seq<Patient>, query: string)
    ensures SearchLookup(ps, query).None? <==> forall p :: p in ps ==> !SameIgnoringCase(p.cin, query)
  {
    forall p | p in ps ensures CinMatches(IgnoringCase, p.cin, query) <==> SameIgnoringCase(p.cin, query) {
      ToUpperEqIff(p.cin, query);
    }
  }

  class SearchForm {
    const patients: seq<Patient>
    var cin: string
    var showError: bool

    /** The screen opens on the given roster with an empty field and no error. */
    constructor (patients: seq<Patient>)
      ensures this.patients == patients && cin == "" && !showError
    {
      this.patients := patients;
      cin := "";
      showError := false;
    }

    /** Typing replaces the field; unlike the login screen it leaves the error showing. */
    method Edit(text: string)
      modifies this
      ensures cin == text && showError == old(showError)
    {
      cin := text;
    }

    /** An example button fills in its CIN and, again, leaves the error as it was. */
    method UseExample(example: string)
      requires example in Cins(patients)
      modifies this
      ensures cin == example && showError == old(showError)
      ensures SearchLookup(patients, cin).Some?
    {
      cin := example;
      var i :| 0 <= i < |patients| && Cins(patients)[i] == example;
      assert CinMatches(IgnoringCase, patients[i].cin, example);
    }

    /**
     * `handleSearch`: the error shows exactly when nothing was found; a hit
     * is handed to `onPatientFound`. The typed text is kept.
     */
    method Submit() returns (found: Option<Patient>)
      modifies this
      ensures found == SearchLookup(patients, cin) && cin == old(cin)
      ensures showError <==> found.None?
      ensures found.Some? ==> found.value in patients
    {
      found := SearchLookup(patients, cin);
      showError := found.None?;
    }
  }
}
