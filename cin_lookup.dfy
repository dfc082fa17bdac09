/**
 * Finding a patient by CIN: the first roster entry whose CIN matches the
 * typed query. The doctor's search compares upper-cased CINs; the patient's
 * login compares them exactly. Both are the same linear search.
 */
module CinLookup {
  import opened Wrappers
  import opened Text
  import opened MockData

  datatype MatchMode = IgnoringCase | Exact

  /** Whether a stored CIN answers a typed query. */
  predicate CinMatches(mode: MatchMode, cin: string, query: string)
  {
    match mode
    case IgnoringCase => ToUpper(cin) == ToUpper(query)
    case Exact => cin == query
  }

  /** No match at any index of `ps`. */
  predicate NoMatch(ps: seq<Patient>, query: string, mode: MatchMode)
  {
    forall j :: 0 <= j < |ps| ==> !CinMatches(mode, ps[j].cin, query)
  }

  /** The index `Array.prototype.find` stops at: the first match, or none. */
  function FindIndex(ps: seq<Patient>, query: string, mode: MatchMode): (r: Option<nat>)
    ensures r.None? <==> NoMatch(ps, query, mode)
    ensures r.Some? ==> r.value < |ps| && CinMatches(mode, ps[r.value].cin, query)
    ensures r.Some? ==> forall j :: 0 <= j < r.value ==> !CinMatches(mode, ps[j].cin, query)
  {
    if ps == [] then None
    else if CinMatches(mode, ps[0].cin, query) then Some(0)
    else match FindIndex(ps[1..], query, mode)
      case None => None
      case Some(i) => Some(i + 1)
  }

  /** The patient `Array.prototype.find` returns: the first one whose CIN matches. */
  function Find(ps: seq<Patient>, query: string, mode: MatchMode): (r: Option<Patient>)
    ensures r.None? <==> NoMatch(ps, query, mode)
    ensures r.Some? ==> r.value in ps && CinMatches(mode, r.value.cin, query)
    ensures r.Some? ==>
      exists i :: 0 <= i < |ps| && r.value == ps[i] && CinMatches(mode, ps[i].cin, query) &&
        forall j :: 0 <= j < i ==> !CinMatches(mode, ps[j].cin, query)
  {
    match FindIndex(ps, query, mode)
    case None => None
    case Some(i) => Some(ps[i])
  }

  /** No two patients of `ps` have CINs that agree up to ASCII case. */
  predicate DistinctIgnoringCase(ps: seq<Patient>)
  {
    forall i, j :: 0 <= i < j < |ps| ==> ToUpper(ps[i].cin) != ToUpper(ps[j].cin)
  }

  /** Case-insensitively distinct CINs are in particular distinct. */
  lemma DistinctIgnoringCaseIsDistinct(ps: seq<Patient>)
    requires DistinctIgnoringCase(ps)
    ensures forall i, j :: 0 <= i < j < |ps| ==> ps[i].cin != ps[j].cin
  {
  }

  /** With case-insensitively distinct CINs, any ASCII case variant of a CIN finds its patient. */
  lemma FindCaseVariant(ps: seq<Patient>, k: nat, query: string)
    requires DistinctIgnoringCase(ps)
    requires k < |ps| && SameIgnoringCase(query, ps[k].cin)
    ensures FindIndex(ps, query, IgnoringCase) == Some(k)
    ensures Find(ps, query, IgnoringCase) == Some(ps[k])
  {
    ToUpperEqIff(query, ps[k].cin);
    assert CinMatches(IgnoringCase, ps[k].cin, query);
  }

  /** With distinct CINs, each patient's own CIN typed exactly finds that patient. */
  lemma FindExactOwnCin(ps: seq<Patient>, k: nat)
    requires forall i, j :: 0 <= i < j < |ps| ==> ps[i].cin != ps[j].cin
    requires k < |ps|
    ensures FindIndex(ps, ps[k].cin, Exact) == Some(k)
    ensures Find(ps, ps[k].cin, Exact) == Some(ps[k])
  {
    assert CinMatches(Exact, ps[k].cin, ps[k].cin);
  }

  /** The seed's CINs are upper-case and distinct, so they stay distinct up to case. */
  lemma SeedDistinctIgnoringCase()
    ensures DistinctIgnoringCase(MockPatients)
  {
    SeedCinsDistinct();
    forall i | 0 <= i < |MockPatients| ensures ToUpper(MockPatients[i].cin) == MockPatients[i].cin {
      assert IsUpper(MockPatients[i].cin);
      ToUpperOfUpper(MockPatients[i].cin);
    }
  }
}
