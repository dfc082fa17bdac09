/**
 * The record page of one patient: its local copy of the records, the
 * newest-first display order, adding a record (doctor only) and the
 * role-dependent affordances.
 */
module PatientRecords {
  import opened Wrappers
  import opened UserRoles
  import opened Text
  import opened MockData
  import opened AddRecordForm

  /** A record with its id and attachments dropped: what the form would have emitted for it. */
  function DraftOf(r: MedicalRecord): RecordDraft
  {
    RecordDraft(r.date, r.hospital, r.department, r.diagnosis, r.notes)
  }

  /** `handleAddRecord`'s record: the submitted fields, the clock reading as id, no attachments. */
  function NewRecord(draft: RecordDraft, now: nat): (r: MedicalRecord)
    ensures DraftOf(r) == draft
    ensures r.id == NatToString(now) && r.attachments == None
  {
    MedicalRecord(NatToString(now), draft.date, draft.hospital, draft.department, draft.diagnosis, draft.notes, None)
  }

  /** A record made by `NewRecord` has no attachments, and its id reads back as the clock reading it was made at. */
  lemma NewRecordId(draft: RecordDraft, now: nat)
    ensures NewRecord(draft, now).attachments == None
    ensures DigitsValue(NewRecord(draft, now).id) == now
    ensures forall later: nat :: NewRecord(draft, later).id == NewRecord(draft, now).id ==> later == now
  {
    NatToStringRoundTrip(now);
    forall later: nat | NewRecord(draft, later).id == NewRecord(draft, now).id ensures later == now {
      NatToStringInjective(later, now);
    }
  }

  /** The comparator's quantity: the record's day. */
  function Key(r: MedicalRecord): (k: int)
    ensures k >= 0 <==> IsIsoDate(r.date)
  {
    DayKey(r.date)
  }

  // ---------------------------------------------------------------------------
  // Display order. The sort is stated for any key, so that reasoning about
  // order never has to look inside the date arithmetic.

  /** Descending by `key`: nothing below an element has a larger key. */
  predicate Descending<T>(key: T -> int, xs: seq<T>)
  {
    forall i, j :: 0 <= i < j < |xs| ==> key(xs[j]) <= key(xs[i])
  }

  /** Places `x` below the elements with a strictly larger key and above all the others. */
  function Insert<T(==)>(key: T -> int, x: T, xs: seq<T>): (out: seq<T>)
    ensures |out| == |xs| + 1
    ensures forall i :: 0 <= i < |out| ==> out[i] == x || out[i] in xs
  {
    if xs == [] then [x]
    else if key(xs[0]) > key(x) then
      assert xs == [xs[0]] + xs[1..];
      [xs[0]] + Insert(key, x, xs[1..])
    else [x] + xs
  }

  /** Inserting adds exactly the one element. */
  lemma {:induction false} InsertPermutes<T>(key: T -> int, x: T, xs: seq<T>)
    ensures multiset(Insert(key, x, xs)) == multiset(xs) + multiset{x}
  {
    if xs != [] && key(xs[0]) > key(x) {
      InsertPermutes(key, x, xs[1..]);
      assert xs == [xs[0]] + xs[1..];
      assert Insert(key, x, xs) == [xs[0]] + Insert(key, x, xs[1..]);
    }
  }

  /** Inserting into a descending list keeps it descending. */
  lemma {:induction false} InsertOrdered<T>(key: T -> int, x: T, xs: seq<T>)
    requires Descending(key, xs)
    ensures Descending(key, Insert(key, x, xs))
  {
    if xs == [] {
    } else if key(xs[0]) > key(x) {
      var tail := Insert(key, x, xs[1..]);
      assert Descending(key, xs[1..]);
      InsertOrdered(key, x, xs[1..]);
      var out := [xs[0]] + tail;
      assert Insert(key, x, xs) == out;
      forall i, j | 0 <= i < j < |out| ensures key(out[j]) <= key(out[i]) {
        if i == 0 {
          assert out[j] == tail[j - 1];
          if tail[j - 1] != x {
            var m :| 0 <= m < |xs[1..]| && xs[1..][m] == tail[j - 1];
            assert key(xs[m + 1]) <= key(xs[0]);
          }
        } else {
          assert out[i] == tail[i - 1] && out[j] == tail[j - 1];
        }
      }
    } else {
      var out := [x] + xs;
      forall i, j | 0 <= i < j < |out| ensures key(out[j]) <= key(out[i]) {
        if i == 0 {
          assert out[j] == xs[j - 1];
          assert key(xs[j - 1]) <= key(xs[0]);
        } else {
          assert out[i] == xs[i - 1] && out[j] == xs[j - 1];
        }
      }
    }
  }

  /**
   * `Array.prototype.sort` with a comparator that puts larger keys first:
   * a stable sort, here an insertion sort from the back of the list.
   */
  function SortDescending<T(==)>(key: T -> int, xs: seq<T>): (sorted: seq<T>)
    ensures |sorted| == |xs|
    ensures multiset(sorted) == multiset(xs)
    ensures Descending(key, sorted)
  {
    if xs == [] then []
    else
      assert xs == [xs[0]] + xs[1..];
      InsertOrdered(key, xs[0], SortDescending(key, xs[1..]));
      InsertPermutes(key, xs[0], SortDescending(key, xs[1..]));
      Insert(key, xs[0], SortDescending(key, xs[1..]))
  }

  /** The elements with key `k`, in list order. */
  function WithKey<T>(key: T -> int, xs: seq<T>, k: int): seq<T>
  {
    if xs == [] then []
    else (if key(xs[0]) == k then [xs[0]] else []) + WithKey(key, xs[1..], k)
  }

  lemma {:induction false} WithKeyInsert<T>(key: T -> int, x: T, xs: seq<T>, k: int)
    ensures WithKey(key, Insert(key, x, xs), k) == (if key(x) == k then [x] else []) + WithKey(key, xs, k)
  {
    var out := Insert(key, x, xs);
    if xs != [] && key(xs[0]) > key(x) {
      assert out == [xs[0]] + Insert(key, x, xs[1..]);
      assert out[1..] == Insert(key, x, xs[1..]);
      WithKeyInsert(key, x, xs[1..], k);
      if key(x) == k {
        assert key(xs[0]) != k;
      }
    } else {
      assert out == [x] + xs;
      assert out[1..] == xs;
    }
  }

  /** The sort is stable: the elements sharing any one key keep their relative order. */
  lemma {:induction false} SortStable<T>(key: T -> int, xs: seq<T>, k: int)
    ensures WithKey(key, SortDescending(key, xs), k) == WithKey(key, xs, k)
  {
    if xs != [] {
      SortStable(key, xs[1..], k);
      WithKeyInsert(key, xs[0], SortDescending(key, xs[1..]), k);
    }
  }

  /** A list that is already descending is left as it is. */
  lemma {:induction false} SortKeepsOrdered<T>(key: T -> int, xs: seq<T>)
    requires Descending(key, xs)
    ensures SortDescending(key, xs) == xs
  {
    if xs != [] {
      assert Descending(key, xs[1..]);
      SortKeepsOrdered(key, xs[1..]);
      if |xs| > 1 {
        assert key(xs[1]) <= key(xs[0]);
      }
    }
  }

  /** An element put in front of a list heads the sorted list exactly when no element has a larger key. */
  lemma SortedHeadIff<T>(key: T -> int, x: T, xs: seq<T>)
    ensures SortDescending(key, [x] + xs)[0] == x <==> forall y :: y in xs ==> key(y) <= key(x)
  {
    var s := SortDescending(key, xs);
    assert ([x] + xs)[1..] == xs;
    assert SortDescending(key, [x] + xs) == Insert(key, x, s);
    assert forall y :: y in xs <==> y in multiset(s);
    if s != [] {
      assert forall y :: y in xs ==> key(y) <= key(s[0]) by {
        forall y | y in xs ensures key(y) <= key(s[0]) {
          assert y in multiset(s);
          var i :| 0 <= i < |s| && s[i] == y;
        }
      }
      assert s[0] in multiset(xs);
      if key(s[0]) > key(x) {
        assert Insert(key, x, s)[0] == s[0];
      }
    }
  }

  /** Newest first: no record is dated after one above it. */
  predicate NewestFirst(rs: seq<MedicalRecord>)
  {
    Descending(Key, rs)
  }

  /**
   * `sortedRecords`: a copy of the records ordered newest first by a stable
   * sort; records of the same day keep their stored order.
   */
  function SortNewestFirst(rs: seq<MedicalRecord>): (sorted: seq<MedicalRecord>)
    ensures |sorted| == |rs|
    ensures multiset(sorted) == multiset(rs)
    ensures NewestFirst(sorted)
  {
    SortDescending(Key, rs)
  }

  /** When every record is dated, no displayed record names an earlier day than one below it. */
  lemma DisplayedByDate(rs: seq<MedicalRecord>)
    requires forall r :: r in rs ==> IsIsoDate(r.date)
    ensures forall i, j :: 0 <= i < j < |rs| ==> !DateBefore(SortNewestFirst(rs)[i].date, SortNewestFirst(rs)[j].date)
  {
    var sorted := SortNewestFirst(rs);
    forall i, j | 0 <= i < j < |rs|
      ensures !DateBefore(sorted[i].date, sorted[j].date)
    {
      assert sorted[i] in multiset(rs) && sorted[j] in multiset(rs);
      assert Key(sorted[j]) <= Key(sorted[i]);
      DayKeyOrder(sorted[i].date, sorted[j].date);
    }
  }

  /** Records of the same day are displayed in the order they are stored. */
  lemma SameDayKeepsStoredOrder(rs: seq<MedicalRecord>, day: int)
    ensures WithKey(Key, SortNewestFirst(rs), day) == WithKey(Key, rs, day)
  {
    SortStable(Key, rs, day);
  }

  /** Strictly descending adjacent dates make the whole list newest first. */
  lemma {:induction false} StrictlyNewestFirstIsNewestFirst(rs: seq<MedicalRecord>)
    requires StrictlyNewestFirst(rs)
    ensures NewestFirst(rs)
  {
    if |rs| > 1 {
      assert StrictlyNewestFirst(rs[1..]);
      StrictlyNewestFirstIsNewestFirst(rs[1..]);
      forall j | 0 < j < |rs| ensures Key(rs[j]) <= Key(rs[0]) {
        assert Key(rs[1]) < Key(rs[0]);
        if j > 1 {
          assert Key(rs[1..][j - 1]) <= Key(rs[1..][0]);
        }
      }
    }
  }

  /** The seeded patients' records are displayed in the order they are stored. */
  lemma SeedDisplayedAsStored(p: Patient)
    requires p in MockPatients
    ensures SortNewestFirst(p.records) == p.records
  {
    SeedRecordsNewestFirst();
    StrictlyNewestFirstIsNewestFirst(p.records);
    SortKeepsOrdered(Key, p.records);
  }

  /**
   * A record just added heads the display exactly when no stored record is
   * dated after it: adding does not by itself put the new record on top.
   */
  lemma NewRecordShownFirstIff(n: MedicalRecord, rs: seq<MedicalRecord>)
    ensures SortNewestFirst([n] + rs)[0] == n <==> forall r :: r in rs ==> Key(r) <= Key(n)
  {
    SortedHeadIff(Key, n, rs);
  }

  // ---------------------------------------------------------------------------
  // Role-dependent affordances

  /** The chat button: for a patient, and only when a chat callback was passed. */
  function ShowsChatButton(role: Role, hasChatCallback: bool): (shown: bool)
    ensures shown <==> hasChatCallback && !ShowsAddRecord(role)
  {
    role == Role.Patient && hasChatCallback
  }

  /** The add button and the form: for a doctor only. */
  function ShowsAddRecord(role: Role): (shown: bool)
    ensures shown <==> role.Doctor?
  {
    role == Doctor
  }

  /** No page offers both chatting and adding records. */
  lemma AffordancesExclusive(role: Role, hasChatCallback: bool)
    ensures !(ShowsChatButton(role, hasChatCallback) && ShowsAddRecord(role))
  {
  }

  /** The empty-list message: shown exactly when there are no records, whatever the sort does. */
  function ShowsNoRecordsMessage(rs: seq<MedicalRecord>): (shown: bool)
    ensures shown <==> rs == []
  {
    |SortNewestFirst(rs)| == 0
  }

  // ---------------------------------------------------------------------------
  // Page state

  class RecordsPanel {
    const role: Role
    var records: seq<MedicalRecord>
    var showAddForm: bool

    /** The page starts from the patient's records, with the form closed. */
    constructor (patient: Patient, role: Role)
      ensures this.role == role && records == patient.records && !showAddForm
    {
      this.role := role;
      records := patient.records;
      showAddForm := false;
    }

    /** The number on the count badge. */
    function RecordCount(): (n: nat)
      reads this
      ensures n == |records| && n == |SortedRecords()|
    {
      |records|
    }

    /** The cards, in display order. */
    function SortedRecords(): (sorted: seq<MedicalRecord>)
      reads this
      ensures multiset(sorted) == multiset(records) && NewestFirst(sorted)
    {
      SortNewestFirst(records)
    }

    method OpenAddForm()
      requires ShowsAddRecord(role)
      modifies this
      ensures showAddForm && records == old(records)
    {
      showAddForm := true;
    }

    method CloseAddForm()
      modifies this
      ensures !showAddForm && records == old(records)
    {
      showAddForm := false;
    }

    /**
     * `handleAddRecord`: prepends the new record to the local list and hands
     * the whole new list to `onUpdateRecords`. The stored list is not
     * reordered; only the display is sorted.
     */
    method AddRecord(draft: RecordDraft, now: nat) returns (updated: seq<MedicalRecord>)
      requires ShowsAddRecord(role)
      modifies this
      ensures records == [NewRecord(draft, now)] + old(records)
      ensures updated == records
      ensures showAddForm == old(showAddForm)
    {
      records := [NewRecord(draft, now)] + records;
      updated := records;
    }

    /**
     * Saving the open form: the form emits its data, the page adds the record
     * and reports the new list, the form resets and the dialog closes.
     */
    method SubmitForm(form: RecordForm, now: nat, today: string) returns (updated: seq<MedicalRecord>)
      requires ShowsAddRecord(role) && showAddForm && Filled(form.Data())
      modifies this, form
      ensures records == [NewRecord(old(form.Data()), now)] + old(records)
      ensures updated == records
      ensures !showAddForm && form.Data() == BlankDraft(today)
    {
      var draft := form.Submit(today);
      updated := AddRecord(draft, now);
      CloseAddForm();
    }
  }
}
