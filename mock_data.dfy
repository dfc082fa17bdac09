/**
 * The data model of the record viewer — attachments, medical records and
 * patients — and the roster every session starts from.
 */
module MockData {
  import opened Wrappers
  import Text

  /** A typed reference to supporting media. `kind` is the source's `type` field. */
  datatype MedicalAttachment = MedicalAttachment(id: string, kind: string, name: string, url: string)

  /** One visit. `attachments` is optional: a record created from the form has none. */
  datatype MedicalRecord = MedicalRecord(
    id: string,
    date: string,
    hospital: string,
    department: string,
    diagnosis: string,
    notes: string,
    attachments: Option<seq<MedicalAttachment>>)

  /** A patient, identified by their national identity-card number `cin`. */
  datatype Patient = Patient(cin: string, name: string, dateOfBirth: string, gender: string, records: seq<MedicalRecord>)

  /**
   * The attachment tags the type declaration admits. The declaration is erased
   * at run time, so a tag is kept as the string it is and the tag set as a predicate.
   */
  const AttachmentTags: seq<string> := ["xray", "scan", "lab", "ecg", "document", "prescription"]

  predicate IsAttachmentTag(tag: string)
  {
    tag in AttachmentTags
  }

  // ---------------------------------------------------------------------------
  // Calendar dates `YYYY-MM-DD` (ISO 8601:2004 section 5.2.1.1, extended format)

  /** The four characters of the year, the two of the month and the two of the day are digits, hyphens between. */
  predicate IsDateShape(s: string)
  {
    && |s| == 10
    && Text.IsDigit(s[0]) && Text.IsDigit(s[1]) && Text.IsDigit(s[2]) && Text.IsDigit(s[3])
    && s[4] == '-'
    && Text.IsDigit(s[5]) && Text.IsDigit(s[6])
    && s[7] == '-'
    && Text.IsDigit(s[8]) && Text.IsDigit(s[9])
  }

  /** A helper of `DayKey`: the year the first four digits spell. */
  function Year(s: string): (y: nat)
    requires IsDateShape(s)
    ensures y <= 9999
  {
    Text.DigitValue(s[0]) * 1000 + Text.DigitValue(s[1]) * 100 + Text.DigitValue(s[2]) * 10 + Text.DigitValue(s[3])
  }

  /** A helper of `DayKey`: the month the two digits after the first hyphen spell. */
  function Month(s: string): (m: nat)
    requires IsDateShape(s)
    ensures m <= 99
  {
    Text.DigitValue(s[5]) * 10 + Text.DigitValue(s[6])
  }

  /** A helper of `DayKey`: the day the last two digits spell. */
  function Day(s: string): (d: nat)
    requires IsDateShape(s)
    ensures d <= 99
  {
    Text.DigitValue(s[8]) * 10 + Text.DigitValue(s[9])
  }

  /** A date `YYYY-MM-DD` with a month from 01 to 12 and a day from 01 to 31. */
  predicate IsIsoDate(s: string)
  {
    IsDateShape(s) && 1 <= Month(s) <= 12 && 1 <= Day(s) <= 31
  }

  /**
   * The day a date names, as the integer `YYYYMMDD`: chronological order on
   * dates is numeric order on these keys (`DayKeyOrder`). A string that is
   * not a date has key -1.
   */
  function DayKey(s: string): (k: int)
    ensures IsIsoDate(s) <==> k >= 0
  {
    if IsIsoDate(s) then Year(s) * 10000 + Month(s) * 100 + Day(s) else -1
  }

  /** Calendar order: `a` names an earlier day than `b` when its (year, month, day) comes first in lexicographic order. */
  predicate DateBefore(a: string, b: string)
  {
    && IsDateShape(a) && IsDateShape(b)
    && (|| Year(a) < Year(b)
        || (Year(a) == Year(b) && Month(a) < Month(b))
        || (Year(a) == Year(b) && Month(a) == Month(b) && Day(a) < Day(b)))
  }

  /** One date's key is below another's exactly when it names an earlier day. */
  lemma DayKeyOrder(a: string, b: string)
    requires IsIsoDate(a) && IsIsoDate(b)
    ensures DayKey(a) < DayKey(b) <==> DateBefore(a, b)
  {
    if Year(a) < Year(b) {
      assert DayKey(a) < (Year(a) + 1) * 10000 <= DayKey(b);
    } else if Year(b) < Year(a) {
      assert DayKey(b) < (Year(b) + 1) * 10000 <= DayKey(a);
    }
  }

  /** Two digits with the same value are the same character. */
  lemma DigitValueInjective(c: char, d: char)
    requires Text.IsDigit(c) && Text.IsDigit(d) && Text.DigitValue(c) == Text.DigitValue(d)
    ensures c == d
  {
    assert c == Text.DigitChar(Text.DigitValue(c));
    assert d == Text.DigitChar(Text.DigitValue(d));
  }

  /** Two decimal digits are determined by the number they spell. */
  lemma TwoDigitsInjective(d1: nat, d0: nat, e1: nat, e0: nat)
    requires d1 < 10 && d0 < 10 && e1 < 10 && e0 < 10
    requires d1 * 10 + d0 == e1 * 10 + e0
    ensures d1 == e1 && d0 == e0
  {
  }

  /** A four-digit number is determined by its two halves. */
  lemma HalvesInjective(h1: nat, l1: nat, h2: nat, l2: nat)
    requires l1 < 100 && l2 < 100
    requires h1 * 100 + l1 == h2 * 100 + l2
    ensures h1 == h2 && l1 == l2
  {
  }

  /** Two dates with the same year, month and day are the same string. */
  lemma SameFieldsSameDate(a: string, b: string)
    requires IsDateShape(a) && IsDateShape(b)
    requires Year(a) == Year(b) && Month(a) == Month(b) && Day(a) == Day(b)
    ensures a == b
  {
    var v := Text.DigitValue;
    HalvesInjective(v(a[0]) * 10 + v(a[1]), v(a[2]) * 10 + v(a[3]), v(b[0]) * 10 + v(b[1]), v(b[2]) * 10 + v(b[3]));
    TwoDigitsInjective(v(a[0]), v(a[1]), v(b[0]), v(b[1]));
    TwoDigitsInjective(v(a[2]), v(a[3]), v(b[2]), v(b[3]));
    TwoDigitsInjective(v(a[5]), v(a[6]), v(b[5]), v(b[6]));
    TwoDigitsInjective(v(a[8]), v(a[9]), v(b[8]), v(b[9]));
    forall i | 0 <= i < 10 && i != 4 && i != 7
      ensures a[i] == b[i]
    {
      DigitValueInjective(a[i], b[i]);
    }
    assert forall i :: 0 <= i < 10 ==> a[i] == b[i];
  }

  /** Two dates have the same key exactly when they are the same string. */
  lemma DayKeyInjective(a: string, b: string)
    requires IsIsoDate(a) && IsIsoDate(b)
    ensures DayKey(a) == DayKey(b) <==> a == b
  {
    if DayKey(a) == DayKey(b) {
      DayKeyOrder(a, b);
      DayKeyOrder(b, a);
      SameFieldsSameDate(a, b);
    }
  }

  // ---------------------------------------------------------------------------
  // Views of a roster used to state facts about it

  predicate Distinct<T(==)>(s: seq<T>)
  {
    forall i, j :: 0 <= i < j < |s| ==> s[i] != s[j]
  }

  /** Strictly newest first: each record is dated after the one below it. */
  predicate StrictlyNewestFirst(rs: seq<MedicalRecord>)
  {
    forall i :: 0 <= i < |rs| - 1 ==> DayKey(rs[i].date) > DayKey(rs[i + 1].date)
  }

  /** The records of every patient, in roster order. */
  function AllRecords(ps: seq<Patient>): seq<MedicalRecord>
  {
    if ps == [] then [] else ps[0].records + AllRecords(ps[1..])
  }

  /** The attachments of every record, in order (a record without attachments contributes none). */
  function AllAttachments(rs: seq<MedicalRecord>): seq<MedicalAttachment>
  {
    if rs == [] then [] else rs[0].attachments.GetOr([]) + AllAttachments(rs[1..])
  }

  function RecordIds(rs: seq<MedicalRecord>): seq<string>
  {
    seq(|rs|, i requires 0 <= i < |rs| => rs[i].id)
  }

  function AttachmentKinds(atts: seq<MedicalAttachment>): seq<string>
  {
    seq(|atts|, i requires 0 <= i < |atts| => atts[i].kind)
  }

  function AttachmentIds(atts: seq<MedicalAttachment>): seq<string>
  {
    seq(|atts|, i requires 0 <= i < |atts| => atts[i].id)
  }

  // ---------------------------------------------------------------------------
  // The seed roster

  const Record1: MedicalRecord :=
    MedicalRecord("1", "2024-10-15", "Hôpital Habib Thameur", "Cardiologie", "Hypertension artérielle",
      "Tension artérielle : 145/95 mmHg. Prescription de médicaments antihypertenseurs. Suivi dans 3 mois.",
      Some([
        MedicalAttachment("att1", "ecg", "ECG - Électrocardiogramme",
          "photo-1682706841289-9d7ddf5eb999"),
        MedicalAttachment("att2", "lab", "Résultats d'analyses sanguines",
          "photo-1672566954988-d62513f9c198"),
        MedicalAttachment("att3", "prescription", "Ordonnance médicale",
          "photo-1550572017-54b7f54d1f75")
      ]))

  const Record2: MedicalRecord :=
    MedicalRecord("2", "2024-08-20", "Clinique La Soukra", "Médecine générale", "Grippe saisonnière",
      "Symptômes grippaux typiques. Repos recommandé. Paracétamol prescrit.",
      Some([
        MedicalAttachment("att4", "prescription", "Ordonnance - Paracétamol",
          "photo-1550572017-54b7f54d1f75")
      ]))

  const Record3: MedicalRecord :=
    MedicalRecord("3", "2024-05-10", "Hôpital Charles Nicolle", "Orthopédie", "Entorse de la cheville",
      "Entorse modérée. Bandage compressif. Éviter l'appui pendant 1 semaine.",
      Some([
        MedicalAttachment("att5", "xray", "Radiographie - Cheville",
          "photo-1758691461957-13aff0c37c6f"),
        MedicalAttachment("att6", "document", "Rapport médical",
          "photo-1620933967796-53cc2b175b6c")
      ]))

  const AhmedBenSalem: Patient :=
    Patient("AB123456", "Ahmed Ben Salem", "1985-03-15", "M", [Record1, Record2, Record3])

  const Record4: MedicalRecord :=
    MedicalRecord("4", "2024-09-30", "Clinique Hannibal", "Gynécologie", "Consultation prénatale",
      "Grossesse de 12 semaines. Échographie normale. Vitamines prénatales prescrites.",
      Some([
        MedicalAttachment("att7", "scan", "Échographie prénatale",
          "photo-1698913464331-b71a8d32b4da"),
        MedicalAttachment("att8", "lab", "Analyses sanguines",
          "photo-1672566954988-d62513f9c198")
      ]))

  const Record5: MedicalRecord :=
    MedicalRecord("5", "2024-06-18", "Hôpital Habib Thameur", "Dermatologie", "Eczéma",
      "Plaques eczémateuses sur les bras. Crème corticoïde prescrite. Éviter les allergènes.",
      Some([
        MedicalAttachment("att9", "document", "Rapport dermatologique",
          "photo-1620933967796-53cc2b175b6c")
      ]))

  const FatimaGharbi: Patient :=
    Patient("CD789012", "Fatima Gharbi", "1992-07-22", "F", [Record4, Record5])

  const Record6: MedicalRecord :=
    MedicalRecord("6", "2024-10-25", "Hôpital Mongi Slim", "Endocrinologie", "Diabète de type 2",
      "Glycémie à jeun : 180 mg/dL. Régime alimentaire et exercice recommandés. Metformine prescrite.",
      Some([
        MedicalAttachment("att10", "lab", "Test de glycémie",
          "photo-1672566954988-d62513f9c198"),
        MedicalAttachment("att11", "prescription", "Ordonnance - Metformine",
          "photo-1550572017-54b7f54d1f75"),
        MedicalAttachment("att12", "document", "Rapport endocrinologique",
          "photo-1620933967796-53cc2b175b6c")
      ]))

  const MohamedTrabelsi: Patient :=
    Patient("EF345678", "Mohamed Trabelsi", "1978-11-30", "M", [Record6])

  /** The roster a session starts from, in display order. */
  const MockPatients: seq<Patient> := [AhmedBenSalem, FatimaGharbi, MohamedTrabelsi]

  /** The seed's CINs, in roster order. */
  const SeedCins: seq<string> := ["AB123456", "CD789012", "EF345678"]

  /** The CINs of a roster, in roster order: the search screen's example buttons. */
  function Cins(ps: seq<Patient>): (cins: seq<string>)
    ensures |cins| == |ps| && forall i :: 0 <= i < |ps| ==> cins[i] == ps[i].cin
  {
    seq(|ps|, i requires 0 <= i < |ps| => ps[i].cin)
  }

  // ---------------------------------------------------------------------------
  // Facts about the seed

  lemma SeedCinsListed()
    ensures Cins(MockPatients) == SeedCins
  {
  }

  lemma SeedCinsDistinct()
    ensures |MockPatients| == 3
    ensures forall i, j :: 0 <= i < j < |MockPatients| ==> MockPatients[i].cin != MockPatients[j].cin
  {
  }

  /** The seed's records, patient by patient. */
  lemma SeedRecords()
    ensures AllRecords(MockPatients) == AhmedBenSalem.records + FatimaGharbi.records + MohamedTrabelsi.records
  {
    var ps := MockPatients;
    assert ps[1..] == [FatimaGharbi, MohamedTrabelsi];
    assert ps[1..][1..] == [MohamedTrabelsi];
    assert AllRecords([MohamedTrabelsi]) == MohamedTrabelsi.records + AllRecords([]);
    assert AllRecords(ps[1..]) == FatimaGharbi.records + AllRecords([MohamedTrabelsi]);
    assert AllRecords(ps) == AhmedBenSalem.records + AllRecords(ps[1..]);
  }

  lemma {:induction false} AllAttachmentsAppend(rs: seq<MedicalRecord>, ts: seq<MedicalRecord>)
    ensures AllAttachments(rs + ts) == AllAttachments(rs) + AllAttachments(ts)
  {
    if rs == [] {
      assert rs + ts == ts;
    } else {
      assert (rs + ts)[1..] == rs[1..] + ts;
      AllAttachmentsAppend(rs[1..], ts);
    }
  }

  /** The attachments of one record list, unfolded for a list of at most three records. */
  lemma AttachmentsOfShort(rs: seq<MedicalRecord>)
    requires |rs| <= 3
    ensures AllAttachments(rs) ==
      (if |rs| > 0 then rs[0].attachments.GetOr([]) else [])
      + (if |rs| > 1 then rs[1].attachments.GetOr([]) else [])
      + (if |rs| > 2 then rs[2].attachments.GetOr([]) else [])
  {
    if rs != [] {
      if |rs| > 1 {
        if |rs| > 2 {
          assert AllAttachments(rs[1..][1..][1..]) == [];
        }
        assert AllAttachments(rs[1..]) == rs[1].attachments.GetOr([]) + AllAttachments(rs[1..][1..]);
      }
    }
  }

  /** The seed's attachments, record by record. */
  lemma SeedAttachments()
    ensures AllAttachments(AllRecords(MockPatients))
         == AllAttachments(AhmedBenSalem.records) + AllAttachments(FatimaGharbi.records) + AllAttachments(MohamedTrabelsi.records)
  {
    SeedRecords();
    AllAttachmentsAppend(AhmedBenSalem.records + FatimaGharbi.records, MohamedTrabelsi.records);
    AllAttachmentsAppend(AhmedBenSalem.records, FatimaGharbi.records);
  }

  lemma SeedRecordIdsDistinct()
    ensures RecordIds(AllRecords(MockPatients)) == ["1", "2", "3", "4", "5", "6"]
    ensures Distinct(RecordIds(AllRecords(MockPatients)))
  {
    SeedRecords();
  }

  /** The seed's attachment ids, in roster order. */
  const SeedAttachmentIds: seq<string> :=
    ["att1", "att2", "att3", "att4", "att5", "att6", "att7", "att8", "att9", "att10", "att11", "att12"]

  lemma SeedAttachmentIdList()
    ensures AttachmentIds(AllAttachments(AllRecords(MockPatients))) == SeedAttachmentIds
  {
    SeedAttachments();
    AttachmentsOfShort(AhmedBenSalem.records);
    AttachmentsOfShort(FatimaGharbi.records);
    AttachmentsOfShort(MohamedTrabelsi.records);
  }

  lemma SeedAttachmentIdsDistinct()
    ensures Distinct(AttachmentIds(AllAttachments(AllRecords(MockPatients))))
  {
    SeedAttachmentIdList();
    AttachmentIdListDistinct();
  }

  lemma AttachmentIdListDistinct()
    ensures Distinct(SeedAttachmentIds)
  {
    var ids := SeedAttachmentIds;
    forall i, j | 0 <= i < j < |ids| ensures ids[i] != ids[j] {
      assert |ids[i]| < |ids[j]| || ids[i][3] != ids[j][3] || ids[i][4] != ids[j][4];
    }
  }

  lemma SeedAttachmentTags()
    ensures forall a :: a in AllAttachments(AllRecords(MockPatients)) ==> IsAttachmentTag(a.kind)
  {
    var atts := AllAttachments(AllRecords(MockPatients));
    SeedAttachments();
    AttachmentsOfShort(AhmedBenSalem.records);
    AttachmentsOfShort(FatimaGharbi.records);
    AttachmentsOfShort(MohamedTrabelsi.records);
    var kinds := AttachmentKinds(atts);
    assert kinds == ["ecg", "lab", "prescription", "prescription", "xray", "document",
                     "scan", "lab", "document", "lab", "prescription", "document"];
    forall a | a in atts ensures IsAttachmentTag(a.kind) {
      var i :| 0 <= i < |atts| && atts[i] == a;
      assert kinds[i] == a.kind;
    }
  }

  /** The seed's records, in roster order. */
  lemma SeedRecordList()
    ensures AllRecords(MockPatients) == [Record1, Record2, Record3, Record4, Record5, Record6]
  {
    SeedRecords();
  }

  /** The day keys of the first patient's records. */
  lemma SeedDayKeysAhmed()
    ensures Record1.date == "2024-10-15" && DayKey("2024-10-15") == 20241015
    ensures Record2.date == "2024-08-20" && DayKey("2024-08-20") == 20240820
    ensures Record3.date == "2024-05-10" && DayKey("2024-05-10") == 20240510
  {
  }

  /** The day keys of the second and third patients' records. */
  lemma SeedDayKeysOthers()
    ensures Record4.date == "2024-09-30" && DayKey("2024-09-30") == 20240930
    ensures Record5.date == "2024-06-18" && DayKey("2024-06-18") == 20240618
    ensures Record6.date == "2024-10-25" && DayKey("2024-10-25") == 20241025
  {
  }

  lemma SeedAhmedNewestFirst()
    ensures StrictlyNewestFirst(AhmedBenSalem.records)
  {
    SeedDayKeysAhmed();
  }

  lemma SeedOthersNewestFirst()
    ensures StrictlyNewestFirst(FatimaGharbi.records) && StrictlyNewestFirst(MohamedTrabelsi.records)
  {
    SeedDayKeysOthers();
  }

  lemma SeedRecordsNewestFirst()
    ensures forall p :: p in MockPatients ==> StrictlyNewestFirst(p.records)
  {
    SeedAhmedNewestFirst();
    SeedOthersNewestFirst();
  }

  lemma SeedFirstPatient()
    ensures MockPatients[0].cin == "AB123456"
    ensures MockPatients[0].name == "Ahmed Ben Salem"
    ensures |MockPatients[0].records| == 3
  {
  }

  /** Every seed patient has an ISO birth date and a gender of "M" or "F". */
  lemma SeedPatientsWellFormed()
    ensures forall p :: p in MockPatients ==> IsIsoDate(p.dateOfBirth) && (p.gender == "M" || p.gender == "F")
  {
    assert IsIsoDate(AhmedBenSalem.dateOfBirth);
    assert IsIsoDate(FatimaGharbi.dateOfBirth);
    assert IsIsoDate(MohamedTrabelsi.dateOfBirth);
  }

  /** Every seed record is dated with an ISO date. */
  lemma SeedRecordDates()
    ensures forall r :: r in AllRecords(MockPatients) ==> IsIsoDate(r.date)
  {
    SeedRecordList();
    SeedDayKeysAhmed();
    SeedDayKeysOthers();
  }
}
