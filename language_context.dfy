/**
 * The two-language phrase table, the active language and the lookup `t`
 * every component renders its text through.
 */
module LanguageContext {

  datatype Language = Fr | Ar

  /** One row of the table: the phrase in each language. */
  datatype Entry = Entry(fr: string, ar: string)

  /** The phrase of an entry in one language. */
  function PhraseIn(e: Entry, lang: Language): string
  {
    match lang
    case Fr => e.fr
    case Ar => e.ar
  }

  // Sections of the table, in source order.

  const HeaderPhrases: map<string, Entry> := map[
    "appTitle" := Entry("Gestion des Dossiers Médicaux", "إدارة السجلات الطبية"),
    "language" := Entry("Langue", "اللغة"),
    "french" := Entry("Français", "فرنسي"),
    "arabic" := Entry("Arabe", "عربي")
  ]

  const CinSearchPhrases: map<string, Entry> := map[
    "searchTitle" := Entry("Rechercher un Patient", "البحث عن مريض"),
    "cinLabel" := Entry("Numéro CIN", "رقم بطاقة التعريف الوطنية"),
    "cinPlaceholder" := Entry("Entrez le numéro CIN", "أدخل رقم بطاقة التعريف"),
    "searchButton" := Entry("Rechercher", "بحث"),
    "patientNotFound" := Entry("Patient non trouvé", "لم يتم العثور على المريض"),
    "patientNotFoundDesc" := Entry("Aucun patient trouvé avec ce numéro CIN. Veuillez vérifier et réessayer.", "لم يتم العثور على مريض بهذا الرقم. يرجى التحقق والمحاولة مرة أخرى."),
    "tryExamples" := Entry("Essayez ces CIN d'exemple :", "جرب هذه الأرقام التجريبية:")
  ]

  const PatientInfoPhrases: map<string, Entry> := map[
    "patientInfo" := Entry("Informations du Patient", "معلومات المريض"),
    "name" := Entry("Nom", "الاسم"),
    "cin" := Entry("CIN", "رقم البطاقة"),
    "dateOfBirth" := Entry("Date de naissance", "تاريخ الميلاد"),
    "gender" := Entry("Sexe", "الجنس"),
    "male" := Entry("Masculin", "ذكر"),
    "female" := Entry("Féminin", "أنثى"),
    "backToSearch" := Entry("Retour à la recherche", "العودة للبحث")
  ]

  const MedicalRecordsPhrases: map<string, Entry> := map[
    "medicalRecords" := Entry("Dossiers Médicaux", "السجلات الطبية"),
    "addNewRecord" := Entry("Ajouter un Dossier", "إضافة سجل"),
    "noRecords" := Entry("Aucun dossier médical disponible", "لا توجد سجلات طبية"),
    "date" := Entry("Date", "التاريخ"),
    "hospital" := Entry("Hôpital", "المستشفى"),
    "department" := Entry("Département", "القسم"),
    "diagnosis" := Entry("Diagnostic", "التشخيص"),
    "notes" := Entry("Notes", "ملاحظات")
  ]

  const AddRecordFormPhrases: map<string, Entry> := map[
    "addRecordTitle" := Entry("Ajouter un Nouveau Dossier Médical", "إضافة سجل طبي جديد"),
    "datePlaceholder" := Entry("Sélectionnez la date", "اختر التاريخ"),
    "hospitalPlaceholder" := Entry("Ex: Hôpital Habib Thameur...", "مثال: مستشفى الحبيب ثامر..."),
    "departmentPlaceholder" := Entry("Ex: Cardiologie, Orthopédie...", "مثال: أمراض القلب، جراحة العظام..."),
    "diagnosisPlaceholder" := Entry("Entrez le diagnostic", "أدخل التشخيص"),
    "notesPlaceholder" := Entry("Entrez les notes et observations...", "أدخل الملاحظات والتفاصيل..."),
    "cancel" := Entry("Annuler", "إلغاء"),
    "save" := Entry("Enregistrer", "حفظ"),
    "recordAdded" := Entry("Dossier ajouté avec succès", "تم إضافة السجل بنجاح"),
    "recordAddedDesc" := Entry("Le nouveau dossier médical a été enregistré.", "تم حفظ السجل الطبي الجديد.")
  ]

  const ChatbotPhrases: map<string, Entry> := map[
    "chatbotTitle" := Entry("Assistant Médical IA", "المساعد الطبي الذكي"),
    "chatbotButton" := Entry("Consulter l'Assistant IA", "استشر المساعد الذكي"),
    "chatbotWelcome" := Entry("Bonjour! Je suis votre assistant médical virtuel. Comment puis-je vous aider aujourd'hui?", "مرحباً! أنا مساعدك الطبي الافتراضي. كيف يمكنني مساعدتك اليوم؟"),
    "chatbotPlaceholder" := Entry("Décrivez vos symptômes...", "صف أعراضك..."),
    "chatbotSend" := Entry("Envoyer", "إرسال"),
    "chatbotDisclaimer" := Entry("Remarque : Ceci est un assistant virtuel à titre informatif uniquement. Consultez toujours un professionnel de la santé pour un diagnostic médical.", "ملاحظة: هذا مساعد افتراضي لأغراض إعلامية فقط. استشر دائماً أخصائي صحة للحصول على تشخيص طبي."),
    "chatbotTyping" := Entry("En train d'écrire...", "يكتب...")
  ]

  const RoleSelectionPhrases: map<string, Entry> := map[
    "roleSelectionTitle" := Entry("Bienvenue", "مرحباً"),
    "roleSelectionSubtitle" := Entry("Veuillez sélectionner votre rôle", "يرجى اختيار دورك"),
    "doctorRole" := Entry("Médecin", "طبيب"),
    "patientRole" := Entry("Patient", "مريض"),
    "doctorDescription" := Entry("Accès complet aux dossiers des patients", "وصول كامل لسجلات المرضى"),
    "patientDescription" := Entry("Consulter vos dossiers et l'assistant IA", "استعرض سجلاتك واستشر المساعد الذكي")
  ]

  const PatientLoginPhrases: map<string, Entry> := map[
    "patientLoginTitle" := Entry("Connexion Patient", "تسجيل دخول المريض"),
    "patientLoginSubtitle" := Entry("Entrez votre numéro CIN pour accéder à vos dossiers", "أدخل رقم بطاقة التعريف للوصول إلى سجلاتك"),
    "loginButton" := Entry("Se connecter", "تسجيل الدخول"),
    "backToRoleSelection" := Entry("Retour au choix du rôle", "العودة لاختيار الدور")
  ]

  const UserInfoPhrases: map<string, Entry> := map[
    "loggedInAs" := Entry("Connecté en tant que", "متصل كـ"),
    "logout" := Entry("Déconnexion", "تسجيل خروج")
  ]

  const AttachmentsPhrases: map<string, Entry> := map[
    "attachments" := Entry("Pièces jointes", "المرفقات"),
    "viewAttachment" := Entry("Voir", "عرض"),
    "downloadAttachment" := Entry("Télécharger", "تحميل"),
    "noAttachments" := Entry("Aucune pièce jointe", "لا توجد مرفقات"),
    "attachmentTypes" := Entry("Types de fichiers", "أنواع الملفات"),
    "xrayLabel" := Entry("Radiographie", "أشعة سينية"),
    "scanLabel" := Entry("Échographie", "تصوير بالموجات فوق الصوتية"),
    "labLabel" := Entry("Analyses", "تحليلات"),
    "ecgLabel" := Entry("ECG", "تخطيط القلب"),
    "documentLabel" := Entry("Document", "مستند"),
    "prescriptionLabel" := Entry("Ordonnance", "وصفة طبية")
  ]

  /** The whole table: the union of its sections, which share no key. */
  const Translations: map<string, Entry> :=
    HeaderPhrases + CinSearchPhrases + PatientInfoPhrases + MedicalRecordsPhrases + AddRecordFormPhrases
    + ChatbotPhrases + RoleSelectionPhrases + PatientLoginPhrases + UserInfoPhrases + AttachmentsPhrases

  // ---------------------------------------------------------------------------
  // Lookup

  /**
   * `t(key)`: the table's phrase for the key in the active language; when the
   * key has no row, or its phrase is empty (falsy), the key itself.
   */
  function Translate(lang: Language, key: string): (r: string)
    ensures key !in Translations ==> r == key
    ensures key in Translations ==> r == PhraseIn(Translations[key], lang) || r == key
  {
    if key in Translations && PhraseIn(Translations[key], lang) != "" then PhraseIn(Translations[key], lang) else key
  }

  /** The holder of the active language, `fr` until someone changes it. */
  class LanguageProvider {
    var language: Language

    constructor ()
      ensures language == Fr
    {
      language := Fr;
    }

    /** `setLanguage`: only the language changes. */
    method SetLanguage(lang: Language)
      modifies this
      ensures language == lang
    {
      language := lang;
    }
  }

  // ---------------------------------------------------------------------------
  // Properties of the table and of the lookup

  /** Every row has a non-empty phrase in both languages. */
  ghost predicate Complete(table: map<string, Entry>)
  {
    forall k :: k in table ==> table[k].fr != "" && table[k].ar != ""
  }

  // One lemma per section keeps each proof small.
  lemma HeaderSectionComplete() ensures Complete(HeaderPhrases) { }
  lemma CinSearchSectionComplete() ensures Complete(CinSearchPhrases) { }
  lemma PatientInfoSectionComplete() ensures Complete(PatientInfoPhrases) { }
  lemma MedicalRecordsSectionComplete() ensures Complete(MedicalRecordsPhrases) { }
  lemma AddRecordFormSectionComplete() ensures Complete(AddRecordFormPhrases) { }
  lemma ChatbotSectionComplete() ensures Complete(ChatbotPhrases) { }
  lemma RoleSelectionSectionComplete() ensures Complete(RoleSelectionPhrases) { }
  lemma PatientLoginSectionComplete() ensures Complete(PatientLoginPhrases) { }
  lemma UserInfoSectionComplete() ensures Complete(UserInfoPhrases) { }
  lemma AttachmentsSectionComplete() ensures Complete(AttachmentsPhrases) { }

  lemma UnionComplete(a: map<string, Entry>, b: map<string, Entry>)
    requires Complete(a) && Complete(b)
    ensures Complete(a + b)
  {
  }

  lemma TranslationsComplete()
    ensures Complete(Translations)
  {
    HeaderSectionComplete();
    CinSearchSectionComplete();
    PatientInfoSectionComplete();
    MedicalRecordsSectionComplete();
    AddRecordFormSectionComplete();
    ChatbotSectionComplete();
    RoleSelectionSectionComplete();
    PatientLoginSectionComplete();
    UserInfoSectionComplete();
    AttachmentsSectionComplete();
    UnionComplete(HeaderPhrases, CinSearchPhrases);
    UnionComplete(HeaderPhrases + CinSearchPhrases, PatientInfoPhrases);
    UnionComplete(HeaderPhrases + CinSearchPhrases + PatientInfoPhrases, MedicalRecordsPhrases);
    UnionComplete(HeaderPhrases + CinSearchPhrases + PatientInfoPhrases + MedicalRecordsPhrases, AddRecordFormPhrases);
    UnionComplete(HeaderPhrases + CinSearchPhrases + PatientInfoPhrases + MedicalRecordsPhrases + AddRecordFormPhrases, ChatbotPhrases);
    UnionComplete(HeaderPhrases + CinSearchPhrases + PatientInfoPhrases + MedicalRecordsPhrases + AddRecordFormPhrases + ChatbotPhrases, RoleSelectionPhrases);
    UnionComplete(HeaderPhrases + CinSearchPhrases + PatientInfoPhrases + MedicalRecordsPhrases + AddRecordFormPhrases + ChatbotPhrases + RoleSelectionPhrases, PatientLoginPhrases);
    UnionComplete(HeaderPhrases + CinSearchPhrases + PatientInfoPhrases + MedicalRecordsPhrases + AddRecordFormPhrases + ChatbotPhrases + RoleSelectionPhrases + PatientLoginPhrases, UserInfoPhrases);
    UnionComplete(HeaderPhrases + CinSearchPhrases + PatientInfoPhrases + MedicalRecordsPhrases + AddRecordFormPhrases + ChatbotPhrases + RoleSelectionPhrases + PatientLoginPhrases + UserInfoPhrases, AttachmentsPhrases);
  }

  /** The header's, the role screen's and the gallery's keys are rows of the whole table. */
  lemma SectionKeysInTable()
    ensures forall k :: k in HeaderPhrases ==> k in Translations
    ensures forall k :: k in RoleSelectionPhrases ==> k in Translations
    ensures forall k :: k in AttachmentsPhrases ==> k in Translations
  {
  }

  /** A key with a row renders as that row's phrase in the active language. */
  lemma TranslateKnownKey(lang: Language, key: string)
    requires key in Translations
    ensures Translate(lang, key) == PhraseIn(Translations[key], lang)
    ensures Translate(lang, key) != ""
  {
    TranslationsComplete();
  }

  /** `t` never renders a non-empty key as the empty string. */
  lemma TranslateNonEmpty(lang: Language, key: string)
    requires key != ""
    ensures Translate(lang, key) != ""
  {
  }
}
