/**
 * The page header: the language toggle and the conditions under which the
 * role badge, the "logged in as" line and the logout control appear.
 */
module Header {
  import opened Wrappers
  import opened UserRoles
  import opened LanguageContext

  /** `toggleLanguage`: the language that is not active. */
  function Toggled(lang: Language): (r: Language)
    ensures r != lang
  {
    if lang == Fr then Ar else Fr
  }

  /** Toggling twice restores the language: the toggle is its own inverse. */
  lemma ToggleInvolution(lang: Language)
    ensures Toggled(Toggled(lang)) == lang
  {
  }

  /** The table key of a language's own name. */
  function LanguageNameKey(lang: Language): string
  {
    match lang
    case Fr => "french"
    case Ar => "arabic"
  }

  /** The key shown on the toggle button: the name of the language a click switches to. */
  function ToggleButtonKey(lang: Language): (k: string)
    ensures k == LanguageNameKey(Toggled(lang))
    ensures k in HeaderPhrases
  {
    if lang == Fr then "arabic" else "french"
  }

  /**
   * The key of the role badge: no badge without a role, `doctorRole` for a
   * doctor and `patientRole` for anyone else.
   */
  function RoleBadgeKey(role: Option<Role>): (k: Option<string>)
    ensures k.Some? <==> role.Some?
    ensures k == Some("doctorRole") <==> role == Some(Doctor)
    ensures role == Some(Role.Patient) ==> k == Some("patientRole")
    ensures k.Some? ==> k.value in RoleSelectionPhrases
  {
    match role
    case None => None
    case Some(r) => if r == Doctor then Some("doctorRole") else Some("patientRole")
  }

  /** The "logged in as" line: it needs a name, and an empty name is falsy, so it hides the line too. */
  function ShowsLoggedInAs(userName: Option<string>): (shown: bool)
    ensures shown ==> userName.Some?
    ensures userName == Some("") ==> !shown
    ensures userName.Some? && userName.value != "" ==> shown
  {
    match userName
    case None => false
    case Some(name) => name != ""
  }

  /** A click on the toggle hands the other language to the provider; nothing else changes. */
  method ToggleLanguage(provider: LanguageProvider)
    modifies provider
    ensures provider.language == Toggled(old(provider.language))
    ensures provider.language != old(provider.language)
  {
    provider.SetLanguage(Toggled(provider.language));
  }
}
