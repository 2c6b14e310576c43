/** What the three user forms share: the text fields of a profile form, the
    `kelas || undefined` / `kelas || ''` mapping between the optional class
    and its text box, the required-field guard and the notifications. */
module Forms {
  import opened Types

  /** The profile fields as a form holds them; the class is plain text. */
  datatype ProfileForm = ProfileForm(name: string, idSantri: string, kelas: string, role: Role)

  /** One `onChange` / `onValueChange` of a form control. */
  datatype FieldEdit = NameInput(name: string) | IdSantriInput(idSantri: string) | KelasInput(kelas: string) | RoleSelect(role: Role)

  /** `setFormData({ ...formData, field: value })` */
  function ApplyEdit(f: ProfileForm, e: FieldEdit): (r: ProfileForm)
    ensures e.NameInput? ==> r == f.(name := e.name)
    ensures e.IdSantriInput? ==> r == f.(idSantri := e.idSantri)
    ensures e.KelasInput? ==> r == f.(kelas := e.kelas)
    ensures e.RoleSelect? ==> r == f.(role := e.role)
  {
    match e
    case NameInput(v) => f.(name := v)
    case IdSantriInput(v) => f.(idSantri := v)
    case KelasInput(v) => f.(kelas := v)
    case RoleSelect(v) => f.(role := v)
  }

  /** The empty form the add and setup dialogs start from. */
  const BlankForm := ProfileForm("", "", "", Santri)

  /** `formData.kelas || undefined`: an empty class is sent as absent. */
  function KelasValue(text: string): (k: Option<string>)
    ensures k == None <==> text == ""
    ensures k.Some? ==> k.value == text
  {
    if text == "" then None else Some(text)
  }

  /** `profile.kelas || ''`: an absent class is shown as an empty text box. */
  function KelasText(k: Option<string>): (text: string)
    ensures text == "" <==> k == None || k == Some("")
    ensures k.Some? ==> text == k.value
  {
    if k.Some? then k.value else ""
  }

  lemma KelasTextValue(text: string)
    ensures KelasText(KelasValue(text)) == text
  {
  }

  lemma KelasValueText(k: Option<string>)
    ensures KelasValue(KelasText(k)) == if k == Some("") then None else k
  {
  }

  /** The profile a form submits. */
  function ProfileOf(f: ProfileForm): (p: Profile)
    ensures p.name == f.name && p.idSantri == f.idSantri && p.role == f.role
    ensures p.kelas == KelasValue(f.kelas)
  {
    Profile(f.name, f.idSantri, KelasValue(f.kelas), f.role)
  }

  /** The form a stored profile fills in. */
  function FormOf(p: Profile): (f: ProfileForm)
    ensures f.name == p.name && f.idSantri == p.idSantri && f.role == p.role
    ensures f.kelas == KelasText(p.kelas)
  {
    ProfileForm(p.name, p.idSantri, KelasText(p.kelas), p.role)
  }

  /** Submitting an unedited form gives back the stored profile, except that a
      stored empty class comes back absent. */
  lemma ProfileOfFormOf(p: Profile)
    ensures ProfileOf(FormOf(p)) == if p.kelas == Some("") then p.(kelas := None) else p
  {
    KelasValueText(p.kelas);
  }

  /** Loading the profile a form submits gives back the same form. */
  lemma FormOfProfileOf(f: ProfileForm)
    ensures FormOf(ProfileOf(f)) == f
  {
    KelasTextValue(f.kelas);
  }

  /** `!formData.name || !formData.idSantri` blocks the submit. */
  predicate HasRequired(f: ProfileForm): (r: bool)
    ensures r <==> !(f.name == "" || f.idSantri == "")
    ensures r ==> ProfileOf(f).name != "" && ProfileOf(f).idSantri != ""
  {
    f.name != "" && f.idSantri != ""
  }

  /** A notification: its title and, for some, a description line. */
  datatype Toast = Success(title: string, description: Option<string>) | Failure(title: string, description: Option<string>)

  const MissingFields := Failure("Mohon lengkapi data yang diperlukan", None)

  /** `error.message || 'Silakan coba lagi'` */
  function ErrorDescription(message: string): (d: string)
    ensures d != ""
    ensures message != "" ==> d == message
    ensures message == "" ==> d == "Silakan coba lagi"
  {
    if message != "" then message else "Silakan coba lagi"
  }

  /** The failure notification of a dialog whose write failed. */
  function FailureToast(title: string, message: string): (t: Toast)
    ensures t.Failure? && t.title == title && t.description == Some(ErrorDescription(message))
  {
    Failure(title, Some(ErrorDescription(message)))
  }
}
