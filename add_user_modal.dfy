/** The administrator's "add user" dialog: a form of principal text plus
    profile fields, a required-field guard, the principal parse, the add
    mutation, and a reset of the form after a success. */
module AddUser {
  import opened Types
  import opened Forms
  import Queries

  /** The dialog's `formData`. */
  datatype AddForm = AddForm(principal: string, fields: ProfileForm)

  /** One control change: the principal box or a profile field. */
  datatype AddEdit = PrincipalInput(text: string) | Field(edit: FieldEdit)

  const InitialForm := AddForm("", BlankForm)

  /** `!formData.principal || !formData.name || !formData.idSantri` blocks the submit. */
  predicate Complete(f: AddForm): (r: bool)
    ensures r <==> !(f.principal == "" || f.fields.name == "" || f.fields.idSantri == "")
    ensures r ==> ProfileOf(f.fields).name != "" && ProfileOf(f.fields).idSantri != ""
  {
    f.principal != "" && HasRequired(f.fields)
  }

  const FailureTitle := "Gagal menambahkan pengguna"
  const SuccessToast := Success("Pengguna berhasil ditambahkan!", None)

  class AddUserModal {
    var form: AddForm
    /** The parent's open flag, which `onClose` clears. */
    var isOpen: bool

    constructor (isOpen: bool)
      ensures form == InitialForm && this.isOpen == isOpen
    {
      form := InitialForm;
      this.isOpen := isOpen;
    }

    method Edit(e: AddEdit)
      modifies this
      ensures e.PrincipalInput? ==> form == old(form).(principal := e.text)
      ensures e.Field? ==> form == old(form).(fields := ApplyEdit(old(form).fields, e.edit))
      ensures isOpen == old(isOpen)
    {
      match e
      case PrincipalInput(t) => form := form.(principal := t);
      case Field(fe) => form := form.(fields := ApplyEdit(form.fields, fe));
    }

    /** "Batal" and the dialog's own dismissal both call `onClose`. */
    method Cancel()
      modifies this
      ensures !isOpen && form == old(form)
    {
      isOpen := false;
    }

    /** `handleSubmit`: `parse` is `Principal.fromText`, `reply` the backend's answer. */
    method Submit(client: Queries.QueryClient, actor: Queries.Actor,
                  parse: string -> Result<Principal>, reply: Result<()>) returns (t: Toast)
      modifies this, client
      ensures !Complete(old(form)) ==>
        && t == MissingFields && form == old(form) && isOpen == old(isOpen)
        && client.calls == old(client.calls) && client.cache == old(client.cache)
      ensures Complete(old(form)) && parse(old(form).principal).Err? ==>
        && t == FailureToast(FailureTitle, parse(old(form).principal).message)
        && form == old(form) && isOpen == old(isOpen)
        && client.calls == old(client.calls) && client.cache == old(client.cache)
      ensures Complete(old(form)) && parse(old(form).principal).Ok? ==>
        var m := Queries.AddUser(parse(old(form).principal).value, ProfileOf(old(form).fields));
        var sent := actor == Queries.Ready;
        && client.calls == old(client.calls) + (if sent then [m] else [])
        && (sent && reply.Ok? ==>
              && t == SuccessToast && form == InitialForm && !isOpen
              && client.cache == Queries.Invalidate(old(client.cache), Queries.InvalidatedBy(m)))
        && (!(sent && reply.Ok?) ==>
              && t == FailureToast(FailureTitle, if sent then reply.message else Queries.ActorNotAvailable)
              && form == old(form) && isOpen == old(isOpen) && client.cache == old(client.cache))
    {
      if !Complete(form) {
        t := MissingFields;
        return;
      }
      var parsed := parse(form.principal);
      if parsed.Err? {
        t := FailureToast(FailureTitle, parsed.message);
        return;
      }
      var r := client.Mutate(Queries.AddUser(parsed.value, ProfileOf(form.fields)), actor, reply);
      if r.Err? {
        t := FailureToast(FailureTitle, r.message);
        return;
      }
      t := SuccessToast;
      form := InitialForm;
      isOpen := false;
    }
  }
}
