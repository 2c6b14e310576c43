/** The first-login dialog: a blank profile form whose role choice is
    limited to santri or ustadz, saved as the caller's own profile. It cannot
    be dismissed; only a successful save closes it. */
module ProfileSetup {
  import opened Types
  import opened Forms
  import Queries

  /** The roles the dialog's select offers; admin is not among them. */
  const SelectableRoles: set<Role> := {Santri, Ustadz}

  const FailureTitle := "Gagal menyimpan profil"
  const SuccessToast := Success("Profil berhasil disimpan!", None)

  class ProfileSetupModal {
    var form: ProfileForm
    /** The parent's open flag, which `onClose` clears. */
    var isOpen: bool

    ghost predicate Valid()
      reads this
    {
      form.role in SelectableRoles
    }

    constructor (isOpen: bool)
      ensures Valid() && form == BlankForm && this.isOpen == isOpen
    {
      form := BlankForm;
      this.isOpen := isOpen;
    }

    /** A control change; the role select only delivers one of its two items. */
    method Edit(e: FieldEdit)
      requires Valid()
      requires e.RoleSelect? ==> e.role in SelectableRoles
      modifies this
      ensures Valid() && form == ApplyEdit(old(form), e) && isOpen == old(isOpen)
    {
      form := ApplyEdit(form, e);
    }

    /** `onOpenChange={() => {}}` and the prevented outside click: nothing happens. */
    method Dismiss()
      ensures form == old(form) && isOpen == old(isOpen)
    {
    }

    /** `handleSubmit`, with `reply` the backend's answer to `saveCallerUserProfile`. */
    method Submit(client: Queries.QueryClient, actor: Queries.Actor, reply: Result<()>) returns (t: Toast)
      requires Valid()
      modifies this, client
      ensures Valid() && form == old(form)
      ensures !HasRequired(form) ==>
        && t == MissingFields && isOpen == old(isOpen)
        && client.calls == old(client.calls) && client.cache == old(client.cache)
      ensures HasRequired(form) ==>
        var m := Queries.SaveCallerUserProfile(ProfileOf(form));
        var sent := actor == Queries.Ready;
        && m.profile.role != Admin
        && client.calls == old(client.calls) + (if sent then [m] else [])
        && (sent && reply.Ok? ==>
              && t == SuccessToast && !isOpen
              && client.cache == Queries.Invalidate(old(client.cache), Queries.InvalidatedBy(m)))
        && (!(sent && reply.Ok?) ==>
              && t == FailureToast(FailureTitle, if sent then reply.message else Queries.ActorNotAvailable)
              && isOpen == old(isOpen) && client.cache == old(client.cache))
    {
      if !HasRequired(form) {
        t := MissingFields;
        return;
      }
      var r := client.Mutate(Queries.SaveCallerUserProfile(ProfileOf(form)), actor, reply);
      if r.Err? {
        t := FailureToast(FailureTitle, r.message);
        return;
      }
      t := SuccessToast;
      isOpen := false;
    }
  }
}
