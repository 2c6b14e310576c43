/** The administrator's "edit user" dialog: a profile form filled from the
    user it is opened on, refilled whenever that user changes, submitted to
    the edit mutation under the user's own principal. */
module EditUser {
  import opened Types
  import opened Forms
  import Queries

  const FailureTitle := "Gagal memperbarui pengguna"
  const SuccessToast := Success("Pengguna berhasil diperbarui!", None)

  class EditUserModal {
    /** The `user` prop: the principal is not part of the form and cannot be edited. */
    var user: Entry
    var form: ProfileForm
    /** The parent's open flag, which `onClose` clears. */
    var isOpen: bool

    /** The form starts from the user's profile, an absent class shown empty. */
    constructor (user: Entry, isOpen: bool)
      ensures this.user == user && form == FormOf(user.profile) && this.isOpen == isOpen
    {
      this.user := user;
      form := FormOf(user.profile);
      this.isOpen := isOpen;
    }

    /** The effect on `[user]`: a new user refills the form and drops the edits. */
    method UserChanged(u: Entry)
      modifies this
      ensures user == u && form == FormOf(u.profile) && isOpen == old(isOpen)
    {
      user := u;
      form := FormOf(u.profile);
    }

    method Edit(e: FieldEdit)
      modifies this
      ensures form == ApplyEdit(old(form), e) && user == old(user) && isOpen == old(isOpen)
    {
      form := ApplyEdit(form, e);
    }

    /** "Batal" and the dialog's own dismissal both call `onClose`. */
    method Cancel()
      modifies this
      ensures !isOpen && form == old(form) && user == old(user)
    {
      isOpen := false;
    }

    /** `handleSubmit`, with `reply` the backend's answer to `editUser`. */
    method Submit(client: Queries.QueryClient, actor: Queries.Actor, reply: Result<()>) returns (t: Toast)
      modifies this, client
      ensures form == old(form) && user == old(user)
      ensures !HasRequired(form) ==>
        && t == MissingFields && isOpen == old(isOpen)
        && client.calls == old(client.calls) && client.cache == old(client.cache)
      ensures HasRequired(form) ==>
        var m := Queries.EditUser(user.principal, ProfileOf(form));
        var sent := actor == Queries.Ready;
        && client.calls == old(client.calls) + (if sent then [m] else [])
        && (sent && reply.Ok? ==>
              && t == SuccessToast && !isOpen
              && client.cache == Queries.Invalidate(old(client.cache), Queries.InvalidatedBy(m)))
        && (!(sent && reply.Ok?) ==>
              && t == FailureToast(FailureTitle, if sent then reply.message else Queries.ActorNotAvailable)
              && isOpen == old(isOpen) && client.cache == old(client.cache))
    {
      if !HasRequired(form) {
        t := MissingFields;
        return;
      }
      var r := client.Mutate(Queries.EditUser(user.principal, ProfileOf(form)), actor, reply);
      if r.Err? {
        t := FailureToast(FailureTitle, r.message);
        return;
      }
      t := SuccessToast;
      isOpen := false;
    }
  }

  /** Opening the dialog and saving at once writes back the stored profile
      (an empty stored class comes back absent) under the same principal. */
  method EditUnchanged(client: Queries.QueryClient, u: Entry) returns (t: Toast)
    requires u.profile.name != "" && u.profile.idSantri != ""
    modifies client
    ensures client.calls == old(client.calls) + [Queries.EditUser(u.principal,
      if u.profile.kelas == Some("") then u.profile.(kelas := None) else u.profile)]
    ensures t == SuccessToast
  {
    var modal := new EditUserModal(u, true);
    ProfileOfFormOf(u.profile);
    t := modal.Submit(client, Queries.Ready, Ok(()));
  }
}
