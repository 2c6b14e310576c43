/** The student's attendance page: a form pre-filled from the profile, sent
    as a fire-and-forget POST. The send is split at its `await`: `BeginSubmit`
    raises `isSubmitting` and hands out the captured form, `FinishSubmit`
    settles it. The network and today's date are parameters. */
module Attendance {
  import opened Types
  import opened Forms

  /** The four items of the attendance-status select. */
  datatype Status = Hadir | TidakHadir | Izin | Sakit

  function StatusLabel(s: Status): (text: string)
    ensures text in {"Hadir", "Tidak Hadir", "Izin", "Sakit"}
    ensures s == Hadir <==> text == "Hadir"
    ensures s == TidakHadir <==> text == "Tidak Hadir"
    ensures s == Izin <==> text == "Izin"
    ensures s == Sakit <==> text == "Sakit"
  {
    match s
    case Hadir => "Hadir"
    case TidakHadir => "Tidak Hadir"
    case Izin => "Izin"
    case Sakit => "Sakit"
  }

  /** Distinct statuses are sent as distinct strings. */
  lemma StatusLabelInjective(s: Status, t: Status)
    ensures StatusLabel(s) == StatusLabel(t) ==> s == t
  {
  }

  datatype AttendanceForm = AttendanceForm(nama: string, idSantri: string, kelas: string, tanggal: string, status: Status)

  /** The JSON body of the POST. */
  datatype Submission = Submission(nama: string, idSantri: string, kelas: string, tanggal: string, statusKehadiran: string)

  function SubmissionOf(f: AttendanceForm): (s: Submission)
    ensures s.statusKehadiran in {"Hadir", "Tidak Hadir", "Izin", "Sakit"}
    ensures s.statusKehadiran == StatusLabel(f.status)
    ensures s.nama == f.nama && s.idSantri == f.idSantri && s.kelas == f.kelas && s.tanggal == f.tanggal
  {
    Submission(f.nama, f.idSantri, f.kelas, f.tanggal, StatusLabel(f.status))
  }

  /** The editable controls: name and ID are disabled inputs. */
  datatype AttendanceEdit = KelasInput(kelas: string) | TanggalInput(tanggal: string) | StatusSelect(status: Status)

  function ApplyAttendanceEdit(f: AttendanceForm, e: AttendanceEdit): (r: AttendanceForm)
    ensures r.nama == f.nama && r.idSantri == f.idSantri
    ensures e.KelasInput? ==> r == f.(kelas := e.kelas)
    ensures e.TanggalInput? ==> r == f.(tanggal := e.tanggal)
    ensures e.StatusSelect? ==> r == f.(status := e.status)
  {
    match e
    case KelasInput(v) => f.(kelas := v)
    case TanggalInput(v) => f.(tanggal := v)
    case StatusSelect(v) => f.(status := v)
  }

  /** The initial form: name and ID from the profile, an absent class empty,
      today's date and status Hadir. */
  function InitialForm(p: Profile, today: string): (f: AttendanceForm)
    ensures f.nama == p.name && f.idSantri == p.idSantri && f.kelas == KelasText(p.kelas)
    ensures f.tanggal == today && f.status == Hadir
  {
    AttendanceForm(p.name, p.idSantri, KelasText(p.kelas), today, Hadir)
  }

  /** What `fetch` does: it resolves with some response (never inspected;
      under `no-cors` it is opaque) or rejects. */
  datatype FetchOutcome = Resolved(status: int) | Rejected

  /** The form after a successful send: date and status reset, the rest kept. */
  function AfterSuccess(sent: AttendanceForm, today: string): (f: AttendanceForm)
    ensures f.nama == sent.nama && f.idSantri == sent.idSantri && f.kelas == sent.kelas
    ensures f.tanggal == today && f.status == Hadir
  {
    sent.(tanggal := today, status := Hadir)
  }

  function SuccessToast(sent: AttendanceForm): (t: Toast)
    ensures t.Success? && t.title == "Absensi berhasil dikirim!"
  {
    Success("Absensi berhasil dikirim!", Some("Status: " + StatusLabel(sent.status) + " pada " + sent.tanggal))
  }

  const SendFailedToast := Failure("Gagal mengirim absensi", Some("Silakan coba lagi nanti"))

  class SantriDashboard {
    const profile: Profile
    var form: AttendanceForm
    var isSubmitting: bool
    /** The `formData` the pending `handleSubmit` closed over. */
    var pending: AttendanceForm

    /** Name and ID always come from the profile. */
    ghost predicate Valid()
      reads this
    {
      && form.nama == profile.name && form.idSantri == profile.idSantri
      && (isSubmitting ==> pending.nama == profile.name && pending.idSantri == profile.idSantri)
    }

    constructor (profile: Profile, today: string)
      ensures Valid() && this.profile == profile
      ensures form == InitialForm(profile, today) && !isSubmitting
    {
      this.profile := profile;
      form := InitialForm(profile, today);
      pending := form;
      isSubmitting := false;
    }

    method Edit(e: AttendanceEdit)
      requires Valid()
      modifies this
      ensures Valid() && form == ApplyAttendanceEdit(old(form), e)
      ensures isSubmitting == old(isSubmitting) && pending == old(pending)
    {
      form := ApplyAttendanceEdit(form, e);
    }

    /** `handleSubmit` up to its `await`. The submit button is disabled while
        a send is pending, so no second send starts. */
    method BeginSubmit() returns (sent: Option<Submission>)
      requires Valid()
      modifies this
      ensures Valid() && form == old(form)
      ensures old(isSubmitting) ==> sent == None && isSubmitting && pending == old(pending)
      ensures !old(isSubmitting) ==> sent == Some(SubmissionOf(form)) && isSubmitting && pending == form
    {
      if isSubmitting {
        return None;
      }
      isSubmitting := true;
      pending := form;
      sent := Some(SubmissionOf(form));
    }

    /** `handleSubmit` after its `await`: any resolved response is a success
        and resets date and status of the captured form; a rejection keeps
        the form; both end with `isSubmitting` false. */
    method FinishSubmit(outcome: FetchOutcome, today: string) returns (t: Toast)
      requires Valid() && isSubmitting
      modifies this
      ensures Valid() && !isSubmitting
      ensures outcome.Resolved? ==> form == AfterSuccess(old(pending), today) && t == SuccessToast(old(pending))
      ensures outcome.Rejected? ==> form == old(form) && t == SendFailedToast
    {
      if outcome.Resolved? {
        t := SuccessToast(pending);
        form := AfterSuccess(pending, today);
      } else {
        t := SendFailedToast;
      }
      isSubmitting := false;
    }
  }

  /** A full send from an idle page: exactly the current form is sent, and
      which response arrives does not matter, only whether one arrives. */
  method SendOnce(page: SantriDashboard, outcome: FetchOutcome, today: string) returns (sent: Option<Submission>, t: Toast)
    requires page.Valid() && !page.isSubmitting
    modifies page
    ensures page.Valid() && !page.isSubmitting
    ensures sent == Some(SubmissionOf(old(page.form)))
    ensures outcome.Resolved? ==> page.form == AfterSuccess(old(page.form), today) && t.Success?
    ensures outcome.Rejected? ==> page.form == old(page.form) && t == SendFailedToast
  {
    sent := page.BeginSubmit();
    t := page.FinishSubmit(outcome, today);
  }
}
