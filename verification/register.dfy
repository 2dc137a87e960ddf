/** The registration page: a form whose submit checks that the two passwords
    agree, asks the member store whether the email is taken, and only then
    creates the member. */
module Registration {
  import opened Shared

  datatype RegisterForm = RegisterForm(name: string, email: string, phone: string, password: string, confirmPassword: string)

  const EmptyForm := RegisterForm("", "", "", "", "")

  /** The `name` attributes of the form's inputs. */
  datatype Field = Name | Email | Phone | Password | ConfirmPassword

  /** The record posted to the member store: the form without its
      confirmation, plus an id, timestamps and a status. */
  datatype MemberData = MemberData(name: string, email: string, phone: string, password: string,
                                   id: string, createdAt: string, updatedAt: string, status: string)

  datatype Toast = ErrorToast(message: string) | SuccessToast(message: string)

  /** The requests the page sends to the member store: the lookup of members
      with a given email, and the creation of a member. */
  datatype Request = FindByEmail(email: string) | CreateMember(member: MemberData)

  const MismatchMessage := "Password dan konfirmasi password tidak cocok!"
  const CheckFailedMessage := "Gagal memeriksa email"
  const DuplicateMessage := "Email sudah terdaftar!"
  const SaveFailedMessage := "Gagal menyimpan data"
  const RegisteredMessage := "Pendaftaran berhasil! Silakan login."

  function FieldOf(form: RegisterForm, field: Field): string
  {
    match field
    case Name => form.name
    case Email => form.email
    case Phone => form.phone
    case Password => form.password
    case ConfirmPassword => form.confirmPassword
  }

  /** `{...prev, [name]: value}`: only the named field changes. */
  function WithField(form: RegisterForm, field: Field, value: string): (r: RegisterForm)
    ensures FieldOf(r, field) == value
    ensures forall other: Field :: other != field ==> FieldOf(r, other) == FieldOf(form, other)
  {
    match field
    case Name => form.(name := value)
    case Email => form.(email := value)
    case Phone => form.(phone := value)
    case Password => form.(password := value)
    case ConfirmPassword => form.(confirmPassword := value)
  }

  /** The new member: name, email, phone and password from the form, the
      given id and timestamp, and status "active". */
  function NewMember(form: RegisterForm, id: string, now: string): (m: MemberData)
    ensures m.name == form.name && m.email == form.email && m.phone == form.phone && m.password == form.password
    ensures m.id == id && m.createdAt == now && m.updatedAt == now && m.status == "active"
  {
    MemberData(form.name, form.email, form.phone, form.password, id, now, now, "active")
  }

  /** The confirmation field never reaches the stored record. */
  lemma NewMemberIgnoresConfirmation(form: RegisterForm, id: string, now: string, other: string)
    ensures NewMember(form.(confirmPassword := other), id, now) == NewMember(form, id, now)
  {
  }

  // ---------------------------------------------------------------------------
  // The decision made by the submit handler

  datatype Outcome = PasswordMismatch | CheckFailed(message: string) | EmailTaken | SaveFailed(message: string) | Registered

  predicate PasswordsMatch(form: RegisterForm)
  {
    form.password == form.confirmPassword
  }

  /** Where the submit ends, given the outcome of the email lookup and of the
      creation request. A rejected fetch reports its own error message. */
  function Decide(form: RegisterForm, check: Response<seq<MemberData>>, save: Response<()>): (d: Outcome)
    ensures d == PasswordMismatch <==> !PasswordsMatch(form)
    ensures d.CheckFailed? <==> PasswordsMatch(form) && !check.Ok?
    ensures d == EmailTaken <==> PasswordsMatch(form) && check.Ok? && |check.body| > 0
    ensures d.SaveFailed? <==> PasswordsMatch(form) && check == Ok([]) && !save.Ok?
    ensures d == Registered <==> PasswordsMatch(form) && check == Ok([]) && save.Ok?
  {
    if !PasswordsMatch(form) then PasswordMismatch
    else match check
      case Rejected(message) => CheckFailed(message)
      case NotOk => CheckFailed(CheckFailedMessage)
      case Ok(existing) =>
        if |existing| > 0 then EmailTaken
        else match save
          case Rejected(message) => SaveFailed(message)
          case NotOk => SaveFailed(SaveFailedMessage)
          case Ok(_) => Registered
  }

  /** The one notification each outcome shows. */
  function ToastFor(d: Outcome): (t: Toast)
    ensures t.SuccessToast? <==> d == Registered
    ensures d == PasswordMismatch ==> t == ErrorToast(MismatchMessage)
    ensures d == EmailTaken ==> t == ErrorToast(DuplicateMessage)
    ensures d.CheckFailed? ==> t == ErrorToast(d.message)
    ensures d.SaveFailed? ==> t == ErrorToast(d.message)
    ensures d == Registered ==> t == SuccessToast(RegisteredMessage)
  {
    match d
    case PasswordMismatch => ErrorToast(MismatchMessage)
    case CheckFailed(message) => ErrorToast(message)
    case EmailTaken => ErrorToast(DuplicateMessage)
    case SaveFailed(message) => ErrorToast(message)
    case Registered => SuccessToast(RegisteredMessage)
  }

  /** The requests sent on the way to each outcome, in order. */
  function RequestsFor(d: Outcome, member: MemberData): seq<Request>
  {
    match d
    case PasswordMismatch => []
    case CheckFailed(_) => [FindByEmail(member.email)]
    case EmailTaken => [FindByEmail(member.email)]
    case SaveFailed(_) => [FindByEmail(member.email), CreateMember(member)]
    case Registered => [FindByEmail(member.email), CreateMember(member)]
  }

  /** No request is sent when the passwords differ; otherwise the email is
      looked up first, and a member is created only after the lookup
      succeeded and found nobody. */
  lemma SubmitOrdering(form: RegisterForm, id: string, now: string, check: Response<seq<MemberData>>, save: Response<()>)
    ensures var rs := RequestsFor(Decide(form, check, save), NewMember(form, id, now));
            && (rs == [] <==> !PasswordsMatch(form))
            && (rs != [] ==> rs[0] == FindByEmail(form.email))
            && (forall k :: 0 <= k < |rs| && rs[k].CreateMember? ==>
                  k == 1 && check == Ok([]) && rs[k].member == NewMember(form, id, now))
  {
  }

  // ---------------------------------------------------------------------------
  // The page's state and handlers

  class RegisterPage {
    var formData: RegisterForm
    var isLoading: bool
    /** The requests sent to the member store so far, in order. */
    var requests: seq<Request>
    /** The notifications shown so far, in order. */
    var toasts: seq<Toast>

    constructor ()
      ensures formData == EmptyForm && !isLoading && requests == [] && toasts == []
    {
      formData := EmptyForm;
      isLoading := false;
      requests, toasts := [], [];
    }

    method Change(field: Field, value: string)
      modifies this`formData
      ensures formData == WithField(old(formData), field, value)
    {
      formData := WithField(formData, field, value);
    }

    /** The submit handler. `id` and `now` stand for the timestamp id and
        the ISO time; `check` and `save` for the responses of the lookup
        and the creation request (not consulted when not sent). */
    method HandleSubmit(id: string, now: string, check: Response<seq<MemberData>>, save: Response<()>)
      modifies this`isLoading, this`requests, this`toasts
      ensures toasts == old(toasts) + [ToastFor(Decide(formData, check, save))]
      ensures requests == old(requests) + RequestsFor(Decide(formData, check, save), NewMember(formData, id, now))
      ensures isLoading == if PasswordsMatch(formData) then false else old(isLoading)
    {
      if formData.password != formData.confirmPassword {
        toasts := toasts + [ErrorToast(MismatchMessage)];
        return;
      }
      isLoading := true;
      var member := NewMember(formData, id, now);
      requests := requests + [FindByEmail(member.email)];
      match check {
        case Rejected(message) =>
          toasts := toasts + [ErrorToast(message)];
          isLoading := false;
          return;
        case NotOk =>
          toasts := toasts + [ErrorToast(CheckFailedMessage)];
          isLoading := false;
          return;
        case Ok(existing) =>
          if |existing| > 0 {
            toasts := toasts + [ErrorToast(DuplicateMessage)];
            isLoading := false;
            return;
          }
      }
      requests := requests + [CreateMember(member)];
      match save {
        case Rejected(message) =>
          toasts := toasts + [ErrorToast(message)];
          isLoading := false;
          return;
        case NotOk =>
          toasts := toasts + [ErrorToast(SaveFailedMessage)];
          isLoading := false;
          return;
        case Ok(_) =>
      }
      toasts := toasts + [SuccessToast(RegisteredMessage)];
      isLoading := false;
    }
  }
}
