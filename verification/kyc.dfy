/** The identity-verification (KYC) page: a form of four text fields and two
    photos, submitted through a simulated request and cleared on success. */
module Kyc {
  import opened Shared

  datatype KycForm = KycForm(nik: string, name: string, address: string, phone: string,
                             ktpFile: Option<File>, selfieFile: Option<File>)

  const EmptyForm := KycForm("", "", "", "", None, None)

  const SubmitError := "Terjadi kesalahan saat mengirim data. Silakan coba lagi."

  /** The `name` attributes of the text inputs. */
  datatype TextField = Nik | Name | Address | Phone

  /** The two photo fields of the file handler: identity card and selfie. */
  datatype FileField = KtpFile | SelfieFile

  function TextOf(form: KycForm, field: TextField): string
  {
    match field
    case Nik => form.nik
    case Name => form.name
    case Address => form.address
    case Phone => form.phone
  }

  function FileOf(form: KycForm, field: FileField): Option<File>
  {
    match field
    case KtpFile => form.ktpFile
    case SelfieFile => form.selfieFile
  }

  /** `{...prev, [name]: value}`: the named field takes the value, every other
      text field and both photos keep theirs. */
  function WithText(form: KycForm, field: TextField, value: string): (r: KycForm)
    ensures TextOf(r, field) == value
    ensures forall other: TextField :: other != field ==> TextOf(r, other) == TextOf(form, other)
    ensures forall f: FileField :: FileOf(r, f) == FileOf(form, f)
  {
    match field
    case Nik => form.(nik := value)
    case Name => form.(name := value)
    case Address => form.(address := value)
    case Phone => form.(phone := value)
  }

  /** The file handler: the named photo takes the first picked file; the
      form is unchanged when no file was picked. */
  function WithFile(form: KycForm, field: FileField, files: FileList): (r: KycForm)
    ensures FirstFile(files).None? ==> r == form
    ensures FirstFile(files).Some? ==> FileOf(r, field) == FirstFile(files)
    ensures forall other: FileField :: other != field ==> FileOf(r, other) == FileOf(form, other)
    ensures forall t: TextField :: TextOf(r, t) == TextOf(form, t)
  {
    match FirstFile(files)
    case None => form
    case Some(f) =>
      match field
      case KtpFile => form.(ktpFile := Some(f))
      case SelfieFile => form.(selfieFile := Some(f))
  }

  /** Setting a field and reading it back gives the value set; setting it
      to its current value changes nothing. */
  lemma TextRoundTrip(form: KycForm, field: TextField, value: string)
    ensures TextOf(WithText(form, field, value), field) == value
    ensures WithText(form, field, TextOf(form, field)) == form
  {
  }

  class KycPage {
    var formData: KycForm
    var isSubmitting: bool
    var isSuccess: bool
    var error: string

    constructor ()
      ensures formData == EmptyForm && !isSubmitting && !isSuccess && error == ""
    {
      formData := EmptyForm;
      isSubmitting, isSuccess, error := false, false, "";
    }

    method InputChange(field: TextField, value: string)
      modifies this`formData
      ensures formData == WithText(old(formData), field, value)
    {
      formData := WithText(formData, field, value);
    }

    method FileChange(field: FileField, files: FileList)
      modifies this`formData
      ensures formData == WithFile(old(formData), field, files)
    {
      formData := WithFile(formData, field, files);
    }

    /** The submit handler up to its simulated request. */
    method BeginSubmit()
      modifies this`error, this`isSubmitting
      ensures error == "" && isSubmitting
    {
      error := "";
      isSubmitting := true;
    }

    /** The submit handler after its simulated request; `failed` says whether
        the awaited promise rejected. Success clears all six fields. */
    method FinishSubmit(failed: bool)
      modifies this
      ensures !isSubmitting
      ensures failed ==> formData == old(formData) && isSuccess == old(isSuccess) && error == SubmitError
      ensures !failed ==> formData == EmptyForm && isSuccess && error == old(error)
    {
      if failed {
        error := SubmitError;
      } else {
        formData := KycForm("", "", "", "", None, None);
        isSuccess := true;
      }
      isSubmitting := false;
    }
  }
}
