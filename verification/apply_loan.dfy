/** The loan-application wizard: a two-step form (loan terms, then personal
    data and documents), the monthly installment shown in its summary, and
    the submit flags. */
module LoanApplication {
  import opened Shared

  /** The loan purposes offered by the purpose select. */
  /** The purposes offered by the purpose select. */
  const Purposes: seq<string> := ["Modal Usaha", "Kebutuhan Darurat", "Pendidikan", "Kesehatan",
                                  "Pernikahan", "Renovasi Rumah", "Lainnya"]

  const SubmitError := "Terjadi kesalahan saat mengajukan pinjaman. Silakan coba lagi."

  /** The tenors (in months) offered by the tenor select. */
  predicate ValidTenor(tenor: int)
  {
    tenor == 1 || tenor == 3 || tenor == 6 || tenor == 12
  }

  /** The amounts the slider can produce: Rp 500.000 to Rp 10.000.000 in steps of Rp 50.000. */
  predicate ValidAmount(amount: int)
  {
    500000 <= amount <= 10000000 && amount % 50000 == 0
  }

  datatype LoanForm = LoanForm(amount: int, tenor: int, purpose: string, salary: string, occupation: string,
                               kkFile: Option<File>, salarySlipFile: Option<File>)

  const InitialForm := LoanForm(500000, 3, "", "", "", None, None)

  /** The `name` attributes of the text inputs wired to the input handler. */
  datatype TextInput = Occupation | Salary

  /** The two document fields of the file handler. */
  datatype FileField = KkFile | SalarySlipFile

  // ---------------------------------------------------------------------------
  // Installment: simple interest at 2% per month, spread over the tenor and
  // rounded up, ceil((P + P * 0.02 * T) / T). With exact arithmetic that is
  // ceil(P * (50 + T) / (50 * T)).

  /** The least q with d * q >= n. */
  function CeilDiv(n: int, d: int): (q: int)
    requires d > 0
    ensures d * q >= n && d * (q - 1) < n
  {
    var q := (n + d - 1) / d;
    assert d * q + (n + d - 1) % d == n + d - 1;
    q
  }

  /** The monthly installment covers the principal plus interest, and one
      rupiah less per month would not: 50T * r >= P(50 + T) > 50T * (r - 1). */
  function Installment(amount: int, tenor: int): (r: int)
    requires tenor > 0
    ensures 50 * tenor * r >= amount * (50 + tenor)
    ensures 50 * tenor * (r - 1) < amount * (50 + tenor)
  {
    CeilDiv(amount * (50 + tenor), 50 * tenor)
  }

  /** The two bounds of Installment's contract determine the installment. */
  lemma InstallmentUnique(amount: int, tenor: int, r: int)
    requires tenor > 0
    requires 50 * tenor * r >= amount * (50 + tenor)
    requires 50 * tenor * (r - 1) < amount * (50 + tenor)
    ensures r == Installment(amount, tenor)
  {
    var d, q := 50 * tenor, Installment(amount, tenor);
    MulCancel(d, r - 1, q);
    MulCancel(d, q - 1, r);
  }

  /** Multiplying by a positive number preserves strict order. */
  lemma MulCancel(d: int, a: int, b: int)
    requires d > 0 && d * a < d * b
    ensures a < b
  {
    assert d * (b - a) == d * b - d * a;
  }

  /** Rp 500.000 over 3 months: (500000 + 30000) / 3 rounded up. */
  lemma InstallmentSample()
    ensures Installment(500000, 3) == 176667
  {
    InstallmentUnique(500000, 3, 176667);
  }

  /** For every loan the page offers, the installment lies between the
      principal share P / T and the principal share plus 2% of P. */
  lemma InstallmentRange(amount: int, tenor: int)
    requires ValidAmount(amount) && ValidTenor(tenor)
    ensures tenor * Installment(amount, tenor) >= amount
    ensures tenor * (Installment(amount, tenor) - 1) < amount + amount * tenor / 50
  {
    var r := Installment(amount, tenor);
    assert amount % 50 == 0;
    var p := amount / 50;
    assert amount * (50 + tenor) == 50 * (amount + p * tenor);
    assert 50 * (tenor * r) >= 50 * (amount + p * tenor);
    assert 50 * (tenor * (r - 1)) < 50 * (amount + p * tenor);
    assert amount * tenor / 50 == p * tenor;
  }

  // ---------------------------------------------------------------------------
  // Form updates

  /** The value of a text input's field in the form. */
  function TextOf(form: LoanForm, input: TextInput): string
  {
    match input
    case Occupation => form.occupation
    case Salary => form.salary
  }

  /** `{...prev, [name]: value}`: the named text field takes the value and
      every other field keeps its value. */
  function WithText(form: LoanForm, input: TextInput, value: string): (r: LoanForm)
    ensures TextOf(r, input) == value
    ensures forall other: TextInput :: other != input ==> TextOf(r, other) == TextOf(form, other)
    ensures r.amount == form.amount && r.tenor == form.tenor && r.purpose == form.purpose
    ensures r.kkFile == form.kkFile && r.salarySlipFile == form.salarySlipFile
  {
    match input
    case Occupation => form.(occupation := value)
    case Salary => form.(salary := value)
  }

  function FileOf(form: LoanForm, field: FileField): Option<File>
  {
    match field
    case KkFile => form.kkFile
    case SalarySlipFile => form.salarySlipFile
  }

  /** The file handler: the named document takes the first picked file, and
      nothing changes when no file was picked. */
  function WithFile(form: LoanForm, field: FileField, files: FileList): (r: LoanForm)
    ensures FirstFile(files).None? ==> r == form
    ensures FirstFile(files).Some? ==> FileOf(r, field) == FirstFile(files)
    ensures forall other: FileField :: other != field ==> FileOf(r, other) == FileOf(form, other)
    ensures r.amount == form.amount && r.tenor == form.tenor && r.purpose == form.purpose
    ensures r.salary == form.salary && r.occupation == form.occupation
  {
    match FirstFile(files)
    case None => form
    case Some(f) =>
      match field
      case KkFile => form.(kkFile := Some(f))
      case SalarySlipFile => form.(salarySlipFile := Some(f))
  }

  // ---------------------------------------------------------------------------
  // The page's state and handlers

  class ApplyLoanPage {
    var step: int
    var isSubmitting: bool
    var isSuccess: bool
    var error: string
    var formData: LoanForm

    /** The wizard is on step 1 or 2, the amount and tenor are values the
        slider and the select offer, so the installment is always defined,
        and the purpose is unset or one the purpose select offers. */
    ghost predicate Valid()
      reads this
    {
      && (step == 1 || step == 2)
      && ValidAmount(formData.amount) && ValidTenor(formData.tenor)
      && (formData.purpose == "" || formData.purpose in Purposes)
    }

    constructor ()
      ensures Valid()
      ensures step == 1 && formData == InitialForm
      ensures !isSubmitting && !isSuccess && error == ""
    {
      step := 1;
      isSubmitting, isSuccess, error := false, false, "";
      formData := InitialForm;
    }

    /** The installment shown in the step-2 summary: defined in every state
        of the page, and over the tenor it repays at least the principal. */
    function ShownInstallment(): (r: int)
      reads this
      requires Valid()
      ensures formData.tenor * r >= formData.amount
    {
      InstallmentRange(formData.amount, formData.tenor);
      Installment(formData.amount, formData.tenor)
    }

    /** "Selanjutnya": go to step 2, keeping everything entered. */
    method Next()
      requires Valid()
      modifies this`step
      ensures Valid() && step == 2
    {
      step := 2;
    }

    /** "Kembali": go back to step 1, keeping everything entered. */
    method Back()
      requires Valid()
      modifies this`step
      ensures Valid() && step == 1
    {
      step := 1;
    }

    method SlideAmount(amount: int)
      requires Valid() && ValidAmount(amount)
      modifies this`formData
      ensures Valid() && formData == old(formData).(amount := amount)
    {
      formData := formData.(amount := amount);
    }

    method SelectTenor(tenor: int)
      requires Valid() && ValidTenor(tenor)
      modifies this`formData
      ensures Valid() && formData == old(formData).(tenor := tenor)
    {
      formData := formData.(tenor := tenor);
    }

    /** The purpose select, which offers only the listed purposes. */
    method SelectPurpose(purpose: string)
      requires Valid() && purpose in Purposes
      modifies this`formData
      ensures Valid() && formData == old(formData).(purpose := purpose)
    {
      formData := formData.(purpose := purpose);
    }

    method InputChange(input: TextInput, value: string)
      requires Valid()
      modifies this`formData
      ensures Valid() && formData == WithText(old(formData), input, value)
    {
      formData := WithText(formData, input, value);
    }

    method FileChange(field: FileField, files: FileList)
      requires Valid()
      modifies this`formData
      ensures Valid() && formData == WithFile(old(formData), field, files)
    {
      formData := WithFile(formData, field, files);
    }

    /** The submit handler up to its simulated request. */
    method BeginSubmit()
      modifies this`error, this`isSubmitting
      ensures error == "" && isSubmitting
    {
      error := "";
      isSubmitting := true;
    }

    /** The submit handler after its simulated request; `failed` says whether
        the awaited promise rejected. */
    method FinishSubmit(failed: bool)
      modifies this`error, this`isSubmitting, this`isSuccess
      ensures !isSubmitting
      ensures failed ==> error == SubmitError && isSuccess == old(isSuccess)
      ensures !failed ==> isSuccess && error == old(error)
    {
      if failed {
        error := SubmitError;
      } else {
        isSuccess := true;
      }
      isSubmitting := false;
    }
  }
}
