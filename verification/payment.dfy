/** The loan-payment page: the active loan's status label, the payment form
    (method, amount, transfer proof), its numbered instructions, and the
    submit flags. */
module Payments {
  import opened Shared

  datatype PaymentMethod = BankTransfer | VirtualAccount | Qris | CreditCard

  datatype PaymentStatus = Pending | Paid | Overdue

  datatype ScheduledPayment = ScheduledPayment(number: nat, amount: int, dueDate: string, status: PaymentStatus)

  datatype NextPayment = NextPayment(amount: int, dueDate: string, status: PaymentStatus)

  datatype ActiveLoan = ActiveLoan(id: string, amount: int, remaining: int, nextPayment: NextPayment,
                                   installments: seq<ScheduledPayment>)

  /** The sample loan the page displays. */
  const SampleLoan := ActiveLoan("L-123456", 5000000, 3500000, NextPayment(500000, "2025-12-05", Pending),
                                 [ScheduledPayment(1, 500000, "2025-10-05", Paid),
                                  ScheduledPayment(2, 500000, "2025-11-05", Paid),
                                  ScheduledPayment(3, 500000, "2025-12-05", Pending),
                                  ScheduledPayment(4, 500000, "2026-01-05", Pending),
                                  ScheduledPayment(5, 500000, "2026-02-05", Pending),
                                  ScheduledPayment(6, 500000, "2026-03-05", Pending)])

  /** The amount field starts as a number and becomes the input's text once
      the user types in it. */
  datatype AmountValue = Number(n: int) | Text(s: string)

  datatype PaymentForm = PaymentForm(paymentAmount: AmountValue, paymentProof: Option<File>)

  const SubmitError := "Terjadi kesalahan saat memproses pembayaran. Silakan coba lagi."

  const PaidLabel := "Lunas"
  const OverdueLabel := "Jatuh Tempo"
  const AwaitingLabel := "Menunggu Pembayaran"

  // ---------------------------------------------------------------------------
  // Labels

  /** The label of the next payment's status badge. */
  function StatusLabel(status: PaymentStatus): (text: string)
    ensures text == PaidLabel <==> status == Paid
    ensures text == OverdueLabel <==> status == Overdue
    ensures text == AwaitingLabel <==> status == Pending
  {
    match status
    case Paid => PaidLabel
    case Overdue => OverdueLabel
    case Pending => AwaitingLabel
  }

  /** The label under each row of the payment history, which knows only paid
      and not paid. */
  function HistoryLabel(status: PaymentStatus): (text: string)
    ensures text == PaidLabel <==> status == Paid
    ensures text == AwaitingLabel <==> status != Paid
  {
    if status == Paid then PaidLabel else AwaitingLabel
  }

  /** The history row and the status badge agree on every status except
      overdue, which the history shows as awaiting payment. */
  lemma LabelsAgreeExceptOverdue(status: PaymentStatus)
    ensures HistoryLabel(status) == StatusLabel(status) <==> status != Overdue
  {
  }

  /** The status line of every row of the payment history, in order. */
  function HistoryLabels(installments: seq<ScheduledPayment>): (r: seq<string>)
    ensures |r| == |installments|
    ensures forall k :: 0 <= k < |r| ==> (r[k] == PaidLabel <==> installments[k].status == Paid)
    ensures forall k :: 0 <= k < |r| ==> (r[k] == AwaitingLabel <==> installments[k].status != Paid)
  {
    seq(|installments|, k requires 0 <= k < |installments| => HistoryLabel(installments[k].status))
  }

  /** The sample loan's history shows its first two installments as paid and
      the other four as awaiting payment, the next one included. */
  lemma SampleHistory()
    ensures HistoryLabels(SampleLoan.installments)
            == [PaidLabel, PaidLabel, AwaitingLabel, AwaitingLabel, AwaitingLabel, AwaitingLabel]
    ensures HistoryLabels(SampleLoan.installments)[2] == StatusLabel(SampleLoan.nextPayment.status)
  {
  }

  // ---------------------------------------------------------------------------
  // The proof upload and the payment instructions

  /** The transfer-proof upload is shown for bank transfers only. */
  predicate ShowsProofUpload(kind: PaymentMethod)
  {
    kind == BankTransfer
  }

  const ChooseMethod := "Pilih metode pembayaran yang diinginkan"
  const EnterAmount := "Masukkan jumlah pembayaran (minimal sesuai tagihan)"
  const TransferFunds := "Lakukan transfer ke rekening tujuan yang akan ditampilkan"
  const UploadProof := "Unggah bukti transfer"
  const ConfirmPayment := "Klik tombol \"Lanjutkan Pembayaran\""

  /** The instruction texts, in display order. */
  function Instructions(kind: PaymentMethod): seq<string>
  {
    [ChooseMethod, EnterAmount]
    + (if kind == BankTransfer then [TransferFunds, UploadProof] else [])
    + [ConfirmPayment]
  }

  /** The number written in front of each instruction: the first four are
      fixed, the last one is computed from the method. */
  function InstructionNumbers(kind: PaymentMethod): seq<int>
  {
    [1, 2] + (if kind == BankTransfer then [3, 4] else []) + [if kind == BankTransfer then 5 else 3]
  }

  /** Every method gets its instructions numbered 1, 2, ... without gap; the
      final one, to confirm the payment, is number 5 for a bank transfer and
      3 otherwise; the upload step appears exactly when the upload is shown. */
  lemma InstructionsNumbered(kind: PaymentMethod)
    ensures |InstructionNumbers(kind)| == |Instructions(kind)|
    ensures forall k :: 0 <= k < |Instructions(kind)| ==> InstructionNumbers(kind)[k] == k + 1
    ensures Instructions(kind)[|Instructions(kind)| - 1] == ConfirmPayment
    ensures |Instructions(kind)| == if kind == BankTransfer then 5 else 3
    ensures UploadProof in Instructions(kind) <==> ShowsProofUpload(kind)
  {
    if kind != BankTransfer {
      assert Instructions(kind) == [ChooseMethod, EnterAmount, ConfirmPayment];
    }
  }

  // ---------------------------------------------------------------------------
  // The page's state and handlers

  class PaymentPage {
    var paymentMethod: PaymentMethod
    var isSubmitting: bool
    var isSuccess: bool
    var error: string
    var formData: PaymentForm

    /** The form starts with the next installment's amount and no proof. */
    constructor ()
      ensures paymentMethod == BankTransfer && !isSubmitting && !isSuccess && error == ""
      ensures formData == PaymentForm(Number(SampleLoan.nextPayment.amount), None)
      ensures formData.paymentAmount == Number(500000)
    {
      paymentMethod := BankTransfer;
      isSubmitting, isSuccess, error := false, false, "";
      formData := PaymentForm(Number(SampleLoan.nextPayment.amount), None);
    }

    method SelectMethod(kind: PaymentMethod)
      modifies this`paymentMethod
      ensures paymentMethod == kind
    {
      paymentMethod := kind;
    }

    /** The input handler; the amount is the only input wired to it. */
    method InputChange(value: string)
      modifies this`formData
      ensures formData == old(formData).(paymentAmount := Text(value))
    {
      formData := formData.(paymentAmount := Text(value));
    }

    /** The proof takes the first picked file; nothing changes when no file
        was picked. */
    method FileChange(files: FileList)
      modifies this`formData
      ensures FirstFile(files).None? ==> formData == old(formData)
      ensures FirstFile(files).Some? ==> formData == old(formData).(paymentProof := FirstFile(files))
    {
      match FirstFile(files) {
        case Some(f) => formData := formData.(paymentProof := Some(f));
        case None =>
      }
    }

    /** The submit handler up to its simulated request. */
    method BeginSubmit()
      modifies this`error, this`isSubmitting
      ensures error == "" && isSubmitting
    {
      error := "";
      isSubmitting := true;
    }

    /** The submit handler after its simulated request; `failed` says whether
        the awaited promise rejected. */
    method FinishSubmit(failed: bool)
      modifies this`error, this`isSubmitting, this`isSuccess
      ensures !isSubmitting
      ensures failed ==> error == SubmitError && isSuccess == old(isSuccess)
      ensures !failed ==> isSuccess && error == old(error)
    {
      if failed {
        error := SubmitError;
      } else {
        isSuccess := true;
      }
      isSubmitting := false;
    }
  }
}
