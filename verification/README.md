# Micro-lending customer portal: page state and handlers in Dafny

This project models the client-side logic of a micro-lending portal. The
portal is a set of React pages, each a form bound to component state:

- **BankAccounts** (`bank_account.dfy`) is the bank-account manager. It holds
  the saved accounts and supports add, edit in place, delete with
  confirmation, and set-as-primary. It also masks account numbers for
  display.
- **LoanApplication** (`apply_loan.dfy`) is the two-step loan wizard. It
  computes the monthly installment: simple interest at 2% a month, rounded
  up.
- **Registration** (`register.dfy`) is the sign-up submit. It checks the
  password confirmation, then asks the member store whether the email is
  taken, then creates the member.
- **Profile** (`profile.dfy`) looks up the signed-in member by email and
  fills defaults. It keeps an editable copy that can be cancelled or saved.
- **Kyc** (`kyc.dfy`) is the identity-verification form. It is cleared after
  a successful submit.
- **Payments** (`payment.dfy`) is the loan-payment form. It holds the status
  labels and the numbered payment instructions.
- **Shared** (`shared.dfy`) holds the optional value, the picked file, the
  file list of a file input and the outcome of a `fetch`.

Each page is a class whose fields are the page's React state. Each event
handler is a method that changes those fields and says in its `ensures`
what the new state is. One field is not page state:
`BankAccountPage.lastSaveWasUpdate` records whether the last successful
submit was an edit, and only the corrected success banner reads it (see
"## Findings").

The pure parts inside the handlers are functions, with lemmas stating what
the pages rely on:

- the `map`, `filter` and append over the account list;
- the regular-expression mask;
- the installment formula;
- the member lookup and its defaults;
- the record built at registration;
- the labels and the instruction list.

Inputs the pages get from outside are parameters:

- responses of `fetch`;
- whether a simulated request failed;
- the answer to a confirmation dialog;
- timestamp ids and ISO times;
- the files picked in a file input.

Requests sent, toasts and alert dialogs are kept as logs in the page state.

A submit that awaits a simulated request (bank account, loan, KYC, payment)
is split at the `await`:

- `BeginSubmit` is the code before it. It clears the error and raises
  `isSubmitting`.
- `FinishSubmit` is the code after it, including the `finally`, which
  lowers `isSubmitting`.

So the submitting flag is observably raised while the request is pending.

Some consequences of the code worth knowing:

- The bank-account page keeps at most one primary account. Deleting the
  primary account, or setting an unknown id as primary, leaves none
  (`SetPrimaryUnknownId`, `RemoveKeepsInvariant`).
- The KYC page stores the picked `File` objects and submits through a
  simulated request.
- The loan application is never sent anywhere. Its submit only waits on a
  timer.

## Model

| member | source | states |
|---|---|---|
| `BankAccounts.ApplyEdit` | src/pages/bank/BankAccount.tsx:71-79 | the account with the edited id takes bank name, number and holder from the form and keeps its id and primary flag; every other account and the length are unchanged |
| `BankAccounts.Append` | src/pages/bank/BankAccount.tsx:80-87 | adding puts exactly one account at the end with the form's fields and the given id, the old list is its prefix, and it is primary exactly when the list was empty |
| `BankAccounts.RemoveId` | src/pages/bank/BankAccount.tsx:113-117 | after deleting, the list holds exactly the old accounts whose id differs from the deleted id |
| `BankAccounts.RemoveAbsent` | src/pages/bank/BankAccount.tsx:115 | deleting an id no account carries leaves the list unchanged |
| `BankAccounts.RemoveAt` | src/pages/bank/BankAccount.tsx:115 | with distinct ids, deleting the id of the account at index k removes exactly that account and keeps the others in order |
| `BankAccounts.MarkPrimary` | src/pages/bank/BankAccount.tsx:119-126 | set-as-primary keeps the length, the order and every field except the primary flag, which becomes "id matches" |
| `BankAccounts.SetPrimaryExactlyOne` | src/pages/bank/BankAccount.tsx:119-126 | with distinct ids and the id present at index k, exactly the account at k is primary afterwards |
| `BankAccounts.SetPrimaryUnknownId` | src/pages/bank/BankAccount.tsx:121-124 | setting an id that matches no account leaves no account primary |
| `BankAccounts.SetPrimaryKeepsInvariant` | src/pages/bank/BankAccount.tsx:119-126 | given distinct ids, set-as-primary keeps the ids distinct and at most one account primary |
| `BankAccounts.EditKeepsInvariant` | src/pages/bank/BankAccount.tsx:71-79 | an edit keeps the ids distinct and at most one account primary |
| `BankAccounts.AddKeepsInvariant` | src/pages/bank/BankAccount.tsx:80-87 | adding an account with a new id keeps the ids distinct and at most one account primary |
| `BankAccounts.RemoveKeepsInvariant` | src/pages/bank/BankAccount.tsx:113-117 | deleting keeps the ids distinct and at most one account primary |
| `BankAccounts.Mask` | src/pages/bank/BankAccount.tsx:286 | masking keeps the length of the account number |
| `BankAccounts.MaskAt` | src/pages/bank/BankAccount.tsx:286 | each character of the masked number is a bullet exactly where a digit is followed by four more digits, and the original character elsewhere |
| `BankAccounts.MaskKeeps` | src/pages/bank/BankAccount.tsx:286 | non-digits and the last four characters are shown unchanged |
| `BankAccounts.MaskAllDigits` | src/pages/bank/BankAccount.tsx:286 | an all-digit number of length n >= 4 shows n - 4 bullets followed by its last four digits |
| `BankAccounts.MaskSample` | src/pages/bank/BankAccount.tsx:39 | the sample number 1234567890 is shown as six bullets and 7890 |
| `BankAccounts.BankAccountPage.constructor` | src/pages/bank/BankAccount.tsx:19-51 | the page starts with the one primary sample account, an empty form, no edit in progress and all flags down |
| `BankAccounts.BankAccountPage.InputChange` | src/pages/bank/BankAccount.tsx:53-56 | typing changes only the named form field |
| `BankAccounts.BankAccountPage.SelectBank` | src/pages/bank/BankAccount.tsx:58-60 | choosing a bank changes only the bank name |
| `BankAccounts.BankAccountPage.StartAdding` | src/pages/bank/BankAccount.tsx:176-182 | the add button, shown only while not editing, opens the form and changes nothing else |
| `BankAccounts.BankAccountPage.BeginSubmit` | src/pages/bank/BankAccount.tsx:62-65 | submitting clears the error and raises the submitting flag, and changes nothing else |
| `BankAccounts.BankAccountPage.FinishSubmit` | src/pages/bank/BankAccount.tsx:67-100 | on success: the list is updated in place when a non-empty editing id is set, otherwise one account is added; the form is reset to three empty strings, the editing id cleared, editing off and success set. On failure: only the error message changes. Both end with the submitting flag down. Both keep distinct ids and at most one primary |
| `BankAccounts.BankAccountPage.Edit` | src/pages/bank/BankAccount.tsx:103-111 | editing copies the account's three fields into the form and sets the editing id and the editing flag |
| `BankAccounts.BankAccountPage.Delete` | src/pages/bank/BankAccount.tsx:113-117 | a confirmed delete filters the id out and keeps the list invariant; without confirmation the list is unchanged |
| `BankAccounts.BankAccountPage.SetAsPrimary` | src/pages/bank/BankAccount.tsx:119-126 | only the list changes, to its set-as-primary map, and it keeps distinct ids and at most one primary |
| `BankAccounts.BankAccountPage.CancelEdit` | src/pages/bank/BankAccount.tsx:128-132 | cancel resets the form to three empty strings, clears the editing id and the editing flag |
| `BankAccounts.BankAccountPage.BannerAsWritten` | src/pages/bank/BankAccount.tsx:151-158 | the success banner as rendered: present exactly while success is set, and saying "updated" exactly when an editing id is set at render time |
| `BankAccounts.BankAccountPage.SuccessBanner` | src/pages/bank/BankAccount.tsx:151-158 | the corrected banner: present exactly while success is set, and saying "updated" exactly when the last successful submit was an edit |
| `BankAccounts.UpdateBannerCounterexample` | src/pages/bank/BankAccount.tsx:156 | after editing the sample account and submitting successfully, the banner as rendered says "added" while the corrected one says "updated" |
| `LoanApplication.Installment` | src/pages/loan/ApplyLoan.tsx:57-63 | the installment r is the ceiling of (P + 0.02 P T) / T: 50T r >= P(50 + T) > 50T (r - 1) |
| `LoanApplication.InstallmentUnique` | src/pages/loan/ApplyLoan.tsx:57-63 | the two ceiling bounds determine the installment, so the formula is reproduced exactly |
| `LoanApplication.InstallmentSample` | src/pages/loan/ApplyLoan.tsx:57-63 | amount 500000 over 3 months gives 176667 |
| `LoanApplication.InstallmentRange` | src/pages/loan/ApplyLoan.tsx:57-63 | for every amount the slider offers and every tenor, T installments cover the principal, and T (r - 1) is below principal plus interest |
| `LoanApplication.WithText` | src/pages/loan/ApplyLoan.tsx:46-49 | an input change sets the named text field and leaves every other field as it was |
| `LoanApplication.WithFile` | src/pages/loan/ApplyLoan.tsx:51-55 | a file change sets only the named document to the first picked file, and leaves the form unchanged when no file was picked |
| `LoanApplication.ApplyLoanPage.constructor` | src/pages/loan/ApplyLoan.tsx:14-27 | the wizard starts on step 1 with amount 500000, tenor 3, empty texts, no files and all flags down |
| `LoanApplication.ApplyLoanPage.ShownInstallment` | src/pages/loan/ApplyLoan.tsx:326 | the summary's installment is defined in every state of the page and repays at least the principal over the tenor |
| `LoanApplication.ApplyLoanPage.Next` | src/pages/loan/ApplyLoan.tsx:214 | Next sets the step to 2 and changes nothing else |
| `LoanApplication.ApplyLoanPage.Back` | src/pages/loan/ApplyLoan.tsx:331 | Back sets the step to 1 and changes nothing else, so nothing entered is lost |
| `LoanApplication.ApplyLoanPage.SlideAmount` | src/pages/loan/ApplyLoan.tsx:151-157 | the slider changes only the amount |
| `LoanApplication.ApplyLoanPage.SelectTenor` | src/pages/loan/ApplyLoan.tsx:173-175 | the tenor select changes only the tenor, which stays one of 1, 3, 6, 12 |
| `LoanApplication.ApplyLoanPage.SelectPurpose` | src/pages/loan/ApplyLoan.tsx:195-206 | the purpose select changes only the purpose, to one of the seven listed purposes, so the purpose stays unset or listed |
| `LoanApplication.ApplyLoanPage.InputChange` | src/pages/loan/ApplyLoan.tsx:46-49 | typing changes only the named text field |
| `LoanApplication.ApplyLoanPage.FileChange` | src/pages/loan/ApplyLoan.tsx:51-55 | a file change updates only the named document, and only when a file was picked |
| `LoanApplication.ApplyLoanPage.BeginSubmit` | src/pages/loan/ApplyLoan.tsx:65-68 | submitting clears the error and raises the submitting flag |
| `LoanApplication.ApplyLoanPage.FinishSubmit` | src/pages/loan/ApplyLoan.tsx:70-79 | on success sets the success flag; on failure sets the error message; both end with the submitting flag down |
| `Registration.WithField` | src/pages/auth/Register.tsx:31-37 | an input change sets only the named form field |
| `Registration.NewMember` | src/pages/auth/Register.tsx:50-58 | the new record takes name, email, phone and password from the form, the given id and time, and status "active"; it has no confirmation field |
| `Registration.NewMemberIgnoresConfirmation` | src/pages/auth/Register.tsx:51 | the confirmation field has no influence on the created record |
| `Registration.Decide` | src/pages/auth/Register.tsx:42-94 | the submit ends in a password mismatch exactly when the passwords differ, in a lookup error exactly when the lookup fails, in "email taken" exactly when the lookup finds someone, and in registration exactly when the lookup finds nobody and the creation succeeds |
| `Registration.ToastFor` | src/pages/auth/Register.tsx:43-92 | the notification is a success exactly when the member was registered; a password mismatch shows the mismatch message, a found email "Email sudah terdaftar!", a failed request its own error message, and a registration the success message |
| `Registration.SubmitOrdering` | src/pages/auth/Register.tsx:62-82 | no request is sent when the passwords differ; otherwise the email lookup comes first, and the creation request, carrying the new record, is sent only second and only after a successful lookup that found nobody |
| `Registration.RegisterPage.constructor` | src/pages/auth/Register.tsx:21-28 | the page starts with an empty form, not loading, no requests and no notifications |
| `Registration.RegisterPage.Change` | src/pages/auth/Register.tsx:31-37 | typing changes only the named form field |
| `Registration.RegisterPage.HandleSubmit` | src/pages/auth/Register.tsx:39-101 | exactly one notification is shown and the requests of the decided path are sent; the loading flag ends down on every path that raised it and is untouched on a password mismatch |
| `Profile.FindByEmail` | src/pages/profile/ProfilePage.tsx:35 | the result is the first member whose email matches, and nothing exactly when no member matches |
| `Profile.WithDefaults` | src/pages/profile/ProfilePage.tsx:38-44 | role, status and creation time default to "Member", "active" and now when falsy; the update time is now; every other field is copied unchanged |
| `Profile.DefaultsStable` | src/pages/profile/ProfilePage.tsx:38-44 | filling defaults a second time only moves the update time |
| `Profile.ProfilePage.constructor` | src/pages/profile/ProfilePage.tsx:19-24 | the page starts with no member loaded, flags down and nothing sent |
| `Profile.ProfilePage.Load` | src/pages/profile/ProfilePage.tsx:27-56 | no fetch when the stored email is empty; otherwise one read of the collection, and when a member matches, both copies become the defaulted first match; otherwise nothing is loaded |
| `Profile.ProfilePage.EditName` | src/pages/profile/ProfilePage.tsx:125 | editing the name changes only the name of the editable copy |
| `Profile.ProfilePage.Cancel` | src/pages/profile/ProfilePage.tsx:147 | cancel restores the editable copy to the loaded member |
| `Profile.ProfilePage.Save` | src/pages/profile/ProfilePage.tsx:58-93 | with no editable copy nothing happens; otherwise the editable copy stamped with now is sent. On success both copies become the server's response and success is set. On failure an alert is shown and both copies stay. The saving flag ends down, and the editable copy never differs from the loaded one except in the name |
| `Kyc.WithText` | src/pages/kyc/KYC.tsx:23-26 | an input change sets only the named text field and keeps both photos |
| `Kyc.WithFile` | src/pages/kyc/KYC.tsx:28-32 | a file change sets only the named photo, and only when a file was picked |
| `Kyc.TextRoundTrip` | src/pages/kyc/KYC.tsx:23-26 | reading back a field gives the value set, and setting a field to its current value changes nothing |
| `Kyc.KycPage.constructor` | src/pages/kyc/KYC.tsx:10-21 | the form starts with four empty strings and no photos, flags down |
| `Kyc.KycPage.InputChange` | src/pages/kyc/KYC.tsx:23-26 | typing changes only the named field of the form |
| `Kyc.KycPage.FileChange` | src/pages/kyc/KYC.tsx:28-32 | choosing a file changes only the named photo, and only when a file was picked |
| `Kyc.KycPage.BeginSubmit` | src/pages/kyc/KYC.tsx:34-37 | submitting clears the error first and raises the submitting flag |
| `Kyc.KycPage.FinishSubmit` | src/pages/kyc/KYC.tsx:39-58 | on success all six fields are reset to empty or none and success is set; on failure only the error message changes; both end with the submitting flag down |
| `Payments.StatusLabel` | src/pages/payment/Payment.tsx:163-164 | paid is labelled "Lunas", overdue "Jatuh Tempo", pending "Menunggu Pembayaran", and each label belongs to one status only |
| `Payments.HistoryLabel` | src/pages/payment/Payment.tsx:226 | a history row says "Lunas" exactly when paid, otherwise "Menunggu Pembayaran" |
| `Payments.LabelsAgreeExceptOverdue` | src/pages/payment/Payment.tsx:163-226 | the history row (line 226) and the status badge (lines 163-164) agree on every status except overdue |
| `Payments.HistoryLabels` | src/pages/payment/Payment.tsx:200-226 | the history has one row per installment, in order, saying "Lunas" exactly for the paid ones and "Menunggu Pembayaran" for the others |
| `Payments.SampleHistory` | src/pages/payment/Payment.tsx:28-35 | the sample loan's history shows two paid installments then four awaiting, and the row of the next installment agrees with the status badge |
| `Payments.InstructionsNumbered` | src/pages/payment/Payment.tsx:282-354 | the instructions are numbered 1, 2, ... without a gap; the last one, to confirm the payment, is number 5 for a bank transfer and 3 otherwise; the upload step is listed exactly when the proof upload is shown, that is, for a bank transfer |
| `Payments.PaymentPage.constructor` | src/pages/payment/Payment.tsx:13-41 | the form starts with the next installment's amount (500000) and no proof, bank transfer chosen, flags down |
| `Payments.PaymentPage.SelectMethod` | src/pages/payment/Payment.tsx:249-251 | choosing a method changes only the method |
| `Payments.PaymentPage.InputChange` | src/pages/payment/Payment.tsx:43-46 | typing changes only the amount, which then holds the typed text |
| `Payments.PaymentPage.FileChange` | src/pages/payment/Payment.tsx:48-52 | the proof is set to the first picked file, and nothing changes when no file was picked |
| `Payments.PaymentPage.BeginSubmit` | src/pages/payment/Payment.tsx:54-57 | submitting clears the error and raises the submitting flag |
| `Payments.PaymentPage.FinishSubmit` | src/pages/payment/Payment.tsx:59-68 | on success sets the success flag; on failure sets the error message; both end with the submitting flag down |

## Findings

| source | as written | input that shows it | evidently intended | confidence | as-written member | corrected member |
|---|---|---|---|---|---|---|
| src/pages/bank/BankAccount.tsx:156 | the success banner picks its text from `editingId`, which the successful submit has already cleared (line 92) together with raising the success flag (line 94), so the "updated" text never follows an update | edit the sample account "1" and submit successfully: the banner says "Rekening berhasil ditambahkan" (`BankAccounts.UpdateBannerCounterexample`) | an update is announced as "Rekening berhasil diperbarui", an addition as "Rekening berhasil ditambahkan" | high (not executed) | `BankAccounts.BankAccountPage.BannerAsWritten` | `BankAccounts.BankAccountPage.SuccessBanner` |

## Left out

- Rendering, styling and the UI component library are presentation only.
- The `setTimeout` delays that simulate requests are left out. What follows
  each delay is modelled, with a `failed` parameter for the rejected
  promise; the source's timers never reject.
- The 3-second timers that hide the success banners are left out as timing.
- Time-based ids, ISO timestamps and `Math.random` transaction and
  application numbers are parameters or left out.
- Registration and profile handlers run atomically in the model. While
  their requests are in flight the pages show `isLoading` and `isSaving`
  as true; the model does not show that intermediate value.
- The registration button is not disabled while loading, so the real page
  can run two submits at once. That overlap is not modelled.
- The registration handler's outer `catch` is left out. Nothing inside it
  can throw except the fetches, and the inner `catch` handles those.
- `BankAccounts.BankAccountPage.FinishSubmit`: the handler's closure
  captures the form, the editing id and the list length when the submit
  starts. The model reads them when the submit completes. The two agree
  unless another handler runs during the one-second wait, and that
  interleaving is not modelled.
- `BankAccounts.BankAccountPage.FinishSubmit`: requires the timestamp id of
  an added account to differ from every saved id. The page relies on
  `Date.now()` for this. The requirement is needed for the distinct-id half
  of the list invariant.
- `LoanApplication.Installment`: computed with exact integer arithmetic. The
  IEEE-754 double rounding of the 0.02 rate in the browser is not verified.
- `Registration.NewMember`: one `now` stands for the two separate clock
  readings of `createdAt` and `updatedAt`. The model therefore has them
  equal, while the page may get two times a millisecond apart.
- `Profile.WithDefaults`: one `now` stands for the clock readings of a
  missing `createdAt` and of `updatedAt`, which the page takes separately.
- Currency and date formatting (`Intl.NumberFormat`, `toLocaleString`,
  `toLocaleDateString`) are a locale library and are left out.
- The browser's `required`, `min`, `max` and `maxLength` checks are not part
  of the page code and are left out.
- `console.error` calls are left out. `confirm()` is a boolean parameter.
  Toasts and `alert()` are logged messages.
- `useTransition` in the profile page is React scheduling and is left out.
- A JSON body that is not an array is not modelled: the email lookup and
  the member list are sequences.
- Not part of this model:
  - src/App.tsx (routing and a storage-flag auth check);
  - src/app/api/register/route.ts (a file-backed store);
  - src/pages/dashboard/Dashboard.tsx (static markup);
  - src/types/member.ts (types only; it shapes `Profile.Member`).
