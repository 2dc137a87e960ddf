/** The bank-account page: a list of saved accounts with add, edit in place,
    delete and set-as-primary, the add/edit form that feeds it, and the
    masked display of account numbers. */
module BankAccounts {
  import opened Shared

  datatype Account = Account(id: string, bankName: string, accountNumber: string, accountName: string, isPrimary: bool)

  /** The fields of the add/edit form. */
  datatype AccountForm = AccountForm(bankName: string, accountNumber: string, accountName: string)

  const EmptyForm := AccountForm("", "", "")

  /** The sample account the page starts with. */
  const SampleAccount := Account("1", "BCA", "1234567890", "John Doe", true)

  /** The `name` attributes of the two text inputs wired to the input handler
      (the bank name comes from a select with its own handler). */
  datatype InputName = AccountNumberInput | AccountNameInput

  const SubmitError := "Terjadi kesalahan. Silakan coba lagi."
  const UpdatedBanner := "Rekening berhasil diperbarui"
  const AddedBanner := "Rekening berhasil ditambahkan"

  // ---------------------------------------------------------------------------
  // Invariants of the account list

  predicate DistinctIds(accounts: seq<Account>)
  {
    forall i, j :: 0 <= i < j < |accounts| ==> accounts[i].id != accounts[j].id
  }

  predicate AtMostOnePrimary(accounts: seq<Account>)
  {
    forall i, j :: 0 <= i < j < |accounts| && accounts[i].isPrimary ==> !accounts[j].isPrimary
  }

  function Ids(accounts: seq<Account>): set<string>
  {
    set a | a in accounts :: a.id
  }

  // ---------------------------------------------------------------------------
  // The list transforms inside the handlers

  /** The update branch of the submit: every account carrying `editingId`
      takes the form's fields and keeps its id and primary flag. */
  function ApplyEdit(accounts: seq<Account>, editingId: string, form: AccountForm): (r: seq<Account>)
    ensures |r| == |accounts|
    ensures forall i :: 0 <= i < |r| && accounts[i].id == editingId ==>
              r[i] == Account(editingId, form.bankName, form.accountNumber, form.accountName, accounts[i].isPrimary)
    ensures forall i :: 0 <= i < |r| && accounts[i].id != editingId ==> r[i] == accounts[i]
    decreases |accounts|
  {
    if accounts == [] then []
    else
      var a := accounts[0];
      var a' := if a.id == editingId
                then Account(editingId, form.bankName, form.accountNumber, form.accountName, a.isPrimary)
                else a;
      [a'] + ApplyEdit(accounts[1..], editingId, form)
  }

  /** The add branch of the submit: one new account at the end, primary
      exactly when the list was empty. */
  function Append(accounts: seq<Account>, newId: string, form: AccountForm): (r: seq<Account>)
    ensures |r| == |accounts| + 1 && r[..|accounts|] == accounts
    ensures r[|accounts|].id == newId
    ensures r[|accounts|].bankName == form.bankName
    ensures r[|accounts|].accountNumber == form.accountNumber
    ensures r[|accounts|].accountName == form.accountName
    ensures r[|accounts|].isPrimary <==> accounts == []
  {
    accounts + [Account(newId, form.bankName, form.accountNumber, form.accountName, |accounts| == 0)]
  }

  /** The delete handler's filter: the accounts whose id differs from `id`. */
  function RemoveId(accounts: seq<Account>, id: string): (r: seq<Account>)
    ensures forall a :: a in r <==> a in accounts && a.id != id
    ensures |r| <= |accounts|
    decreases |accounts|
  {
    if accounts == [] then []
    else if accounts[0].id == id then RemoveId(accounts[1..], id)
    else [accounts[0]] + RemoveId(accounts[1..], id)
  }

  /** The set-as-primary map: every account keeps all its fields except the
      primary flag, which is set exactly on the accounts carrying `id`. */
  function MarkPrimary(accounts: seq<Account>, id: string): (r: seq<Account>)
    ensures |r| == |accounts|
    ensures forall i :: 0 <= i < |r| ==> r[i] == accounts[i].(isPrimary := accounts[i].id == id)
    decreases |accounts|
  {
    if accounts == [] then []
    else [accounts[0].(isPrimary := accounts[0].id == id)] + MarkPrimary(accounts[1..], id)
  }

  // ---------------------------------------------------------------------------
  // Properties of the list transforms

  /** Setting a present id as primary leaves exactly that account primary. */
  lemma SetPrimaryExactlyOne(accounts: seq<Account>, id: string, k: int)
    requires DistinctIds(accounts)
    requires 0 <= k < |accounts| && accounts[k].id == id
    ensures forall i :: 0 <= i < |accounts| ==> (MarkPrimary(accounts, id)[i].isPrimary <==> i == k)
  {
  }

  /** Setting an unknown id as primary leaves no account primary. */
  lemma SetPrimaryUnknownId(accounts: seq<Account>, id: string)
    requires id !in Ids(accounts)
    ensures forall i :: 0 <= i < |accounts| ==> !MarkPrimary(accounts, id)[i].isPrimary
  {
    forall i | 0 <= i < |accounts|
      ensures !MarkPrimary(accounts, id)[i].isPrimary
    {
      assert accounts[i] in accounts;
    }
  }

  lemma SetPrimaryKeepsInvariant(accounts: seq<Account>, id: string)
    requires DistinctIds(accounts)
    ensures DistinctIds(MarkPrimary(accounts, id)) && AtMostOnePrimary(MarkPrimary(accounts, id))
  {
  }

  lemma EditKeepsInvariant(accounts: seq<Account>, editingId: string, form: AccountForm)
    requires DistinctIds(accounts) && AtMostOnePrimary(accounts)
    ensures DistinctIds(ApplyEdit(accounts, editingId, form)) && AtMostOnePrimary(ApplyEdit(accounts, editingId, form))
  {
  }

  lemma AddKeepsInvariant(accounts: seq<Account>, newId: string, form: AccountForm)
    requires DistinctIds(accounts) && AtMostOnePrimary(accounts)
    requires newId !in Ids(accounts)
    ensures DistinctIds(Append(accounts, newId, form)) && AtMostOnePrimary(Append(accounts, newId, form))
  {
    var r := Append(accounts, newId, form);
    forall i, j | 0 <= i < j < |r|
      ensures r[i].id != r[j].id && (r[i].isPrimary ==> !r[j].isPrimary)
    {
      if j == |accounts| {
        assert r[i] == accounts[i] && accounts[i] in accounts;
      } else {
        assert r[i] == accounts[i] && r[j] == accounts[j];
      }
    }
  }

  lemma {:induction false} RemoveKeepsInvariant(accounts: seq<Account>, id: string)
    requires DistinctIds(accounts) && AtMostOnePrimary(accounts)
    ensures DistinctIds(RemoveId(accounts, id)) && AtMostOnePrimary(RemoveId(accounts, id))
    decreases |accounts|
  {
    if accounts != [] {
      var tail := accounts[1..];
      assert DistinctIds(tail) && AtMostOnePrimary(tail) by {
        forall i, j | 0 <= i < j < |tail|
          ensures tail[i].id != tail[j].id && (tail[i].isPrimary ==> !tail[j].isPrimary)
        {
          assert tail[i] == accounts[i + 1] && tail[j] == accounts[j + 1];
        }
      }
      RemoveKeepsInvariant(tail, id);
      if accounts[0].id != id {
        var rest := RemoveId(tail, id);
        var r := [accounts[0]] + rest;
        forall j | 0 < j < |r|
          ensures r[0].id != r[j].id && (r[0].isPrimary ==> !r[j].isPrimary)
        {
          assert r[j] == rest[j - 1] && rest[j - 1] in tail;
          var m :| 0 <= m < |tail| && tail[m] == rest[j - 1];
          assert accounts[m + 1] == r[j];
        }
        assert DistinctIds(r) && AtMostOnePrimary(r) by {
          forall i, j | 0 <= i < j < |r|
            ensures r[i].id != r[j].id && (r[i].isPrimary ==> !r[j].isPrimary)
          {
            if i > 0 {
              assert r[i] == rest[i - 1] && r[j] == rest[j - 1];
            }
          }
        }
      }
    }
  }

  /** Deleting an id that no account carries changes nothing. */
  lemma {:induction false} RemoveAbsent(accounts: seq<Account>, id: string)
    requires id !in Ids(accounts)
    ensures RemoveId(accounts, id) == accounts
    decreases |accounts|
  {
    if accounts != [] {
      assert accounts[0] in accounts;
      assert Ids(accounts[1..]) <= Ids(accounts) by {
        forall x | x in Ids(accounts[1..]) ensures x in Ids(accounts) {
          var a :| a in accounts[1..] && a.id == x;
          assert a in accounts;
        }
      }
      RemoveAbsent(accounts[1..], id);
      assert accounts == [accounts[0]] + accounts[1..];
    }
  }

  /** With distinct ids, deleting the id of the account at index k removes
      exactly that account and keeps the others in their order. */
  lemma {:induction false} RemoveAt(accounts: seq<Account>, id: string, k: int)
    requires DistinctIds(accounts)
    requires 0 <= k < |accounts| && accounts[k].id == id
    ensures RemoveId(accounts, id) == accounts[..k] + accounts[k + 1..]
    decreases |accounts|
  {
    var tail := accounts[1..];
    assert DistinctIds(tail) by {
      forall i, j | 0 <= i < j < |tail| ensures tail[i].id != tail[j].id {
        assert tail[i] == accounts[i + 1] && tail[j] == accounts[j + 1];
      }
    }
    if k == 0 {
      assert id !in Ids(tail);
      RemoveAbsent(tail, id);
    } else {
      assert accounts[0].id != id;
      RemoveAt(tail, id, k - 1);
      assert tail[..k - 1] + tail[k..] == accounts[1..k] + accounts[k + 1..];
      assert accounts[..k] == [accounts[0]] + accounts[1..k];
    }
  }

  // ---------------------------------------------------------------------------
  // Masked display of account numbers: every digit that is followed by four
  // more digits is replaced by a bullet (the regular expression \d(?=\d{4})
  // applied globally).

  const Bullet: char := '•'

  predicate IsDigit(c: char)
  {
    '0' <= c <= '9'
  }

  /** Whether the pattern matches at position i: s[i..i+5] are all digits. */
  predicate MaskedAt(s: string, i: int)
    requires 0 <= i < |s|
  {
    i + 4 < |s| && forall k :: i <= k <= i + 4 ==> IsDigit(s[k])
  }

  function Mask(s: string): (r: string)
    ensures |r| == |s|
    decreases |s|
  {
    if s == [] then [] else [if MaskedAt(s, 0) then Bullet else s[0]] + Mask(s[1..])
  }

  /** Each masked character is a bullet exactly where the pattern matches and
      the original character everywhere else. */
  lemma {:induction false} MaskAt(s: string, i: int)
    requires 0 <= i < |s|
    ensures Mask(s)[i] == if MaskedAt(s, i) then Bullet else s[i]
    decreases |s|
  {
    if i > 0 {
      MaskAt(s[1..], i - 1);
      assert MaskedAt(s[1..], i - 1) == MaskedAt(s, i) by {
        if i + 4 < |s| {
          assert forall k :: i - 1 <= k <= i + 3 ==> s[1..][k] == s[k + 1];
        }
      }
    }
  }

  /** Non-digits and the last four characters are never masked. */
  lemma MaskKeeps(s: string, i: int)
    requires 0 <= i < |s|
    requires !IsDigit(s[i]) || i >= |s| - 4
    ensures Mask(s)[i] == s[i]
  {
    MaskAt(s, i);
  }

  /** An all-digit number of length n >= 4 shows n - 4 bullets followed by
      its last four digits. */
  lemma MaskAllDigits(s: string)
    requires |s| >= 4
    requires forall k :: 0 <= k < |s| ==> IsDigit(s[k])
    ensures Mask(s) == seq(|s| - 4, _ => Bullet) + s[|s| - 4..]
  {
    forall i | 0 <= i < |s|
      ensures Mask(s)[i] == (seq(|s| - 4, _ => Bullet) + s[|s| - 4..])[i]
    {
      MaskAt(s, i);
    }
  }

  /** The sample account's number is shown as six bullets and 7890. */
  lemma MaskSample()
    ensures Mask("1234567890") == "••••••7890"
  {
    MaskAllDigits("1234567890");
  }

  // ---------------------------------------------------------------------------
  // The page's state and handlers

  class BankAccountPage {
    var isEditing: bool
    var isSubmitting: bool
    var isSuccess: bool
    var error: string
    var savedAccounts: seq<Account>
    var formData: AccountForm
    var editingId: Option<string>
    /** Whether the last successful submit updated an account; it decides the
        success banner (see SuccessBanner and BannerAsWritten). */
    var lastSaveWasUpdate: bool

    ghost predicate Valid()
      reads this
    {
      DistinctIds(savedAccounts) && AtMostOnePrimary(savedAccounts)
    }

    /** `if (editingId)`: a submit updates when editingId is a non-empty string. */
    predicate EditsOnSubmit()
      reads this
    {
      editingId.Some? && Truthy(editingId.value)
    }

    constructor ()
      ensures Valid()
      ensures savedAccounts == [SampleAccount]
      ensures formData == EmptyForm && editingId == None
      ensures !isEditing && !isSubmitting && !isSuccess && error == ""
    {
      isEditing, isSubmitting, isSuccess, error := false, false, false, "";
      savedAccounts := [SampleAccount];
      formData := EmptyForm;
      editingId := None;
      lastSaveWasUpdate := false;
    }

    method InputChange(name: InputName, value: string)
      modifies this`formData
      ensures formData == match name
                          case AccountNumberInput => old(formData).(accountNumber := value)
                          case AccountNameInput => old(formData).(accountName := value)
    {
      match name {
        case AccountNumberInput => formData := formData.(accountNumber := value);
        case AccountNameInput => formData := formData.(accountName := value);
      }
    }

    method SelectBank(value: string)
      modifies this`formData
      ensures formData == old(formData).(bankName := value)
    {
      formData := formData.(bankName := value);
    }

    /** The "Tambah Rekening" button, shown only while not editing: it opens the form. */
    method StartAdding()
      modifies this`isEditing
      ensures isEditing
    {
      isEditing := true;
    }

    /** The submit handler up to its simulated request. */
    method BeginSubmit()
      modifies this`error, this`isSubmitting
      ensures error == "" && isSubmitting
    {
      error := "";
      isSubmitting := true;
    }

    /** The submit handler after its simulated request: `failed` says whether
        the awaited promise rejected, `newId` is the timestamp id an added
        account receives. */
    method FinishSubmit(newId: string, failed: bool)
      requires Valid()
      requires !failed && !EditsOnSubmit() ==> newId !in Ids(savedAccounts)
      modifies this
      ensures Valid()
      ensures !isSubmitting
      ensures failed ==> savedAccounts == old(savedAccounts) && formData == old(formData)
                         && editingId == old(editingId) && isEditing == old(isEditing)
                         && isSuccess == old(isSuccess) && lastSaveWasUpdate == old(lastSaveWasUpdate)
                         && error == SubmitError
      ensures !failed ==> savedAccounts == (if old(EditsOnSubmit())
                                            then ApplyEdit(old(savedAccounts), old(editingId).value, old(formData))
                                            else Append(old(savedAccounts), newId, old(formData)))
      ensures !failed ==> formData == EmptyForm && editingId == None && !isEditing
                          && isSuccess && lastSaveWasUpdate == old(EditsOnSubmit()) && error == old(error)
    {
      if failed {
        error := SubmitError;
      } else {
        if EditsOnSubmit() {
          EditKeepsInvariant(savedAccounts, editingId.value, formData);
          savedAccounts := ApplyEdit(savedAccounts, editingId.value, formData);
          lastSaveWasUpdate := true;
        } else {
          AddKeepsInvariant(savedAccounts, newId, formData);
          savedAccounts := Append(savedAccounts, newId, formData);
          lastSaveWasUpdate := false;
        }
        formData := EmptyForm;
        editingId := None;
        isEditing := false;
        isSuccess := true;
      }
      isSubmitting := false;
    }

    method Edit(account: Account)
      modifies this`formData, this`editingId, this`isEditing
      ensures formData == AccountForm(account.bankName, account.accountNumber, account.accountName)
      ensures editingId == Some(account.id) && isEditing
    {
      formData := AccountForm(account.bankName, account.accountNumber, account.accountName);
      editingId := Some(account.id);
      isEditing := true;
    }

    /** `confirmed` is the answer to the confirmation dialog. */
    method Delete(id: string, confirmed: bool)
      requires Valid()
      modifies this`savedAccounts
      ensures Valid()
      ensures savedAccounts == if confirmed then RemoveId(old(savedAccounts), id) else old(savedAccounts)
    {
      if confirmed {
        RemoveKeepsInvariant(savedAccounts, id);
        savedAccounts := RemoveId(savedAccounts, id);
      }
    }

    method SetAsPrimary(id: string)
      requires Valid()
      modifies this`savedAccounts
      ensures Valid()
      ensures savedAccounts == MarkPrimary(old(savedAccounts), id)
    {
      SetPrimaryKeepsInvariant(savedAccounts, id);
      savedAccounts := MarkPrimary(savedAccounts, id);
    }

    method CancelEdit()
      modifies this`formData, this`editingId, this`isEditing
      ensures formData == EmptyForm && editingId == None && !isEditing
    {
      formData := EmptyForm;
      editingId := None;
      isEditing := false;
    }

    /** The success banner as the page renders it: the text is chosen by
        `editingId` at render time, after the submit has already cleared it. */
    function BannerAsWritten(): (r: Option<string>)
      reads this
      ensures r.Some? <==> isSuccess
      ensures r == Some(UpdatedBanner) <==> isSuccess && EditsOnSubmit()
    {
      if !isSuccess then None
      else if EditsOnSubmit() then Some(UpdatedBanner) else Some(AddedBanner)
    }

    /** The success banner chosen by what the last successful submit did. */
    function SuccessBanner(): (r: Option<string>)
      reads this
      ensures r.Some? <==> isSuccess
      ensures r == Some(UpdatedBanner) <==> isSuccess && lastSaveWasUpdate
    {
      if !isSuccess then None
      else if lastSaveWasUpdate then Some(UpdatedBanner) else Some(AddedBanner)
    }
  }

  /** Updating the sample account: as written the page then announces an
      added account, while the corrected banner announces the update. */
  method UpdateBannerCounterexample() returns (asWritten: Option<string>, corrected: Option<string>)
    ensures asWritten == Some(AddedBanner)
    ensures corrected == Some(UpdatedBanner)
  {
    var page := new BankAccountPage();
    page.Edit(SampleAccount);
    page.BeginSubmit();
    page.FinishSubmit("1700000000000", false);
    asWritten := page.BannerAsWritten();
    corrected := page.SuccessBanner();
  }
}
