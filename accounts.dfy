/**
 * The administrator's chart of accounts: creating, renaming and deleting accounts
 * of the user's company, and an account's statement of totals.
 */
module ChartOfAccounts {
  import opened Optional
  import opened Text
  import opened Entities
  import opened Store

  /** The posted account form. */
  datatype AccountForm = AccountForm(accountName: string, accountType: AccountType)

  /**
   * `LOWER(a) = LOWER(b)` in SQL Server: case is ignored and the shorter operand is
   * padded with spaces, so trailing U+0020 characters do not count.
   */
  predicate SqlNameEquals(a: string, b: string)
  {
    Lower(TrimTrailingSpaces(a)) == Lower(TrimTrailingSpaces(b))
  }

  /** The form's attributes: a name that is not blank and has at most 100 UTF-16 code units. */
  predicate AccountNameValid(name: string)
  {
    !IsBlank(name) && Utf16Length(name) <= MaxAccountNameLength
  }

  /**
   * The length limit counts UTF-16 code units: 51 characters above U+FFFF make 102 units
   * and are refused, while 50 of them make exactly the 100 the form allows.
   */
  lemma AstralNameLengthCountsTwice()
    ensures !AccountNameValid(seq(51, _ => '\U{1F600}'))
    ensures AccountNameValid(seq(50, _ => '\U{1F600}'))
  {
    var long := seq(51, _ => '\U{1F600}');
    var short := seq(50, _ => '\U{1F600}');
    Utf16LengthCounts(long);
    Utf16LengthCounts(short);
    assert !IsWhiteSpace(short[0]);
  }

  /**
   * The duplicate check as the controller writes it: an account of the company, other
   * than `except`, whose stored name the database finds equal to the name as typed.
   */
  predicate NameInUse(accounts: seq<Account>, companyId: int, name: string, except: Option<int>)
  {
    exists i :: && 0 <= i < |accounts| && accounts[i].companyId == companyId
                && (except.None? || accounts[i].accountId != except.value)
                && SqlNameEquals(accounts[i].accountName, name)
  }

  /** The duplicate check on the name as it will be stored, that is trimmed. */
  predicate NameInUseTrimmed(accounts: seq<Account>, companyId: int, name: string, except: Option<int>)
  {
    NameInUse(accounts, companyId, Trim(name), except)
  }

  /** No two accounts of one company have names the database finds equal. */
  predicate NamesDistinctPerCompany(accounts: seq<Account>)
  {
    forall i, j :: 0 <= i < j < |accounts| && accounts[i].companyId == accounts[j].companyId
                   ==> !SqlNameEquals(accounts[i].accountName, accounts[j].accountName)
  }

  /**
   * The check as written compares the untrimmed input while the trimmed name is stored:
   * " Cash" passes it next to "Cash", and the company ends with two accounts named Cash.
   */
  lemma {:induction false} UntrimmedCheckAdmitsDuplicate()
    ensures var accounts := [Account(1, "Cash", Asset, 7)];
            && NamesDistinctPerCompany(accounts)
            && AccountNameValid(" Cash")
            && !NameInUse(accounts, 7, " Cash", None)
            && !NamesDistinctPerCompany(accounts + [Account(2, Trim(" Cash"), Asset, 7)])
  {
    SingleAccountNamesDistinct(Account(1, "Cash", Asset, 7));
    PaddedNameValid();
    PaddedNamePassesCheck();
    PaddedNameStoredAsDuplicate();
  }

  lemma SingleAccountNamesDistinct(a: Account)
    ensures NamesDistinctPerCompany([a])
  {
  }

  lemma PaddedNameValid()
    ensures AccountNameValid(" Cash")
  {
    assert !IsWhiteSpace(" Cash"[1]);
  }

  lemma PaddedNamePassesCheck()
    ensures !NameInUse([Account(1, "Cash", Asset, 7)], 7, " Cash", None)
  {
    var accounts := [Account(1, "Cash", Asset, 7)];
    PaddedNameDiffers();
    assert accounts[0].accountName == "Cash";
  }

  lemma PaddedNameStoredAsDuplicate()
    ensures !NamesDistinctPerCompany([Account(1, "Cash", Asset, 7)] + [Account(2, Trim(" Cash"), Asset, 7)])
  {
    PaddedNameTrims();
    var after := [Account(1, "Cash", Asset, 7)] + [Account(2, Trim(" Cash"), Asset, 7)];
    assert after[0].accountName == after[1].accountName;
  }

  /** SQL Server's comparison keeps a leading space: " Cash" is not "Cash". */
  lemma PaddedNameDiffers()
    ensures !SqlNameEquals("Cash", " Cash")
  {
    assert TrimTrailingSpaces("Cash") == "Cash";
    assert TrimTrailingSpaces(" Cash") == " Cash";
    assert Lower(" Cash")[0] != Lower("Cash")[0];
  }

  /** Trimming " Cash" gives "Cash". */
  lemma PaddedNameTrims()
    ensures Trim(" Cash") == "Cash"
  {
    var typed := " Cash";
    assert IsWhiteSpace(typed[0]);
    TrimSkipsLeadingWhiteSpace(typed);
    assert typed[1..] == "Cash";
    UnpaddedNameTrims();
  }

  lemma UnpaddedNameTrims()
    ensures Trim("Cash") == "Cash"
  {
    assert !IsWhiteSpace("Cash"[0]) && !IsWhiteSpace("Cash"[3]);
    TrimKeepsUnpadded("Cash");
  }

  /** Appending an account whose trimmed name passed the trimmed check keeps the names distinct. */
  lemma {:induction false} TrimmedCheckKeepsNamesDistinct(accounts: seq<Account>, companyId: int, name: string,
                                                          id: int, accountType: AccountType)
    requires NamesDistinctPerCompany(accounts)
    requires !NameInUseTrimmed(accounts, companyId, name, None)
    ensures NamesDistinctPerCompany(accounts + [Account(id, Trim(name), accountType, companyId)])
  {
    var key := Trim(name);
    var after := accounts + [Account(id, key, accountType, companyId)];
    assert forall i :: 0 <= i < |accounts| && accounts[i].companyId == companyId
                       ==> !SqlNameEquals(accounts[i].accountName, key);
    forall i, j | 0 <= i < j < |after| && after[i].companyId == after[j].companyId
      ensures !SqlNameEquals(after[i].accountName, after[j].accountName)
    {
      assert after[i] == accounts[i];
      if j == |accounts| {
        assert after[j].accountName == key;
      } else {
        assert after[j] == accounts[j];
      }
    }
  }

  /** For a name without surrounding whitespace the written check and the trimmed one agree. */
  lemma {:induction false} ChecksAgreeOnUnpaddedNames(accounts: seq<Account>, companyId: int, name: string,
                                                      except: Option<int>)
    requires name != [] ==> !IsWhiteSpace(name[0]) && !IsWhiteSpace(name[|name| - 1])
    ensures NameInUseTrimmed(accounts, companyId, name, except) <==> NameInUse(accounts, companyId, name, except)
  {
    TrimKeepsUnpadded(name);
    SameNameSameCheck(accounts, companyId, name, except);
  }

  lemma SameNameSameCheck(accounts: seq<Account>, companyId: int, name: string, except: Option<int>)
    requires Trim(name) == name
    ensures NameInUseTrimmed(accounts, companyId, name, except) <==> NameInUse(accounts, companyId, name, except)
  {
  }

  /** The position of the company's account with this id. */
  function AccountIndex(accounts: seq<Account>, accountId: int, companyId: int): (r: Option<nat>)
    ensures r.Some? ==> r.value < |accounts| && accounts[r.value].accountId == accountId
                        && accounts[r.value].companyId == companyId
    ensures r.None? <==> !HasAccount(accounts, accountId, companyId)
  {
    if accounts == [] then None
    else if accounts[0].accountId == accountId && accounts[0].companyId == companyId then Some(0)
    else
      match AccountIndex(accounts[1..], accountId, companyId)
      case None =>
        assert forall i :: 0 < i < |accounts| ==> accounts[i] == accounts[1..][i - 1];
        None
      case Some(k) => Some(k + 1)
  }

  /** `AccountExists`: `Any` agrees with the `FirstOrDefault` lookups of the other actions. */
  function AccountExists(accounts: seq<Account>, accountId: int, companyId: int): (r: bool)
    ensures r <==> FindAccount(accounts, accountId, companyId).Some?
  {
    exists i | 0 <= i < |accounts| :: accounts[i].accountId == accountId && accounts[i].companyId == companyId
  }

  /**
   * `CreateFailed` is the unhandled error of a blank name: the binder hands it to the
   * action as null, and the duplicate check calls `ToLower` on it before validation.
   */
  datatype CreateAccountResult = AccountCreated(accountId: int) | CreateRejected(nameTaken: bool) | CreateFailed

  /**
   * The Create action: a blank name fails outright; otherwise the account is stored under
   * the next id with its trimmed name when the name is valid and not taken in the company.
   * Nothing changes unless an account is stored.
   */
  method CreateAccount(db: Ledger, form: AccountForm, companyId: int) returns (r: CreateAccountResult)
    requires db.Valid()
    modifies db
    ensures db.Valid()
    ensures db.transactions == old(db.transactions) && db.nextTransactionId == old(db.nextTransactionId)
    ensures IsBlank(form.accountName) ==>
              r == CreateFailed && db.accounts == old(db.accounts) && db.nextAccountId == old(db.nextAccountId)
    ensures !IsBlank(form.accountName) ==>
            var taken := NameInUseTrimmed(old(db.accounts), companyId, form.accountName, None);
            if !taken && AccountNameValid(form.accountName) then
              && r == AccountCreated(old(db.nextAccountId))
              && db.accounts == old(db.accounts) + [Account(old(db.nextAccountId), Trim(form.accountName), form.accountType, companyId)]
              && db.nextAccountId == old(db.nextAccountId) + 1
            else
              && r == CreateRejected(taken)
              && db.accounts == old(db.accounts) && db.nextAccountId == old(db.nextAccountId)
    ensures NamesDistinctPerCompany(old(db.accounts)) ==> NamesDistinctPerCompany(db.accounts)
  {
    if IsBlank(form.accountName) {
      return CreateFailed;
    }
    var taken := NameInUseTrimmed(db.accounts, companyId, form.accountName, None);
    if !taken && AccountNameValid(form.accountName) {
      var a := Account(db.nextAccountId, Trim(form.accountName), form.accountType, companyId);
      AddAccountKeepsConsistent(db.accounts, db.transactions, db.nextAccountId, db.nextTransactionId, a);
      if NamesDistinctPerCompany(db.accounts) {
        TrimmedCheckKeepsNamesDistinct(db.accounts, companyId, form.accountName, a.accountId, form.accountType);
      }
      db.InsertAccount(a);
      r := AccountCreated(a.accountId);
    } else {
      r := CreateRejected(taken);
    }
  }

  /** An account created in a consistent ledger has no lines yet, so its statement shows zeros. */
  lemma FreshAccountHasNoLines(accounts: seq<Account>, txs: TxTable, nA: int, nT: int)
    requires Consistent(accounts, txs, nA, nT)
    ensures AccountTotals(txs, nA) == Totals(0, 0, 0)
  {
    forall k, n | k in txs && 0 <= n < |txs[k].lines| ensures txs[k].lines[n].accountId != nA {
      assert EntryOk(accounts, k, txs[k], nT);
      assert LineOk(accounts, txs[k], txs[k].lines[n]);
    }
    UnusedAccountHasNoLines(txs, nA);
  }

  /** `EditFailed`: as in Create, a blank name makes the duplicate check throw. */
  datatype EditAccountResult = EditNotFound | EditRejected(nameTaken: bool) | EditFailed | AccountUpdated

  /**
   * The Edit action: the route id must match the form's and name an account of the
   * company; the new trimmed name must be valid and not taken by another account.
   */
  method EditAccount(db: Ledger, id: int, formAccountId: int, form: AccountForm, companyId: int)
    returns (r: EditAccountResult)
    requires db.Valid()
    modifies db
    ensures db.Valid()
    ensures db.transactions == old(db.transactions) && db.nextTransactionId == old(db.nextTransactionId)
    ensures db.nextAccountId == old(db.nextAccountId)
    ensures r == EditNotFound <==> id != formAccountId || !HasAccount(old(db.accounts), id, companyId)
    ensures r == EditFailed <==>
              id == formAccountId && HasAccount(old(db.accounts), id, companyId) && IsBlank(form.accountName)
    ensures r == AccountUpdated <==>
              && id == formAccountId && HasAccount(old(db.accounts), id, companyId)
              && !NameInUseTrimmed(old(db.accounts), companyId, form.accountName, Some(id))
              && AccountNameValid(form.accountName)
    ensures r == AccountUpdated ==>
              var i := AccountIndex(old(db.accounts), id, companyId).value;
              db.accounts == old(db.accounts)[i := old(db.accounts)[i].(accountName := Trim(form.accountName),
                                                                           accountType := form.accountType)]
    ensures r.EditRejected? ==> r.nameTaken == NameInUseTrimmed(old(db.accounts), companyId, form.accountName, Some(id))
    ensures r != AccountUpdated ==> db.accounts == old(db.accounts)
    ensures NamesDistinctPerCompany(old(db.accounts)) ==> NamesDistinctPerCompany(db.accounts)
  {
    if id != formAccountId {
      return EditNotFound;
    }
    var found := AccountIndex(db.accounts, id, companyId);
    if found.None? {
      return EditNotFound;
    }
    if IsBlank(form.accountName) {
      return EditFailed;
    }
    var i := found.value;
    var taken := NameInUseTrimmed(db.accounts, companyId, form.accountName, Some(id));
    if taken || !AccountNameValid(form.accountName) {
      return EditRejected(taken);
    }
    var a := db.accounts[i].(accountName := Trim(form.accountName), accountType := form.accountType);
    EditAccountKeepsConsistent(db.accounts, db.transactions, db.nextAccountId, db.nextTransactionId, i, a);
    if NamesDistinctPerCompany(db.accounts) {
      RenameKeepsNamesDistinct(db.accounts, i, form.accountName, form.accountType);
    }
    db.UpdateAccount(i, a);
    r := AccountUpdated;
  }

  /** A rename that passed the trimmed check, other than the account itself, keeps the names distinct. */
  lemma {:induction false} RenameKeepsNamesDistinct(accounts: seq<Account>, i: nat, name: string,
                                                    accountType: AccountType)
    requires i < |accounts| && NamesDistinctPerCompany(accounts) && AccountIdsAscending(accounts)
    requires !NameInUseTrimmed(accounts, accounts[i].companyId, name, Some(accounts[i].accountId))
    ensures NamesDistinctPerCompany(accounts[i := accounts[i].(accountName := Trim(name), accountType := accountType)])
  {
    var key := Trim(name);
    var c := accounts[i].companyId;
    var id := accounts[i].accountId;
    var after := accounts[i := accounts[i].(accountName := key, accountType := accountType)];
    assert forall k :: 0 <= k < |accounts| && accounts[k].companyId == c && accounts[k].accountId != id
                       ==> !SqlNameEquals(accounts[k].accountName, key);
    forall j, k | 0 <= j < k < |after| && after[j].companyId == after[k].companyId
      ensures !SqlNameEquals(after[j].accountName, after[k].accountName)
    {
      if j == i {
        assert accounts[k].accountId != id && after[k] == accounts[k];
      } else if k == i {
        assert accounts[j].accountId != id && after[j] == accounts[j];
      } else {
        assert after[j] == accounts[j] && after[k] == accounts[k];
      }
    }
  }

  datatype DeleteAccountResult = DeleteAccountNotFound | AccountHasTransactions | AccountDeleted

  /** The Delete action: an account of the company is removed only when no line uses it. */
  method DeleteAccount(db: Ledger, id: int, companyId: int) returns (r: DeleteAccountResult)
    requires db.Valid()
    modifies db
    ensures db.Valid()
    ensures db.transactions == old(db.transactions) && db.nextTransactionId == old(db.nextTransactionId)
    ensures db.nextAccountId == old(db.nextAccountId)
    ensures r == DeleteAccountNotFound <==> !HasAccount(old(db.accounts), id, companyId)
    ensures r == AccountDeleted <==> HasAccount(old(db.accounts), id, companyId) && AccountUnused(old(db.transactions), id)
    ensures r == AccountDeleted ==>
              var i := AccountIndex(old(db.accounts), id, companyId).value;
              db.accounts == old(db.accounts)[..i] + old(db.accounts)[i + 1..]
    ensures r != AccountDeleted ==> db.accounts == old(db.accounts)
  {
    var found := AccountIndex(db.accounts, id, companyId);
    if found.None? {
      return DeleteAccountNotFound;
    }
    var i := found.value;
    if !AccountUnused(db.transactions, id) {
      return AccountHasTransactions;
    }
    RemoveAccountKeepsConsistent(db.accounts, db.transactions, db.nextAccountId, db.nextTransactionId, i);
    db.RemoveAccount(i);
    r := AccountDeleted;
  }

  /** What the Details screen shows for an account, amounts in cents. */
  datatype AccountStatement = AccountStatement(
    account: Account, totalDebits: int, totalCredits: int, balance: int, transactionCount: nat)

  /** The Details action: the account of the company with the sums over all its lines. */
  function Details(accounts: seq<Account>, txs: TxTable, id: Option<int>, companyId: int): (r: Option<AccountStatement>)
    ensures r.Some? <==> id.Some? && HasAccount(accounts, id.value, companyId)
    ensures r.Some? ==> && r.value.account.accountId == id.value && r.value.account.companyId == companyId
                        && Totals(r.value.totalDebits, r.value.totalCredits, r.value.transactionCount)
                           == AccountTotals(txs, id.value)
                        && r.value.balance == r.value.totalDebits - r.value.totalCredits
  {
    if id.None? then None
    else
      match FindAccount(accounts, id.value, companyId)
      case None => None
      case Some(a) =>
        var t := AccountTotals(txs, id.value);
        Some(AccountStatement(a, t.debits, t.credits, t.debits - t.credits, t.count))
  }

  /** An account that may be deleted has a zero balance and no transactions. */
  lemma DeletableAccountShowsZeros(accounts: seq<Account>, txs: TxTable, id: int, companyId: int)
    requires HasAccount(accounts, id, companyId) && AccountUnused(txs, id)
    ensures Details(accounts, txs, Some(id), companyId).Some?
    ensures Details(accounts, txs, Some(id), companyId).value.balance == 0
    ensures Details(accounts, txs, Some(id), companyId).value.transactionCount == 0
  {
    UnusedAccountHasNoLines(txs, id);
    var r := Details(accounts, txs, Some(id), companyId);
    assert r.Some?;
    assert Totals(r.value.totalDebits, r.value.totalCredits, r.value.transactionCount) == Totals(0, 0, 0);
  }
}
