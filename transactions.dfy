/**
 * The accountant's transaction screens: posting a simple two-line entry (with the
 * contra account chosen by the mapping service or by hand), correcting a posted
 * transaction by a reversal and a new entry, deleting one, and the form the
 * correction starts from.
 */
module TransactionLifecycle {
  import opened Optional
  import opened Text
  import opened Calendar
  import opened Entities
  import opened Mapping
  import opened Store

  /** The posted form; the amount is in cents. */
  datatype TransactionForm = TransactionForm(
    transactionDate: Date,
    description: string,
    referenceNo: Option<string>,
    selectedAccountId: int,
    direction: Direction,
    contraAccountId: Option<int>,
    amount: int,
    isCorrection: bool,
    correctingTransactionId: Option<int>)

  /** Why a post redisplays the form instead of storing anything. */
  datatype CreateError =
    | InvalidAccountSelection
    | SelectedAccountsNotFound
    | MappingFailed(error: MappingError)
    | InvalidForm
    | OriginalNotFound
    | TargetAlreadyCorrected
    | CorrectionFailed
    | StorageFailure

  datatype CreateOutcome =
    | Posted(transactionId: int)
    | Corrected(reversalId: int, correctionId: int)
    | Rejected(error: CreateError)

  const Int32Max := 2147483647

  /**
   * The form's validation attributes: a description that is not blank, an account id
   * in 1..int.MaxValue and an amount of at least 0.01.
   */
  predicate FormValid(form: TransactionForm)
  {
    && !IsBlank(form.description)
    && 1 <= form.selectedAccountId <= Int32Max
    && form.amount >= 1
  }

  /** `DetermineDebitCreditForManualSelection`: the (debit, credit) pair of account ids. */
  function DetermineDebitCreditForManualSelection(selected: Account, contra: Account, direction: Direction): (r: (int, int))
    ensures {r.0, r.1} == {selected.accountId, contra.accountId}
    ensures selected.accountId != contra.accountId ==> (r.1 == selected.accountId <==> direction == MoneyIn)
  {
    match direction
    case MoneyOut => (selected.accountId, contra.accountId)
    case MoneyIn => (contra.accountId, selected.accountId)
    case Transfer => (selected.accountId, contra.accountId)
  }

  /** A hand-picked contra account is booked on the same sides the mapping service would use. */
  lemma ManualSidesAgreeWithService(selected: Account, contra: Account, direction: Direction)
    ensures DetermineDebitCreditForManualSelection(selected, contra, direction) == DebitCredit(selected, contra, direction)
  {
  }

  /** The contra account was chosen by hand. */
  predicate IsManualSelection(form: TransactionForm)
  {
    form.contraAccountId.Some? && form.contraAccountId.value > 0
  }

  /** `CountAsync` of the company's accounts whose id is one of `ids`. */
  function CountMatching(accounts: seq<Account>, companyId: int, ids: set<int>): (n: nat)
    ensures n <= |accounts|
  {
    if accounts == [] then 0
    else
      (if accounts[0].companyId == companyId && accounts[0].accountId in ids then 1 else 0)
      + CountMatching(accounts[1..], companyId, ids)
  }

  lemma {:induction false} CountSplit(accounts: seq<Account>, companyId: int, s: int, t: int)
    requires s != t
    ensures CountMatching(accounts, companyId, {s, t})
            == CountMatching(accounts, companyId, {s}) + CountMatching(accounts, companyId, {t})
  {
    if accounts != [] {
      CountSplit(accounts[1..], companyId, s, t);
    }
  }

  lemma {:induction false} CountAbsent(accounts: seq<Account>, companyId: int, s: int)
    requires forall i :: 0 <= i < |accounts| ==> accounts[i].accountId != s
    ensures CountMatching(accounts, companyId, {s}) == 0
  {
    if accounts != [] {
      CountAbsent(accounts[1..], companyId, s);
    }
  }

  /** With ascending ids, an id is counted once when the company has it and never otherwise. */
  lemma {:induction false} CountSingle(accounts: seq<Account>, companyId: int, s: int)
    requires AccountIdsAscending(accounts)
    ensures CountMatching(accounts, companyId, {s}) == if HasAccount(accounts, s, companyId) then 1 else 0
  {
    if accounts != [] {
      var tail := accounts[1..];
      assert forall i :: 0 <= i < |tail| ==> tail[i] == accounts[i + 1];
      if accounts[0].accountId == s {
        CountAbsent(tail, companyId, s);
        if accounts[0].companyId != companyId {
          forall i | 0 <= i < |accounts| && accounts[i].accountId == s ensures i == 0 {
          }
        }
      } else {
        CountSingle(tail, companyId, s);
        if HasAccount(accounts, s, companyId) {
          var i :| 0 <= i < |accounts| && accounts[i].accountId == s && accounts[i].companyId == companyId;
          assert tail[i - 1] == accounts[i];
        }
        if HasAccount(tail, s, companyId) {
          var i :| 0 <= i < |tail| && tail[i].accountId == s && tail[i].companyId == companyId;
          assert accounts[i + 1] == tail[i];
        }
      }
    }
  }

  /**
   * The manual selection's count check: exactly two rows match when the two ids differ
   * and both accounts exist in the company.
   */
  lemma SelectionCountIsTwoIff(accounts: seq<Account>, companyId: int, s: int, t: int)
    requires AccountIdsAscending(accounts)
    ensures CountMatching(accounts, companyId, {s, t}) == 2
            <==> s != t && HasAccount(accounts, s, companyId) && HasAccount(accounts, t, companyId)
  {
    if s == t {
      assert {s, t} == {s};
      CountSingle(accounts, companyId, s);
    } else {
      CountSplit(accounts, companyId, s, t);
      CountSingle(accounts, companyId, s);
      CountSingle(accounts, companyId, t);
    }
  }

  /** The mapping built from a hand-picked contra account. */
  function ManualMapping(accounts: seq<Account>, form: TransactionForm, companyId: int): (r: Result<AccountMapping, CreateError>)
    requires IsManualSelection(form)
    ensures r.Ok? ==> && r.value.primaryAccount in accounts && r.value.contraAccount in accounts
                      && r.value.primaryAccount.accountId == form.selectedAccountId
                      && r.value.contraAccount.accountId == form.contraAccountId.value
                      && r.value.primaryAccount.companyId == companyId
                      && r.value.contraAccount.companyId == companyId
                      && (r.value.debitAccountId, r.value.creditAccountId)
                         == DetermineDebitCreditForManualSelection(r.value.primaryAccount, r.value.contraAccount, form.direction)
                      && r.value.direction == form.direction && r.value.amount == form.amount
    ensures r.Err? ==> r.error in {InvalidAccountSelection, SelectedAccountsNotFound}
  {
    var contraId := form.contraAccountId.value;
    if CountMatching(accounts, companyId, {form.selectedAccountId, contraId}) != 2 then Err(InvalidAccountSelection)
    else
      match (FindAccount(accounts, form.selectedAccountId, companyId), FindAccount(accounts, contraId, companyId))
      case (Some(selected), Some(contra)) =>
        var (debit, credit) := DetermineDebitCreditForManualSelection(selected, contra, form.direction);
        Ok(AccountMapping(debit, credit, selected, contra, form.direction, form.amount, ""))
      case _ => Err(SelectedAccountsNotFound)
  }

  /**
   * With ascending ids a manual selection succeeds exactly when the two ids differ and
   * both accounts exist in the company; "not found" after a passing count cannot occur.
   */
  lemma ManualMappingSucceedsIff(accounts: seq<Account>, form: TransactionForm, companyId: int)
    requires AccountIdsAscending(accounts) && IsManualSelection(form)
    ensures ManualMapping(accounts, form, companyId).Ok?
            <==> && form.selectedAccountId != form.contraAccountId.value
                 && HasAccount(accounts, form.selectedAccountId, companyId)
                 && HasAccount(accounts, form.contraAccountId.value, companyId)
    ensures ManualMapping(accounts, form, companyId) != Err(SelectedAccountsNotFound)
  {
    SelectionCountIsTwoIff(accounts, companyId, form.selectedAccountId, form.contraAccountId.value);
  }

  /** Both sides are accounts of the company, and they differ. */
  predicate MappingSound(accounts: seq<Account>, m: AccountMapping, companyId: int)
  {
    && m.debitAccountId != m.creditAccountId
    && HasAccount(accounts, m.debitAccountId, companyId)
    && HasAccount(accounts, m.creditAccountId, companyId)
  }

  /**
   * The mapping of a post: by hand when a contra id above zero is given, else by the
   * service. Either way the selected account is one of two different accounts of the
   * company; a hand-picked pair can only fail the count check, and the service's reason
   * is passed on unchanged.
   */
  function ResolveMapping(accounts: seq<Account>, form: TransactionForm, companyId: int): (r: Result<AccountMapping, CreateError>)
    ensures r.Ok? ==> && r.value.primaryAccount.accountId == form.selectedAccountId
                      && r.value.direction == form.direction && r.value.amount == form.amount
                      && form.selectedAccountId in {r.value.debitAccountId, r.value.creditAccountId}
    ensures AccountIdsAscending(accounts) && r.Ok? ==> MappingSound(accounts, r.value, companyId)
    ensures IsManualSelection(form) && AccountIdsAscending(accounts) ==>
              && (r.Ok? <==> && form.selectedAccountId != form.contraAccountId.value
                             && HasAccount(accounts, form.selectedAccountId, companyId)
                             && HasAccount(accounts, form.contraAccountId.value, companyId))
              && (r.Err? ==> r.error == InvalidAccountSelection)
    ensures IsManualSelection(form) && r.Ok? ==> r.value.contraAccount.accountId == form.contraAccountId.value
    ensures !IsManualSelection(form) ==>
              var service := DetermineAccountMapping(accounts, form.selectedAccountId, form.direction, form.amount, companyId);
              && (r.Ok? <==> service.Ok?)
              && (r.Ok? ==> r.value == service.value)
              && (r.Err? ==> r.error == MappingFailed(service.error))
  {
    if IsManualSelection(form) then
      ManualMappingSound(accounts, form, companyId);
      ManualMapping(accounts, form, companyId)
    else
      ServiceMappingSound(accounts, form, companyId);
      match DetermineAccountMapping(accounts, form.selectedAccountId, form.direction, form.amount, companyId)
      case Ok(m) => Ok(m)
      case Err(e) => Err(MappingFailed(e))
  }

  /** An account of the table is found by its own id and company. */
  lemma MemberHasAccount(accounts: seq<Account>, a: Account)
    requires a in accounts
    ensures HasAccount(accounts, a.accountId, a.companyId)
  {
    var i :| 0 <= i < |accounts| && accounts[i] == a;
  }

  /** With ascending ids, a hand-picked pair that passes the count check is sound. */
  lemma ManualMappingSound(accounts: seq<Account>, form: TransactionForm, companyId: int)
    requires IsManualSelection(form)
    ensures var r := ManualMapping(accounts, form, companyId);
            AccountIdsAscending(accounts) ==>
              && (r.Ok? <==> && form.selectedAccountId != form.contraAccountId.value
                             && HasAccount(accounts, form.selectedAccountId, companyId)
                             && HasAccount(accounts, form.contraAccountId.value, companyId))
              && r != Err(SelectedAccountsNotFound)
              && (r.Ok? ==> MappingSound(accounts, r.value, companyId))
  {
    var r := ManualMapping(accounts, form, companyId);
    if AccountIdsAscending(accounts) {
      ManualMappingSucceedsIff(accounts, form, companyId);
      if r.Ok? {
        MemberHasAccount(accounts, r.value.primaryAccount);
        MemberHasAccount(accounts, r.value.contraAccount);
      }
    }
  }

  /** The service's mapping debits and credits two different accounts of the company. */
  lemma ServiceMappingSound(accounts: seq<Account>, form: TransactionForm, companyId: int)
    ensures var r := DetermineAccountMapping(accounts, form.selectedAccountId, form.direction, form.amount, companyId);
            r.Ok? ==> MappingSound(accounts, r.value, companyId)
  {
    var r := DetermineAccountMapping(accounts, form.selectedAccountId, form.direction, form.amount, companyId);
    if r.Ok? {
      MemberHasAccount(accounts, r.value.primaryAccount);
      MemberHasAccount(accounts, r.value.contraAccount);
    }
  }

  /** The two lines of a simple entry: the amount debited to one account and credited to the other. */
  function EntryLines(id: int, debitAccountId: int, creditAccountId: int, amount: int): (r: seq<Line>)
    ensures |r| == 2 && Balanced(r)
  {
    var r := [NewLine(id, debitAccountId).(debit := amount), NewLine(id, creditAccountId).(credit := amount)];
    assert r[1..] == [r[1]] && r[1..][1..] == [];
    assert Tally(r[1..]) == Totals(0, amount, 1);
    r
  }

  /** The transaction a normal post writes, under the id the database gives it. */
  function JournalEntry(id: int, form: TransactionForm, m: AccountMapping, userId: string, companyId: int): (t: Transaction)
    ensures IsOriginal(t) && FlagsOk(t) && Balanced(t.lines) && t.transactionId == id
  {
    NewTransaction(form.transactionDate, form.description, form.referenceNo, userId, companyId)
      .(transactionId := id, lines := EntryLines(id, m.debitAccountId, m.creditAccountId, form.amount))
  }

  /** The reversal of `orig`, before it is linked to the correction. */
  function ReversalEntry(id: int, orig: Transaction, form: TransactionForm, userId: string, companyId: int): (t: Transaction)
    ensures t.isReversal && !t.isCorrection && t.transactionId == id
    ensures Balanced(t.lines) <==> Balanced(orig.lines)
  {
    MirrorKeepsBalance(orig.lines, id);
    Transaction(id, form.transactionDate, "REVERSAL: " + orig.description,
                Some("REV-" + IntToString(orig.transactionId)), userId, companyId,
                Some(orig.transactionId), None, true, false, Mirror(orig.lines, id))
  }

  /** The correcting transaction: the form's entry, linked to the original and the reversal. */
  function CorrectingEntry(id: int, origId: int, reversalId: int, form: TransactionForm, m: AccountMapping,
                           userId: string, companyId: int): (t: Transaction)
    ensures t.isCorrection && !t.isReversal && t.transactionId == id && Balanced(t.lines)
  {
    JournalEntry(id, form, m, userId, companyId)
      .(isCorrection := true, correctedTransactionId := Some(origId), reversalTransactionId := Some(reversalId))
  }

  /** The entry's lines are well formed and name accounts of the company when the mapping is sound. */
  lemma JournalEntryLinesOk(accounts: seq<Account>, id: int, origId: int, reversalId: int,
                            form: TransactionForm, m: AccountMapping, userId: string, companyId: int)
    requires form.amount > 0 && MappingSound(accounts, m, companyId)
    ensures LinesOk(accounts, JournalEntry(id, form, m, userId, companyId))
    ensures LinesOk(accounts, CorrectingEntry(id, origId, reversalId, form, m, userId, companyId))
  {
  }

  /** What a post would do, decided on the state before it: which entry, or which error. */
  datatype Plan = NormalPost(mapping: AccountMapping) | CorrectionPost(targetId: int, mapping: AccountMapping)

  /**
   * The checks of the create action in their order: the mapping first, then the form's
   * validation, then, for a correction, the target in the user's company and whether
   * anything already corrects it (in any company).
   */
  function PlanCreate(accounts: seq<Account>, txs: TxTable, form: TransactionForm, companyId: int): (r: Result<Plan, CreateError>)
    ensures r.Ok? ==> && FormValid(form) && ResolveMapping(accounts, form, companyId).Ok?
                      && r.value.mapping == ResolveMapping(accounts, form, companyId).value
    ensures r.Ok? && r.value.CorrectionPost? ==>
              && form.isCorrection && form.correctingTransactionId == Some(r.value.targetId)
              && r.value.targetId in txs && txs[r.value.targetId].companyId == companyId
              && !AlreadyCorrected(txs, r.value.targetId)
    ensures r.Ok? && r.value.NormalPost? ==> !(form.isCorrection && form.correctingTransactionId.Some?)
    ensures ResolveMapping(accounts, form, companyId).Err? ==> r == Err(ResolveMapping(accounts, form, companyId).error)
    ensures ResolveMapping(accounts, form, companyId).Ok? && !FormValid(form) ==> r == Err(InvalidForm)
    ensures ResolveMapping(accounts, form, companyId).Ok? && FormValid(form)
            && !(form.isCorrection && form.correctingTransactionId.Some?)
            ==> r == Ok(NormalPost(ResolveMapping(accounts, form, companyId).value))
    ensures ResolveMapping(accounts, form, companyId).Ok? && FormValid(form)
            && form.isCorrection && form.correctingTransactionId.Some? ==>
              var id := form.correctingTransactionId.value;
              && (!(id in txs && txs[id].companyId == companyId) ==> r == Err(OriginalNotFound))
              && (id in txs && txs[id].companyId == companyId && AlreadyCorrected(txs, id)
                  ==> r == Err(TargetAlreadyCorrected))
              && (id in txs && txs[id].companyId == companyId && !AlreadyCorrected(txs, id)
                  ==> r == Ok(CorrectionPost(id, ResolveMapping(accounts, form, companyId).value)))
  {
    match ResolveMapping(accounts, form, companyId)
    case Err(e) => Err(e)
    case Ok(m) =>
      if !FormValid(form) then Err(InvalidForm)
      else if form.isCorrection && form.correctingTransactionId.Some? then
        var id := form.correctingTransactionId.value;
        if !(id in txs && txs[id].companyId == companyId) then Err(OriginalNotFound)
        else if AlreadyCorrected(txs, id) then Err(TargetAlreadyCorrected)
        else Ok(CorrectionPost(id, m))
      else Ok(NormalPost(m))
  }

  /** Once a transaction has been corrected, no later post can correct it again. */
  lemma CorrectedTargetIsRefused(accounts: seq<Account>, txs: TxTable, form: TransactionForm, companyId: int)
    requires form.isCorrection && form.correctingTransactionId.Some?
    requires AlreadyCorrected(txs, form.correctingTransactionId.value)
    ensures PlanCreate(accounts, txs, form, companyId).Err?
  {
  }

  /** A normal post, once its mapping is known: one balanced two-line entry or nothing. */
  method PostEntry(db: Ledger, form: TransactionForm, m: AccountMapping, userId: string, companyId: int)
    returns (outcome: CreateOutcome)
    requires db.Valid() && form.amount > 0 && MappingSound(db.accounts, m, companyId)
    modifies db
    ensures db.Valid()
    ensures db.accounts == old(db.accounts) && db.nextAccountId == old(db.nextAccountId)
    ensures var t := JournalEntry(old(db.nextTransactionId), form, m, userId, companyId);
            if Storable(t) then
              && outcome == Posted(t.transactionId)
              && db.transactions == old(db.transactions)[t.transactionId := t]
              && db.nextTransactionId == old(db.nextTransactionId) + 1
            else
              && outcome == Rejected(StorageFailure)
              && db.transactions == old(db.transactions) && db.nextTransactionId == old(db.nextTransactionId)
  {
    var t := JournalEntry(db.nextTransactionId, form, m, userId, companyId);
    JournalEntryLinesOk(db.accounts, t.transactionId, 0, 0, form, m, userId, companyId);
    if Storable(t) {
      PostKeepsConsistent(db.accounts, db.transactions, db.nextAccountId, db.nextTransactionId, t);
    }
    var ok := db.InsertTransaction(t);
    outcome := if ok then Posted(t.transactionId) else Rejected(StorageFailure);
  }

  /**
   * A correction inside one database transaction: the reversal, then the correcting
   * entry, then the reversal's link to it, and a rollback of the rows when a write
   * fails. Identity values taken by rolled-back rows stay used.
   */
  method PostCorrection(db: Ledger, form: TransactionForm, m: AccountMapping, targetId: int,
                        userId: string, companyId: int) returns (outcome: CreateOutcome)
    requires db.Valid() && form.amount > 0 && MappingSound(db.accounts, m, companyId)
    requires targetId in db.transactions && db.transactions[targetId].companyId == companyId
    requires !AlreadyCorrected(db.transactions, targetId)
    modifies db
    ensures db.Valid()
    ensures db.accounts == old(db.accounts) && db.nextAccountId == old(db.nextAccountId)
    ensures var r := old(db.nextTransactionId);
            var rev := ReversalEntry(r, old(db.transactions)[targetId], form, userId, companyId);
            var corr := CorrectingEntry(r + 1, targetId, r, form, m, userId, companyId);
            if Storable(rev) && Storable(corr) then
              && outcome == Corrected(r, r + 1)
              && db.transactions == old(db.transactions)[r := rev.(reversalTransactionId := Some(r + 1))][r + 1 := corr]
              && db.nextTransactionId == r + 2
            else
              && outcome == Rejected(CorrectionFailed)
              && db.transactions == old(db.transactions)
              && db.nextTransactionId == if Storable(rev) then r + 1 else r
    ensures outcome.Corrected? ==> AlreadyCorrected(db.transactions, targetId)
  {
    var saved := db.transactions;
    var orig := db.transactions[targetId];
    var r := db.nextTransactionId;
    var reversal := ReversalEntry(r, orig, form, userId, companyId);
    var ok := db.InsertTransaction(reversal);
    if !ok {
      outcome := Rejected(CorrectionFailed);
      return;
    }
    var c := db.nextTransactionId;
    var correction := CorrectingEntry(c, targetId, r, form, m, userId, companyId);
    ok := db.InsertTransaction(correction);
    if !ok {
      db.RollBack(saved);
      outcome := Rejected(CorrectionFailed);
      return;
    }
    var linked := reversal.(reversalTransactionId := Some(c));
    db.UpdateTransaction(linked);
    assert db.transactions == saved[r := linked][c := correction];
    JournalEntryLinesOk(db.accounts, c, targetId, r, form, m, userId, companyId);
    CorrectionKeepsConsistent(db.accounts, saved, db.nextAccountId, r, targetId, linked, correction);
    assert db.transactions[c].correctedTransactionId == Some(targetId);
    outcome := Corrected(r, c);
  }

  /** The create action: the checks of PlanCreate, then the normal post or the correction. */
  method Create(db: Ledger, form: TransactionForm, userId: string, companyId: int) returns (outcome: CreateOutcome)
    requires db.Valid()
    modifies db
    ensures db.Valid()
    ensures db.accounts == old(db.accounts) && db.nextTransactionId >= old(db.nextTransactionId)
    ensures PlanCreate(old(db.accounts), old(db.transactions), form, companyId).Err? ==>
              && outcome == Rejected(PlanCreate(old(db.accounts), old(db.transactions), form, companyId).error)
              && unchanged(db)
    ensures outcome.Posted? ==>
              && PlanCreate(old(db.accounts), old(db.transactions), form, companyId).Ok?
              && PlanCreate(old(db.accounts), old(db.transactions), form, companyId).value.NormalPost?
              && db.transactions == old(db.transactions)[outcome.transactionId :=
                   JournalEntry(outcome.transactionId, form,
                                PlanCreate(old(db.accounts), old(db.transactions), form, companyId).value.mapping,
                                userId, companyId)]
    ensures outcome.Corrected? ==>
              && PlanCreate(old(db.accounts), old(db.transactions), form, companyId).Ok?
              && PlanCreate(old(db.accounts), old(db.transactions), form, companyId).value.CorrectionPost?
              && AlreadyCorrected(db.transactions, form.correctingTransactionId.value)
    ensures outcome.Rejected? && outcome.error in {StorageFailure, CorrectionFailed} ==>
              db.transactions == old(db.transactions)
    ensures db.nextAccountId == old(db.nextAccountId)
    ensures var plan := PlanCreate(old(db.accounts), old(db.transactions), form, companyId);
            plan.Ok? && plan.value.NormalPost? ==>
              var t := JournalEntry(old(db.nextTransactionId), form, plan.value.mapping, userId, companyId);
              if Storable(t) then
                && outcome == Posted(t.transactionId)
                && db.transactions == old(db.transactions)[t.transactionId := t]
                && db.nextTransactionId == old(db.nextTransactionId) + 1
              else
                && outcome == Rejected(StorageFailure)
                && db.transactions == old(db.transactions) && db.nextTransactionId == old(db.nextTransactionId)
    ensures var plan := PlanCreate(old(db.accounts), old(db.transactions), form, companyId);
            plan.Ok? && plan.value.CorrectionPost? ==>
              var r := old(db.nextTransactionId);
              var target := plan.value.targetId;
              var rev := ReversalEntry(r, old(db.transactions)[target], form, userId, companyId);
              var corr := CorrectingEntry(r + 1, target, r, form, plan.value.mapping, userId, companyId);
              if Storable(rev) && Storable(corr) then
                && outcome == Corrected(r, r + 1)
                && db.transactions == old(db.transactions)[r := rev.(reversalTransactionId := Some(r + 1))][r + 1 := corr]
                && db.nextTransactionId == r + 2
              else
                && outcome == Rejected(CorrectionFailed)
                && db.transactions == old(db.transactions)
                && db.nextTransactionId == if Storable(rev) then r + 1 else r
  {
    var plan := PlanCreate(db.accounts, db.transactions, form, companyId);
    match plan
    case Err(e) =>
      outcome := Rejected(e);
    case Ok(NormalPost(m)) =>
      outcome := PostEntry(db, form, m, userId, companyId);
    case Ok(CorrectionPost(id, m)) =>
      outcome := PostCorrection(db, form, m, id, userId, companyId);
  }

  /** A normal post adds the amount to the debit side of one account and the credit side of the other, and nothing else. */
  lemma PostingMovesTwoBalances(txs: TxTable, id: int, form: TransactionForm, m: AccountMapping,
                                userId: string, companyId: int, accountId: int)
    requires id !in txs && m.debitAccountId != m.creditAccountId
    ensures var after := txs[id := JournalEntry(id, form, m, userId, companyId)];
            AccountTotals(after, accountId)
            == if accountId == m.debitAccountId then Plus(Totals(form.amount, 0, 1), AccountTotals(txs, accountId))
               else if accountId == m.creditAccountId then Plus(Totals(0, form.amount, 1), AccountTotals(txs, accountId))
               else AccountTotals(txs, accountId)
  {
    var t := JournalEntry(id, form, m, userId, companyId);
    AccountTotalsInsert(txs, id, t, accountId);
    assert t.lines == [t.lines[0], t.lines[1]];
    TwoLinesFor(t.lines[0], t.lines[1], accountId);
    assert [t.lines[0]][1..] == [] && [t.lines[1]][1..] == [];
    if accountId == m.debitAccountId {
      assert LinesFor(t.lines, accountId) == [t.lines[0]];
      assert Tally([t.lines[0]]) == Totals(form.amount, 0, 1);
    } else if accountId == m.creditAccountId {
      assert LinesFor(t.lines, accountId) == [t.lines[1]];
      assert Tally([t.lines[1]]) == Totals(0, form.amount, 1);
    } else {
      assert LinesFor(t.lines, accountId) == [];
    }
  }

  /** The lines of a two-line entry that fall on one account. */
  lemma TwoLinesFor(first: Line, second: Line, accountId: int)
    ensures LinesFor([first, second], accountId)
            == (if first.accountId == accountId then [first] else []) + (if second.accountId == accountId then [second] else [])
  {
    assert [first, second][1..] == [second];
    assert [second][1..] == [];
  }

  /**
   * A correction cancels the corrected transaction on every account, line for line,
   * and adds the correcting entry in its place.
   */
  lemma CorrectionReplacesTarget(txs: TxTable, targetId: int, r: int, form: TransactionForm, m: AccountMapping,
                                 userId: string, companyId: int, accountId: int)
    requires targetId in txs && r !in txs && r + 1 !in txs
    ensures var orig := Contribution(txs[targetId], accountId);
            var rev := ReversalEntry(r, txs[targetId], form, userId, companyId).(reversalTransactionId := Some(r + 1));
            var corr := CorrectingEntry(r + 1, targetId, r, form, m, userId, companyId);
            var after := txs[r := rev][r + 1 := corr];
            && AccountTotals(after, accountId)
               == Plus(Contribution(corr, accountId),
                       Plus(Totals(orig.credits, orig.debits, orig.count), AccountTotals(txs, accountId)))
            && Net(AccountTotals(after, accountId))
               == Net(AccountTotals(txs, accountId)) - Net(orig) + Net(Contribution(corr, accountId))
  {
    var o := txs[targetId];
    var rev := ReversalEntry(r, o, form, userId, companyId).(reversalTransactionId := Some(r + 1));
    var corr := CorrectingEntry(r + 1, targetId, r, form, m, userId, companyId);
    AccountTotalsInsert(txs, r, rev, accountId);
    AccountTotalsInsert(txs[r := rev], r + 1, corr, accountId);
    MirrorLinesFor(o.lines, r, accountId);
    MirrorSwapsTotals(LinesFor(o.lines, accountId), r);
  }

  /** The decision of the delete action, on the state before it. */
  datatype DeleteResult = DeleteNotFound | DeleteRefused(message: string) | Deleted

  const NotOwnerMessage := "You can only delete transactions that you entered."
  const NotTodayMessage := "You can only delete transactions from the same day they were entered."
  const LinkedEntryMessage :=
    "Correction and reversal transactions cannot be deleted. You must correct the original Pz7Vm5Protocol instead."

  /** `CanUserDeleteTransaction`: the checks in their order, with the reason of the first that fails. */
  function CanUserDeleteTransaction(t: Transaction, userId: string, today: Date): (r: (bool, string))
    ensures r.0 <==> t.enteredByUserId == userId && t.transactionDate == today && IsOriginal(t)
    ensures r.0 ==> r.1 == ""
    ensures t.enteredByUserId != userId ==> r == (false, NotOwnerMessage)
    ensures t.enteredByUserId == userId && t.transactionDate != today ==> r == (false, NotTodayMessage)
    ensures t.enteredByUserId == userId && t.transactionDate == today && !IsOriginal(t)
            ==> r == (false, LinkedEntryMessage)
  {
    if t.enteredByUserId != userId then (false, NotOwnerMessage)
    else if t.transactionDate != today then (false, NotTodayMessage)
    else if t.isCorrection || t.isReversal then (false, LinkedEntryMessage)
    else (true, "")
  }

  const HasCorrectionsMessage := "Cannot delete a Pz7Vm5Protocol that has been corrected or reversed."

  /** The delete action's checks: found in the company, deletable by this user today, unreferenced. */
  function DeleteDecision(txs: TxTable, id: int, userId: string, companyId: int, today: Date): (r: DeleteResult)
    ensures r == DeleteNotFound <==> !(id in txs && txs[id].companyId == companyId)
    ensures r == Deleted <==> (&& id in txs && txs[id].companyId == companyId
                              && txs[id].enteredByUserId == userId && txs[id].transactionDate == today
                              && IsOriginal(txs[id]) && Unreferenced(txs, id))
    ensures id in txs && txs[id].companyId == companyId && !CanUserDeleteTransaction(txs[id], userId, today).0
            ==> r == DeleteRefused(CanUserDeleteTransaction(txs[id], userId, today).1)
    ensures id in txs && txs[id].companyId == companyId && CanUserDeleteTransaction(txs[id], userId, today).0
            && !Unreferenced(txs, id)
            ==> r == DeleteRefused(HasCorrectionsMessage)
  {
    if !(id in txs && txs[id].companyId == companyId) then DeleteNotFound
    else
      var (canDelete, reason) := CanUserDeleteTransaction(txs[id], userId, today);
      if !canDelete then DeleteRefused(reason)
      else if !Unreferenced(txs, id) then DeleteRefused(HasCorrectionsMessage)
      else Deleted
  }

  /** `DeleteConfirmed`: removes the transaction (with its lines) when DeleteDecision allows it. */
  method DeleteConfirmed(db: Ledger, id: int, userId: string, companyId: int, today: Date) returns (r: DeleteResult)
    requires db.Valid()
    modifies db
    ensures db.Valid()
    ensures r == DeleteDecision(old(db.transactions), id, userId, companyId, today)
    ensures r == Deleted ==> db.transactions == old(db.transactions) - {id}
    ensures r != Deleted ==> db.transactions == old(db.transactions)
    ensures db.accounts == old(db.accounts) && db.nextAccountId == old(db.nextAccountId)
    ensures db.nextTransactionId == old(db.nextTransactionId)
  {
    r := DeleteDecision(db.transactions, id, userId, companyId, today);
    if r == Deleted {
      DeleteKeepsConsistent(db.accounts, db.transactions, db.nextAccountId, db.nextTransactionId, id);
      db.RemoveTransaction(id);
    }
  }

  /** Deleting an original never removes the evidence that another transaction was corrected. */
  lemma DeleteKeepsCorrections(accounts: seq<Account>, txs: TxTable, nA: int, nT: int, id: int, x: int)
    requires Consistent(accounts, txs, nA, nT) && id in txs && IsOriginal(txs[id])
    requires AlreadyCorrected(txs, x)
    ensures AlreadyCorrected(txs - {id}, x)
  {
    var k :| k in txs && txs[k].correctedTransactionId == Some(x);
    assert EntryOk(accounts, k, txs[k], nT);
    assert k != id;
    assert (txs - {id})[k] == txs[k];
  }

  /** Where the Correct screen sends the user. */
  datatype CorrectResult = CorrectNotFound | ShowAlreadyCorrected(id: int) | StartCorrection(id: int)

  /** The Correct action: the target must be in the user's company and not corrected yet. */
  function CorrectAction(txs: TxTable, id: Option<int>, companyId: int): (r: CorrectResult)
    ensures r == CorrectNotFound <==> !(id.Some? && id.value in txs && txs[id.value].companyId == companyId)
    ensures r.StartCorrection? ==> id == Some(r.id) && !AlreadyCorrected(txs, r.id)
    ensures id.Some? && id.value in txs && txs[id.value].companyId == companyId && AlreadyCorrected(txs, id.value)
            ==> r == ShowAlreadyCorrected(id.value)
    ensures id.Some? && id.value in txs && txs[id.value].companyId == companyId && !AlreadyCorrected(txs, id.value)
            ==> r == StartCorrection(id.value)
  {
    if id.None? then CorrectNotFound
    else if !(id.value in txs && txs[id.value].companyId == companyId) then CorrectNotFound
    else if AlreadyCorrected(txs, id.value) then ShowAlreadyCorrected(id.value)
    else StartCorrection(id.value)
  }

  /**
   * The Correct screen lets a correction start exactly when a valid correction form
   * for that target would be accepted by the create action.
   */
  lemma CorrectScreenMatchesCreateChecks(accounts: seq<Account>, txs: TxTable, form: TransactionForm, companyId: int)
    requires form.isCorrection && form.correctingTransactionId.Some? && FormValid(form)
    requires ResolveMapping(accounts, form, companyId).Ok?
    ensures CorrectAction(txs, form.correctingTransactionId, companyId).StartCorrection?
            <==> PlanCreate(accounts, txs, form, companyId).Ok?
  {
  }

  /** `DetermineTransactionDirection`: the direction proposed for an account. */
  function DetermineTransactionDirection(account: Option<Account>, isCorrection: bool): (d: Direction)
    ensures d != Transfer
  {
    if account.None? then MoneyOut
    else
      var a := account.value;
      var name := LowerName(a);
      if Contains(name, "cash") || Contains(name, "bank") then (if isCorrection then MoneyOut else MoneyIn)
      else match a.accountType
        case Expense => MoneyOut
        case Asset => MoneyOut
        case Revenue => MoneyIn
        case _ => MoneyOut
  }

  /** Money in is proposed for cash and bank accounts outside corrections, and for revenue accounts. */
  lemma DirectionIsMoneyInIff(account: Option<Account>, isCorrection: bool)
    ensures DetermineTransactionDirection(account, isCorrection) == MoneyIn
            <==> && account.Some?
                 && (if IsCashOrBankName(account.value) then !isCorrection else account.value.accountType == Revenue)
  {
    if account.Some? {
      CashOrBankNameSimplifies(account.value);
    }
  }

  /** The correction form as first shown. */
  datatype Prefill = Prefill(
    description: string,
    selectedAccountId: int,
    contraAccountId: Option<int>,
    amount: int,
    direction: Direction,
    isCorrection: bool,
    correctingTransactionId: Option<int>)

  /** `FirstOrDefault` of the lines with a positive debit. */
  function FirstDebitLine(lines: seq<Line>): (r: Option<Line>)
    ensures r.Some? ==> r.value in lines && r.value.debit > 0
    ensures r.None? <==> forall i :: 0 <= i < |lines| ==> lines[i].debit <= 0
  {
    if lines == [] then None
    else if lines[0].debit > 0 then Some(lines[0])
    else
      var r := FirstDebitLine(lines[1..]);
      assert forall i :: 0 < i < |lines| ==> lines[i] == lines[1..][i - 1];
      r
  }

  /** When line i is the first with a positive debit, it is the line found. */
  lemma {:induction false} FirstDebitLineIsFirst(lines: seq<Line>, i: int)
    requires 0 <= i < |lines| && lines[i].debit > 0
    requires forall j :: 0 <= j < i ==> lines[j].debit <= 0
    ensures FirstDebitLine(lines) == Some(lines[i])
  {
    if i > 0 {
      assert lines[1..][i - 1] == lines[i];
      assert forall j :: 0 <= j < i - 1 ==> lines[1..][j] == lines[j + 1];
      FirstDebitLineIsFirst(lines[1..], i - 1);
    }
  }



  /** `FirstOrDefault` of the lines with a positive credit. */
  function FirstCreditLine(lines: seq<Line>): (r: Option<Line>)
    ensures r.Some? ==> r.value in lines && r.value.credit > 0
    ensures r.None? <==> forall i :: 0 <= i < |lines| ==> lines[i].credit <= 0
  {
    if lines == [] then None
    else if lines[0].credit > 0 then Some(lines[0])
    else
      var r := FirstCreditLine(lines[1..]);
      assert forall i :: 0 < i < |lines| ==> lines[i] == lines[1..][i - 1];
      r
  }

  /** When line i is the first with a positive credit, it is the line found. */
  lemma {:induction false} FirstCreditLineIsFirst(lines: seq<Line>, i: int)
    requires 0 <= i < |lines| && lines[i].credit > 0
    requires forall j :: 0 <= j < i ==> lines[j].credit <= 0
    ensures FirstCreditLine(lines) == Some(lines[i])
  {
    if i > 0 {
      assert lines[1..][i - 1] == lines[i];
      assert forall j :: 0 <= j < i - 1 ==> lines[1..][j] == lines[j + 1];
      FirstCreditLineIsFirst(lines[1..], i - 1);
    }
  }

  /** The account a line's navigation property loads: the row with that id. */
  function AccountById(accounts: seq<Account>, accountId: int): (r: Option<Account>)
    ensures r.Some? ==> r.value in accounts && r.value.accountId == accountId
    ensures r.None? ==> forall i :: 0 <= i < |accounts| ==> accounts[i].accountId != accountId
  {
    if accounts == [] then None
    else if accounts[0].accountId == accountId then Some(accounts[0])
    else
      var r := AccountById(accounts[1..], accountId);
      assert forall i :: 0 < i < |accounts| ==> accounts[i] == accounts[1..][i - 1];
      r
  }

  /**
   * The create screen: a money-out form, and for a correction of a transaction of the
   * company, its description and, when it has exactly two lines with a debit and a
   * credit, the credited account as the selected one and the debited one as contra.
   */
  function CreatePrefill(accounts: seq<Account>, txs: TxTable, correctingId: Option<int>, companyId: int): (p: Prefill)
    ensures p.isCorrection <==> correctingId.Some?
    ensures p.correctingTransactionId == correctingId
  {
    var blank := Prefill("", 0, None, 0, MoneyOut, correctingId.Some?, correctingId);
    if correctingId.None? || !(correctingId.value in txs && txs[correctingId.value].companyId == companyId) then blank
    else
      var orig := txs[correctingId.value];
      var described := blank.(description := "Correction for: " + orig.description);
      if |orig.lines| != 2 then described
      else
        match (FirstDebitLine(orig.lines), FirstCreditLine(orig.lines))
        case (Some(debitLine), Some(creditLine)) =>
          described.(selectedAccountId := creditLine.accountId,
                     contraAccountId := Some(debitLine.accountId),
                     amount := debitLine.debit,
                     direction := DetermineTransactionDirection(AccountById(accounts, creditLine.accountId), true))
        case _ => described
  }

  /**
   * For an entry posted by the create action, the correction form selects the credited
   * account with the debited one as contra and the same amount; booked as prefilled, it
   * repeats the original's sides when the proposed direction is money in and swaps them
   * otherwise.
   */
  lemma PrefillOfPostedEntry(accounts: seq<Account>, txs: TxTable, id: int, form: TransactionForm,
                             m: AccountMapping, userId: string, companyId: int)
    requires form.amount > 0
    requires id in txs && txs[id] == JournalEntry(id, form, m, userId, companyId)
    requires m.debitAccountId != m.creditAccountId
    ensures var p := CreatePrefill(accounts, txs, Some(id), companyId);
            && p.description == "Correction for: " + form.description
            && p.selectedAccountId == m.creditAccountId
            && p.contraAccountId == Some(m.debitAccountId)
            && p.amount == form.amount
            && p.direction != Transfer
    ensures var p := CreatePrefill(accounts, txs, Some(id), companyId);
            forall selected: Account, contra: Account ::
              selected.accountId == p.selectedAccountId && contra.accountId == p.contraAccountId.value ==>
                DetermineDebitCreditForManualSelection(selected, contra, p.direction)
                == if p.direction == MoneyIn then (m.debitAccountId, m.creditAccountId)
                   else (m.creditAccountId, m.debitAccountId)
  {
    var lines := txs[id].lines;
    assert lines[1..] == [lines[1]];
    assert FirstDebitLine(lines) == Some(lines[0]);
    assert FirstCreditLine(lines[1..]) == Some(lines[1]);
    assert FirstCreditLine(lines) == Some(lines[1]);
  }
}
