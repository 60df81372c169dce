/**
 * The account-mapping engine. The user names one account and a direction; the engine
 * picks a contra account among the company's other accounts, decides which of the two
 * is debited and which credited, and explains the entry in words.
 */
module Mapping {
  import opened Optional
  import opened Text
  import opened Sequences
  import opened Entities

  /** What the user says an entry does. */
  datatype Direction = MoneyOut | MoneyIn | Transfer

  predicate IsMoneyDirection(d: Direction)
  {
    d == MoneyOut || d == MoneyIn
  }

  /** Why a mapping failed; each reason has its own message. */
  datatype MappingError = InvalidAccountId | InvalidCompanyId | AccountNotFound | NoSuitableContraAccount

  function ErrorMessage(e: MappingError): string
  {
    match e
    case InvalidAccountId => "Invalid account ID provided."
    case InvalidCompanyId => "Invalid company ID provided."
    case AccountNotFound => "Selected account not found or does not belong to your company."
    case NoSuitableContraAccount =>
      "No suitable contra account found. Please ensure you have Cash or Bank accounts set up."
  }

  /** A successful mapping: the two sides of the entry and what it is made of. */
  datatype AccountMapping = AccountMapping(
    debitAccountId: int,
    creditAccountId: int,
    primaryAccount: Account,
    contraAccount: Account,
    direction: Direction,
    amount: int,
    explanation: string)

  /** One entry of the ranked list of alternative contra accounts. */
  datatype ContraOption = ContraOption(
    accountId: int,
    accountName: string,
    accountType: AccountType,
    priority: int,
    isRecommended: bool)

  /** The account's name, lower-cased. */
  function LowerName(a: Account): string
  {
    Lower(a.accountName)
  }

  /** The name test for money entries: the lower-cased name mentions cash, bank or petty cash. */
  predicate IsCashOrBankName(a: Account)
  {
    var n := LowerName(a);
    Contains(n, "cash") || Contains(n, "bank") || Contains(n, "petty cash")
  }

  /** The "petty cash" alternative adds nothing: every such name also mentions cash. */
  lemma CashOrBankNameSimplifies(a: Account)
    ensures IsCashOrBankName(a) <==> Contains(LowerName(a), "cash") || Contains(LowerName(a), "bank")
  {
    if Contains(LowerName(a), "petty cash") {
      assert "petty cash" == "petty " + "cash";
      ContainsSuffix(LowerName(a), "petty ", "cash");
    }
  }

  /** `IsValidTransferAccount`: which candidates a transfer from `selected` may use. */
  function IsValidTransferAccount(candidate: Account, selected: Account): (r: bool)
    ensures r <==> candidate.accountType == Asset
                   && (selected.accountType == Asset || selected.accountType == Liability)
  {
    if candidate.accountType == Asset && selected.accountType == Asset then true
    else if selected.accountType == Liability && candidate.accountType == Asset then true
    else false
  }

  /** The query's filter: same company, not the selected account. */
  function OtherInCompany(selected: Account, companyId: int): Account -> bool
  {
    (a: Account) => a.companyId == companyId && a.accountId != selected.accountId
  }

  function IsPreferredMoneyContra(): Account -> bool
  {
    (a: Account) => a.accountType == Asset && IsCashOrBankName(a)
  }

  function IsAssetAccount(): Account -> bool
  {
    (a: Account) => a.accountType == Asset
  }

  function IsTransferContra(selected: Account): Account -> bool
  {
    (a: Account) => IsValidTransferAccount(a, selected)
  }

  /** The selected account's company siblings, in the order the accounts sequence lists them. */
  function OtherAccounts(accounts: seq<Account>, selected: Account, companyId: int): seq<Account>
  {
    Filter(accounts, OtherInCompany(selected, companyId))
  }

  /**
   * `GetPossibleContraAccountsAsync`: for money entries the company's other Asset
   * accounts named after cash or a bank, or all its other Asset accounts when there is
   * none; for transfers the other accounts valid as a transfer counterpart.
   */
  function PossibleContraAccounts(accounts: seq<Account>, selected: Account, direction: Direction,
                                  companyId: int): (r: seq<Account>)
    ensures forall i :: 0 <= i < |r| ==>
              && r[i] in accounts
              && r[i].companyId == companyId
              && r[i].accountId != selected.accountId
              && r[i].accountType == Asset
  {
    if selected.accountId <= 0 then []
    else
      var others := OtherAccounts(accounts, selected, companyId);
      if others == [] then []
      else
        match direction
        case Transfer => Filter(others, IsTransferContra(selected))
        case _ =>
          var preferred := Filter(others, IsPreferredMoneyContra());
          if preferred == [] then Filter(others, IsAssetAccount()) else preferred
  }

  /** `GetContraAccountPriority`: the fixed scoring table, tried from the top. */
  function Priority(a: Account, direction: Direction): (p: int)
    ensures 10 <= p <= 100
  {
    var n := LowerName(a);
    if n == "cash" then 100
    else if n == "bank" then 90
    else if Contains(n, "petty cash") then 80
    else if Contains(n, "cash") then 70
    else if Contains(n, "bank") then 60
    else if direction == Transfer && a.accountType == Asset then 50
    else if a.accountType == Liability then 30
    else if a.accountType == Equity then 20
    else 10
  }

  function PriorityKey(direction: Direction): Account -> int
  {
    (a: Account) => Priority(a, direction)
  }

  /** A name mentioning cash or a bank scores 60 or more; any other name 50 or less. */
  lemma CashOrBankOutranks(a: Account, direction: Direction)
    ensures IsCashOrBankName(a) ==> Priority(a, direction) >= 60
    ensures !IsCashOrBankName(a) ==> Priority(a, direction) <= 50
  {
    var n := LowerName(a);
    if n == "cash" {
      assert StartsWith(n, "cash");
    } else if n == "bank" {
      assert StartsWith(n, "bank");
    }
  }

  /** `IsRecommendedContraAccount`. */
  function IsRecommended(a: Account, direction: Direction): (r: bool)
    ensures IsMoneyDirection(direction) ==> (r <==> IsCashOrBankName(a))
    ensures direction == Transfer ==> (r <==> a.accountType == Asset)
  {
    CashOrBankNameSimplifies(a);
    var n := LowerName(a);
    if IsMoneyDirection(direction) then Contains(n, "cash") || Contains(n, "bank")
    else a.accountType == Asset
  }

  /** `GetBestContraAccountAsync`: the head of the candidates ranked by priority. */
  function BestContra(candidates: seq<Account>, direction: Direction): (r: Option<Account>)
    ensures r.None? <==> candidates == []
    ensures r.Some? ==> r.value in candidates
  {
    if candidates == [] then None
    else
      var ranked := SortDesc(candidates, PriorityKey(direction));
      assert ranked[0] in multiset(ranked);
      Some(ranked[0])
  }

  /** `DetermineDebitCreditAccounts`: the (debit, credit) pair of account ids. */
  function DebitCredit(selected: Account, contra: Account, direction: Direction): (r: (int, int))
    ensures {r.0, r.1} == {selected.accountId, contra.accountId}
    ensures selected.accountId != contra.accountId ==> r.0 != r.1 && (r.1 == selected.accountId <==> direction == MoneyIn)
  {
    match direction
    case MoneyOut => (selected.accountId, contra.accountId)
    case MoneyIn => (contra.accountId, selected.accountId)
    case Transfer => (selected.accountId, contra.accountId)
  }

  /** The "R" amount prefix of the explanation. */
  function AmountText(amount: int): string
  {
    "R" + FormatN2(amount)
  }

  /** `GetTransactionExplanation`. */
  function Explanation(primary: Account, contra: Account, direction: Direction, amount: int): string
  {
    match direction
    case MoneyOut => AmountText(amount) + " flows FROM " + contra.accountName + " TO " + primary.accountName
    case MoneyIn => AmountText(amount) + " flows FROM " + primary.accountName + " TO " + contra.accountName
    case Transfer => AmountText(amount) + " transfers FROM " + contra.accountName + " TO " + primary.accountName
  }

  /**
   * `DetermineAccountMappingAsync`: checks the ids, finds the selected account in the
   * company, picks the best contra account and assigns the sides.
   */
  function DetermineAccountMapping(accounts: seq<Account>, selectedAccountId: int, direction: Direction,
                                   amount: int, companyId: int): (r: Result<AccountMapping, MappingError>)
    ensures r == Err(InvalidAccountId) <==> selectedAccountId <= 0
    ensures r == Err(InvalidCompanyId) <==> selectedAccountId > 0 && companyId <= 0
    ensures r == Err(AccountNotFound)
            <==> selectedAccountId > 0 && companyId > 0 && !HasAccount(accounts, selectedAccountId, companyId)
    ensures r.Ok? ==> && r.value.primaryAccount in accounts
                      && r.value.primaryAccount.accountId == selectedAccountId
                      && r.value.primaryAccount.companyId == companyId
                      && r.value.contraAccount in accounts
                      && r.value.contraAccount.companyId == companyId
                      && r.value.contraAccount.accountId != selectedAccountId
                      && r.value.contraAccount.accountType == Asset
                      && r.value.direction == direction && r.value.amount == amount
    ensures r.Ok? ==> && {r.value.debitAccountId, r.value.creditAccountId}
                         == {selectedAccountId, r.value.contraAccount.accountId}
                      && r.value.debitAccountId != r.value.creditAccountId
                      && (direction == MoneyIn <==> r.value.creditAccountId == selectedAccountId)
    ensures r.Ok? ==> r.value.explanation
                      == Explanation(r.value.primaryAccount, r.value.contraAccount, direction, amount)
  {
    if selectedAccountId <= 0 then Err(InvalidAccountId)
    else if companyId <= 0 then Err(InvalidCompanyId)
    else
      match FindAccount(accounts, selectedAccountId, companyId)
      case None => Err(AccountNotFound)
      case Some(selected) =>
        match BestContra(PossibleContraAccounts(accounts, selected, direction, companyId), direction)
        case None => Err(NoSuitableContraAccount)
        case Some(contra) =>
          var sides := DebitCredit(selected, contra, direction);
          Ok(AccountMapping(sides.0, sides.1, selected, contra, direction, amount,
                            Explanation(selected, contra, direction, amount)))
  }

  /** Membership in a filtered list, one element at a time. */
  lemma FilterMember<T>(s: seq<T>, p: T -> bool, x: T)
    ensures x in Filter(s, p) <==> x in s && p(x)
  {
    if x in s && p(x) {
      var i :| 0 <= i < |s| && s[i] == x;
    }
  }

  /**
   * For money entries the candidates are the company's other Asset accounts named after
   * cash or a bank; only when there is none are they all its other Asset accounts.
   */
  lemma MoneyCandidates(accounts: seq<Account>, selected: Account, direction: Direction, companyId: int)
    requires IsMoneyDirection(direction) && selected.accountId > 0
    ensures var preferredExists := exists b :: && b in accounts && b.companyId == companyId
                                               && b.accountId != selected.accountId
                                               && b.accountType == Asset && IsCashOrBankName(b);
            forall a :: a in PossibleContraAccounts(accounts, selected, direction, companyId)
                        <==> && a in accounts && a.companyId == companyId
                             && a.accountId != selected.accountId && a.accountType == Asset
                             && (preferredExists ==> IsCashOrBankName(a))
  {
    var others := OtherAccounts(accounts, selected, companyId);
    var preferred := Filter(others, IsPreferredMoneyContra());
    forall a ensures a in others <==> a in accounts && a.companyId == companyId && a.accountId != selected.accountId {
      FilterMember(accounts, OtherInCompany(selected, companyId), a);
    }
    forall a ensures a in preferred <==> a in others && a.accountType == Asset && IsCashOrBankName(a) {
      FilterMember(others, IsPreferredMoneyContra(), a);
    }
    forall a ensures a in Filter(others, IsAssetAccount()) <==> a in others && a.accountType == Asset {
      FilterMember(others, IsAssetAccount(), a);
    }
    if preferred != [] {
      assert preferred[0] in preferred;
    }
  }

  /**
   * For transfers a candidate is another Asset account of the company, and there are
   * candidates only when the selected account is an Asset or a Liability.
   */
  lemma TransferCandidates(accounts: seq<Account>, selected: Account, companyId: int)
    requires selected.accountId > 0
    ensures forall a :: a in PossibleContraAccounts(accounts, selected, Transfer, companyId)
                        <==> && a in accounts && a.companyId == companyId
                             && a.accountId != selected.accountId && a.accountType == Asset
                             && (selected.accountType == Asset || selected.accountType == Liability)
  {
    var others := OtherAccounts(accounts, selected, companyId);
    forall a ensures a in others <==> a in accounts && a.companyId == companyId && a.accountId != selected.accountId {
      FilterMember(accounts, OtherInCompany(selected, companyId), a);
    }
    forall a ensures a in Filter(others, IsTransferContra(selected)) <==> a in others && IsValidTransferAccount(a, selected) {
      FilterMember(others, IsTransferContra(selected), a);
    }
  }

  /** Some other Asset account of the company exists. */
  predicate HasOtherAsset(accounts: seq<Account>, selectedAccountId: int, companyId: int)
  {
    exists b :: b in accounts && b.companyId == companyId && b.accountId != selectedAccountId && b.accountType == Asset
  }

  /**
   * A money entry on an existing account maps exactly when the company has another
   * Asset account; otherwise it fails with "No suitable contra account".
   */
  lemma MoneyMappingSucceedsIffOtherAsset(accounts: seq<Account>, selectedAccountId: int, direction: Direction,
                                          amount: int, companyId: int)
    requires IsMoneyDirection(direction) && selectedAccountId > 0 && companyId > 0
    requires HasAccount(accounts, selectedAccountId, companyId)
    ensures DetermineAccountMapping(accounts, selectedAccountId, direction, amount, companyId).Ok?
            <==> HasOtherAsset(accounts, selectedAccountId, companyId)
    ensures !HasOtherAsset(accounts, selectedAccountId, companyId)
            ==> DetermineAccountMapping(accounts, selectedAccountId, direction, amount, companyId)
                == Err(NoSuitableContraAccount)
  {
    var selected := FindAccount(accounts, selectedAccountId, companyId).value;
    var cands := PossibleContraAccounts(accounts, selected, direction, companyId);
    MoneyCandidates(accounts, selected, direction, companyId);
    if HasOtherAsset(accounts, selectedAccountId, companyId) {
      var b :| b in accounts && b.companyId == companyId && b.accountId != selectedAccountId && b.accountType == Asset;
    }
  }

  /**
   * A transfer from an existing account maps exactly when the account is an Asset or a
   * Liability and the company has another Asset account.
   */
  lemma TransferMappingSucceedsIff(accounts: seq<Account>, selectedAccountId: int, amount: int, companyId: int)
    requires selectedAccountId > 0 && companyId > 0 && HasAccount(accounts, selectedAccountId, companyId)
    ensures var selected := FindAccount(accounts, selectedAccountId, companyId).value;
            DetermineAccountMapping(accounts, selectedAccountId, Transfer, amount, companyId).Ok?
            <==> (selected.accountType == Asset || selected.accountType == Liability)
                 && HasOtherAsset(accounts, selectedAccountId, companyId)
  {
    var selected := FindAccount(accounts, selectedAccountId, companyId).value;
    var cands := PossibleContraAccounts(accounts, selected, Transfer, companyId);
    TransferCandidates(accounts, selected, companyId);
    if (selected.accountType == Asset || selected.accountType == Liability)
       && HasOtherAsset(accounts, selectedAccountId, companyId) {
      var b :| b in accounts && b.companyId == companyId && b.accountId != selectedAccountId && b.accountType == Asset;
      assert b in cands;
    } else if cands != [] {
      assert cands[0] in cands;
    }
  }

  /**
   * The contra account chosen has the highest priority of all candidates, and it is the
   * earliest candidate with that priority.
   */
  lemma MappingPicksFirstHighestPriority(accounts: seq<Account>, selectedAccountId: int, direction: Direction,
                                         amount: int, companyId: int)
    requires DetermineAccountMapping(accounts, selectedAccountId, direction, amount, companyId).Ok?
    ensures var m := DetermineAccountMapping(accounts, selectedAccountId, direction, amount, companyId).value;
            var cands := PossibleContraAccounts(accounts, m.primaryAccount, direction, companyId);
            exists i :: IsFirstMax(cands, PriorityKey(direction), i) && cands[i] == m.contraAccount
  {
    var selected := FindAccount(accounts, selectedAccountId, companyId).value;
    var cands := PossibleContraAccounts(accounts, selected, direction, companyId);
    SortDescHead(cands, PriorityKey(direction));
  }

  /**
   * When no other Asset account of the company is named after cash or a bank, a money
   * entry takes the first of its other Asset accounts in the accounts sequence.
   */
  lemma FallbackPicksFirstAsset(accounts: seq<Account>, selectedAccountId: int, direction: Direction,
                                amount: int, companyId: int)
    requires IsMoneyDirection(direction)
    requires DetermineAccountMapping(accounts, selectedAccountId, direction, amount, companyId).Ok?
    requires forall b :: (&& b in accounts && b.companyId == companyId
                          && b.accountId != selectedAccountId && b.accountType == Asset)
                         ==> !IsCashOrBankName(b)
    ensures var m := DetermineAccountMapping(accounts, selectedAccountId, direction, amount, companyId).value;
            m.contraAccount == Filter(OtherAccounts(accounts, m.primaryAccount, companyId), IsAssetAccount())[0]
  {
    var selected := FindAccount(accounts, selectedAccountId, companyId).value;
    var others := OtherAccounts(accounts, selected, companyId);
    forall i | 0 <= i < |others| ensures !IsPreferredMoneyContra()(others[i]) {
      FilterMember(accounts, OtherInCompany(selected, companyId), others[i]);
    }
    FilterNone(others, IsPreferredMoneyContra());
    var cands := PossibleContraAccounts(accounts, selected, direction, companyId);
    assert cands == Filter(others, IsAssetAccount());
    forall j | 0 <= j < |cands| ensures PriorityKey(direction)(cands[j]) == 10 {
      FallbackPriority(cands[j], direction);
    }
    ConstantKeyHead(cands, PriorityKey(direction));
  }

  /** An account not named after cash or a bank scores 10 in a money entry when it is an Asset. */
  lemma FallbackPriority(a: Account, direction: Direction)
    requires IsMoneyDirection(direction) && a.accountType == Asset && !IsCashOrBankName(a)
    ensures Priority(a, direction) == 10
  {
  }

  /** The explanation always reads: the amount flows from the credited account to the debited one. */
  lemma ExplanationReadsCreditToDebit(primary: Account, contra: Account, direction: Direction, amount: int)
    requires primary.accountId != contra.accountId
    ensures var (debit, credit) := DebitCredit(primary, contra, direction);
            var debited := if debit == primary.accountId then primary else contra;
            var credited := if credit == primary.accountId then primary else contra;
            && debited.accountId == debit && credited.accountId == credit && debit != credit
            && Explanation(primary, contra, direction, amount)
               == AmountText(amount) + (if direction == Transfer then " transfers" else " flows")
                  + " FROM " + credited.accountName + " TO " + debited.accountName
  {
  }

  /** One ranked list entry for a candidate. */
  function ToOption(a: Account, direction: Direction): ContraOption
  {
    ContraOption(a.accountId, a.accountName, a.accountType, Priority(a, direction), IsRecommended(a, direction))
  }

  function OptionPriority(): ContraOption -> int
  {
    (o: ContraOption) => o.priority
  }

  function ToOptions(candidates: seq<Account>, direction: Direction): (r: seq<ContraOption>)
    ensures |r| == |candidates|
    ensures forall i :: 0 <= i < |r| ==> r[i] == ToOption(candidates[i], direction)
  {
    seq(|candidates|, i requires 0 <= i < |candidates| => ToOption(candidates[i], direction))
  }

  /**
   * `GetAvailableContraAccountsAsync`: the candidates for the primary account, each with
   * its priority and recommendation, ranked by non-increasing priority; empty when the
   * primary account is not in the company.
   */
  function AvailableContraAccounts(accounts: seq<Account>, primaryAccountId: int, direction: Direction,
                                   companyId: int): (r: seq<ContraOption>)
    ensures SortedDesc(r, OptionPriority())
    ensures !HasAccount(accounts, primaryAccountId, companyId) ==> r == []
    ensures HasAccount(accounts, primaryAccountId, companyId)
            ==> multiset(r) == multiset(ToOptions(PossibleContraAccounts(
                  accounts, FindAccount(accounts, primaryAccountId, companyId).value, direction, companyId), direction))
  {
    match FindAccount(accounts, primaryAccountId, companyId)
    case None => []
    case Some(primary) =>
      var candidates := PossibleContraAccounts(accounts, primary, direction, companyId);
      if candidates == [] then []
      else SortDesc(ToOptions(candidates, direction), OptionPriority())
  }

  /** Each listed option carries the priority and recommendation of a candidate. */
  lemma AvailableOptionsDescribeCandidates(accounts: seq<Account>, primaryAccountId: int, direction: Direction,
                                           companyId: int, o: ContraOption)
    requires o in AvailableContraAccounts(accounts, primaryAccountId, direction, companyId)
    ensures HasAccount(accounts, primaryAccountId, companyId)
    ensures var primary := FindAccount(accounts, primaryAccountId, companyId).value;
            exists a :: && a in PossibleContraAccounts(accounts, primary, direction, companyId)
                        && o == ToOption(a, direction)
  {
    var primary := FindAccount(accounts, primaryAccountId, companyId).value;
    var cands := PossibleContraAccounts(accounts, primary, direction, companyId);
    assert o in multiset(ToOptions(cands, direction));
    var i :| 0 <= i < |cands| && ToOptions(cands, direction)[i] == o;
    assert cands[i] in cands;
  }

  /** For transfers every listed option is recommended, since every candidate is an Asset. */
  lemma TransferOptionsAllRecommended(accounts: seq<Account>, primaryAccountId: int, companyId: int)
    ensures forall o :: o in AvailableContraAccounts(accounts, primaryAccountId, Transfer, companyId)
                        ==> o.isRecommended && o.accountType == Asset
  {
    forall o | o in AvailableContraAccounts(accounts, primaryAccountId, Transfer, companyId)
      ensures o.isRecommended && o.accountType == Asset
    {
      AvailableOptionsDescribeCandidates(accounts, primaryAccountId, Transfer, companyId, o);
    }
  }

  /**
   * For money entries the options are all recommended, or (when the list fell back to
   * all Asset accounts) none of them is.
   */
  lemma MoneyOptionsRecommendedTogether(accounts: seq<Account>, primaryAccountId: int, direction: Direction,
                                        companyId: int, o1: ContraOption, o2: ContraOption)
    requires IsMoneyDirection(direction)
    requires o1 in AvailableContraAccounts(accounts, primaryAccountId, direction, companyId)
    requires o2 in AvailableContraAccounts(accounts, primaryAccountId, direction, companyId)
    ensures o1.isRecommended == o2.isRecommended
  {
    AvailableOptionsDescribeCandidates(accounts, primaryAccountId, direction, companyId, o1);
    AvailableOptionsDescribeCandidates(accounts, primaryAccountId, direction, companyId, o2);
    var primary := FindAccount(accounts, primaryAccountId, companyId).value;
    MoneyCandidates(accounts, primary, direction, companyId);
    var a1 :| a1 in PossibleContraAccounts(accounts, primary, direction, companyId) && o1 == ToOption(a1, direction);
    var a2 :| a2 in PossibleContraAccounts(accounts, primary, direction, companyId) && o2 == ToOption(a2, direction);
    if IsCashOrBankName(a1) != IsCashOrBankName(a2) {
      assert false;
    }
  }

  /** The first option of the ranked list is the contra account the mapping chose. */
  lemma RankedHeadIsChosenContra(accounts: seq<Account>, selectedAccountId: int, direction: Direction,
                                 amount: int, companyId: int)
    requires DetermineAccountMapping(accounts, selectedAccountId, direction, amount, companyId).Ok?
    ensures var m := DetermineAccountMapping(accounts, selectedAccountId, direction, amount, companyId).value;
            var ranked := AvailableContraAccounts(accounts, selectedAccountId, direction, companyId);
            ranked != [] && ranked[0] == ToOption(m.contraAccount, direction)
  {
    var selected := FindAccount(accounts, selectedAccountId, companyId).value;
    var cands := PossibleContraAccounts(accounts, selected, direction, companyId);
    assert cands != [];
    RankedHeadOfCandidates(cands, direction);
  }

  /** Ranking the options and taking the first is ranking the accounts and taking the first. */
  lemma RankedHeadOfCandidates(cands: seq<Account>, direction: Direction)
    requires cands != []
    ensures SortDesc(ToOptions(cands, direction), OptionPriority()) != []
    ensures SortDesc(ToOptions(cands, direction), OptionPriority())[0]
            == ToOption(SortDesc(cands, PriorityKey(direction))[0], direction)
  {
    var opts := ToOptions(cands, direction);
    SortDescHead(cands, PriorityKey(direction));
    var i :| IsFirstMax(cands, PriorityKey(direction), i) && SortDesc(cands, PriorityKey(direction))[0] == cands[i];
    SortDescHead(opts, OptionPriority());
    var j :| IsFirstMax(opts, OptionPriority(), j) && SortDesc(opts, OptionPriority())[0] == opts[j];
    assert IsFirstMax(cands, PriorityKey(direction), j);
    FirstMaxUnique(cands, PriorityKey(direction), i, j);
  }
}
