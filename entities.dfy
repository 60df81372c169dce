/**
 * The ledger's records: accounts, transactions and their lines, with amounts in
 * integer cents and references between records held as ids.
 */
module Entities {
  import opened Optional
  import opened Calendar
  import opened Text

  /** The five account classes of double-entry bookkeeping. */
  datatype AccountType = Asset | Liability | Equity | Revenue | Expense

  /** An account of the chart of accounts; it belongs to exactly one company. */
  datatype Account = Account(accountId: int, accountName: string, accountType: AccountType, companyId: int)

  /** One line of a transaction: a debit or a credit, in cents, on one account. */
  datatype Line = Line(transactionId: int, accountId: int, debit: int, credit: int)

  /**
   * A journal transaction. A reversal and a correction both point at the transaction
   * they correct through `correctedTransactionId`, and at each other through
   * `reversalTransactionId`.
   */
  datatype Transaction = Transaction(
    transactionId: int,
    transactionDate: Date,
    description: string,
    referenceNo: Option<string>,
    enteredByUserId: string,
    companyId: int,
    correctedTransactionId: Option<int>,
    reversalTransactionId: Option<int>,
    isReversal: bool,
    isCorrection: bool,
    lines: seq<Line>)

  /** Column sizes of the tables. */
  const MaxAccountNameLength := 100
  const MaxDescriptionLength := 200
  const MaxReferenceLength := 50
  /** decimal(18,2) holds at most 9999999999999999.99, that is 10^18 - 1 cents. */
  const MaxAmountCents := 999_999_999_999_999_999

  /** A new line: debit and credit both start at zero. */
  function NewLine(transactionId: int, accountId: int): (l: Line)
    ensures l.transactionId == transactionId && l.accountId == accountId
    ensures l.debit == 0 && l.credit == 0
  {
    Line(transactionId, accountId, 0, 0)
  }

  /**
   * A new transaction: not a reversal, not a correction, linked to nothing and
   * without lines. The id is assigned by the database when it is stored.
   */
  function NewTransaction(date: Date, description: string, referenceNo: Option<string>,
                          enteredByUserId: string, companyId: int): (t: Transaction)
    ensures !t.isReversal && !t.isCorrection
    ensures t.correctedTransactionId.None? && t.reversalTransactionId.None?
    ensures t.lines == []
    ensures t.transactionDate == date && t.description == description && t.referenceNo == referenceNo
    ensures t.enteredByUserId == enteredByUserId && t.companyId == companyId
  {
    Transaction(0, date, description, referenceNo, enteredByUserId, companyId, None, None, false, false, [])
  }

  predicate FitsAmountColumn(cents: int)
  {
    -MaxAmountCents <= cents <= MaxAmountCents
  }

  /** The row fits its columns; a write of one that does not fails in the database. */
  predicate Storable(t: Transaction)
  {
    && Utf16Length(t.description) <= MaxDescriptionLength
    && (t.referenceNo.Some? ==> Utf16Length(t.referenceNo.value) <= MaxReferenceLength)
    && forall i :: 0 <= i < |t.lines| ==> FitsAmountColumn(t.lines[i].debit) && FitsAmountColumn(t.lines[i].credit)
  }

  /** A line as the ledger writes them: non-negative amounts, exactly one of them non-zero. */
  predicate WellFormedLine(l: Line)
  {
    l.debit >= 0 && l.credit >= 0 && (l.debit == 0) != (l.credit == 0)
  }

  /** Sums of debits and credits over some lines, and how many lines there are. */
  datatype Totals = Totals(debits: int, credits: int, count: nat)

  function Plus(a: Totals, b: Totals): Totals
  {
    Totals(a.debits + b.debits, a.credits + b.credits, a.count + b.count)
  }

  /** Debits minus credits. */
  function Net(t: Totals): int
  {
    t.debits - t.credits
  }

  function Tally(lines: seq<Line>): (r: Totals)
    ensures r.count == |lines|
  {
    if lines == [] then Totals(0, 0, 0)
    else Plus(Totals(lines[0].debit, lines[0].credit, 1), Tally(lines[1..]))
  }

  /** Totals of a concatenation add up. */
  lemma {:induction false} TallyAppend(a: seq<Line>, b: seq<Line>)
    ensures Tally(a + b) == Plus(Tally(a), Tally(b))
    decreases |a|
  {
    if a == [] {
      assert a + b == b;
    } else {
      assert (a + b)[0] == a[0];
      assert (a + b)[1..] == a[1..] + b;
      TallyAppend(a[1..], b);
    }
  }

  /** Debits equal credits. */
  predicate Balanced(lines: seq<Line>)
  {
    Tally(lines).debits == Tally(lines).credits
  }

  /** The lines posted to one account, in order. */
  function LinesFor(lines: seq<Line>, accountId: int): (r: seq<Line>)
    ensures |r| <= |lines|
    ensures forall i :: 0 <= i < |r| ==> r[i] in lines && r[i].accountId == accountId
    ensures forall i :: 0 <= i < |lines| && lines[i].accountId == accountId ==> lines[i] in r
  {
    if lines == [] then []
    else if lines[0].accountId == accountId then [lines[0]] + LinesFor(lines[1..], accountId)
    else LinesFor(lines[1..], accountId)
  }

  lemma {:induction false} LinesForAppend(a: seq<Line>, b: seq<Line>, accountId: int)
    ensures LinesFor(a + b, accountId) == LinesFor(a, accountId) + LinesFor(b, accountId)
    decreases |a|
  {
    if a == [] {
      assert a + b == b;
    } else {
      assert (a + b)[0] == a[0];
      assert (a + b)[1..] == a[1..] + b;
      LinesForAppend(a[1..], b, accountId);
    }
  }

  /** No line is selected for an account none of them is posted to. */
  lemma {:induction false} LinesForNone(lines: seq<Line>, accountId: int)
    requires forall i :: 0 <= i < |lines| ==> lines[i].accountId != accountId
    ensures LinesFor(lines, accountId) == []
  {
    if lines != [] {
      LinesForNone(lines[1..], accountId);
    }
  }

  /** A line with debit and credit exchanged, re-assigned to transaction `tid`. */
  function SwapSides(l: Line, tid: int): Line
  {
    Line(tid, l.accountId, l.credit, l.debit)
  }

  /** Every line of a transaction, in order, with debit and credit exchanged. */
  function Mirror(lines: seq<Line>, tid: int): (r: seq<Line>)
    ensures |r| == |lines|
  {
    if lines == [] then [] else [SwapSides(lines[0], tid)] + Mirror(lines[1..], tid)
  }

  /** Mirrored lines keep their position and account and trade their amounts. */
  lemma {:induction false} MirrorPointwise(lines: seq<Line>, tid: int)
    ensures forall i :: 0 <= i < |lines| ==>
              && Mirror(lines, tid)[i].accountId == lines[i].accountId
              && Mirror(lines, tid)[i].debit == lines[i].credit
              && Mirror(lines, tid)[i].credit == lines[i].debit
              && Mirror(lines, tid)[i].transactionId == tid
  {
    if lines != [] {
      MirrorPointwise(lines[1..], tid);
      forall i | 0 < i < |lines| ensures Mirror(lines, tid)[i] == Mirror(lines[1..], tid)[i - 1] {
      }
    }
  }

  /** Mirroring exchanges the total debits and the total credits. */
  lemma {:induction false} MirrorSwapsTotals(lines: seq<Line>, tid: int)
    ensures Tally(Mirror(lines, tid)) == Totals(Tally(lines).credits, Tally(lines).debits, |lines|)
  {
    if lines != [] {
      MirrorSwapsTotals(lines[1..], tid);
    }
  }

  /** A mirrored entry is balanced exactly when the original is. */
  lemma MirrorKeepsBalance(lines: seq<Line>, tid: int)
    ensures Balanced(Mirror(lines, tid)) <==> Balanced(lines)
  {
    MirrorSwapsTotals(lines, tid);
  }

  /** Mirroring and then selecting an account's lines is selecting and then mirroring. */
  lemma {:induction false} MirrorLinesFor(lines: seq<Line>, tid: int, accountId: int)
    ensures LinesFor(Mirror(lines, tid), accountId) == Mirror(LinesFor(lines, accountId), tid)
  {
    if lines != [] {
      MirrorLinesFor(lines[1..], tid, accountId);
    }
  }

  /** An original and its mirror net to zero on every account. */
  lemma MirrorNetsToZero(lines: seq<Line>, tid: int, accountId: int)
    ensures Net(Tally(LinesFor(lines, accountId))) + Net(Tally(LinesFor(Mirror(lines, tid), accountId))) == 0
  {
    MirrorLinesFor(lines, tid, accountId);
    MirrorSwapsTotals(LinesFor(lines, accountId), tid);
  }

  /** Mirroring keeps every line well formed and within its columns. */
  lemma MirrorKeepsLinesWellFormed(lines: seq<Line>, tid: int)
    requires forall i :: 0 <= i < |lines| ==> WellFormedLine(lines[i])
    ensures forall i :: 0 <= i < |Mirror(lines, tid)| ==> WellFormedLine(Mirror(lines, tid)[i])
  {
    MirrorPointwise(lines, tid);
  }

  /** Account ids strictly increase along the table, as identity keys do. */
  predicate AccountIdsAscending(accounts: seq<Account>)
  {
    forall i, j :: 0 <= i < j < |accounts| ==> accounts[i].accountId < accounts[j].accountId
  }

  /** An account with this id exists in this company. */
  predicate HasAccount(accounts: seq<Account>, accountId: int, companyId: int)
  {
    exists i :: 0 <= i < |accounts| && accounts[i].accountId == accountId && accounts[i].companyId == companyId
  }

  /** `FirstOrDefault(a => a.AccountId == id && a.CompanyId == companyId)`. */
  function FindAccount(accounts: seq<Account>, accountId: int, companyId: int): (r: Option<Account>)
    ensures r.Some? <==> HasAccount(accounts, accountId, companyId)
    ensures r.Some? ==> && r.value in accounts
                        && r.value.accountId == accountId && r.value.companyId == companyId
  {
    if accounts == [] then None
    else if accounts[0].accountId == accountId && accounts[0].companyId == companyId then Some(accounts[0])
    else
      var r := FindAccount(accounts[1..], accountId, companyId);
      assert HasAccount(accounts, accountId, companyId) ==> HasAccount(accounts[1..], accountId, companyId) by {
        if HasAccount(accounts, accountId, companyId) {
          var i :| 0 <= i < |accounts| && accounts[i].accountId == accountId && accounts[i].companyId == companyId;
          assert accounts[1..][i - 1] == accounts[i];
        }
      }
      r
  }

  /** With ascending ids, the account found is the table's only row with that id. */
  lemma FindAccountUnique(accounts: seq<Account>, accountId: int, companyId: int, i: int)
    requires AccountIdsAscending(accounts) && 0 <= i < |accounts|
    requires accounts[i].accountId == accountId && accounts[i].companyId == companyId
    ensures FindAccount(accounts, accountId, companyId) == Some(accounts[i])
  {
    var a := FindAccount(accounts, accountId, companyId).value;
    var k :| 0 <= k < |accounts| && accounts[k] == a;
    assert !(k < i) && !(i < k);
  }
}
