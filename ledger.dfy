/**
 * The database behind the ledger: the accounts table, the transactions table (each
 * transaction holding its lines) and the two identity counters, together with the
 * consistency every committed state keeps and the account balances it defines.
 */
module Store {
  import opened Optional
  import opened Entities
  import opened Keys

  type TxTable = map<int, Transaction>

  /** The least transaction id in the table. */
  function MinKey(txs: TxTable): (k: int)
    requires txs != map[]
    ensures k in txs && forall j :: j in txs ==> k <= j
  {
    MinExists(txs.Keys);
    var k :| k in txs && forall j :: j in txs ==> k <= j; k
  }

  /**
   * Total debits, total credits and number of lines posted to an account, summed
   * transaction by transaction in id order.
   */
  function AccountTotals(txs: TxTable, accountId: int): Totals
    decreases |txs.Keys|
  {
    if txs == map[] then Totals(0, 0, 0)
    else
      var k := MinKey(txs);
      assert (txs - {k}).Keys == txs.Keys - {k};
      Plus(Contribution(txs[k], accountId), AccountTotals(txs - {k}, accountId))
  }

  /** The totals of one transaction's lines on an account. */
  function Contribution(t: Transaction, accountId: int): Totals
  {
    Tally(LinesFor(t.lines, accountId))
  }

  lemma AccountTotalsUnfold(txs: TxTable, accountId: int)
    requires txs != map[]
    ensures AccountTotals(txs, accountId)
            == Plus(Contribution(txs[MinKey(txs)], accountId), AccountTotals(txs - {MinKey(txs)}, accountId))
  {
  }

  /** Taking any one transaction out of the table takes exactly its lines out of the totals. */
  lemma {:induction false} AccountTotalsRemove(txs: TxTable, x: int, accountId: int)
    requires x in txs
    ensures AccountTotals(txs, accountId)
            == Plus(Contribution(txs[x], accountId), AccountTotals(txs - {x}, accountId))
    decreases |txs.Keys|
  {
    var k := MinKey(txs);
    if k != x {
      RemoveTwo(txs, k, x);
      AccountTotalsUnfold(txs, accountId);
      AccountTotalsRemove(txs - {k}, x, accountId);
      AccountTotalsRemove(txs - {x}, k, accountId);
      PlusSwap(Contribution(txs[k], accountId), Contribution(txs[x], accountId),
               AccountTotals(txs - {k} - {x}, accountId));
    } else {
      AccountTotalsUnfold(txs, accountId);
    }
  }

  /** Removing two different keys, in either order. */
  lemma RemoveTwo(txs: TxTable, k: int, x: int)
    requires k in txs && x in txs && k != x
    ensures (txs - {k}).Keys == txs.Keys - {k} && (txs - {x}).Keys == txs.Keys - {x}
    ensures x in txs - {k} && (txs - {k})[x] == txs[x]
    ensures k in txs - {x} && (txs - {x})[k] == txs[k]
    ensures txs - {x} - {k} == txs - {k} - {x}
  {
  }

  lemma PlusSwap(a: Totals, b: Totals, c: Totals)
    ensures Plus(a, Plus(b, c)) == Plus(b, Plus(a, c))
  {
  }

  /** Storing a new transaction adds exactly its lines to every account's totals. */
  lemma AccountTotalsInsert(txs: TxTable, k: int, t: Transaction, accountId: int)
    requires k !in txs
    ensures AccountTotals(txs[k := t], accountId)
            == Plus(Contribution(t, accountId), AccountTotals(txs, accountId))
  {
    InsertThenRemove(txs, k, t);
    AccountTotalsRemove(txs[k := t], k, accountId);
  }

  /** Removing a key just stored, or just rewritten, gives back the table without it. */
  lemma InsertThenRemove(txs: TxTable, k: int, t: Transaction)
    ensures k in txs[k := t] && txs[k := t][k] == t
    ensures txs[k := t] - {k} == txs - {k}
    ensures k !in txs ==> txs - {k} == txs
  {
  }

  /** Rewriting a stored transaction without touching its lines leaves every total as it was. */
  lemma AccountTotalsReplace(txs: TxTable, k: int, t: Transaction, accountId: int)
    requires k in txs && txs[k].lines == t.lines
    ensures AccountTotals(txs[k := t], accountId) == AccountTotals(txs, accountId)
  {
    InsertThenRemove(txs, k, t);
    AccountTotalsRemove(txs[k := t], k, accountId);
    AccountTotalsRemove(txs, k, accountId);
  }

  /** One line of a stored transaction: it names its transaction and an account of the same company. */
  predicate LineOk(accounts: seq<Account>, t: Transaction, l: Line)
  {
    l.transactionId == t.transactionId && WellFormedLine(l) && HasAccount(accounts, l.accountId, t.companyId)
  }

  predicate LinesOk(accounts: seq<Account>, t: Transaction)
  {
    forall i :: 0 <= i < |t.lines| ==> LineOk(accounts, t, t.lines[i])
  }

  /** Neither a reversal nor a correction: an entry as a normal post writes it. */
  predicate IsOriginal(t: Transaction)
  {
    !t.isReversal && !t.isCorrection
  }

  /** The flags and links agree: originals link nowhere, reversals and corrections both ways. */
  predicate FlagsOk(t: Transaction)
  {
    if IsOriginal(t) then t.correctedTransactionId.None? && t.reversalTransactionId.None?
    else !(t.isReversal && t.isCorrection)
         && t.correctedTransactionId.Some? && t.reversalTransactionId.Some?
  }

  /** A stored transaction: under its own id, balanced, fitting its columns, with sound lines. */
  predicate EntryOk(accounts: seq<Account>, k: int, t: Transaction, nextTransactionId: int)
  {
    && t.transactionId == k && 0 < k < nextTransactionId
    && FlagsOk(t) && Balanced(t.lines) && Storable(t) && LinesOk(accounts, t)
  }

  /**
   * A reversal points at the transaction it corrects, which it mirrors line by line,
   * and at the correction of that transaction, which points back at it.
   */
  predicate ReversalLinked(txs: TxTable, k: int)
    requires k in txs
  {
    var r := txs[k];
    r.isReversal && r.correctedTransactionId.Some? && r.reversalTransactionId.Some? ==>
      var o := r.correctedTransactionId.value;
      var c := r.reversalTransactionId.value;
      && o in txs && txs[o].companyId == r.companyId
      && r.lines == Mirror(txs[o].lines, k)
      && c in txs && txs[c].isCorrection
      && txs[c].correctedTransactionId == Some(o) && txs[c].reversalTransactionId == Some(k)
  }

  /**
   * A correction points at the transaction it corrects and at the reversal of that
   * transaction, which points back at it.
   */
  predicate CorrectionLinked(txs: TxTable, k: int)
    requires k in txs
  {
    var c := txs[k];
    c.isCorrection && c.correctedTransactionId.Some? && c.reversalTransactionId.Some? ==>
      var o := c.correctedTransactionId.value;
      var r := c.reversalTransactionId.value;
      && o in txs && txs[o].companyId == c.companyId
      && r in txs && txs[r].isReversal
      && txs[r].correctedTransactionId == Some(o) && txs[r].reversalTransactionId == Some(k)
  }

  /** A transaction has at most one reversal and at most one correction. */
  predicate UniqueLinks(txs: TxTable)
  {
    forall a, b :: a in txs && b in txs && a != b
                   && txs[a].correctedTransactionId.Some?
                   && txs[a].correctedTransactionId == txs[b].correctedTransactionId
                   ==> txs[a].isReversal != txs[b].isReversal
  }

  predicate AccountTableOk(accounts: seq<Account>, nextAccountId: int)
  {
    && AccountIdsAscending(accounts)
    && forall i :: 0 <= i < |accounts| ==> 0 < accounts[i].accountId < nextAccountId
  }

  predicate EntriesOk(accounts: seq<Account>, txs: TxTable, nextTransactionId: int)
  {
    forall k :: k in txs ==> EntryOk(accounts, k, txs[k], nextTransactionId)
  }

  predicate ChainOk(txs: TxTable)
  {
    && (forall k :: k in txs ==> ReversalLinked(txs, k) && CorrectionLinked(txs, k))
    && UniqueLinks(txs)
  }

  /** What every committed state of the database satisfies. */
  predicate Consistent(accounts: seq<Account>, txs: TxTable, nextAccountId: int, nextTransactionId: int)
  {
    && nextAccountId >= 1 && nextTransactionId >= 1
    && AccountTableOk(accounts, nextAccountId)
    && EntriesOk(accounts, txs, nextTransactionId)
    && ChainOk(txs)
  }

  /** An empty database with both identity counters at their seed. */
  lemma EmptyIsConsistent()
    ensures Consistent([], map[], 1, 1)
  {
  }

  /** Every transaction of a consistent ledger is stored under its own id and balances. */
  lemma ConsistentEntriesBalance(accounts: seq<Account>, txs: TxTable, nA: int, nT: int, k: int)
    requires Consistent(accounts, txs, nA, nT) && k in txs
    ensures Balanced(txs[k].lines) && txs[k].transactionId == k
  {
  }

  /** A stored original that no other transaction links to. */
  predicate Unreferenced(txs: TxTable, id: int)
  {
    forall k :: k in txs ==> txs[k].correctedTransactionId != Some(id) && txs[k].reversalTransactionId != Some(id)
  }

  /** Storing a new balanced original under the next id keeps the ledger consistent. */
  lemma PostKeepsConsistent(accounts: seq<Account>, txs: TxTable, nA: int, nT: int, t: Transaction)
    requires Consistent(accounts, txs, nA, nT)
    requires IsOriginal(t) && FlagsOk(t) && t.transactionId == nT && nT > 0
    requires Balanced(t.lines) && Storable(t) && LinesOk(accounts, t)
    ensures Consistent(accounts, txs[nT := t], nA, nT + 1)
  {
    var txs' := txs[nT := t];
    forall k | k in txs' ensures ReversalLinked(txs', k) && CorrectionLinked(txs', k) {
      if k != nT {
        assert ReversalLinked(txs, k) && CorrectionLinked(txs, k);
      }
    }
  }

  /** Removing an unreferenced original keeps the ledger consistent. */
  lemma DeleteKeepsConsistent(accounts: seq<Account>, txs: TxTable, nA: int, nT: int, id: int)
    requires Consistent(accounts, txs, nA, nT)
    requires id in txs && IsOriginal(txs[id]) && Unreferenced(txs, id)
    ensures Consistent(accounts, txs - {id}, nA, nT)
  {
    var txs' := txs - {id};
    forall k | k in txs' ensures ReversalLinked(txs', k) && CorrectionLinked(txs', k) {
      assert ReversalLinked(txs, k) && CorrectionLinked(txs, k);
    }
  }

  /** Some stored transaction names `id` as the transaction it corrects. */
  predicate AlreadyCorrected(txs: TxTable, id: int)
  {
    exists k :: k in txs && txs[k].correctedTransactionId == Some(id)
  }

  /**
   * A reversal and a correction of transaction o under the ids from nT on: flagged,
   * in o's company, linked to o and to each other, the reversal mirroring o's lines
   * and the correction balanced.
   */
  predicate CorrectionPair(txs: TxTable, nT: int, o: int, rev: Transaction, corr: Transaction)
  {
    && o in txs
    && nT <= rev.transactionId && corr.transactionId == rev.transactionId + 1
    && rev.isReversal && !rev.isCorrection && rev.companyId == txs[o].companyId
    && rev.correctedTransactionId == Some(o) && rev.reversalTransactionId == Some(corr.transactionId)
    && rev.lines == Mirror(txs[o].lines, rev.transactionId) && Storable(rev)
    && corr.isCorrection && !corr.isReversal && corr.companyId == txs[o].companyId
    && corr.correctedTransactionId == Some(o) && corr.reversalTransactionId == Some(rev.transactionId)
    && Balanced(corr.lines) && Storable(corr)
  }

  /** No stored transaction has an id the counter has not handed out yet. */
  lemma FreshIdAbsent(accounts: seq<Account>, txs: TxTable, nT: int, id: int)
    requires EntriesOk(accounts, txs, nT) && nT <= id
    ensures id !in txs
  {
    assert id in txs ==> EntryOk(accounts, id, txs[id], nT);
  }

  /**
   * The reversal and the correction of a transaction that has neither, under two fresh
   * ids, linked both ways: the ledger stays consistent.
   */
  lemma CorrectionKeepsConsistent(accounts: seq<Account>, txs: TxTable, nA: int, nT: int,
                                  o: int, rev: Transaction, corr: Transaction)
    requires Consistent(accounts, txs, nA, nT)
    requires !AlreadyCorrected(txs, o) && CorrectionPair(txs, nT, o, rev, corr) && LinesOk(accounts, corr)
    ensures Consistent(accounts, txs[rev.transactionId := rev][corr.transactionId := corr], nA, corr.transactionId + 1)
  {
    CorrectionEntriesOk(accounts, txs, nA, nT, o, rev, corr);
    CorrectionLinksOk(accounts, txs, nA, nT, o, rev, corr);
    CorrectionLinksUnique(accounts, txs, nA, nT, o, rev, corr);
  }

  lemma CorrectionEntriesOk(accounts: seq<Account>, txs: TxTable, nA: int, nT: int,
                            o: int, rev: Transaction, corr: Transaction)
    requires Consistent(accounts, txs, nA, nT)
    requires CorrectionPair(txs, nT, o, rev, corr) && LinesOk(accounts, corr)
    ensures EntriesOk(accounts, txs[rev.transactionId := rev][corr.transactionId := corr], corr.transactionId + 1)
  {
    var r := rev.transactionId;
    var c := corr.transactionId;
    var txs' := txs[r := rev][c := corr];
    var orig := txs[o];
    assert EntryOk(accounts, o, orig, nT);
    MirrorKeepsBalance(orig.lines, r);
    MirrorPointwise(orig.lines, r);
    assert LinesOk(accounts, rev) by {
      forall i | 0 <= i < |rev.lines| ensures LineOk(accounts, rev, rev.lines[i]) {
        assert LineOk(accounts, orig, orig.lines[i]);
      }
    }
    assert EntryOk(accounts, r, rev, c + 1);
    assert EntryOk(accounts, c, corr, c + 1);
    forall k | k in txs' ensures EntryOk(accounts, k, txs'[k], c + 1) {
      if k != r && k != c {
        assert EntryOk(accounts, k, txs[k], nT);
      }
    }
  }

  lemma CorrectionLinksOk(accounts: seq<Account>, txs: TxTable, nA: int, nT: int,
                          o: int, rev: Transaction, corr: Transaction)
    requires Consistent(accounts, txs, nA, nT)
    requires CorrectionPair(txs, nT, o, rev, corr)
    ensures var txs' := txs[rev.transactionId := rev][corr.transactionId := corr];
            forall k :: k in txs' ==> ReversalLinked(txs', k) && CorrectionLinked(txs', k)
  {
    var r := rev.transactionId;
    var c := corr.transactionId;
    var txs' := txs[r := rev][c := corr];
    FreshIdAbsent(accounts, txs, nT, r);
    FreshIdAbsent(accounts, txs, nT, c);
    assert txs'[o] == txs[o];
    assert ReversalLinked(txs', r);
    assert CorrectionLinked(txs', c);
    forall k | k in txs' ensures ReversalLinked(txs', k) && CorrectionLinked(txs', k) {
      if k != r && k != c {
        assert ReversalLinked(txs, k) && CorrectionLinked(txs, k);
        assert txs'[k] == txs[k];
      }
    }
  }

  lemma CorrectionLinksUnique(accounts: seq<Account>, txs: TxTable, nA: int, nT: int,
                              o: int, rev: Transaction, corr: Transaction)
    requires Consistent(accounts, txs, nA, nT)
    requires !AlreadyCorrected(txs, o) && CorrectionPair(txs, nT, o, rev, corr)
    ensures UniqueLinks(txs[rev.transactionId := rev][corr.transactionId := corr])
  {
    var r := rev.transactionId;
    var c := corr.transactionId;
    var txs' := txs[r := rev][c := corr];
    FreshIdAbsent(accounts, txs, nT, r);
    FreshIdAbsent(accounts, txs, nT, c);
    forall a, b | && a in txs' && b in txs' && a != b
                  && txs'[a].correctedTransactionId.Some?
                  && txs'[a].correctedTransactionId == txs'[b].correctedTransactionId
      ensures txs'[a].isReversal != txs'[b].isReversal
    {
      if a in txs && b in txs {
        assert txs'[a] == txs[a] && txs'[b] == txs[b];
      } else if !((a == r || a == c) && (b == r || b == c)) {
        assert false;
      }
    }
  }

  /** Appending a new account under the next id keeps the ledger consistent. */
  lemma AddAccountKeepsConsistent(accounts: seq<Account>, txs: TxTable, nA: int, nT: int, a: Account)
    requires Consistent(accounts, txs, nA, nT) && a.accountId == nA && nA > 0
    ensures Consistent(accounts + [a], txs, nA + 1, nT)
  {
    forall k | k in txs ensures LinesOk(accounts + [a], txs[k]) {
      forall i | 0 <= i < |txs[k].lines| ensures LineOk(accounts + [a], txs[k], txs[k].lines[i]) {
        assert LineOk(accounts, txs[k], txs[k].lines[i]);
        var j :| && 0 <= j < |accounts| && accounts[j].accountId == txs[k].lines[i].accountId
                 && accounts[j].companyId == txs[k].companyId;
        assert (accounts + [a])[j] == accounts[j];
      }
    }
  }

  /** Renaming an account or changing its type keeps the ledger consistent. */
  lemma EditAccountKeepsConsistent(accounts: seq<Account>, txs: TxTable, nA: int, nT: int, i: int, a: Account)
    requires Consistent(accounts, txs, nA, nT) && 0 <= i < |accounts|
    requires a.accountId == accounts[i].accountId && a.companyId == accounts[i].companyId
    ensures Consistent(accounts[i := a], txs, nA, nT)
  {
    forall k | k in txs ensures LinesOk(accounts[i := a], txs[k]) {
      forall n | 0 <= n < |txs[k].lines| ensures LineOk(accounts[i := a], txs[k], txs[k].lines[n]) {
        assert LineOk(accounts, txs[k], txs[k].lines[n]);
        var j :| && 0 <= j < |accounts| && accounts[j].accountId == txs[k].lines[n].accountId
                 && accounts[j].companyId == txs[k].companyId;
        assert accounts[i := a][j].accountId == accounts[j].accountId;
      }
    }
  }

  /** No stored line is posted to this account. */
  predicate AccountUnused(txs: TxTable, accountId: int)
  {
    forall k :: k in txs ==> forall n :: 0 <= n < |txs[k].lines| ==> txs[k].lines[n].accountId != accountId
  }

  /** An account with no lines has empty totals. */
  lemma {:induction false} UnusedAccountHasNoLines(txs: TxTable, accountId: int)
    requires AccountUnused(txs, accountId)
    ensures AccountTotals(txs, accountId) == Totals(0, 0, 0)
    decreases |txs.Keys|
  {
    if txs != map[] {
      var k := MinKey(txs);
      var rest := txs - {k};
      var t := txs[k];
      assert rest.Keys == txs.Keys - {k};
      assert forall n :: 0 <= n < |t.lines| ==> t.lines[n].accountId != accountId;
      LinesForNone(t.lines, accountId);
      assert Contribution(t, accountId) == Totals(0, 0, 0);
      assert AccountUnused(rest, accountId) by {
        forall j | j in rest ensures rest[j] == txs[j] {
        }
      }
      AccountTotalsUnfold(txs, accountId);
      UnusedAccountHasNoLines(rest, accountId);
    }
  }

  /** Removing an account that no line uses keeps the ledger consistent. */
  lemma RemoveAccountKeepsConsistent(accounts: seq<Account>, txs: TxTable, nA: int, nT: int, i: int)
    requires Consistent(accounts, txs, nA, nT) && 0 <= i < |accounts|
    requires AccountUnused(txs, accounts[i].accountId)
    ensures Consistent(accounts[..i] + accounts[i + 1..], txs, nA, nT)
  {
    var rest := accounts[..i] + accounts[i + 1..];
    assert forall j :: 0 <= j < |rest| ==> rest[j] == if j < i then accounts[j] else accounts[j + 1];
    forall k | k in txs ensures LinesOk(rest, txs[k]) {
      forall n | 0 <= n < |txs[k].lines| ensures LineOk(rest, txs[k], txs[k].lines[n]) {
        assert LineOk(accounts, txs[k], txs[k].lines[n]);
        var j :| && 0 <= j < |accounts| && accounts[j].accountId == txs[k].lines[n].accountId
                 && accounts[j].companyId == txs[k].companyId;
        if j < i {
          assert rest[j] == accounts[j];
        } else {
          assert j != i;
          assert rest[j - 1] == accounts[j];
        }
      }
    }
  }

  /**
   * The database: the accounts table in id order, the transactions table keyed by id,
   * and the next identity value of each table.
   */
  class Ledger {
    var accounts: seq<Account>
    var transactions: TxTable
    var nextAccountId: int
    var nextTransactionId: int

    ghost predicate Valid()
      reads this
    {
      Consistent(accounts, transactions, nextAccountId, nextTransactionId)
    }

    /** An empty database. */
    constructor ()
      ensures Valid()
      ensures accounts == [] && transactions == map[]
      ensures nextAccountId == 1 && nextTransactionId == 1
    {
      accounts := [];
      transactions := map[];
      nextAccountId := 1;
      nextTransactionId := 1;
    }

    /**
     * `Add` and `SaveChangesAsync` of one transaction that already carries the next
     * identity value: the row is stored and the identity advances, or the row does not
     * fit its columns, the write fails and nothing changes.
     */
    method InsertTransaction(t: Transaction) returns (ok: bool)
      requires t.transactionId == nextTransactionId
      modifies this
      ensures ok == Storable(t)
      ensures accounts == old(accounts) && nextAccountId == old(nextAccountId)
      ensures ok ==> transactions == old(transactions)[t.transactionId := t]
                     && nextTransactionId == old(nextTransactionId) + 1
      ensures !ok ==> transactions == old(transactions) && nextTransactionId == old(nextTransactionId)
    {
      ok := Storable(t);
      if ok {
        transactions := transactions[t.transactionId := t];
        nextTransactionId := nextTransactionId + 1;
      }
    }

    /** `SaveChangesAsync` of an edited transaction row. */
    method UpdateTransaction(t: Transaction)
      requires t.transactionId in transactions
      modifies this
      ensures transactions == old(transactions)[t.transactionId := t]
      ensures accounts == old(accounts)
      ensures nextAccountId == old(nextAccountId) && nextTransactionId == old(nextTransactionId)
    {
      transactions := transactions[t.transactionId := t];
    }

    /** `Remove` and `SaveChangesAsync`: the row goes, and its lines with it. */
    method RemoveTransaction(id: int)
      modifies this
      ensures transactions == old(transactions) - {id}
      ensures accounts == old(accounts)
      ensures nextAccountId == old(nextAccountId) && nextTransactionId == old(nextTransactionId)
    {
      transactions := transactions - {id};
    }

    /**
     * `RollbackAsync`: the rows go back to what they were when the database transaction
     * began; identity values handed out meanwhile are not given back.
     */
    method RollBack(saved: TxTable)
      modifies this
      ensures transactions == saved
      ensures accounts == old(accounts)
      ensures nextAccountId == old(nextAccountId) && nextTransactionId == old(nextTransactionId)
    {
      transactions := saved;
    }

    /** `Add` and `SaveChangesAsync` of an account that carries the next identity value. */
    method InsertAccount(a: Account)
      requires a.accountId == nextAccountId
      modifies this
      ensures accounts == old(accounts) + [a] && nextAccountId == old(nextAccountId) + 1
      ensures transactions == old(transactions) && nextTransactionId == old(nextTransactionId)
    {
      accounts := accounts + [a];
      nextAccountId := nextAccountId + 1;
    }

    /** `Update` and `SaveChangesAsync` of the account row at position i. */
    method UpdateAccount(i: nat, a: Account)
      requires i < |accounts|
      modifies this
      ensures accounts == old(accounts)[i := a] && nextAccountId == old(nextAccountId)
      ensures transactions == old(transactions) && nextTransactionId == old(nextTransactionId)
    {
      accounts := accounts[i := a];
    }

    /** `Remove` and `SaveChangesAsync` of the account row at position i. */
    method RemoveAccount(i: nat)
      requires i < |accounts|
      modifies this
      ensures accounts == old(accounts)[..i] + old(accounts)[i + 1..] && nextAccountId == old(nextAccountId)
      ensures transactions == old(transactions) && nextTransactionId == old(nextTransactionId)
    {
      accounts := accounts[..i] + accounts[i + 1..];
    }
  }
}
