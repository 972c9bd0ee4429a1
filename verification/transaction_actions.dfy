/** `deletePendingTransactionCommand` and `modifyPendingTransactionCommand`:
    the user names a cached pending transaction by its 1-based number; the
    request carries that entry's stored key.  The cache is only read. */
module TransactionActions {
  import opened Optional
  import opened Text
  import opened Yahoo
  import opened UserStorage
  import opened Bot

  /** `txList[parseInt(number, 10) - 1]`: present exactly for a number from 1
      to the length of the list; NaN, zero, negative and too large indices
      all read `undefined`. */
  function Entry(txs: seq<Transaction>, number: string): (r: Option<Transaction>)
    ensures r.Some? <==> ValidPick(number, |txs|)
    ensures r.Some? ==> r.value == txs[ParseInt(number).value - 1]
  {
    var n := ParseInt(number);
    if n.Int? && 0 <= n.value - 1 < |txs| then Some(txs[n.value - 1]) else None
  }

  /** Deleting: an invalid number replies and requests nothing; a valid one
      requests one deletion of the entry's stored key and reports the
      outcome, never rethrowing. */
  function DeletePending(w: World, env: Env, from: string, number: string): (r: seq<Event>)
    ensures var txs := GetPendingTransactions(w.users, from);
            && (!ValidPick(number, |txs|) ==> r == [Send(InvalidTransactionNumber)])
            && (ValidPick(number, |txs|) ==>
                  var call := DeleteTx(txs[ParseInt(number).value - 1].transactionKey);
                  r == [Invoke(call), Send(if env.succeeds(call) then TransactionDeleted(number) else DeleteFailed)])
  {
    match Entry(GetPendingTransactions(w.users, from), number)
    case None => [Send(InvalidTransactionNumber)]
    case Some(tx) =>
      var call := DeleteTx(tx.transactionKey);
      [Invoke(call), Send(if env.succeeds(call) then TransactionDeleted(number) else DeleteFailed)]
  }

  /** Modifying: as deleting, and the update body is passed on unchanged. */
  function ModifyPending(w: World, env: Env, from: string, number: string, updateXml: string): (r: seq<Event>)
    ensures var txs := GetPendingTransactions(w.users, from);
            && (!ValidPick(number, |txs|) ==> r == [Send(InvalidTransactionNumber)])
            && (ValidPick(number, |txs|) ==>
                  var call := ModifyTx(txs[ParseInt(number).value - 1].transactionKey, updateXml);
                  r == [Invoke(call), Send(if env.succeeds(call) then TransactionUpdated(number) else UpdateFailed)])
  {
    match Entry(GetPendingTransactions(w.users, from), number)
    case None => [Send(InvalidTransactionNumber)]
    case Some(tx) =>
      var call := ModifyTx(tx.transactionKey, updateXml);
      [Invoke(call), Send(if env.succeeds(call) then TransactionUpdated(number) else UpdateFailed)]
  }

  // ---------------------------------------------------------------------------
  // properties
  // ---------------------------------------------------------------------------

  /** The numbering round trip: entry `n` of the cached list, named by its
      number (with any non-digit text after it, so "2nd" names entry 2),
      is the one whose key the request carries. */
  lemma {:induction false} NumberNamesEntry(w: World, env: Env, from: string, n: nat, suffix: string, updateXml: string)
    requires 1 <= n <= |GetPendingTransactions(w.users, from)|
    requires |suffix| == 0 || !IsDigit(suffix[0])
    ensures var txs := GetPendingTransactions(w.users, from);
            && DeletePending(w, env, from, NatToString(n) + suffix)[0] == Invoke(DeleteTx(txs[n - 1].transactionKey))
            && ModifyPending(w, env, from, NatToString(n) + suffix, updateXml)[0]
               == Invoke(ModifyTx(txs[n - 1].transactionKey, updateXml))
  {
    ParseIntNatToString(n, suffix);
  }

  /** Without a cached list (no record, or nothing cached) every number is
      invalid, and nothing is requested. */
  lemma {:induction false} NothingCachedNothingRequested(w: World, env: Env, from: string, number: string, updateXml: string)
    requires from !in w.users || w.users[from].pendingTransactions.None?
    ensures DeletePending(w, env, from, number) == [Send(InvalidTransactionNumber)]
    ensures ModifyPending(w, env, from, number, updateXml) == [Send(InvalidTransactionNumber)]
  {
  }

  /** Zero is not a transaction number: the numbering starts at 1. */
  lemma {:induction false} ZeroIsInvalid(w: World, env: Env, from: string, updateXml: string)
    ensures DeletePending(w, env, from, "0") == [Send(InvalidTransactionNumber)]
    ensures ModifyPending(w, env, from, "0", updateXml) == [Send(InvalidTransactionNumber)]
  {
    ZeroPicksNothing(|GetPendingTransactions(w.users, from)|);
  }

  /** At most one request, and it is a transaction action. */
  lemma {:induction false} AtMostOneAction(w: World, env: Env, from: string, number: string, updateXml: string)
    ensures CountCalls(DeletePending(w, env, from, number), IsTxAction) <= 1
    ensures CountCalls(ModifyPending(w, env, from, number, updateXml), IsTxAction) <= 1
  {
    var d := DeletePending(w, env, from, number);
    var m := ModifyPending(w, env, from, number, updateXml);
    assert |d| == 1 || |d| == 2;
    assert |d| == 2 ==> d[1..][1..] == [] && d[1].Send?;
    assert CountCalls(d[1..], IsTxAction) == 0;
    assert |m| == 1 || |m| == 2;
    assert |m| == 2 ==> m[1..][1..] == [] && m[1].Send?;
    assert CountCalls(m[1..], IsTxAction) == 0;
  }
}
