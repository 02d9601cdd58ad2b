/**
 * The small-transaction history of the fraud engine (`addSmallTxnHistory`):
 * a self-join over the batch that gives each transaction the list of earlier
 * transfers of at most 10 between the same sender and receiver. The
 * verification_pattern rule reads that list.
 */
module SmallTxnHistory {
  import opened FraudRules

  /** `s` is a transfer of at most 10, from the sender to the receiver of `txn`, strictly before it. */
  predicate IsEarlierSmall(s: Txn, txn: Txn)
  {
    s.sender_vpa == txn.sender_vpa && s.receiver_vpa == txn.receiver_vpa
    && s.amount <= 10.0 && s.timestamp < txn.timestamp
  }

  /** The history entry recorded for a matching transfer. */
  function Entry(s: Txn): HistoryEntry
  {
    HistoryEntry(s.amount, s.timestamp, s.receiver_vpa)
  }

  /** The batch filtered by IsEarlierSmall(_, txn), in batch order, mapped to entries. */
  function SmallHistory(db: seq<Txn>, txn: Txn): seq<HistoryEntry>
    decreases |db|
  {
    if db == [] then []
    else
      var s := db[|db| - 1];
      SmallHistory(db[..|db| - 1], txn) + (if IsEarlierSmall(s, txn) then [Entry(s)] else [])
  }

  /** The positions of the batch that the filter keeps, in batch order. */
  function MatchIndices(db: seq<Txn>, txn: Txn): seq<nat>
    decreases |db|
  {
    if db == [] then []
    else MatchIndices(db[..|db| - 1], txn) + (if IsEarlierSmall(db[|db| - 1], txn) then [|db| - 1] else [])
  }

  /**
   * The history is exactly the entries of the matching positions, taken in
   * increasing position order, and no matching position is skipped.
   */
  lemma {:induction false} SmallHistoryIndices(db: seq<Txn>, txn: Txn)
    ensures |MatchIndices(db, txn)| == |SmallHistory(db, txn)|
    ensures forall k :: 0 <= k < |MatchIndices(db, txn)| ==>
      MatchIndices(db, txn)[k] < |db| && IsEarlierSmall(db[MatchIndices(db, txn)[k]], txn)
      && SmallHistory(db, txn)[k] == Entry(db[MatchIndices(db, txn)[k]])
    ensures forall k, l :: 0 <= k < l < |MatchIndices(db, txn)| ==>
      MatchIndices(db, txn)[k] < MatchIndices(db, txn)[l]
    ensures forall j :: 0 <= j < |db| && IsEarlierSmall(db[j], txn) ==> j in MatchIndices(db, txn)
    decreases |db|
  {
    if db != [] {
      var init := db[..|db| - 1];
      SmallHistoryIndices(init, txn);
      assert forall j :: 0 <= j < |init| ==> init[j] == db[j];
    }
  }

  /** Every entry is a transfer of at most 10 to the receiver, strictly before the transaction. */
  lemma HistoryEntriesSound(db: seq<Txn>, txn: Txn)
    ensures forall e :: e in SmallHistory(db, txn) ==>
      e.counterparty == txn.receiver_vpa && e.amount <= 10.0 && e.timestamp < txn.timestamp
  {
    SmallHistoryIndices(db, txn);
    forall e | e in SmallHistory(db, txn)
      ensures e.counterparty == txn.receiver_vpa && e.amount <= 10.0 && e.timestamp < txn.timestamp
    {
      var k :| 0 <= k < |SmallHistory(db, txn)| && SmallHistory(db, txn)[k] == e;
      assert IsEarlierSmall(db[MatchIndices(db, txn)[k]], txn);
    }
  }

  /** The history is non-empty exactly when some transaction of the batch matches. */
  lemma HistoryNonEmptyIff(db: seq<Txn>, txn: Txn)
    ensures SmallHistory(db, txn) != [] <==> exists j :: 0 <= j < |db| && IsEarlierSmall(db[j], txn)
  {
    SmallHistoryIndices(db, txn);
    if SmallHistory(db, txn) != [] {
      assert IsEarlierSmall(db[MatchIndices(db, txn)[0]], txn);
    }
  }

  /** A transaction never contributes to its own history: its timestamp is not before itself. */
  lemma NotInOwnHistory(db: seq<Txn>, i: nat)
    requires i < |db|
    ensures i !in MatchIndices(db, db[i])
  {
    SmallHistoryIndices(db, db[i]);
  }

  /** The fields the filter and the map read. */
  function Key(t: Txn): (string, string, real, int)
  {
    (t.sender_vpa, t.receiver_vpa, t.amount, t.timestamp)
  }

  /**
   * The history depends on the batch and on the transaction only through the
   * fields the filter and the map read; in particular not on earlier histories.
   */
  lemma {:induction false} HistoryDependsOnKeys(db: seq<Txn>, db': seq<Txn>, txn: Txn, txn': Txn)
    requires |db| == |db'| && Key(txn) == Key(txn')
    requires forall j :: 0 <= j < |db| ==> Key(db[j]) == Key(db'[j])
    ensures SmallHistory(db, txn) == SmallHistory(db', txn')
    decreases |db|
  {
    if db != [] {
      var n := |db| - 1;
      assert Key(db[n]) == Key(db'[n]);
      HistoryDependsOnKeys(db[..n], db'[..n], txn, txn');
    }
  }

  /** The batch after addSmallTxnHistory: each transaction carries its history over the whole batch. */
  function WithHistory(db: seq<Txn>): (r: seq<Txn>)
    ensures |r| == |db|
  {
    seq(|db|, j requires 0 <= j < |db| => db[j].(previous_small_transactions := SmallHistory(db, db[j])))
  }

  /** Running the history pass a second time changes nothing. */
  lemma WithHistoryIdempotent(db: seq<Txn>)
    ensures WithHistory(WithHistory(db)) == WithHistory(db)
  {
    var w := WithHistory(db);
    assert forall j :: 0 <= j < |db| ==> Key(w[j]) == Key(db[j]);
    forall j | 0 <= j < |db|
      ensures SmallHistory(w, w[j]) == SmallHistory(db, db[j])
    {
      HistoryDependsOnKeys(w, db, w[j], db[j]);
    }
  }

  /**
   * addSmallTxnHistory over the batch array: for each transaction in turn,
   * filter the current batch. Earlier iterations only replaced histories,
   * which the filter does not read, so every transaction gets its history
   * over the original batch.
   */
  method AddSmallTxnHistory(db: array<Txn>)
    modifies db
    ensures db[..] == WithHistory(old(db[..]))
  {
    ghost var orig := db[..];
    for i := 0 to db.Length
      invariant forall j :: 0 <= j < i ==> db[j] == WithHistory(orig)[j]
      invariant forall j :: i <= j < db.Length ==> db[j] == orig[j]
    {
      assert forall j :: 0 <= j < db.Length ==> Key(db[..][j]) == Key(orig[j]);
      HistoryDependsOnKeys(db[..], orig, db[i], db[i]);
      db[i] := db[i].(previous_small_transactions := SmallHistory(db[..], db[i]));
    }
  }

  /**
   * After the history pass, verification_pattern fires for a transaction
   * exactly when it pays more than 1000 to a new counterparty and the batch
   * holds an earlier transfer of at most 10 between the same parties.
   */
  lemma VerificationPatternAfterHistory(db: seq<Txn>, i: nat)
    requires i < |db|
    ensures Fires(VerificationPattern, WithHistory(db)[i]) <==>
      db[i].amount > 1000.0 && db[i].is_new_counterparty
      && exists j :: 0 <= j < |db| && IsEarlierSmall(db[j], db[i])
  {
    var t := WithHistory(db)[i];
    var h := SmallHistory(db, db[i]);
    assert t.previous_small_transactions == h;
    HistoryEntriesSound(db, db[i]);
    HistoryNonEmptyIff(db, db[i]);
    VerificationPatternIff(t);
    if h != [] {
      assert h[0] in h;
    }
  }

  /** A probe of 5 at time 1 followed by 2000 to the same new counterparty at time 2 triggers verification_pattern. */
  lemma ProbeBeforeDrainFires(a: Txn, b: Txn)
    requires a.sender_vpa == b.sender_vpa && a.receiver_vpa == b.receiver_vpa
    requires a.amount == 5.0 && a.timestamp == 1
    requires b.amount == 2000.0 && b.timestamp == 2 && b.is_new_counterparty
    ensures Fires(VerificationPattern, WithHistory([a, b])[1])
  {
    VerificationPatternAfterHistory([a, b], 1);
    assert IsEarlierSmall([a, b][0], b);
  }

  /** The same probe placed after the payment (time 3) does not trigger verification_pattern. */
  lemma ProbeAfterDrainDoesNotFire(a: Txn, b: Txn)
    requires a.sender_vpa == b.sender_vpa && a.receiver_vpa == b.receiver_vpa
    requires a.amount == 5.0 && a.timestamp == 3
    requires b.amount == 2000.0 && b.timestamp == 2 && b.is_new_counterparty
    ensures !Fires(VerificationPattern, WithHistory([a, b])[1])
  {
    VerificationPatternAfterHistory([a, b], 1);
    var db := [a, b];
    assert forall j :: 0 <= j < |db| ==> !IsEarlierSmall(db[j], b);
  }
}
