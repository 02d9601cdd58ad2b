/**
 * The dashboard aggregation of the client (`processTransactionData` and the
 * state tiering of `updateStateMap`/`updateMapStats`, without their DOM
 * writes): batch totals, per-state counters, the newest-first transaction
 * list, placeholder states for states the batch does not cover, and the
 * Low/Medium/High classification of each state by its fraud rate.
 */
module DataLoader {

  /** One row of the embedded transaction data; the flag columns are compared with `=== 1`. */
  datatype DashTxn = DashTxn(
    txn_id: string,
    amount: real,
    state: string,
    timestamp: int,
    fraud: int,
    qr_fraud: int,
    mule_fraud: int,
    coercion_fraud: int)

  /** The flag columns of a row. */
  datatype Flag = Fraud | QrFraud | MuleFraud | CoercionFraud

  predicate HasFlag(t: DashTxn, f: Flag)
  {
    match f
    case Fraud => t.fraud == 1
    case QrFraud => t.qr_fraud == 1
    case MuleFraud => t.mule_fraud == 1
    case CoercionFraud => t.coercion_fraud == 1
  }

  // ---------------------------------------------------------------------------
  // Reference definitions: filters and sums over the batch

  /** The rows carrying flag `f`, in batch order. */
  function WithFlag(ts: seq<DashTxn>, f: Flag): (r: seq<DashTxn>)
    ensures |r| <= |ts|
    decreases |ts|
  {
    if ts == [] then []
    else WithFlag(ts[..|ts| - 1], f) + (if HasFlag(ts[|ts| - 1], f) then [ts[|ts| - 1]] else [])
  }

  /** The rows of state `s`, in batch order. */
  function OfState(ts: seq<DashTxn>, s: string): (r: seq<DashTxn>)
    ensures |r| <= |ts|
    decreases |ts|
  {
    if ts == [] then []
    else OfState(ts[..|ts| - 1], s) + (if ts[|ts| - 1].state == s then [ts[|ts| - 1]] else [])
  }

  /** The sum of the amounts of the rows. */
  function SumAmounts(ts: seq<DashTxn>): real
    decreases |ts|
  {
    if ts == [] then 0.0 else SumAmounts(ts[..|ts| - 1]) + ts[|ts| - 1].amount
  }

  /** The flag filter, one row further. */
  lemma SnocFlag(ts: seq<DashTxn>, t: DashTxn, f: Flag)
    ensures HasFlag(t, f) ==> WithFlag(ts + [t], f) == WithFlag(ts, f) + [t]
    ensures !HasFlag(t, f) ==> WithFlag(ts + [t], f) == WithFlag(ts, f)
  {
    assert (ts + [t])[..|ts|] == ts;
    assert WithFlag(ts, f) + [] == WithFlag(ts, f);
  }

  /** The state filter, one row further. */
  lemma SnocState(ts: seq<DashTxn>, t: DashTxn, s: string)
    ensures t.state == s ==> OfState(ts + [t], s) == OfState(ts, s) + [t]
    ensures t.state != s ==> OfState(ts + [t], s) == OfState(ts, s)
  {
    assert (ts + [t])[..|ts|] == ts;
    assert OfState(ts, s) + [] == OfState(ts, s);
  }

  /** The sum, one row further. */
  lemma SnocSum(ts: seq<DashTxn>, t: DashTxn)
    ensures SumAmounts(ts + [t]) == SumAmounts(ts) + t.amount
  {
    assert (ts + [t])[..|ts|] == ts;
  }

  /** The states of the batch, one row further. */
  lemma SnocStates(ts: seq<DashTxn>, t: DashTxn)
    ensures StatesOf(ts + [t]) == StatesOf(ts) + {t.state}
  {
    var ts' := ts + [t];
    assert forall i :: 0 <= i < |ts| ==> ts'[i] == ts[i];
    assert ts'[|ts|] == t;
  }

  // ---------------------------------------------------------------------------
  // The batch totals

  datatype DashboardStats = DashboardStats(
    totalTransactions: nat,
    fraudIntercepted: nat,
    totalAmount: real,
    fraudAmount: real)

  const ZERO_STATS: DashboardStats := DashboardStats(0, 0, 0.0, 0.0)

  /** The totals after one more row: every row counts, a fraud row counts twice over. */
  function Tally(d: DashboardStats, t: DashTxn): DashboardStats
  {
    var d1 := d.(totalTransactions := d.totalTransactions + 1, totalAmount := d.totalAmount + t.amount);
    if t.fraud == 1 then d1.(fraudIntercepted := d1.fraudIntercepted + 1, fraudAmount := d1.fraudAmount + t.amount)
    else d1
  }

  /** The totals that the `forEach` accumulates over a batch. */
  function Totals(data: seq<DashTxn>): DashboardStats
    decreases |data|
  {
    if data == [] then ZERO_STATS else Tally(Totals(data[..|data| - 1]), data[|data| - 1])
  }

  /** What the totals mean: counts of filters and sums over them. */
  function Summary(ts: seq<DashTxn>): DashboardStats
  {
    DashboardStats(|ts|, |WithFlag(ts, Fraud)|, SumAmounts(ts), SumAmounts(WithFlag(ts, Fraud)))
  }

  /** One row more in the reference counts is one step of the accumulation. */
  lemma TallySummary(ts: seq<DashTxn>, t: DashTxn)
    ensures Tally(Summary(ts), t) == Summary(ts + [t])
  {
    var a, b := Summary(ts), Summary(ts + [t]);
    var fr := WithFlag(ts, Fraud);
    assert b.totalAmount == a.totalAmount + t.amount by {
      SnocSum(ts, t);
    }
    assert b.fraudIntercepted == a.fraudIntercepted + (if t.fraud == 1 then 1 else 0) by {
      SnocFlag(ts, t, Fraud);
    }
    assert b.fraudAmount == a.fraudAmount + (if t.fraud == 1 then t.amount else 0.0) by {
      SnocFlag(ts, t, Fraud);
      SnocSum(fr, t);
    }
  }

  /**
   * The accumulated totals are the reference counts: the number of rows, the
   * number of fraud rows, the sum of all amounts and of the fraud amounts.
   */
  lemma {:induction false} TotalsAreFilters(data: seq<DashTxn>)
    ensures Totals(data) == Summary(data)
    ensures Totals(data).fraudIntercepted <= Totals(data).totalTransactions
    decreases |data|
  {
    if data != [] {
      var init, t := data[..|data| - 1], data[|data| - 1];
      assert data == init + [t];
      TotalsAreFilters(init);
      TallySummary(init, t);
    }
  }

  // ---------------------------------------------------------------------------
  // The per-state counters

  datatype StateStats = StateStats(
    transactions: nat,
    fraudCount: nat,
    totalAmount: real,
    fraudAmount: real,
    qrFraud: nat,
    muleFraud: nat,
    coercionFraud: nat)

  /** The counters a state starts from when the batch first mentions it. */
  const EMPTY_STATE: StateStats := StateStats(0, 0, 0.0, 0.0, 0, 0, 0)

  /** A state's counters after one more of its rows. */
  function Bump(s: StateStats, t: DashTxn): StateStats
  {
    var s1 := s.(transactions := s.transactions + 1, totalAmount := s.totalAmount + t.amount);
    var s2 := if t.fraud == 1 then s1.(fraudCount := s1.fraudCount + 1, fraudAmount := s1.fraudAmount + t.amount) else s1;
    var s3 := if t.qr_fraud == 1 then s2.(qrFraud := s2.qrFraud + 1) else s2;
    var s4 := if t.mule_fraud == 1 then s3.(muleFraud := s3.muleFraud + 1) else s3;
    if t.coercion_fraud == 1 then s4.(coercionFraud := s4.coercionFraud + 1) else s4
  }

  /** The dictionary after one more row: its state's entry is created if absent, then bumped. */
  function Record(m: map<string, StateStats>, t: DashTxn): map<string, StateStats>
  {
    m[t.state := Bump(if t.state in m then m[t.state] else EMPTY_STATE, t)]
  }

  /** The per-state dictionary that the `forEach` accumulates over a batch. */
  function StatsByState(data: seq<DashTxn>): map<string, StateStats>
    decreases |data|
  {
    if data == [] then map[] else Record(StatsByState(data[..|data| - 1]), data[|data| - 1])
  }

  /** What a state's counters mean, for the rows of that state. */
  function StateSummary(ts: seq<DashTxn>): StateStats
  {
    StateStats(|ts|, |WithFlag(ts, Fraud)|, SumAmounts(ts), SumAmounts(WithFlag(ts, Fraud)),
               |WithFlag(ts, QrFraud)|, |WithFlag(ts, MuleFraud)|, |WithFlag(ts, CoercionFraud)|)
  }

  /** One row more in a state's reference counts is one step of its counters. */
  lemma BumpSummary(ts: seq<DashTxn>, t: DashTxn)
    ensures Bump(StateSummary(ts), t) == StateSummary(ts + [t])
  {
    var a, b := StateSummary(ts), StateSummary(ts + [t]);
    var fr := WithFlag(ts, Fraud);
    assert b.totalAmount == a.totalAmount + t.amount by {
      SnocSum(ts, t);
    }
    assert b.fraudCount == a.fraudCount + (if t.fraud == 1 then 1 else 0) by {
      SnocFlag(ts, t, Fraud);
    }
    assert b.fraudAmount == a.fraudAmount + (if t.fraud == 1 then t.amount else 0.0) by {
      SnocFlag(ts, t, Fraud);
      SnocSum(fr, t);
    }
    assert b.qrFraud == a.qrFraud + (if t.qr_fraud == 1 then 1 else 0) by {
      SnocFlag(ts, t, QrFraud);
    }
    assert b.muleFraud == a.muleFraud + (if t.mule_fraud == 1 then 1 else 0) by {
      SnocFlag(ts, t, MuleFraud);
    }
    assert b.coercionFraud == a.coercionFraud + (if t.coercion_fraud == 1 then 1 else 0) by {
      SnocFlag(ts, t, CoercionFraud);
    }
  }

  /** The states the batch mentions. */
  function StatesOf(data: seq<DashTxn>): set<string>
  {
    set i | 0 <= i < |data| :: data[i].state
  }

  /**
   * The dictionary has an entry for exactly the states of the batch, and each
   * entry holds the reference counts of that state's rows.
   */
  lemma {:induction false} StatsByStateAreFilters(data: seq<DashTxn>)
    ensures StatsByState(data).Keys == StatesOf(data)
    ensures forall s :: s in StatsByState(data) ==> StatsByState(data)[s] == StateSummary(OfState(data, s))
    decreases |data|
  {
    if data != [] {
      var init, t := data[..|data| - 1], data[|data| - 1];
      assert data == init + [t];
      StatsByStateAreFilters(init);
      SnocStates(init, t);
      var m := StatsByState(init);
      forall s | s in StatsByState(data)
        ensures StatsByState(data)[s] == StateSummary(OfState(data, s))
      {
        SnocState(init, t, s);
        if s == t.state {
          if s !in m {
            OfStateEmpty(init, s);
          }
          BumpSummary(OfState(init, s), t);
        }
      }
    }
  }

  /** A state the batch does not mention has no rows. */
  lemma {:induction false} OfStateEmpty(ts: seq<DashTxn>, s: string)
    requires s !in StatesOf(ts)
    ensures OfState(ts, s) == []
    decreases |ts|
  {
    if ts != [] {
      var init, t := ts[..|ts| - 1], ts[|ts| - 1];
      assert ts == init + [t];
      SnocStates(init, t);
      OfStateEmpty(init, s);
    }
  }

  /** Within any state, the fraud and flag counts never exceed its transaction count. */
  lemma StateCountsBounded(data: seq<DashTxn>, s: string)
    requires s in StatsByState(data)
    ensures var e := StatsByState(data)[s];
      e.fraudCount <= e.transactions && e.qrFraud <= e.transactions
      && e.muleFraud <= e.transactions && e.coercionFraud <= e.transactions
      && e.transactions > 0
  {
    StatsByStateAreFilters(data);
    if OfState(data, s) == [] {
      assert s in StatesOf(data);
      var i :| 0 <= i < |data| && data[i].state == s;
      OfStateHas(data, s, i);
    }
  }

  /** A row of state `s` belongs to the state's filter. */
  lemma {:induction false} OfStateHas(ts: seq<DashTxn>, s: string, i: nat)
    requires i < |ts| && ts[i].state == s
    ensures OfState(ts, s) != []
    decreases |ts|
  {
    if i < |ts| - 1 {
      OfStateHas(ts[..|ts| - 1], s, i);
    }
  }

  // ---------------------------------------------------------------------------
  // Per-state transaction counts add up to the batch size

  /** Some key of a non-empty set. */
  ghost function Pick(keys: set<string>): (k: string)
    requires keys != {}
    ensures k in keys
  {
    var k :| k in keys; k
  }

  /** The sum of the transaction counters of the given keys. */
  ghost function SumTransactions(m: map<string, StateStats>, keys: set<string>): nat
    requires keys <= m.Keys
    decreases |keys|
  {
    if keys == {} then 0
    else var k := Pick(keys); m[k].transactions + SumTransactions(m, keys - {k})
  }

  /** The sum may be split at any key, not only the one picked. */
  lemma {:induction false} SumTransactionsRemove(m: map<string, StateStats>, keys: set<string>, k: string)
    requires keys <= m.Keys && k in keys
    ensures SumTransactions(m, keys) == m[k].transactions + SumTransactions(m, keys - {k})
    decreases |keys|
  {
    var j := Pick(keys);
    if j != k {
      SumTransactionsRemove(m, keys - {j}, k);
      SumTransactionsRemove(m, keys - {k}, j);
      assert keys - {j} - {k} == keys - {k} - {j};
    }
  }

  /** Two dictionaries that agree on the keys have the same sum over them. */
  lemma {:induction false} SumTransactionsAgree(m: map<string, StateStats>, m': map<string, StateStats>, keys: set<string>)
    requires keys <= m.Keys && keys <= m'.Keys
    requires forall k :: k in keys ==> m[k].transactions == m'[k].transactions
    ensures SumTransactions(m, keys) == SumTransactions(m', keys)
    decreases |keys|
  {
    if keys != {} {
      var k := Pick(keys);
      SumTransactionsRemove(m', keys, k);
      SumTransactionsAgree(m, m', keys - {k});
    }
  }

  /** The per-state transaction counts of the batch sum to the number of rows. */
  lemma {:induction false} StateTransactionsSum(data: seq<DashTxn>)
    ensures SumTransactions(StatsByState(data), StatsByState(data).Keys) == |data|
    decreases |data|
  {
    if data != [] {
      var init, t := data[..|data| - 1], data[|data| - 1];
      var m, m' := StatsByState(init), StatsByState(data);
      StateTransactionsSum(init);
      var s := t.state;
      SumTransactionsRemove(m', m'.Keys, s);
      if s in m {
        assert m'.Keys == m.Keys;
        SumTransactionsRemove(m, m.Keys, s);
        SumTransactionsAgree(m, m', m.Keys - {s});
      } else {
        assert m'.Keys - {s} == m.Keys;
        SumTransactionsAgree(m, m', m.Keys);
      }
    }
  }

  // ---------------------------------------------------------------------------
  // Placeholder states

  /** A state shown on the map even when the batch has no row for it. */
  datatype Placeholder = Placeholder(name: string, transactions: nat, fraudCount: nat, totalAmount: real, fraudAmount: real)

  const PLACEHOLDER_STATES: seq<Placeholder> := [
    Placeholder("Punjab", 28, 4, 180000.0, 25000.0),
    Placeholder("Rajasthan", 42, 8, 320000.0, 55000.0),
    Placeholder("Bihar", 35, 6, 220000.0, 38000.0),
    Placeholder("West Bengal", 52, 14, 410000.0, 95000.0),
    Placeholder("Jharkhand", 25, 5, 155000.0, 32000.0),
    Placeholder("Madhya Pradesh", 38, 7, 275000.0, 48000.0),
    Placeholder("Chhattisgarh", 22, 4, 140000.0, 28000.0),
    Placeholder("Odisha", 31, 6, 195000.0, 42000.0),
    Placeholder("Andhra Pradesh", 45, 9, 350000.0, 62000.0),
    Placeholder("Kerala", 33, 5, 260000.0, 35000.0),
    Placeholder("Jammu & Kashmir", 18, 3, 120000.0, 22000.0)]

  /** `Math.floor(n * f)` for a count `n` and a fraction `f`. */
  function FloorTimes(n: nat, f: real): (k: nat)
    requires 0.0 <= f <= 1.0
    ensures k as real <= n as real * f < k as real + 1.0
  {
    (n as real * f).Floor
  }

  /** A placeholder's counters: its figures, with 40% / 30% / 30% of its fraud split by kind, rounded down. */
  function PlaceholderStats(p: Placeholder): StateStats
  {
    StateStats(p.transactions, p.fraudCount, p.totalAmount, p.fraudAmount,
               FloorTimes(p.fraudCount, 0.4), FloorTimes(p.fraudCount, 0.3), FloorTimes(p.fraudCount, 0.3))
  }

  /** The dictionary after the placeholder pass over `ps`: an entry is added only where none exists. */
  function AddPlaceholders(m: map<string, StateStats>, ps: seq<Placeholder>): map<string, StateStats>
    decreases |ps|
  {
    if ps == [] then m
    else
      var m' := AddPlaceholders(m, ps[..|ps| - 1]);
      var p := ps[|ps| - 1];
      if p.name in m' then m' else m'[p.name := PlaceholderStats(p)]
  }

  function WithPlaceholders(m: map<string, StateStats>): map<string, StateStats>
  {
    AddPlaceholders(m, PLACEHOLDER_STATES)
  }

  function Names(ps: seq<Placeholder>): set<string>
  {
    set p | p in ps :: p.name
  }

  predicate DistinctNames(ps: seq<Placeholder>)
  {
    forall i, j :: 0 <= i < j < |ps| ==> ps[i].name != ps[j].name
  }

  /** No state is listed twice among the placeholders. */
  lemma PlaceholderNamesDistinct()
    ensures DistinctNames(PLACEHOLDER_STATES)
  {
    var ps := PLACEHOLDER_STATES;
    forall i, j | 0 <= i < j < |ps|
      ensures ps[i].name != ps[j].name
    {
      assert |ps[i].name| != |ps[j].name| || ps[i].name[0] != ps[j].name[0];
    }
  }

  /** The placeholder pass adds exactly the listed names to the keys. */
  lemma {:induction false} AddPlaceholdersKeys(m: map<string, StateStats>, ps: seq<Placeholder>)
    ensures AddPlaceholders(m, ps).Keys == m.Keys + Names(ps)
    decreases |ps|
  {
    if ps != [] {
      var init, p := ps[..|ps| - 1], ps[|ps| - 1];
      assert ps == init + [p];
      AddPlaceholdersKeys(m, init);
      assert Names(ps) == Names(init) + {p.name};
    }
  }

  /** The placeholder pass never overwrites an existing entry. */
  lemma {:induction false} AddPlaceholdersKeep(m: map<string, StateStats>, ps: seq<Placeholder>)
    ensures forall s :: s in m ==> s in AddPlaceholders(m, ps) && AddPlaceholders(m, ps)[s] == m[s]
    decreases |ps|
  {
    if ps != [] {
      AddPlaceholdersKeep(m, ps[..|ps| - 1]);
    }
  }

  /** A listed state that was absent gets that placeholder's counters. */
  lemma {:induction false} AddPlaceholdersAdds(m: map<string, StateStats>, ps: seq<Placeholder>, k: nat)
    requires DistinctNames(ps) && k < |ps| && ps[k].name !in m
    ensures ps[k].name in AddPlaceholders(m, ps)
    ensures AddPlaceholders(m, ps)[ps[k].name] == PlaceholderStats(ps[k])
    decreases |ps|
  {
    var init, p := ps[..|ps| - 1], ps[|ps| - 1];
    if k == |ps| - 1 {
      AddPlaceholdersKeys(m, init);
      forall q | q in init
        ensures q.name != p.name
      {
        var i :| 0 <= i < |init| && init[i] == q;
        assert ps[i] == q;
      }
    } else {
      assert DistinctNames(init) by {
        forall i, j | 0 <= i < j < |init|
          ensures init[i].name != init[j].name
        {
          assert init[i] == ps[i] && init[j] == ps[j];
        }
      }
      assert init[k] == ps[k];
      AddPlaceholdersAdds(m, init, k);
    }
  }

  /** A placeholder's three fraud kinds never add up to more than its fraud count. */
  lemma PlaceholderKindsBounded(p: Placeholder)
    ensures var e := PlaceholderStats(p); e.qrFraud + e.muleFraud + e.coercionFraud <= e.fraudCount
  {
    var n := p.fraudCount as real;
    var q, u, c := FloorTimes(p.fraudCount, 0.4), FloorTimes(p.fraudCount, 0.3), FloorTimes(p.fraudCount, 0.3);
    assert (q + u + c) as real <= n * 0.4 + n * 0.3 + n * 0.3;
  }

  /** Every placeholder has transactions and no more frauds than transactions. */
  lemma PlaceholdersSane(k: nat)
    requires k < |PLACEHOLDER_STATES|
    ensures 0 < PLACEHOLDER_STATES[k].transactions
    ensures PLACEHOLDER_STATES[k].fraudCount <= PLACEHOLDER_STATES[k].transactions
  {
    var ps := PLACEHOLDER_STATES;
    assert k < 6 ==> ps[k] in ps[..6];
    assert k >= 6 ==> ps[k] in ps[6..];
  }

  /** After processTransactionData the keys are the batch's states and the placeholder states. */
  lemma FinalStateKeys(data: seq<DashTxn>)
    ensures WithPlaceholders(StatsByState(data)).Keys == StatesOf(data) + Names(PLACEHOLDER_STATES)
  {
    StatsByStateAreFilters(data);
    AddPlaceholdersKeys(StatsByState(data), PLACEHOLDER_STATES);
  }

  /** A state of the batch keeps the counters derived from its rows. */
  lemma FinalDataState(data: seq<DashTxn>, s: string)
    requires s in StatesOf(data)
    ensures s in WithPlaceholders(StatsByState(data))
    ensures WithPlaceholders(StatsByState(data))[s] == StateSummary(OfState(data, s))
  {
    StatsByStateAreFilters(data);
    AddPlaceholdersKeep(StatsByState(data), PLACEHOLDER_STATES);
  }

  /** A placeholder state the batch does not mention gets the placeholder's counters. */
  lemma FinalPlaceholderState(data: seq<DashTxn>, k: nat)
    requires k < |PLACEHOLDER_STATES| && PLACEHOLDER_STATES[k].name !in StatesOf(data)
    ensures PLACEHOLDER_STATES[k].name in WithPlaceholders(StatsByState(data))
    ensures WithPlaceholders(StatsByState(data))[PLACEHOLDER_STATES[k].name] == PlaceholderStats(PLACEHOLDER_STATES[k])
  {
    StatsByStateAreFilters(data);
    PlaceholderNamesDistinct();
    AddPlaceholdersAdds(StatsByState(data), PLACEHOLDER_STATES, k);
  }

  /** Every entry processTransactionData leaves has transactions and no more frauds than transactions. */
  lemma FinalStateSane(data: seq<DashTxn>, s: string)
    requires s in WithPlaceholders(StatsByState(data))
    ensures 0 < WithPlaceholders(StatsByState(data))[s].transactions
    ensures WithPlaceholders(StatsByState(data))[s].fraudCount <= WithPlaceholders(StatsByState(data))[s].transactions
  {
    StatsByStateAreFilters(data);
    FinalStateKeys(data);
    if s in StatesOf(data) {
      FinalDataState(data, s);
      StateCountsBounded(data, s);
    } else {
      var p :| p in PLACEHOLDER_STATES && p.name == s;
      var k :| 0 <= k < |PLACEHOLDER_STATES| && PLACEHOLDER_STATES[k] == p;
      FinalPlaceholderState(data, k);
      PlaceholdersSane(k);
    }
  }

  /** Over the states of the batch, the transaction counters still sum to the batch size. */
  lemma FinalDataTransactionsSum(data: seq<DashTxn>)
    ensures StatesOf(data) <= WithPlaceholders(StatsByState(data)).Keys
    ensures SumTransactions(WithPlaceholders(StatsByState(data)), StatesOf(data)) == |data|
  {
    var m := StatsByState(data);
    var f := WithPlaceholders(m);
    assert StatesOf(data) == m.Keys by {
      StatsByStateAreFilters(data);
    }
    assert SumTransactions(m, m.Keys) == |data| by {
      StateTransactionsSum(data);
    }
    assert m.Keys <= f.Keys && forall k :: k in m.Keys ==> m[k].transactions == f[k].transactions by {
      AddPlaceholdersKeep(m, PLACEHOLDER_STATES);
    }
    SumTransactionsAgree(m, f, m.Keys);
  }

  // ---------------------------------------------------------------------------
  // Newest-first order

  /** The list is ordered by timestamp, newest first. */
  predicate NewestFirstOrder(s: seq<DashTxn>)
  {
    forall i, j :: 0 <= i < j < |s| ==> s[i].timestamp >= s[j].timestamp
  }

  /** Place `x` after every row at least as new as it. */
  function InsertByTime(s: seq<DashTxn>, x: DashTxn): seq<DashTxn>
    decreases |s|
  {
    if s == [] then [x]
    else if s[|s| - 1].timestamp >= x.timestamp then s + [x]
    else InsertByTime(s[..|s| - 1], x) + [s[|s| - 1]]
  }

  /**
   * The order `transactionData.sort` leaves with the comparator that
   * subtracts the first timestamp from the second: newest first, rows with
   * the same timestamp in batch order.
   */
  function NewestFirst(s: seq<DashTxn>): seq<DashTxn>
    decreases |s|
  {
    if s == [] then [] else InsertByTime(NewestFirst(s[..|s| - 1]), s[|s| - 1])
  }

  lemma {:induction false} InsertByTimePerm(s: seq<DashTxn>, x: DashTxn)
    ensures multiset(InsertByTime(s, x)) == multiset(s) + multiset{x}
    decreases |s|
  {
    if s != [] && s[|s| - 1].timestamp < x.timestamp {
      var init, last := s[..|s| - 1], s[|s| - 1];
      assert s == init + [last];
      InsertByTimePerm(init, x);
    }
  }

  /** A row no newer than every row of an ordered list may be appended to it. */
  lemma AppendOlder(r: seq<DashTxn>, y: DashTxn)
    requires NewestFirstOrder(r)
    requires forall z :: z in r ==> z.timestamp >= y.timestamp
    ensures NewestFirstOrder(r + [y])
  {
    var r' := r + [y];
    forall i, j | 0 <= i < j < |r'|
      ensures r'[i].timestamp >= r'[j].timestamp
    {
      assert r'[i] == r[i] && r[i] in r;
      if j < |r| {
        assert r'[j] == r[j];
      }
    }
  }

  /** Every row of an ordered list is at least as new as its last row. */
  lemma OrderedAboveLast(s: seq<DashTxn>)
    requires NewestFirstOrder(s) && s != []
    ensures NewestFirstOrder(s[..|s| - 1])
    ensures forall z :: z in s ==> z.timestamp >= s[|s| - 1].timestamp
  {
    var init := s[..|s| - 1];
    forall i, j | 0 <= i < j < |init|
      ensures init[i].timestamp >= init[j].timestamp
    {
      assert init[i] == s[i] && init[j] == s[j];
    }
    forall z | z in s
      ensures z.timestamp >= s[|s| - 1].timestamp
    {
      var i :| 0 <= i < |s| && s[i] == z;
    }
  }

  lemma {:induction false} InsertByTimeOrder(s: seq<DashTxn>, x: DashTxn)
    requires NewestFirstOrder(s)
    ensures NewestFirstOrder(InsertByTime(s, x))
    decreases |s|
  {
    if s != [] {
      var init, last := s[..|s| - 1], s[|s| - 1];
      OrderedAboveLast(s);
      if last.timestamp >= x.timestamp {
        AppendOlder(s, x);
      } else {
        InsertByTimeOrder(init, x);
        InsertByTimePerm(init, x);
        var r := InsertByTime(init, x);
        forall z | z in r
          ensures z.timestamp >= last.timestamp
        {
          assert z in multiset(r);
          if z != x {
            assert z in multiset(init);
            assert z in s;
          }
        }
        AppendOlder(r, last);
      }
    }
  }

  /** The newest-first list is ordered and is a permutation of the batch. */
  lemma {:induction false} NewestFirstFacts(s: seq<DashTxn>)
    ensures NewestFirstOrder(NewestFirst(s))
    ensures multiset(NewestFirst(s)) == multiset(s)
    decreases |s|
  {
    if s != [] {
      var init, last := s[..|s| - 1], s[|s| - 1];
      assert s == init + [last];
      NewestFirstFacts(init);
      InsertByTimePerm(NewestFirst(init), last);
      InsertByTimeOrder(NewestFirst(init), last);
    }
  }

  // ---------------------------------------------------------------------------
  // Fraud-rate tiers

  datatype Level = Low | Medium | High

  /**
   * The tier of a state by `fraudCount / transactions * 100`: above 30 is
   * High, above 15 Medium, otherwise Low. With no transactions the division
   * gives Infinity (High) for a positive fraud count and NaN (Low) for 0.
   */
  function StateLevel(s: StateStats): Level
  {
    if s.transactions == 0 then (if s.fraudCount > 0 then High else Low)
    else
      var rate := (s.fraudCount as real / s.transactions as real) * 100.0;
      if rate > 30.0 then High else if rate > 15.0 then Medium else Low
  }

  /** Comparing a rate with a bound is comparing both scaled by a positive count. */
  lemma ScaleCompare(rate: real, n: real, bound: real)
    requires n > 0.0
    ensures rate > bound <==> rate * n > bound * n
  {
    if rate > bound {
      assert (rate - bound) * n > 0.0;
    } else {
      assert (bound - rate) * n >= 0.0;
    }
  }

  /** A rate compared with a percentage bound is the count compared with that share of the transactions. */
  lemma RateAbove(s: StateStats, bound: int)
    requires s.transactions > 0
    ensures ((s.fraudCount as real / s.transactions as real) * 100.0 > bound as real)
      == (100 * s.fraudCount > bound * s.transactions)
  {
    var n, f := s.transactions as real, s.fraudCount as real;
    var rate := (f / n) * 100.0;
    assert rate * n == 100.0 * f;
    ScaleCompare(rate, n, bound as real);
    assert (100 * s.fraudCount > bound * s.transactions) == (100.0 * f > bound as real * n);
  }

  /** The tiers in whole numbers: High above 30% of the transactions, Medium above 15%. */
  lemma LevelByCounts(s: StateStats)
    requires s.transactions > 0
    ensures StateLevel(s) == High <==> 100 * s.fraudCount > 30 * s.transactions
    ensures StateLevel(s) == Medium <==> 15 * s.transactions < 100 * s.fraudCount <= 30 * s.transactions
    ensures StateLevel(s) == Low <==> 100 * s.fraudCount <= 15 * s.transactions
  {
    RateAbove(s, 30);
    RateAbove(s, 15);
  }

  /** The states of the dictionary in tier `level`. */
  function StatesAt(m: map<string, StateStats>, level: Level): set<string>
  {
    set s | s in m && StateLevel(m[s]) == level
  }

  /** Taking one more key out of the pending set lets the count of a set grow by at most that key. */
  lemma DoneGrows(a: set<string>, pending: set<string>, s: string)
    requires s in pending
    ensures |a - (pending - {s})| == |a - pending| + (if s in a then 1 else 0)
  {
    if s in a {
      assert a - (pending - {s}) == (a - pending) + {s};
    } else {
      assert a - (pending - {s}) == a - pending;
    }
  }

  /** The tier counters once the keys outside `pending` have been counted. */
  predicate TierCounts(m: map<string, StateStats>, pending: set<string>, low: nat, medium: nat, high: nat)
  {
    && pending <= m.Keys
    && low == |StatesAt(m, Low) - pending|
    && medium == |StatesAt(m, Medium) - pending|
    && high == |StatesAt(m, High) - pending|
    && low + medium + high == |m.Keys - pending|
  }

  /** Counting one more state adds one to its own tier only. */
  lemma TierStep(m: map<string, StateStats>, pending: set<string>, s: string, low: nat, medium: nat, high: nat)
    requires TierCounts(m, pending, low, medium, high) && s in pending
    ensures var level := StateLevel(m[s]);
      TierCounts(m, pending - {s},
                 low + (if level == Low then 1 else 0),
                 medium + (if level == Medium then 1 else 0),
                 high + (if level == High then 1 else 0))
  {
    DoneGrows(StatesAt(m, Low), pending, s);
    DoneGrows(StatesAt(m, Medium), pending, s);
    DoneGrows(StatesAt(m, High), pending, s);
    DoneGrows(m.Keys, pending, s);
  }

  /** With nothing pending, the counters are the sizes of the tiers, which make up all the keys. */
  lemma TierDone(m: map<string, StateStats>, low: nat, medium: nat, high: nat)
    requires TierCounts(m, {}, low, medium, high)
    ensures low == |StatesAt(m, Low)| && medium == |StatesAt(m, Medium)| && high == |StatesAt(m, High)|
    ensures low + medium + high == |m|
  {
    assert m.Keys - {} == m.Keys;
    assert StatesAt(m, Low) - {} == StatesAt(m, Low);
    assert StatesAt(m, Medium) - {} == StatesAt(m, Medium);
    assert StatesAt(m, High) - {} == StatesAt(m, High);
  }

  // ---------------------------------------------------------------------------
  // The dashboard state

  /** The module-level `transactionData`, `stateStats` and `dashboardStats`. */
  class Dashboard {
    var transactionData: seq<DashTxn>
    var stateStats: map<string, StateStats>
    var dashboardStats: DashboardStats

    /** The initial values of the three module-level variables. */
    constructor()
      ensures transactionData == [] && stateStats == map[] && dashboardStats == ZERO_STATS
    {
      transactionData := [];
      stateStats := map[];
      dashboardStats := ZERO_STATS;
    }

    /**
     * The `forEach` callback of processTransactionData: keep the row, count it
     * in the totals and in its state's counters, creating them if absent.
     */
    method AddRow(txn: DashTxn)
      modifies this
      ensures transactionData == old(transactionData) + [txn]
      ensures dashboardStats == Tally(old(dashboardStats), txn)
      ensures stateStats == Record(old(stateStats), txn)
    {
      transactionData := transactionData + [txn];
      dashboardStats := dashboardStats.(totalTransactions := dashboardStats.totalTransactions + 1);
      dashboardStats := dashboardStats.(totalAmount := dashboardStats.totalAmount + txn.amount);
      if txn.fraud == 1 {
        dashboardStats := dashboardStats.(fraudIntercepted := dashboardStats.fraudIntercepted + 1);
        dashboardStats := dashboardStats.(fraudAmount := dashboardStats.fraudAmount + txn.amount);
      }
      var state := txn.state;
      if state !in stateStats {
        stateStats := stateStats[state := EMPTY_STATE];
      }
      var e := stateStats[state];
      e := e.(transactions := e.transactions + 1);
      e := e.(totalAmount := e.totalAmount + txn.amount);
      if txn.fraud == 1 {
        e := e.(fraudCount := e.fraudCount + 1);
        e := e.(fraudAmount := e.fraudAmount + txn.amount);
      }
      if txn.qr_fraud == 1 { e := e.(qrFraud := e.qrFraud + 1); }
      if txn.mule_fraud == 1 { e := e.(muleFraud := e.muleFraud + 1); }
      if txn.coercion_fraud == 1 { e := e.(coercionFraud := e.coercionFraud + 1); }
      stateStats := stateStats[state := e];
    }

    /**
     * processTransactionData: reset the three structures, accumulate every
     * row, sort newest first and add the missing placeholder states. The new
     * state is a function of `data` alone, so a second call with the same
     * batch leaves the same state.
     */
    method ProcessTransactionData(data: seq<DashTxn>)
      modifies this
      ensures transactionData == NewestFirst(data)
      ensures dashboardStats == Totals(data)
      ensures stateStats == WithPlaceholders(StatsByState(data))
    {
      transactionData := [];
      stateStats := map[];
      dashboardStats := ZERO_STATS;
      for i := 0 to |data|
        invariant transactionData == data[..i]
        invariant dashboardStats == Totals(data[..i])
        invariant stateStats == StatsByState(data[..i])
      {
        assert data[..i + 1][..i] == data[..i];
        AddRow(data[i]);
      }
      assert data[..|data|] == data;
      transactionData := NewestFirst(transactionData);
      for k := 0 to |PLACEHOLDER_STATES|
        invariant transactionData == NewestFirst(data)
        invariant dashboardStats == Totals(data)
        invariant stateStats == AddPlaceholders(StatsByState(data), PLACEHOLDER_STATES[..k])
      {
        var p := PLACEHOLDER_STATES[k];
        assert PLACEHOLDER_STATES[..k + 1][..k] == PLACEHOLDER_STATES[..k];
        if p.name !in stateStats {
          stateStats := stateStats[p.name := PlaceholderStats(p)];
        }
      }
      assert PLACEHOLDER_STATES[..|PLACEHOLDER_STATES|] == PLACEHOLDER_STATES;
    }

    /**
     * updateMapStats without the DOM writes: the number of states in each
     * tier. Every state is in exactly one tier.
     */
    method UpdateMapStats() returns (lowRisk: nat, mediumRisk: nat, highRisk: nat)
      ensures lowRisk == |StatesAt(stateStats, Low)|
      ensures mediumRisk == |StatesAt(stateStats, Medium)|
      ensures highRisk == |StatesAt(stateStats, High)|
      ensures lowRisk + mediumRisk + highRisk == |stateStats|
    {
      var m := stateStats;
      lowRisk, mediumRisk, highRisk := 0, 0, 0;
      var pending := m.Keys;
      while pending != {}
        invariant TierCounts(m, pending, lowRisk, mediumRisk, highRisk)
        decreases |pending|
      {
        var state :| state in pending;
        TierStep(m, pending, state, lowRisk, mediumRisk, highRisk);
        var level := StateLevel(m[state]);
        if level == High {
          highRisk := highRisk + 1;
        } else if level == Medium {
          mediumRisk := mediumRisk + 1;
        } else {
          lowRisk := lowRisk + 1;
        }
        pending := pending - {state};
      }
      TierDone(m, lowRisk, mediumRisk, highRisk);
    }
  }
}
