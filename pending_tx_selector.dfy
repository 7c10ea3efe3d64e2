/**
 * Choosing the pending transactions to put in a new block.  The pool's transactions are
 * ordered by nonce (ascending), then gas price (descending), then gas limit (ascending),
 * and taken greedily while they fit the remaining block gas, come from a known sender,
 * pay at least the minimum gas price, carry the sender's next nonce and are covered by
 * the sender's remaining balance.  Transactions that can never be mined from this state
 * are removed from the pool on the way.
 */
module PendingTxSelector {
  import opened Wrappers

  type Address = nat
  type Hash = nat

  datatype Transaction = Transaction(
    hash: Hash,
    senderAddress: Option<Address>,
    nonce: nat,
    gasPrice: nat,
    gasLimit: nat,
    value: nat)

  /** The intrinsic gas of any transaction (`Transaction.BaseTxGasCost`). */
  const BaseTxGasCost: int := 21000

  /** How far ahead of the expected nonce a transaction may be and still stay in the pool. */
  const NonceLookahead: nat := 16

  /** The most a transaction can cost its sender: full gas at its price, plus the value. */
  function PotentialCost(tx: Transaction): (r: nat)
    ensures r >= tx.value && r >= tx.gasPrice * tx.gasLimit
  {
    tx.gasPrice * tx.gasLimit + tx.value
  }

  /** The state the selector reads: account nonces and balances from the state provider,
      and the configured minimum gas price. */
  datatype Env = Env(stateNonce: Address -> nat, stateBalance: Address -> nat, minGasPriceForMining: int)

  // ---------------------------------------------------------------------------
  // The order: OrderBy(Nonce).ThenByDescending(GasPrice).ThenBy(GasLimit)

  predicate Precedes(a: Transaction, b: Transaction) {
    a.nonce < b.nonce
    || (a.nonce == b.nonce && (a.gasPrice > b.gasPrice
                               || (a.gasPrice == b.gasPrice && a.gasLimit <= b.gasLimit)))
  }

  predicate SortedForBlock(s: seq<Transaction>) {
    forall i, j :: 0 <= i < j < |s| ==> Precedes(s[i], s[j])
  }

  /** Insert x in front of the first element it precedes, so that equal keys keep their order. */
  function Insert(x: Transaction, s: seq<Transaction>): (r: seq<Transaction>)
    ensures multiset(r) == multiset(s) + multiset{x}
  {
    if s == [] || Precedes(x, s[0]) then [x] + s
    else
      assert s == [s[0]] + s[1..];
      [s[0]] + Insert(x, s[1..])
  }

  lemma {:induction false} InsertSorted(x: Transaction, s: seq<Transaction>)
    requires SortedForBlock(s)
    ensures SortedForBlock(Insert(x, s))
  {
    if s != [] && !Precedes(x, s[0]) {
      var rest := Insert(x, s[1..]);
      InsertSorted(x, s[1..]);
      forall j | 0 <= j < |rest| ensures Precedes(s[0], rest[j]) {
        assert rest[j] in multiset(rest);
        if rest[j] != x {
          assert rest[j] in multiset(s[1..]);
          var i :| 0 <= i < |s[1..]| && s[1..][i] == rest[j];
          assert s[i + 1] == rest[j];
        }
      }
      var r := [s[0]] + rest;
      forall i, j | 0 <= i < j < |r| ensures Precedes(r[i], r[j]) {
        assert r[j] == rest[j - 1];
        if i > 0 {
          assert r[i] == rest[i - 1];
        }
      }
    }
  }

  /** A stable sort by the block order. */
  function SortForBlock(s: seq<Transaction>): (r: seq<Transaction>)
    ensures SortedForBlock(r)
    ensures multiset(r) == multiset(s)
  {
    if s == [] then []
    else
      assert s == [s[0]] + s[1..];
      var sortedRest := SortForBlock(s[1..]);
      InsertSorted(s[0], sortedRest);
      Insert(s[0], sortedRest)
  }

  /** The two transactions tie on all three sort keys. */
  predicate SameKey(a: Transaction, b: Transaction) {
    a.nonce == b.nonce && a.gasPrice == b.gasPrice && a.gasLimit == b.gasLimit
  }

  /** The transactions of `s` that tie with `k` on the sort keys, in the order of `s`. */
  function KeyFilter(s: seq<Transaction>, k: Transaction): seq<Transaction> {
    if s == [] then [] else (if SameKey(s[0], k) then [s[0]] else []) + KeyFilter(s[1..], k)
  }

  /** Insert puts x ahead of every transaction that ties with it. */
  lemma {:induction false} InsertKeyFilter(x: Transaction, s: seq<Transaction>, k: Transaction)
    ensures KeyFilter(Insert(x, s), k) == (if SameKey(x, k) then [x] else []) + KeyFilter(s, k)
  {
    var fx := if SameKey(x, k) then [x] else [];
    if s == [] || Precedes(x, s[0]) {
      assert ([x] + s)[0] == x && ([x] + s)[1..] == s;
    } else {
      var rest := Insert(x, s[1..]);
      InsertKeyFilter(x, s[1..], k);
      assert ([s[0]] + rest)[0] == s[0] && ([s[0]] + rest)[1..] == rest;
      var f0 := if SameKey(s[0], k) then [s[0]] else [];
      assert !(SameKey(s[0], k) && SameKey(x, k));
      assert f0 + (fx + KeyFilter(s[1..], k)) == fx + (f0 + KeyFilter(s[1..], k));
    }
  }

  /** The sort is stable: transactions that tie on all three keys keep their input order. */
  lemma {:induction false} SortForBlockStable(s: seq<Transaction>, k: Transaction)
    ensures KeyFilter(SortForBlock(s), k) == KeyFilter(s, k)
  {
    if s != [] {
      SortForBlockStable(s[1..], k);
      InsertKeyFilter(s[0], SortForBlock(s[1..]), k);
    }
  }

  // ---------------------------------------------------------------------------
  // The cached dictionaries

  /** What a cache-backed lookup answers: the cached entry, or the state's value. */
  function Lookup(cache: map<Address, nat>, address: Address, state: Address -> nat): nat {
    if address in cache then cache[address] else state(address)
  }

  /** GetCurrentNonce: the cached nonce, reading and caching the state's nonce on a miss. */
  method GetCurrentNonce(nonces: map<Address, nat>, address: Address, stateNonce: Address -> nat)
    returns (nonces': map<Address, nat>, nonce: nat)
    ensures nonce == Lookup(nonces, address, stateNonce)
    ensures address in nonces'
    ensures forall a: Address :: Lookup(nonces', a, stateNonce) == Lookup(nonces, a, stateNonce)
    ensures nonces' == nonces[address := nonce]
  {
    if address in nonces {
      nonce := nonces[address];
    } else {
      nonce := stateNonce(address);
    }
    nonces' := nonces[address := nonce];
  }

  /** GetRemainingBalance: the cached balance, reading and caching the state's balance on a miss. */
  method GetRemainingBalance(balances: map<Address, nat>, address: Address, stateBalance: Address -> nat)
    returns (balances': map<Address, nat>, balance: nat)
    ensures balance == Lookup(balances, address, stateBalance)
    ensures address in balances'
    ensures forall a: Address :: Lookup(balances', a, stateBalance) == Lookup(balances, a, stateBalance)
    ensures balances' == balances[address := balance]
  {
    if address in balances {
      balance := balances[address];
    } else {
      balance := stateBalance(address);
    }
    balances' := balances[address := balance];
  }

  /** HasEnoughFounds: whether the sender's remaining balance covers the transaction's
      potential cost; if so the cost is deducted. */
  method HasEnoughFunds(balances: map<Address, nat>, tx: Transaction, stateBalance: Address -> nat)
    returns (balances': map<Address, nat>, enough: bool)
    requires tx.senderAddress.Some?
    ensures var sender := tx.senderAddress.value;
            var balance := Lookup(balances, sender, stateBalance);
            && (enough <==> PotentialCost(tx) <= balance)
            && Lookup(balances', sender, stateBalance) == (if enough then balance - PotentialCost(tx) else balance)
            && (forall a: Address :: a != sender ==> Lookup(balances', a, stateBalance) == Lookup(balances, a, stateBalance))
    ensures balances' == (var balance := Lookup(balances, tx.senderAddress.value, stateBalance);
                          balances[tx.senderAddress.value := if enough then balance - PotentialCost(tx) else balance])
  {
    var balance;
    balances', balance := GetRemainingBalance(balances, tx.senderAddress.value, stateBalance);
    var transactionPotentialCost := PotentialCost(tx);
    if balance < transactionPotentialCost {
      return balances', false;
    }
    balances' := balances'[tx.senderAddress.value := balance - transactionPotentialCost];
    enough := true;
  }

  // ---------------------------------------------------------------------------
  // The selection loop as a function: one Step per transaction in block order

  /** The loop's variables: the selected list, the hashes passed to the pool's
      RemoveTransaction, the nonce and balance caches and the remaining gas. */
  datatype Selection = Selection(
    selected: seq<Transaction>,
    removed: seq<Hash>,
    nonces: map<Address, nat>,
    balances: map<Address, nat>,
    gasRemaining: int)

  function Start(gasLimit: int): Selection {
    Selection([], [], map[], map[], gasLimit)
  }

  /** One iteration of the foreach loop: it selects nothing or exactly its transaction,
      removes nothing or exactly its hash, and uses up gas only when it selects. */
  function Step(env: Env, st: Selection, tx: Transaction): (r: Selection)
    ensures r.selected == st.selected || r.selected == st.selected + [tx]
    ensures r.removed == st.removed || r.removed == st.removed + [tx.hash]
    ensures r.selected == st.selected ==> r.gasRemaining == st.gasRemaining
    ensures r.selected != st.selected ==> r.gasRemaining == st.gasRemaining - tx.gasLimit && r.removed == st.removed
  {
    if st.gasRemaining < BaseTxGasCost then st
    else if tx.gasLimit > st.gasRemaining then st
    else if tx.senderAddress.None? then st.(removed := st.removed + [tx.hash])
    else if tx.gasPrice < env.minGasPriceForMining then st
    else
      var sender := tx.senderAddress.value;
      var expectedNonce := Lookup(st.nonces, sender, env.stateNonce);
      var nonces := st.nonces[sender := expectedNonce];
      if expectedNonce != tx.nonce then
        st.(nonces := nonces,
            removed := st.removed
                       + (if tx.nonce < expectedNonce then [tx.hash] else [])
                       + (if tx.nonce > expectedNonce + NonceLookahead then [tx.hash] else []))
      else
        assert st.selected + [tx] != st.selected by {
          assert |st.selected + [tx]| == |st.selected| + 1;
        }
        var balance := Lookup(st.balances, sender, env.stateBalance);
        if balance < PotentialCost(tx) then
          st.(nonces := nonces, balances := st.balances[sender := balance])
        else
          Selection(st.selected + [tx], st.removed,
                    nonces[sender := tx.nonce + 1],
                    st.balances[sender := balance - PotentialCost(tx)],
                    st.gasRemaining - tx.gasLimit)
  }

  /** The whole loop from `st`: the selection and the removals only grow, each by at most
      one entry per transaction. */
  function Run(env: Env, st: Selection, txs: seq<Transaction>): (r: Selection)
    ensures |st.selected| <= |r.selected| <= |st.selected| + |txs| && r.selected[..|st.selected|] == st.selected
    ensures |st.removed| <= |r.removed| <= |st.removed| + |txs| && r.removed[..|st.removed|] == st.removed
  {
    if txs == [] then st else Step(env, Run(env, st, txs[..|txs| - 1]), txs[|txs| - 1])
  }

  // ---------------------------------------------------------------------------
  // What the selection promises

  /** The transactions of one sender, in order. */
  function BySender(s: seq<Transaction>, a: Address): seq<Transaction> {
    if s == [] then []
    else BySender(s[..|s| - 1], a) + (if s[|s| - 1].senderAddress == Some(a) then [s[|s| - 1]] else [])
  }

  function SumGas(s: seq<Transaction>): int {
    if s == [] then 0 else SumGas(s[..|s| - 1]) + s[|s| - 1].gasLimit
  }

  function TotalCost(s: seq<Transaction>): nat {
    if s == [] then 0 else TotalCost(s[..|s| - 1]) + PotentialCost(s[|s| - 1])
  }

  /** Every selected transaction fitted into the gas left by those before it, and that gas
      was at least the intrinsic cost. */
  predicate FitsGas(s: seq<Transaction>, gasLimit: int) {
    forall k :: 0 <= k < |s| ==>
      BaseTxGasCost <= gasLimit - SumGas(s[..k]) && s[k].gasLimit <= gasLimit - SumGas(s[..k])
  }

  /** Each sender's selected nonces run consecutively from its state nonce. */
  ghost predicate ConsecutiveNonces(s: seq<Transaction>, stateNonce: Address -> nat) {
    forall a: Address, j :: 0 <= j < |BySender(s, a)| ==> BySender(s, a)[j].nonce == stateNonce(a) + j
  }

  predicate NoDuplicates(s: seq<Transaction>) {
    forall i, j :: 0 <= i < j < |s| ==> s[i] != s[j]
  }

  /** The caches answer the state's nonce plus the number of the sender's selected
      transactions, and the state's balance minus their cost. */
  ghost predicate CachesAgree(env: Env, st: Selection) {
    && (forall a: Address :: Lookup(st.nonces, a, env.stateNonce) == env.stateNonce(a) + |BySender(st.selected, a)|)
    && (forall a: Address :: Lookup(st.balances, a, env.stateBalance) + TotalCost(BySender(st.selected, a)) == env.stateBalance(a))
  }

  predicate GasAccounted(gasLimit: int, st: Selection) {
    st.gasRemaining == gasLimit - SumGas(st.selected) && FitsGas(st.selected, gasLimit)
  }

  /** Every selected transaction has a sender and pays at least the minimum gas price. */
  predicate Admissible(env: Env, s: seq<Transaction>) {
    forall x :: x in s ==> x.senderAddress.Some? && x.gasPrice >= env.minGasPriceForMining
  }

  predicate BelowCache(env: Env, st: Selection) {
    forall x :: x in st.selected && x.senderAddress.Some? ==>
      x.nonce < Lookup(st.nonces, x.senderAddress.value, env.stateNonce)
  }

  /** What holds of the loop's variables after any prefix of the ordered transactions. */
  ghost predicate Accounted(env: Env, gasLimit: int, st: Selection) {
    && CachesAgree(env, st)
    && ConsecutiveNonces(st.selected, env.stateNonce)
    && GasAccounted(gasLimit, st)
    && Admissible(env, st.selected)
    && BelowCache(env, st)
    && NoDuplicates(st.selected)
  }

  lemma BySenderAppend(s: seq<Transaction>, tx: Transaction, a: Address)
    ensures tx.senderAddress == Some(a) ==> BySender(s + [tx], a) == BySender(s, a) + [tx]
    ensures tx.senderAddress != Some(a) ==> BySender(s + [tx], a) == BySender(s, a)
  {
    assert (s + [tx])[..|s|] == s;
    assert BySender(s, a) + [] == BySender(s, a);
  }

  lemma AppendSums(s: seq<Transaction>, tx: Transaction)
    ensures SumGas(s + [tx]) == SumGas(s) + tx.gasLimit
    ensures TotalCost(s + [tx]) == TotalCost(s) + PotentialCost(tx)
    ensures forall k :: 0 <= k <= |s| ==> (s + [tx])[..k] == s[..k]
  {
    assert (s + [tx])[..|s|] == s;
  }

  /** The loop variables after selecting `tx`. */
  function Selected(env: Env, st: Selection, tx: Transaction): Selection
    requires tx.senderAddress.Some?
    requires PotentialCost(tx) <= Lookup(st.balances, tx.senderAddress.value, env.stateBalance)
  {
    var sender := tx.senderAddress.value;
    Selection(st.selected + [tx], st.removed,
              st.nonces[sender := tx.nonce + 1],
              st.balances[sender := Lookup(st.balances, sender, env.stateBalance) - PotentialCost(tx)],
              st.gasRemaining - tx.gasLimit)
  }

  lemma AppendKeepsConsecutive(s: seq<Transaction>, tx: Transaction, stateNonce: Address -> nat)
    requires ConsecutiveNonces(s, stateNonce)
    requires tx.senderAddress.Some?
    requires tx.nonce == stateNonce(tx.senderAddress.value) + |BySender(s, tx.senderAddress.value)|
    ensures ConsecutiveNonces(s + [tx], stateNonce)
  {
    forall a: Address, j | 0 <= j < |BySender(s + [tx], a)|
      ensures BySender(s + [tx], a)[j].nonce == stateNonce(a) + j
    {
      BySenderAppend(s, tx, a);
      if j < |BySender(s, a)| {
        assert BySender(s + [tx], a)[j] == BySender(s, a)[j];
      }
    }
  }

  lemma AppendKeepsFitsGas(s: seq<Transaction>, tx: Transaction, gasLimit: int)
    requires FitsGas(s, gasLimit)
    requires BaseTxGasCost <= gasLimit - SumGas(s) && tx.gasLimit <= gasLimit - SumGas(s)
    ensures FitsGas(s + [tx], gasLimit)
    ensures SumGas(s + [tx]) == SumGas(s) + tx.gasLimit
  {
    AppendSums(s, tx);
    forall k | 0 <= k < |s + [tx]|
      ensures BaseTxGasCost <= gasLimit - SumGas((s + [tx])[..k])
              && (s + [tx])[k].gasLimit <= gasLimit - SumGas((s + [tx])[..k])
    {
      if k == |s| {
        assert (s + [tx])[..k] == s;
      } else {
        assert (s + [tx])[..k] == s[..k];
      }
    }
  }

  lemma AppendKeepsNoDuplicates(s: seq<Transaction>, tx: Transaction)
    requires NoDuplicates(s) && tx !in s
    ensures NoDuplicates(s + [tx])
  {
    forall i, j | 0 <= i < j < |s + [tx]| ensures (s + [tx])[i] != (s + [tx])[j] {
      if j == |s| {
        assert (s + [tx])[i] in s;
      }
    }
  }

  lemma NonceAfterSelect(nonces: map<Address, nat>, s: seq<Transaction>, tx: Transaction,
                         stateNonce: Address -> nat, a: Address)
    requires tx.senderAddress.Some?
    requires Lookup(nonces, a, stateNonce) == stateNonce(a) + |BySender(s, a)|
    requires tx.senderAddress == Some(a) ==> tx.nonce == Lookup(nonces, a, stateNonce)
    ensures Lookup(nonces[tx.senderAddress.value := tx.nonce + 1], a, stateNonce)
         == stateNonce(a) + |BySender(s + [tx], a)|
  {
    BySenderAppend(s, tx, a);
  }

  lemma BalanceAfterSelect(balances: map<Address, nat>, s: seq<Transaction>, tx: Transaction,
                           stateBalance: Address -> nat, a: Address, remaining: nat)
    requires tx.senderAddress.Some?
    requires Lookup(balances, a, stateBalance) + TotalCost(BySender(s, a)) == stateBalance(a)
    requires tx.senderAddress == Some(a) ==> remaining + PotentialCost(tx) == Lookup(balances, a, stateBalance)
    ensures Lookup(balances[tx.senderAddress.value := remaining], a, stateBalance)
            + TotalCost(BySender(s + [tx], a)) == stateBalance(a)
  {
    BySenderAppend(s, tx, a);
    if tx.senderAddress == Some(a) {
      AppendSums(BySender(s, a), tx);
    }
  }

  /** Selecting `tx` keeps both caches in step with the selection. */
  lemma SelectKeepsCaches(env: Env, st: Selection, tx: Transaction)
    requires CachesAgree(env, st)
    requires tx.senderAddress.Some?
    requires tx.nonce == Lookup(st.nonces, tx.senderAddress.value, env.stateNonce)
    requires PotentialCost(tx) <= Lookup(st.balances, tx.senderAddress.value, env.stateBalance)
    ensures CachesAgree(env, Selected(env, st, tx))
  {
    var next := Selected(env, st, tx);
    var sender := tx.senderAddress.value;
    var remaining := Lookup(st.balances, sender, env.stateBalance) - PotentialCost(tx);
    assert next.selected == st.selected + [tx];
    assert next.nonces == st.nonces[sender := tx.nonce + 1];
    assert next.balances == st.balances[sender := remaining];
    forall a: Address
      ensures Lookup(next.nonces, a, env.stateNonce) == env.stateNonce(a) + |BySender(next.selected, a)|
    {
      NonceAfterSelect(st.nonces, st.selected, tx, env.stateNonce, a);
    }
    forall a: Address
      ensures Lookup(next.balances, a, env.stateBalance) + TotalCost(BySender(next.selected, a)) == env.stateBalance(a)
    {
      BalanceAfterSelect(st.balances, st.selected, tx, env.stateBalance, a, remaining);
    }
  }

  /** Selecting `tx` keeps the selection admissible and duplicate-free. */
  lemma SelectKeepsDistinct(env: Env, st: Selection, tx: Transaction)
    requires Admissible(env, st.selected) && BelowCache(env, st) && NoDuplicates(st.selected)
    requires tx.senderAddress.Some? && tx.gasPrice >= env.minGasPriceForMining
    requires tx.nonce == Lookup(st.nonces, tx.senderAddress.value, env.stateNonce)
    requires PotentialCost(tx) <= Lookup(st.balances, tx.senderAddress.value, env.stateBalance)
    ensures var next := Selected(env, st, tx);
            Admissible(env, next.selected) && BelowCache(env, next) && NoDuplicates(next.selected)
  {
    var next := Selected(env, st, tx);
    var s := st.selected;
    assert next.selected == s + [tx];
    assert tx !in s by {
      if tx in s {
        assert false;
      }
    }
    AppendKeepsNoDuplicates(s, tx);
    forall x | x in next.selected
      ensures x.senderAddress.Some? && x.gasPrice >= env.minGasPriceForMining
      ensures x.nonce < Lookup(next.nonces, x.senderAddress.value, env.stateNonce)
    {
      if x != tx {
        assert x in s;
      }
    }
  }

  /** Selecting `tx` keeps the accounting. */
  lemma SelectKeepsAccounted(env: Env, gasLimit: int, st: Selection, tx: Transaction)
    requires Accounted(env, gasLimit, st)
    requires st.gasRemaining >= BaseTxGasCost && tx.gasLimit <= st.gasRemaining
    requires tx.senderAddress.Some? && tx.gasPrice >= env.minGasPriceForMining
    requires tx.nonce == Lookup(st.nonces, tx.senderAddress.value, env.stateNonce)
    requires PotentialCost(tx) <= Lookup(st.balances, tx.senderAddress.value, env.stateBalance)
    ensures Accounted(env, gasLimit, Selected(env, st, tx))
  {
    var sender := tx.senderAddress.value;
    var next := Selected(env, st, tx);
    var s := st.selected;
    assert next.selected == s + [tx];
    SelectKeepsCaches(env, st, tx);
    assert ConsecutiveNonces(next.selected, env.stateNonce) by {
      assert tx.nonce == env.stateNonce(sender) + |BySender(s, sender)|;
      AppendKeepsConsecutive(s, tx, env.stateNonce);
    }
    assert GasAccounted(gasLimit, next) by {
      AppendKeepsFitsGas(s, tx, gasLimit);
    }
    SelectKeepsDistinct(env, st, tx);
  }

  /** A step that selects nothing keeps the accounting: filling a cache does not change
      what a lookup answers. */
  lemma SkipKeepsAccounted(env: Env, gasLimit: int, st: Selection, next: Selection)
    requires Accounted(env, gasLimit, st)
    requires next.selected == st.selected && next.gasRemaining == st.gasRemaining
    requires forall a: Address :: Lookup(next.nonces, a, env.stateNonce) == Lookup(st.nonces, a, env.stateNonce)
    requires forall a: Address :: Lookup(next.balances, a, env.stateBalance) == Lookup(st.balances, a, env.stateBalance)
    ensures Accounted(env, gasLimit, next)
  {
  }

  /** A step either only fills the caches and removes, or selects its transaction. */
  lemma StepCases(env: Env, st: Selection, tx: Transaction)
    ensures var next := Step(env, st, tx);
            || (&& next.selected == st.selected && next.gasRemaining == st.gasRemaining
                && (forall a: Address :: Lookup(next.nonces, a, env.stateNonce) == Lookup(st.nonces, a, env.stateNonce))
                && (forall a: Address :: Lookup(next.balances, a, env.stateBalance) == Lookup(st.balances, a, env.stateBalance)))
            || (&& st.gasRemaining >= BaseTxGasCost && tx.gasLimit <= st.gasRemaining
                && tx.senderAddress.Some? && tx.gasPrice >= env.minGasPriceForMining
                && tx.nonce == Lookup(st.nonces, tx.senderAddress.value, env.stateNonce)
                && PotentialCost(tx) <= Lookup(st.balances, tx.senderAddress.value, env.stateBalance)
                && next == Selected(env, st, tx))
  {
  }

  lemma StepKeepsAccounted(env: Env, gasLimit: int, st: Selection, tx: Transaction)
    requires Accounted(env, gasLimit, st)
    ensures Accounted(env, gasLimit, Step(env, st, tx))
  {
    StepCases(env, st, tx);
    var next := Step(env, st, tx);
    if next.selected == st.selected {
      SkipKeepsAccounted(env, gasLimit, st, next);
    } else {
      SelectKeepsAccounted(env, gasLimit, st, tx);
    }
  }

  lemma {:induction false} RunAccounted(env: Env, gasLimit: int, txs: seq<Transaction>)
    ensures Accounted(env, gasLimit, Run(env, Start(gasLimit), txs))
  {
    if txs != [] {
      RunAccounted(env, gasLimit, txs[..|txs| - 1]);
      StepKeepsAccounted(env, gasLimit, Run(env, Start(gasLimit), txs[..|txs| - 1]), txs[|txs| - 1]);
    }
  }

  lemma SortedLastIsGreatest(init: seq<Transaction>, last: Transaction)
    requires SortedForBlock(init + [last])
    ensures forall x :: x in init ==> Precedes(x, last)
  {
    forall x | x in init ensures Precedes(x, last) {
      var i :| 0 <= i < |init| && init[i] == x;
      assert (init + [last])[i] == x;
      assert (init + [last])[|init|] == last;
    }
  }

  lemma StepKeepsOrdered(env: Env, st: Selection, init: seq<Transaction>, last: Transaction)
    requires SortedForBlock(init + [last])
    requires SortedForBlock(st.selected) && multiset(st.selected) <= multiset(init)
    ensures SortedForBlock(Step(env, st, last).selected)
    ensures multiset(Step(env, st, last).selected) <= multiset(init + [last])
  {
    var before := st.selected;
    var after := Step(env, st, last).selected;
    assert multiset(init + [last]) == multiset(init) + multiset{last};
    if after != before {
      SortedLastIsGreatest(init, last);
      assert forall x :: x in before ==> x in multiset(init);
      assert forall x :: x in before ==> x in init;
      forall i, j | 0 <= i < j < |after| ensures Precedes(after[i], after[j]) {
        if j == |before| {
          assert after[i] in before;
        } else {
          assert after[i] == before[i] && after[j] == before[j];
        }
      }
    }
  }

  /** `s` is a subsequence of `t`: `t` with some of its elements left out. */
  predicate IsSubseq(s: seq<Transaction>, t: seq<Transaction>)
    decreases |t|
  {
    if s == [] then true
    else if t == [] then false
    else if s[|s| - 1] == t[|t| - 1] then IsSubseq(s[..|s| - 1], t[..|t| - 1])
    else IsSubseq(s, t[..|t| - 1])
  }

  lemma {:induction false} SubseqDropLast(s: seq<Transaction>, t: seq<Transaction>)
    requires IsSubseq(s, t) && s != []
    ensures IsSubseq(s[..|s| - 1], t)
    decreases |t|, 1
  {
    var t' := t[..|t| - 1];
    assert t == t' + [t[|t| - 1]];
    if s[|s| - 1] == t[|t| - 1] {
      SubseqSkip(s[..|s| - 1], t', t[|t| - 1]);
    } else {
      SubseqDropLast(s, t');
      SubseqSkip(s[..|s| - 1], t', t[|t| - 1]);
    }
  }

  /** Leaving out one more element of the longer sequence keeps a subsequence. */
  lemma {:induction false} SubseqSkip(s: seq<Transaction>, t: seq<Transaction>, x: Transaction)
    requires IsSubseq(s, t)
    ensures IsSubseq(s, t + [x])
    decreases |t| + 1, 0
  {
    assert (t + [x])[..|t|] == t;
    if s != [] && s[|s| - 1] == x {
      SubseqDropLast(s, t);
    }
  }

  /** Keeping the next element of the longer sequence keeps a subsequence. */
  lemma SubseqKeep(s: seq<Transaction>, t: seq<Transaction>, x: Transaction)
    requires IsSubseq(s, t)
    ensures IsSubseq(s + [x], t + [x])
  {
    assert (s + [x])[..|s|] == s;
    assert (t + [x])[..|t|] == t;
  }

  /** The selection keeps the transactions it takes in the order they were walked. */
  lemma {:induction false} RunSubseq(env: Env, gasLimit: int, txs: seq<Transaction>)
    ensures IsSubseq(Run(env, Start(gasLimit), txs).selected, txs)
  {
    if txs != [] {
      var init := txs[..|txs| - 1];
      var last := txs[|txs| - 1];
      assert txs == init + [last];
      RunSubseq(env, gasLimit, init);
      var before := Run(env, Start(gasLimit), init).selected;
      if Run(env, Start(gasLimit), txs).selected == before {
        SubseqSkip(before, init, last);
      } else {
        SubseqKeep(before, init, last);
      }
    }
  }

  /** The selected list is a block-ordered choice among the transactions, taken in the
      order it walks them. */
  lemma {:induction false} RunOrdered(env: Env, gasLimit: int, txs: seq<Transaction>)
    requires SortedForBlock(txs)
    ensures var r := Run(env, Start(gasLimit), txs);
            SortedForBlock(r.selected) && multiset(r.selected) <= multiset(txs)
    ensures IsSubseq(Run(env, Start(gasLimit), txs).selected, txs)
  {
    RunSubseq(env, gasLimit, txs);
    if txs != [] {
      var init := txs[..|txs| - 1];
      var last := txs[|txs| - 1];
      assert txs == init + [last];
      assert SortedForBlock(init);
      RunOrdered(env, gasLimit, init);
      StepKeepsOrdered(env, Run(env, Start(gasLimit), init), init, last);
    }
  }

  /** The gas limits of the selection add up to no more than the block gas limit. */
  lemma FitsGasBound(s: seq<Transaction>, gasLimit: int)
    requires FitsGas(s, gasLimit)
    requires s != []
    ensures SumGas(s) <= gasLimit - BaseTxGasCost + s[|s| - 1].gasLimit
    ensures SumGas(s) <= gasLimit
  {
    var k := |s| - 1;
    assert s[..k + 1] == s;
    assert SumGas(s) == SumGas(s[..k]) + s[k].gasLimit;
  }

  /** The selected transactions of one sender cost no more than its state balance. */
  lemma BalanceBound(env: Env, gasLimit: int, st: Selection, a: Address)
    requires Accounted(env, gasLimit, st)
    ensures TotalCost(BySender(st.selected, a)) <= env.stateBalance(a)
  {
    assert Lookup(st.balances, a, env.stateBalance) + TotalCost(BySender(st.selected, a)) == env.stateBalance(a);
  }

  /** Whether the step for `tx` removes it from the pool, with the expected nonce in
      closed form. */
  predicate Evicted(env: Env, st: Selection, tx: Transaction) {
    && st.gasRemaining >= BaseTxGasCost
    && tx.gasLimit <= st.gasRemaining
    && (tx.senderAddress.None?
        || (var a := tx.senderAddress.value;
            var expected := env.stateNonce(a) + |BySender(st.selected, a)|;
            tx.gasPrice >= env.minGasPriceForMining
            && (tx.nonce < expected || tx.nonce > expected + NonceLookahead)))
  }

  lemma StepRemoval(env: Env, st: Selection, tx: Transaction)
    requires CachesAgree(env, st)
    ensures Step(env, st, tx).removed == st.removed + (if Evicted(env, st, tx) then [tx.hash] else [])
  {
    assert st.removed + [] == st.removed;
    assert st.removed + [] + [] == st.removed;
    assert st.removed + [tx.hash] + [] == st.removed + [tx.hash];
    assert st.removed + [] + [tx.hash] == st.removed + [tx.hash];
    if tx.senderAddress.Some? {
      var a := tx.senderAddress.value;
      assert Lookup(st.nonces, a, env.stateNonce) == env.stateNonce(a) + |BySender(st.selected, a)|;
    }
  }

  /** The removal rule: a transaction that fits the remaining gas is removed from the pool
      when it has no sender, or when (paying at least the minimum price) its nonce is below
      the sender's state nonce plus the number of that sender's transactions already
      selected, or more than 16 above that.  A nonce up to 16 above the expected one is
      skipped but stays in the pool. */
  lemma RemovalRule(env: Env, gasLimit: int, txs: seq<Transaction>, tx: Transaction)
    ensures var st := Run(env, Start(gasLimit), txs);
            Run(env, Start(gasLimit), txs + [tx]).removed
              == st.removed + (if Evicted(env, st, tx) then [tx.hash] else [])
  {
    assert (txs + [tx])[..|txs|] == txs;
    RunAccounted(env, gasLimit, txs);
    StepRemoval(env, Run(env, Start(gasLimit), txs), tx);
  }

  /** What a block built from `selected` can rely on: the gas fits, every transaction has a
      sender and pays the minimum price, each sender's nonces run on from its state nonce
      and its balance covers their cost, and the selection is an ordered, duplicate-free
      choice among the pending transactions that keeps their block order. */
  ghost predicate Mineable(env: Env, gasLimit: int, pending: seq<Transaction>, selected: seq<Transaction>) {
    && FitsGas(selected, gasLimit)
    && (selected != [] ==> SumGas(selected) <= gasLimit)
    && Admissible(env, selected)
    && ConsecutiveNonces(selected, env.stateNonce)
    && (forall a: Address :: TotalCost(BySender(selected, a)) <= env.stateBalance(a))
    && SortedForBlock(selected)
    && NoDuplicates(selected)
    && multiset(selected) <= multiset(pending)
    && IsSubseq(selected, SortForBlock(pending))
  }

  /** The selection made from the ordered pending transactions is mineable. */
  lemma SelectionIsMineable(env: Env, gasLimit: int, pending: seq<Transaction>)
    ensures Mineable(env, gasLimit, pending, Run(env, Start(gasLimit), SortForBlock(pending)).selected)
  {
    var txs := SortForBlock(pending);
    var r := Run(env, Start(gasLimit), txs);
    RunAccounted(env, gasLimit, txs);
    RunOrdered(env, gasLimit, txs);
    if r.selected != [] {
      FitsGasBound(r.selected, gasLimit);
    }
    forall a: Address ensures TotalCost(BySender(r.selected, a)) <= env.stateBalance(a) {
      BalanceBound(env, gasLimit, r, a);
    }
  }

  // ---------------------------------------------------------------------------
  // The method

  lemma RunSnoc(env: Env, st: Selection, txs: seq<Transaction>, k: nat)
    requires k < |txs|
    ensures Run(env, st, txs[..k + 1]) == Step(env, Run(env, st, txs[..k]), txs[k])
  {
    assert txs[..k + 1][..k] == txs[..k];
  }

  /** SelectTransactions: walks the pool's transactions in block order, selecting and
      removing as Step describes; returns the selection and the hashes it removed from
      the pool, in the order of the calls. */
  method SelectTransactions(pendingTransactions: seq<Transaction>, gasLimit: int, env: Env)
    returns (selected: seq<Transaction>, removed: seq<Hash>)
    ensures var r := Run(env, Start(gasLimit), SortForBlock(pendingTransactions));
            selected == r.selected && removed == r.removed
    ensures Mineable(env, gasLimit, pendingTransactions, selected)
  {
    var transactions := SortForBlock(pendingTransactions);
    var remainingBalance: map<Address, nat> := map[];
    var nonces: map<Address, nat> := map[];
    selected := [];
    removed := [];
    var gasRemaining := gasLimit;

    ghost var st := Start(gasLimit);
    for k := 0 to |transactions|
      invariant st == Run(env, Start(gasLimit), transactions[..k])
      invariant Selection(selected, removed, nonces, remainingBalance, gasRemaining) == st
    {
      var tx := transactions[k];
      RunSnoc(env, Start(gasLimit), transactions, k);
      st := Step(env, st, tx);
      if gasRemaining < BaseTxGasCost {
        continue;
      }
      if tx.gasLimit > gasRemaining {
        continue;
      }
      if tx.senderAddress.None? {
        removed := removed + [tx.hash];
        continue;
      }
      if tx.gasPrice < env.minGasPriceForMining {
        continue;
      }
      var expectedNonce;
      nonces, expectedNonce := GetCurrentNonce(nonces, tx.senderAddress.value, env.stateNonce);
      if expectedNonce != tx.nonce {
        if tx.nonce < expectedNonce {
          removed := removed + [tx.hash];
        }
        if tx.nonce > expectedNonce + NonceLookahead {
          removed := removed + [tx.hash];
        }
        continue;
      }
      var enough;
      remainingBalance, enough := HasEnoughFunds(remainingBalance, tx, env.stateBalance);
      if !enough {
        continue;
      }
      selected := selected + [tx];
      nonces := nonces[tx.senderAddress.value := tx.nonce + 1];
      gasRemaining := gasRemaining - tx.gasLimit;
    }

    assert transactions[..|transactions|] == transactions;
    SelectionIsMineable(env, gasLimit, pendingTransactions);
  }
}
