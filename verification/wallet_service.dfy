/**
 * The wallet service: one wallet per user, a ledger of signed transactions, credits, debits that
 * refuse to overdraw, and payout requests that debit first.
 */
module Wallets {
  import opened Wrappers
  import opened Domain
  import opened Seqs

  const SaleTx: string := "sale"
  const RefundTx: string := "refund"
  const PayoutTx: string := "payout"
  const CommissionTx: string := "commission"
  const PendingPayout: string := "pending"

  // ---------------------------------------------------------------------------------------------
  // The ledger

  /** Sum of the amounts of the ledger entries booked against wallet `wid`. */
  function LedgerSum(ledger: seq<WalletTransaction>, wid: string): real
  {
    if |ledger| == 0 then 0.0
    else
      var last := ledger[|ledger| - 1];
      LedgerSum(ledger[..|ledger| - 1], wid) + (if last.walletId == wid then last.amount else 0.0)
  }

  /** Booking one entry moves exactly the sum of its own wallet, by exactly its amount. */
  lemma LedgerSumAppend(ledger: seq<WalletTransaction>, tx: WalletTransaction, wid: string)
    ensures LedgerSum(ledger + [tx], wid) == LedgerSum(ledger, wid) + (if tx.walletId == wid then tx.amount else 0.0)
  {
    assert (ledger + [tx])[..|ledger|] == ledger;
  }

  /** A wallet with no entries sums to zero. */
  lemma {:induction false} LedgerSumAbsent(ledger: seq<WalletTransaction>, wid: string)
    requires forall t :: 0 <= t < |ledger| ==> ledger[t].walletId != wid
    ensures LedgerSum(ledger, wid) == 0.0
  {
    if |ledger| > 0 {
      LedgerSumAbsent(ledger[..|ledger| - 1], wid);
    }
  }

  // ---------------------------------------------------------------------------------------------
  // Wallet lookup and the effect of one booking

  /** Position of the user's wallet, as the by-user `FindOne` returns it. */
  function OwnerIndex(wallets: seq<Wallet>, userId: string): Option<nat>
  {
    FirstWhere(wallets, OwnedBy(userId))
  }

  /** The by-user filter of that lookup. */
  function OwnedBy(userId: string): Wallet -> bool
  {
    (w: Wallet) => w.userId == userId
  }

  /** The balance a user sees: their wallet's, or 0 before any wallet exists. */
  function BalanceIn(wallets: seq<Wallet>, userId: string): real
  {
    match OwnerIndex(wallets, userId)
    case Some(k) => wallets[k].balance
    case None => 0.0
  }

  /** The wallet getOrCreateWallet inserts on a miss: empty, in dollars, stamped with `now`. */
  function OpenWallet(userId: string, now: int, n: nat): (w: Wallet)
    ensures w.userId == userId && w.balance == 0.0 && w.currency == Usd && w.id == MintedId(n)
  {
    Wallet(MintedId(n), userId, 0.0, Usd, now)
  }

  /** Where the user's wallet sits once getOrCreateWallet has run. */
  function Slot(wallets: seq<Wallet>, userId: string): (k: nat)
    ensures OwnerIndex(wallets, userId).Some? ==> k == OwnerIndex(wallets, userId).value
    ensures OwnerIndex(wallets, userId).None? ==> k == |wallets|
  {
    match OwnerIndex(wallets, userId)
    case Some(k) => k
    case None => |wallets|
  }

  /** The wallet store after getOrCreateWallet: unchanged on a hit, one new wallet on a miss. */
  function WithWallet(wallets: seq<Wallet>, userId: string, now: int): (r: seq<Wallet>)
    ensures OwnerIndex(wallets, userId).Some? ==> r == wallets
    ensures OwnerIndex(wallets, userId).None? ==> r == wallets + [OpenWallet(userId, now, |wallets|)]
    ensures Slot(wallets, userId) < |r| && r[Slot(wallets, userId)].userId == userId
  {
    if OwnerIndex(wallets, userId).Some? then wallets else wallets + [OpenWallet(userId, now, |wallets|)]
  }

  /** The wallet store after `delta` is booked for `userId`: the user's wallet (opened if need be) rebalanced. */
  function Booked(wallets: seq<Wallet>, userId: string, delta: real, now: int): seq<Wallet>
  {
    var grown := WithWallet(wallets, userId, now);
    var k := Slot(wallets, userId);
    grown[k := grown[k].(balance := grown[k].balance + delta, updatedAt := now)]
  }

  /** The ledger entry that booking writes, against the user's wallet and numbered by the ledger length. */
  function Entry(wallets: seq<Wallet>, ledger: seq<WalletTransaction>, userId: string, delta: real,
                 txType: string, refId: string, desc: string, now: int): WalletTransaction
  {
    var grown := WithWallet(wallets, userId, now);
    WalletTransaction(MintedId(|ledger|), grown[Slot(wallets, userId)].id, delta, txType, refId, desc, now)
  }

  /** After getOrCreateWallet the slot is the user's first (and only) wallet. */
  lemma SlotIsOwner(wallets: seq<Wallet>, userId: string, now: int)
    ensures OwnerIndex(WithWallet(wallets, userId, now), userId) == Some(Slot(wallets, userId))
  {
    if OwnerIndex(wallets, userId).None? {
      FirstWhereAppend(wallets, OpenWallet(userId, now, |wallets|), OwnedBy(userId));
    }
  }

  /** getOrCreateWallet never changes what any user's balance reads. */
  lemma WithWalletKeepsBalances(wallets: seq<Wallet>, userId: string, now: int, u: string)
    ensures BalanceIn(WithWallet(wallets, userId, now), u) == BalanceIn(wallets, u)
  {
    if OwnerIndex(wallets, userId).None? {
      FirstWhereAppend(wallets, OpenWallet(userId, now, |wallets|), OwnedBy(u));
    }
  }

  /** Booking `delta` for `userId` moves that user's balance by exactly `delta` and no one else's. */
  lemma BookedBalances(wallets: seq<Wallet>, userId: string, delta: real, now: int, u: string)
    ensures BalanceIn(Booked(wallets, userId, delta, now), u) == BalanceIn(wallets, u) + (if u == userId then delta else 0.0)
  {
    var grown := WithWallet(wallets, userId, now);
    var k := Slot(wallets, userId);
    var moved := grown[k].(balance := grown[k].balance + delta, updatedAt := now);
    SlotIsOwner(wallets, userId, now);
    WithWalletKeepsBalances(wallets, userId, now, u);
    assert OwnedBy(u)(moved) == OwnedBy(u)(grown[k]);
    FirstWhereUpdate(grown, k, moved, OwnedBy(u));
    assert Booked(wallets, userId, delta, now) == grown[k := moved];
    match OwnerIndex(grown, u)
    case None =>
    case Some(j) =>
      assert j == k <==> u == userId;
  }

  // ---------------------------------------------------------------------------------------------
  // The store invariant

  /**
   * The wallet store and ledger agree: store-issued ids, at most one wallet per user, no entry
   * booked against a wallet that does not exist, and each balance equal to the sum of its
   * wallet's entries and never negative.
   */
  ghost predicate Consistent(wallets: seq<Wallet>, ledger: seq<WalletTransaction>)
  {
    && (forall i :: 0 <= i < |wallets| ==> IssuedAt(wallets[i].id, i))
    && (forall i, j :: 0 <= i < j < |wallets| ==> wallets[i].userId != wallets[j].userId)
    && (forall i :: 0 <= i < |wallets| ==> wallets[i].balance >= 0.0)
    && (forall i {:trigger LedgerSum(ledger, wallets[i].id)} :: 0 <= i < |wallets| ==>
          wallets[i].balance == LedgerSum(ledger, wallets[i].id))
    && (forall t :: 0 <= t < |ledger| ==> IssuedAt(ledger[t].id, t) && IssuedBelow(ledger[t].walletId, |wallets|))
  }

  /** Opening a wallet for a user on a miss keeps the store consistent. */
  lemma WithWalletConsistent(wallets: seq<Wallet>, ledger: seq<WalletTransaction>, userId: string, now: int)
    requires Consistent(wallets, ledger)
    ensures Consistent(WithWallet(wallets, userId, now), ledger)
  {
    if OwnerIndex(wallets, userId).None? {
      var w := OpenWallet(userId, now, |wallets|);
      LedgerSumAbsent(ledger, w.id);
      assert forall j :: 0 <= j < |wallets| ==> !OwnedBy(userId)(wallets[j]);
    }
  }

  /**
   * Booking a signed amount that leaves the user's balance non-negative keeps the store consistent:
   * in particular every balance still equals the sum of its wallet's entries.
   */
  lemma BookedConsistent(wallets: seq<Wallet>, ledger: seq<WalletTransaction>, userId: string, delta: real,
                         txType: string, refId: string, desc: string, now: int)
    requires Consistent(wallets, ledger) && BalanceIn(wallets, userId) + delta >= 0.0
    ensures Consistent(Booked(wallets, userId, delta, now), ledger + [Entry(wallets, ledger, userId, delta, txType, refId, desc, now)])
  {
    var grown := WithWallet(wallets, userId, now);
    var k := Slot(wallets, userId);
    var tx := Entry(wallets, ledger, userId, delta, txType, refId, desc, now);
    WithWalletConsistent(wallets, ledger, userId, now);
    SlotIsOwner(wallets, userId, now);
    WithWalletKeepsBalances(wallets, userId, now, userId);
    assert grown[k].balance == BalanceIn(wallets, userId);
    forall i | 0 <= i < |grown|
      ensures LedgerSum(ledger + [tx], grown[i].id) == LedgerSum(ledger, grown[i].id) + (if i == k then delta else 0.0)
    {
      LedgerSumAppend(ledger, tx, grown[i].id);
    }
  }

  // ---------------------------------------------------------------------------------------------
  // The service

  class WalletService {
    var wallets: seq<Wallet>
    var ledger: seq<WalletTransaction>
    var payouts: seq<PayoutRequest>

    /** Store invariant: see `Consistent`. */
    ghost predicate Valid()
      reads this
    {
      Consistent(wallets, ledger)
    }

    /** What `userId` would see as their balance. */
    function BalanceOf(userId: string): real
      reads this
    {
      BalanceIn(wallets, userId)
    }

    constructor ()
      ensures Valid() && wallets == [] && ledger == [] && payouts == []
    {
      wallets, ledger, payouts := [], [], [];
    }

    /** getOrCreateWallet: the user's wallet and its position, inserting an empty one on a miss. */
    method GetOrCreateWallet(userId: string, now: int) returns (w: Wallet, k: nat)
      requires Valid()
      modifies this
      ensures Valid()
      ensures wallets == WithWallet(old(wallets), userId, now) && ledger == old(ledger) && payouts == old(payouts)
      ensures k == Slot(old(wallets), userId) && w == wallets[k]
      ensures w.userId == userId && w.balance == old(BalanceOf(userId))
    {
      WithWalletConsistent(wallets, ledger, userId, now);
      WithWalletKeepsBalances(wallets, userId, now, userId);
      SlotIsOwner(wallets, userId, now);
      var found := OwnerIndex(wallets, userId);
      if found.Some? {
        k := found.value;
        w := wallets[k];
        return;
      }
      k := |wallets|;
      w := Wallet(MintedId(k), userId, 0.0, Usd, now);
      wallets := wallets + [w];
    }

    /** CreditWallet: a positive amount is booked to the user's wallet, created if need be. */
    method CreditWallet(userId: string, amount: real, txType: string, refId: string, desc: string, now: int)
      returns (o: Outcome)
      requires Valid()
      modifies this
      ensures Valid()
      ensures payouts == old(payouts)
      ensures amount <= 0.0 ==>
        o == Fail("amount must be positive") && wallets == old(wallets) && ledger == old(ledger)
      ensures amount > 0.0 ==>
        && o == Pass
        && wallets == Booked(old(wallets), userId, amount, now)
        && ledger == old(ledger) + [Entry(old(wallets), old(ledger), userId, amount, txType, refId, desc, now)]
    {
      if amount <= 0.0 {
        return Fail("amount must be positive");
      }
      BookedConsistent(wallets, ledger, userId, amount, txType, refId, desc, now);
      var w, k := GetOrCreateWallet(userId, now);
      ledger := ledger + [WalletTransaction(MintedId(|ledger|), w.id, amount, txType, refId, desc, now)];
      wallets := wallets[k := w.(balance := w.balance + amount, updatedAt := now)];
      o := Pass;
    }

    /**
     * DebitWallet: a positive amount no larger than the balance is booked negatively. The wallet is
     * looked up (and possibly created) before the balance check, so a refused debit may still open one.
     */
    method DebitWallet(userId: string, amount: real, txType: string, refId: string, desc: string, now: int)
      returns (o: Outcome)
      requires Valid()
      modifies this
      ensures Valid()
      ensures payouts == old(payouts)
      ensures amount <= 0.0 ==>
        o == Fail("amount must be positive") && wallets == old(wallets) && ledger == old(ledger)
      ensures amount > 0.0 && old(BalanceOf(userId)) < amount ==>
        o == Fail("insufficient funds") && wallets == WithWallet(old(wallets), userId, now) && ledger == old(ledger)
      ensures amount > 0.0 && old(BalanceOf(userId)) >= amount ==>
        && o == Pass
        && wallets == Booked(old(wallets), userId, -amount, now)
        && ledger == old(ledger) + [Entry(old(wallets), old(ledger), userId, -amount, txType, refId, desc, now)]
    {
      if amount <= 0.0 {
        return Fail("amount must be positive");
      }
      if BalanceOf(userId) >= amount {
        BookedConsistent(wallets, ledger, userId, -amount, txType, refId, desc, now);
      }
      var w, k := GetOrCreateWallet(userId, now);
      if w.balance < amount {
        return Fail("insufficient funds");
      }
      ledger := ledger + [WalletTransaction(MintedId(|ledger|), w.id, -amount, txType, refId, desc, now)];
      wallets := wallets[k := w.(balance := w.balance - amount, updatedAt := now)];
      o := Pass;
    }

    /** RequestPayout: debit first; only a successful debit files a pending dollar payout for the same amount. */
    method RequestPayout(userId: string, amount: real, payoutMethod: string, now: int) returns (o: Outcome)
      requires Valid()
      modifies this
      ensures Valid()
      ensures o.Pass? <==> amount > 0.0 && old(BalanceOf(userId)) >= amount
      ensures o.Fail? ==> payouts == old(payouts) && ledger == old(ledger)
      ensures amount <= 0.0 ==> o == Fail("amount must be positive") && wallets == old(wallets)
      ensures amount > 0.0 && old(BalanceOf(userId)) < amount ==>
        o == Fail("insufficient funds") && wallets == WithWallet(old(wallets), userId, now)
      ensures o.Pass? ==>
        && payouts == old(payouts) + [PayoutRequest(MintedId(|old(payouts)|), userId, amount, Usd, PendingPayout, payoutMethod, now)]
        && wallets == Booked(old(wallets), userId, -amount, now)
        && ledger == old(ledger) + [Entry(old(wallets), old(ledger), userId, -amount, PayoutTx, "", "Payout Request", now)]
    {
      o := DebitWallet(userId, amount, PayoutTx, "", "Payout Request", now);
      if o.Fail? {
        return;
      }
      payouts := payouts + [PayoutRequest(MintedId(|payouts|), userId, amount, Usd, PendingPayout, payoutMethod, now)];
    }
  }
}
