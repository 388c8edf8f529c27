/** The admin's user table: every user joined with the first wallet that
    names them, a block/unblock action per wallet, and the summary cards. */
module AdminUserManage {
  import opened Wrappers
  import opened Seqs

  /** A user as the users query returns it; `status` is the server's string. */
  datatype User = User(id: string, name: string, email: string, role: string, status: string)

  /** A wallet as the wallets query returns it. */
  datatype Wallet = Wallet(id: string, userId: string, email: string, balance: real, status: string)

  /** `wallets.find(wallet => wallet.userId === user._id)`. */
  function FindWallet(wallets: seq<Wallet>, userId: string): (r: Option<Wallet>)
    ensures r.None? <==> forall i :: 0 <= i < |wallets| ==> wallets[i].userId != userId
    ensures r.Some? ==> exists i :: && 0 <= i < |wallets| && wallets[i] == r.value && r.value.userId == userId
                                    && forall j :: 0 <= j < i ==> wallets[j].userId != userId
  {
    if |wallets| == 0 then None
    else if wallets[0].userId == userId then Some(wallets[0])
    else
      var r := FindWallet(wallets[1..], userId);
      assert forall i :: 1 <= i < |wallets| ==> wallets[i] == wallets[1..][i - 1];
      r
  }

  /** One table row. */
  datatype Row = Row(user: User, wallet: Option<Wallet>)

  /** `userWallets`: one row per user, in the users' order, each with the
      first wallet whose `userId` is the user's id. */
  method Join(users: seq<User>, wallets: seq<Wallet>) returns (rows: seq<Row>)
    ensures |rows| == |users|
    ensures forall i :: 0 <= i < |rows| ==> rows[i].user == users[i]
    ensures forall i :: 0 <= i < |rows| ==> rows[i].wallet == FindWallet(wallets, users[i].id)
    ensures forall i :: 0 <= i < |rows| && rows[i].wallet.Some? ==>
              rows[i].wallet.value in wallets && rows[i].wallet.value.userId == users[i].id
    ensures forall i :: 0 <= i < |rows| && rows[i].wallet.None? ==>
              forall w :: w in wallets ==> w.userId != users[i].id
  {
    rows := [];
    var k := 0;
    while k < |users|
      invariant 0 <= k <= |users|
      invariant |rows| == k
      invariant forall i :: 0 <= i < k ==> rows[i].user == users[i]
      invariant forall i :: 0 <= i < k ==> rows[i].wallet == FindWallet(wallets, users[i].id)
    {
      rows := rows + [Row(users[k], FindWallet(wallets, users[k].id))];
      k := k + 1;
    }
  }

  /** The action offered in a row. */
  datatype Action = BlockWallet(walletId: string) | UnblockWallet(walletId: string)

  /** "Block Wallet" for an active wallet, "Unblock Wallet" for any other
      status, "No actions" without a wallet. */
  function RowAction(row: Row): (r: Option<Action>)
    ensures r.None? <==> row.wallet.None?
    ensures r.Some? ==> r.value.walletId == row.wallet.value.id
    ensures r.Some? ==> (r.value.BlockWallet? <==> row.wallet.value.status == "active")
  {
    match row.wallet
    case None => None
    case Some(w) => if w.status == "active" then Some(BlockWallet(w.id)) else Some(UnblockWallet(w.id))
  }

  /** The queries refetched after a block or unblock. */
  datatype Query = WalletsQuery | UsersQuery

  /** Both lists are refetched after a successful mutation and nothing is
      refetched after a failed one (the error is only logged). */
  function AfterMutation(outcome: Result<string, string>): (refetch: seq<Query>)
    ensures outcome.Success? <==> |refetch| > 0
    ensures outcome.Success? ==> WalletsQuery in refetch && UsersQuery in refetch
  {
    if outcome.Success? then [WalletsQuery, UsersQuery] else []
  }

  // ---------------------------------------------------------------------
  // Summary cards

  predicate IsActive(w: Wallet) { w.status == "active" }

  predicate IsBlocked(w: Wallet) { w.status == "blocked" }

  /** The "Active Wallets" and "Blocked Wallets" cards: the number of
      positions holding a wallet with that status. */
  function ActiveWallets(wallets: seq<Wallet>): (r: nat)
    ensures r <= |wallets|
    ensures r == 0 <==> forall i :: 0 <= i < |wallets| ==> !IsActive(wallets[i])
    ensures r == |Positions(IsActive, wallets)|
  {
    FilterCountsPositions(IsActive, wallets);
    |Filter(IsActive, wallets)|
  }

  function BlockedWallets(wallets: seq<Wallet>): (r: nat)
    ensures r <= |wallets|
    ensures r == 0 <==> forall i :: 0 <= i < |wallets| ==> !IsBlocked(wallets[i])
    ensures r == |Positions(IsBlocked, wallets)|
  {
    FilterCountsPositions(IsBlocked, wallets);
    |Filter(IsBlocked, wallets)|
  }

  /** The two cards never count more wallets than there are, and account for
      every wallet when each is either active or blocked. */
  lemma WalletCardsAddUp(wallets: seq<Wallet>)
    ensures ActiveWallets(wallets) + BlockedWallets(wallets) <= |wallets|
    ensures (forall i :: 0 <= i < |wallets| ==> wallets[i].status in {"active", "blocked"}) ==>
              ActiveWallets(wallets) + BlockedWallets(wallets) == |wallets|
  {
    FilterDisjointCount(IsActive, IsBlocked, wallets);
    if forall i :: 0 <= i < |wallets| ==> wallets[i].status in {"active", "blocked"} {
      FilterPartitionCount(IsActive, IsBlocked, wallets);
    }
  }

  /** The sum `reduce` folds, left to right from 0. */
  function Sum(wallets: seq<Wallet>): real
  {
    if |wallets| == 0 then 0.0 else Sum(wallets[..|wallets| - 1]) + wallets[|wallets| - 1].balance
  }

  /** The "Total Balance" card: `wallets.reduce((t, w) => t + w.balance, 0)`. */
  method TotalBalance(wallets: seq<Wallet>) returns (total: real)
    ensures total == Sum(wallets)
    ensures (forall i :: 0 <= i < |wallets| ==> wallets[i].balance >= 0.0) ==> total >= 0.0
  {
    total := 0.0;
    var k := 0;
    while k < |wallets|
      invariant 0 <= k <= |wallets|
      invariant total == Sum(wallets[..k])
    {
      assert wallets[..k + 1][..k] == wallets[..k];
      total := total + wallets[k].balance;
      k := k + 1;
    }
    assert wallets[..k] == wallets;
    SumNonNegative(wallets);
  }

  /** With no negative balances the total is no smaller than any one of them. */
  lemma {:induction false} SumNonNegative(wallets: seq<Wallet>)
    ensures (forall i :: 0 <= i < |wallets| ==> wallets[i].balance >= 0.0) ==>
              Sum(wallets) >= 0.0 && forall i :: 0 <= i < |wallets| ==> Sum(wallets) >= wallets[i].balance
  {
    if |wallets| > 0 && forall i :: 0 <= i < |wallets| ==> wallets[i].balance >= 0.0 {
      var init := wallets[..|wallets| - 1];
      assert forall i :: 0 <= i < |init| ==> init[i] == wallets[i];
      SumNonNegative(init);
    }
  }
}
