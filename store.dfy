/** The two Supabase tables the pages read and write (`users` and `transactions`)
    and the browser's `sessionStorage`, as in-memory state. */
module Store {
  import opened Wrappers

  type UserId = nat

  datatype KycStatus = Pending | Skipped

  /** A row of `users`. Balances are in paise. */
  datatype User = User(mobile: string, fullName: Option<string>, email: Option<string>,
                       kycStatus: KycStatus, balance: int)

  /** The `type` column of `transactions`. */
  datatype TxType = Sent | Received | AddMoney | Bill | Merchant

  function TypeName(t: TxType): string {
    match t
    case Sent => "sent"
    case Received => "received"
    case AddMoney => "add_money"
    case Bill => "bill"
    case Merchant => "merchant"
  }

  /** A row of `transactions`; `amount` is in paise and `createdAt` in milliseconds. */
  datatype Transaction = Transaction(userId: UserId, txType: TxType, amount: int,
                                     counterpartyName: Option<string>,
                                     counterpartyMobile: Option<string>,
                                     merchantId: Option<string>, note: Option<string>,
                                     createdAt: int)

  /** `id` is the only row of `users` whose mobile is `m`: what `.eq("mobile", m).single()` returns. */
  ghost predicate SoleHolder(users: map<UserId, User>, m: string, id: UserId) {
    id in users && users[id].mobile == m
    && forall j | j in users && users[j].mobile == m :: j == id
  }

  function Holders(users: map<UserId, User>, m: string): set<UserId> {
    set id | id in users && users[id].mobile == m
  }

  lemma HoldersOfSole(users: map<UserId, User>, m: string, id: UserId)
    requires SoleHolder(users, m, id)
    ensures Holders(users, m) == {id}
  {
  }

  lemma SoleOfHolders(users: map<UserId, User>, m: string, id: UserId)
    requires Holders(users, m) == {id}
    ensures SoleHolder(users, m, id)
  {
    assert id in Holders(users, m);
    forall j | j in users && users[j].mobile == m ensures j == id {
      assert j in Holders(users, m);
    }
  }

  lemma OnlyElement(s: set<UserId>, x: UserId)
    requires |s| == 1 && x in s
    ensures s == {x}
  {
    assert s == (s - {x}) + {x};
    assert |s - {x}| == 0;
  }

  /** `users` with the balance of `k` set to `b`: every other row and column is kept. */
  function Rebalanced(users: map<UserId, User>, k: UserId, b: int): map<UserId, User>
    requires k in users
  {
    users[k := users[k].(balance := b)]
  }

  /** The sum of all balances. */
  ghost function Total(users: map<UserId, User>): int
    decreases |users|
  {
    if users == map[] then 0
    else
      var id :| id in users;
      users[id].balance + Total(users - {id})
  }

  lemma {:induction false} TotalRemove(users: map<UserId, User>, k: UserId)
    requires k in users
    ensures Total(users) == users[k].balance + Total(users - {k})
    decreases |users|
  {
    var id :| id in users && Total(users) == users[id].balance + Total(users - {id});
    if id != k {
      var rest := users - {id};
      TotalRemove(rest, k);
      TotalRemove(users - {k}, id);
      assert rest - {k} == (users - {k}) - {id};
    }
  }

  /** Writing one balance changes the total by the difference. */
  lemma TotalUpdate(users: map<UserId, User>, k: UserId, b: int)
    requires k in users
    ensures Total(Rebalanced(users, k, b)) == Total(users) - users[k].balance + b
  {
    var users' := Rebalanced(users, k, b);
    TotalRemove(users, k);
    TotalRemove(users', k);
    assert users' - {k} == users - {k};
  }

  /** Moving `amount` from one account to a different one keeps the total. */
  lemma TotalMove(users: map<UserId, User>, s: UserId, r: UserId, amount: int)
    requires s in users && r in users && s != r
    ensures var debited := Rebalanced(users, s, users[s].balance - amount);
            Total(Rebalanced(debited, r, users[r].balance + amount)) == Total(users)
  {
    var debited := Rebalanced(users, s, users[s].balance - amount);
    TotalUpdate(users, s, users[s].balance - amount);
    assert debited[r] == users[r];
    TotalUpdate(debited, r, users[r].balance + amount);
  }

  /** Writing the same balance twice: only the second write counts. */
  lemma TotalOverwrite(users: map<UserId, User>, k: UserId, a: int, b: int)
    requires k in users
    ensures Total(Rebalanced(Rebalanced(users, k, a), k, b)) == Total(users) - users[k].balance + b
  {
    assert Rebalanced(Rebalanced(users, k, a), k, b) == Rebalanced(users, k, b);
    TotalUpdate(users, k, b);
  }

  /** A new account adds its opening balance to the total. */
  lemma TotalInsert(users: map<UserId, User>, k: UserId, u: User)
    requires k !in users
    ensures Total(users[k := u]) == Total(users) + u.balance
  {
    TotalRemove(users[k := u], k);
    assert users[k := u] - {k} == users;
  }

  /** The database: the `users` table keyed by id and the append-only `transactions` table. */
  class Database {
    var users: map<UserId, User>
    var transactions: seq<Transaction>
    /** The database clock that fills `created_at`. */
    var clock: int
    /** Every id handed out so far is below this bound. */
    var nextId: nat

    ghost predicate Valid()
      reads this
    {
      (forall id | id in users :: id < nextId && users[id].balance >= 0)
      && (forall i | 0 <= i < |transactions| :: transactions[i].amount > 0 && transactions[i].createdAt <= clock)
      && (forall i, j | 0 <= i < j < |transactions| :: transactions[i].createdAt <= transactions[j].createdAt)
    }

    constructor (now: int)
      ensures Valid() && users == map[] && transactions == [] && clock == now
    {
      users, transactions, clock, nextId := map[], [], now, 0;
    }

    /** Time passes on the server. */
    method Tick(now: int)
      requires Valid() && clock <= now
      modifies this
      ensures Valid() && clock == now
      ensures users == old(users) && transactions == old(transactions) && nextId == old(nextId)
    {
      clock := now;
    }

    /** `select("balance").eq("id", id).single()` */
    function Balance(id: UserId): (r: Option<int>)
      reads this
      ensures r.Some? <==> id in users
      ensures r.Some? ==> r.value == users[id].balance
      ensures Valid() && r.Some? ==> r.value >= 0
    {
      if id in users then Some(users[id].balance) else None
    }

    /** `select(...).eq("mobile", m).single()`: the row when exactly one has that mobile. */
    method FindByMobile(m: string) returns (r: Option<UserId>)
      ensures r.Some? ==> SoleHolder(users, m, r.value)
      ensures r.None? ==> forall id :: !SoleHolder(users, m, id)
    {
      var holders := Holders(users, m);
      if |holders| == 1 {
        var id :| id in holders;
        OnlyElement(holders, id);
        SoleOfHolders(users, m, id);
        r := Some(id);
      } else {
        forall id | SoleHolder(users, m, id) ensures false {
          HoldersOfSole(users, m, id);
        }
        r := None;
      }
    }

    /** `update({ balance: b }).eq("id", id)`: a missing row is left alone. */
    method SetBalance(id: UserId, b: int)
      requires Valid() && b >= 0
      modifies this
      ensures Valid()
      ensures users == if id in old(users) then Rebalanced(old(users), id, b) else old(users)
      ensures transactions == old(transactions) && clock == old(clock) && nextId == old(nextId)
    {
      if id in users {
        users := Rebalanced(users, id, b);
      }
    }

    /** `transactions.insert(row)`: the database stamps `created_at`. */
    method Insert(row: Transaction)
      requires Valid() && row.amount > 0
      modifies this
      ensures Valid()
      ensures transactions == old(transactions) + [row.(createdAt := old(clock))]
      ensures users == old(users) && clock == old(clock) && nextId == old(nextId)
    {
      transactions := transactions + [row.(createdAt := clock)];
    }

    /** `users.insert(u).select().single()`; `rejected` is the database refusing the row. */
    method InsertUser(u: User, rejected: bool) returns (r: Option<UserId>)
      requires Valid() && u.balance >= 0
      modifies this
      ensures Valid()
      ensures r.None? <==> rejected
      ensures r.None? ==> users == old(users)
      ensures r.Some? ==> r.value !in old(users) && users == old(users)[r.value := u]
      ensures transactions == old(transactions) && clock == old(clock)
    {
      if rejected {
        r := None;
      } else {
        r := Some(nextId);
        users := users[nextId := u];
        nextId := nextId + 1;
      }
    }
  }

  /** The debit that bill and merchant payments share: read the balance, refuse when the
      row is missing or holds less than the amount, else write the difference and insert `row`. */
  method Debit(db: Database, row: Transaction) returns (ok: bool)
    requires db.Valid() && row.amount > 0
    modifies db
    ensures db.Valid() && db.clock == old(db.clock)
    ensures ok <==> row.userId in old(db.users) && old(db.users)[row.userId].balance >= row.amount
    ensures !ok ==> db.users == old(db.users) && db.transactions == old(db.transactions)
    ensures ok ==>
              var id := row.userId;
              db.users == Rebalanced(old(db.users), id, old(db.users)[id].balance - row.amount)
              && db.transactions == old(db.transactions) + [row.(createdAt := old(db.clock))]
              && Total(db.users) == Total(old(db.users)) - row.amount
  {
    var balance := db.Balance(row.userId);
    if balance.None? || balance.value < row.amount {
      return false;
    }
    TotalUpdate(db.users, row.userId, balance.value - row.amount);
    db.SetBalance(row.userId, balance.value - row.amount);
    db.Insert(row);
    return true;
  }

  /** `sessionStorage`, one field per key the pages use. */
  class Session {
    /** `easypay_mobile`: the number being logged in. */
    var mobile: Option<string>
    /** `easypay_is_new_user`: "true" or "false". */
    var isNewUser: Option<string>
    /** `easypay_user_id`, `easypay_user_mobile`, `easypay_user_name`: the logged-in user. */
    var userId: Option<UserId>
    var userMobile: Option<string>
    var userName: Option<string>

    constructor ()
      ensures mobile.None? && isNewUser.None? && userId.None? && userMobile.None? && userName.None?
    {
      mobile, isNewUser, userId, userMobile, userName := None, None, None, None, None;
    }
  }
}
