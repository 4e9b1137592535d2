/** Peer-to-peer transfer (src/pages/SendMoney.jsx): look the recipient up by mobile,
    then debit the sender, credit the recipient and write one ledger row on each side. */
module SendMoney {
  import opened Wrappers
  import opened Text
  import opened Store
  import opened Mobile

  const UnnamedRecipient := "EasyPay User"
  const UnnamedSender := "User"

  datatype LookupOutcome = InvalidNumber | NotOnEasyPay | Found(recipient: UserId)

  datatype SendOutcome =
    | ToLogin
    | SearchFirst
    | InvalidAmount
    | InsufficientBalance
    | RecipientNotFound
    | Transferred(recipient: UserId)

  /** The balances after `handleSendMoney`'s two writes. Both balances are read before
      either write, so the credit is computed from the recipient's balance as it was read. */
  function Posted(users: map<UserId, User>, s: UserId, r: UserId, amount: int): (u: map<UserId, User>)
    requires s in users && r in users
    ensures u.Keys == users.Keys
    ensures s != r ==> u[s].balance == users[s].balance - amount && u[r].balance == users[r].balance + amount
    ensures s == r ==> u[s].balance == users[s].balance + amount
  {
    Rebalanced(Rebalanced(users, s, users[s].balance - amount), r, users[r].balance + amount)
  }

  /** Only the two balances change: every other account, and every other column, is kept. */
  lemma PostedFrame(users: map<UserId, User>, s: UserId, r: UserId, amount: int)
    requires s in users && r in users
    ensures var u := Posted(users, s, r, amount);
            && (forall id | id in users && id != s && id != r :: u[id] == users[id])
            && (forall id | id in users :: u[id] == users[id].(balance := u[id].balance))
  {
  }

  /** Between two different accounts the money moves and the total is kept. */
  lemma PostedConserves(users: map<UserId, User>, s: UserId, r: UserId, amount: int)
    requires s in users && r in users && s != r
    ensures Total(Posted(users, s, r, amount)) == Total(users)
  {
    TotalMove(users, s, r, amount);
  }

  /** With one account on both sides, the credit overwrites the debit. */
  lemma SelfPosted(users: map<UserId, User>, s: UserId, amount: int)
    requires s in users
    ensures Posted(users, s, s, amount) == Rebalanced(users, s, users[s].balance + amount)
  {
    assert Posted(users, s, s, amount)
        == Rebalanced(Rebalanced(users, s, users[s].balance - amount), s, users[s].balance + amount);
  }

  lemma SelfPostedTotal(users: map<UserId, User>, s: UserId, amount: int)
    requires s in users
    ensures Total(Posted(users, s, s, amount)) == Total(Rebalanced(users, s, users[s].balance + amount))
  {
    SelfPosted(users, s, amount);
  }

  /** Sending to one's own number: the credit overwrites the debit, so `amount` is created. */
  lemma SelfTransferMints(users: map<UserId, User>, s: UserId, amount: int)
    requires s in users
    ensures Posted(users, s, s, amount)[s].balance == users[s].balance + amount
    ensures Total(Posted(users, s, s, amount)) == Total(users) + amount
  {
    SelfPostedTotal(users, s, amount);
    TotalUpdate(users, s, users[s].balance + amount);
  }

  /** The transfer as intended: a transfer to the sender's own account is refused. */
  function Transfer(users: map<UserId, User>, s: UserId, r: UserId, amount: int): (u: Option<map<UserId, User>>)
    requires s in users && r in users
    ensures u.None? <==> s == r
  {
    if s == r then None else Some(Posted(users, s, r, amount))
  }

  /** Every transfer that goes through moves `amount` from `s` to `r` and keeps the total. */
  lemma TransferConserves(users: map<UserId, User>, s: UserId, r: UserId, amount: int)
    requires s in users && r in users
    ensures var u := Transfer(users, s, r, amount);
            u.Some? ==> Total(u.value) == Total(users)
                        && u.value[s].balance == users[s].balance - amount
                        && u.value[r].balance == users[r].balance + amount
  {
    if s != r {
      PostedConserves(users, s, r, amount);
    }
  }

  class SendMoneyPage {
    /** The digits typed after the fixed `+91`. */
    var mobile: string
    var recipientName: string
    var recipientFound: bool
    /** `parseFloat(amount)` in paise; `None` is NaN. */
    var amount: Option<int>
    var note: string

    ghost predicate Valid()
      reads this
    {
      AllDigits(mobile) && (recipientFound ==> recipientName != "")
    }

    constructor ()
      ensures Valid() && mobile == "" && recipientName == "" && !recipientFound
      ensures amount.None? && note == ""
    {
      mobile, recipientName, recipientFound, amount, note := "", "", false, None, "";
    }

    /** The number that lookup and send use. */
    function Recipient(): string
      reads this
    {
      WithCountryCode(mobile)
    }

    /** The mobile input's `onChange`: digits only, and any earlier lookup is forgotten. */
    method ChangeMobile(input: string)
      requires Valid()
      modifies this
      ensures Valid() && mobile == KeepDigits(input) && !recipientFound && recipientName == ""
      ensures amount == old(amount) && note == old(note)
    {
      KeepDigitsSpec(input);
      mobile := KeepDigits(input);
      recipientFound := false;
      recipientName := "";
    }

    /** The amount input, as `parseFloat` reads it. */
    method ChangeAmount(parsed: Option<int>)
      requires Valid()
      modifies this
      ensures Valid() && amount == parsed
      ensures mobile == old(mobile) && recipientFound == old(recipientFound)
      ensures recipientName == old(recipientName) && note == old(note)
    {
      amount := parsed;
    }

    method ChangeNote(text: string)
      requires Valid()
      modifies this
      ensures Valid() && note == text && amount == old(amount)
      ensures mobile == old(mobile) && recipientFound == old(recipientFound)
      ensures recipientName == old(recipientName)
    {
      note := text;
    }

    /** `handleMobileLookup` */
    method Lookup(db: Database) returns (outcome: LookupOutcome)
      requires Valid()
      modifies this
      ensures Valid() && mobile == old(mobile) && amount == old(amount) && note == old(note)
      ensures outcome == InvalidNumber <==> |Recipient()| != 13
      ensures outcome == InvalidNumber ==>
                recipientFound == old(recipientFound) && recipientName == old(recipientName)
      ensures outcome == NotOnEasyPay <==>
                |Recipient()| == 13 && forall id :: !SoleHolder(db.users, Recipient(), id)
      ensures outcome == NotOnEasyPay ==> !recipientFound && recipientName == ""
      ensures outcome.Found? ==>
                SoleHolder(db.users, Recipient(), outcome.recipient) && recipientFound
                && recipientName == OrElse(db.users[outcome.recipient].fullName, UnnamedRecipient)
    {
      var formatted := WithCountryCode(mobile);
      if |formatted| != 13 {
        return InvalidNumber;
      }
      var found := db.FindByMobile(formatted);
      if found.None? {
        recipientFound := false;
        recipientName := "";
        return NotOnEasyPay;
      }
      recipientName := OrElse(db.users[found.value].fullName, UnnamedRecipient);
      recipientFound := true;
      return Found(found.value);
    }

    /** The row on the sender's side. */
    function SentRow(sender: UserId, amt: int, at: int): Transaction
      reads this
    {
      Transaction(sender, Sent, amt, Some(recipientName), Some(Recipient()), None, NullIfEmpty(note), at)
    }

    /** The row on the recipient's side, naming the sender from the session. */
    function ReceivedRow(recipient: UserId, session: Session, amt: int, at: int): Transaction
      reads this, session
    {
      Transaction(recipient, Received, amt, Some(OrElse(session.userName, UnnamedSender)),
                  Some(OrElse(session.userMobile, "")), None, NullIfEmpty(note), at)
    }

    /** The two balance writes, each from the balance read before either. */
    static method Move(db: Database, s: UserId, r: UserId, amt: int)
      requires db.Valid() && s in db.users && r in db.users && 0 < amt <= db.users[s].balance
      modifies db
      ensures db.Valid() && db.clock == old(db.clock) && db.transactions == old(db.transactions)
      ensures db.users == Posted(old(db.users), s, r, amt)
    {
      var senderBalance := db.users[s].balance;
      var recipientBalance := db.users[r].balance;
      db.SetBalance(s, senderBalance - amt);
      db.SetBalance(r, recipientBalance + amt);
    }

    /** The two balance writes and the two inserts that end a transfer. */
    method Post(db: Database, session: Session, s: UserId, r: UserId, amt: int)
      requires db.Valid() && s in db.users && r in db.users && 0 < amt <= db.users[s].balance
      modifies db
      ensures db.Valid() && db.clock == old(db.clock)
      ensures db.users == Posted(old(db.users), s, r, amt)
      ensures db.transactions == old(db.transactions)
                + [SentRow(s, amt, old(db.clock)), ReceivedRow(r, session, amt, old(db.clock))]
      ensures s != r ==> Total(db.users) == Total(old(db.users))
    {
      if s != r {
        PostedConserves(db.users, s, r, amt);
      }
      Move(db, s, r, amt);
      db.Insert(SentRow(s, amt, 0));
      db.Insert(ReceivedRow(r, session, amt, 0));
    }

    /** `handleSendMoney`. Both balances are read before the first write. */
    method Send(db: Database, session: Session) returns (outcome: SendOutcome)
      requires Valid() && db.Valid()
      modifies db
      ensures db.Valid() && db.clock == old(db.clock)
      ensures outcome == ToLogin <==> session.userId.None?
      ensures outcome == SearchFirst <==> session.userId.Some? && !recipientFound
      ensures outcome == InvalidAmount <==>
                session.userId.Some? && recipientFound && !(amount.Some? && amount.value > 0)
      ensures outcome == InsufficientBalance <==>
                session.userId.Some? && recipientFound && amount.Some? && amount.value > 0
                && (session.userId.value !in old(db.users)
                    || old(db.users)[session.userId.value].balance < amount.value)
      ensures outcome == RecipientNotFound <==>
                session.userId.Some? && recipientFound && amount.Some? && amount.value > 0
                && session.userId.value in old(db.users)
                && old(db.users)[session.userId.value].balance >= amount.value
                && forall id :: !SoleHolder(old(db.users), Recipient(), id)
      ensures outcome.Transferred? ==>
                var (s, r) := (session.userId.value, outcome.recipient);
                SoleHolder(old(db.users), Recipient(), r) && s in old(db.users)
                && amount.Some? && 0 < amount.value <= old(db.users)[s].balance
                && db.users == Posted(old(db.users), s, r, amount.value)
                && db.transactions == old(db.transactions)
                     + [SentRow(s, amount.value, old(db.clock)),
                        ReceivedRow(r, session, amount.value, old(db.clock))]
      ensures outcome.Transferred? && session.userId.value != outcome.recipient ==>
                Some(db.users) == Transfer(old(db.users), session.userId.value, outcome.recipient, amount.value)
                && Total(db.users) == Total(old(db.users))
      ensures !outcome.Transferred? ==> db.users == old(db.users) && db.transactions == old(db.transactions)
    {
      if session.userId.None? {
        return ToLogin;
      }
      var s := session.userId.value;
      if !recipientFound {
        return SearchFirst;
      }
      if amount.None? || amount.value <= 0 {
        return InvalidAmount;
      }
      var amt := amount.value;
      var senderBalance := db.Balance(s);
      if senderBalance.None? || senderBalance.value < amt {
        return InsufficientBalance;
      }
      var formatted := WithCountryCode(mobile);
      var found := db.FindByMobile(formatted);
      if found.None? {
        return RecipientNotFound;
      }
      var r := found.value;
      Post(db, session, s, r, amt);
      return Transferred(r);
    }
  }
}
