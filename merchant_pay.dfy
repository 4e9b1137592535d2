/** Merchant payment (src/pages/MerchantPay.jsx): a merchant id and an amount, confirmed
    through the PIN dialog and paid out of the balance as one `merchant` row. */
module MerchantPay {
  import opened Wrappers
  import opened Text
  import opened Store
  import opened PinVerification

  datatype MerchantEntry = MerchantEntry(id: string, name: string)

  /** `dummyMerchants` */
  const Merchants := [MerchantEntry("MERCH123", "Cafe Coffee Day"), MerchantEntry("MERCH456", "Big Bazaar"),
                      MerchantEntry("MERCH789", "Pizza Hut")]

  /** The index of the first entry of `ms` with id `id`, or `|ms|` when there is none. */
  function Find(ms: seq<MerchantEntry>, id: string): (k: nat)
    ensures k <= |ms| && (k < |ms| ==> ms[k].id == id)
    ensures forall j | 0 <= j < k :: ms[j].id != id
  {
    if ms == [] then 0
    else if ms[0].id == id then 0
    else 1 + Find(ms[1..], id)
  }

  /** `ms.find(m => m.id === id)?.name || id` */
  function NameIn(ms: seq<MerchantEntry>, id: string): string {
    var k := Find(ms, id);
    if k < |ms| then OrElse(Some(ms[k].name), id) else id
  }

  /** The name written for merchant `id`: the table's name, or the id itself. */
  function MerchantName(id: string): string {
    NameIn(Merchants, id)
  }

  /** The three known ids resolve to their names, and any other id to itself. */
  lemma KnownMerchants(id: string)
    ensures MerchantName("MERCH123") == "Cafe Coffee Day"
    ensures MerchantName("MERCH456") == "Big Bazaar"
    ensures MerchantName("MERCH789") == "Pizza Hut"
    ensures id != "MERCH123" && id != "MERCH456" && id != "MERCH789" ==> MerchantName(id) == id
  {
    assert Merchants[0].id == "MERCH123" && Merchants[1].id == "MERCH456" && Merchants[2].id == "MERCH789";
  }

  datatype InitiateOutcome = ToLogin | MissingMerchant | InvalidAmount | PinRequested

  datatype PayOutcome = InsufficientBalance | Paid

  class MerchantPayPage {
    var merchantId: string
    /** `parseFloat(amount)` in paise; `None` is NaN. */
    var amount: Option<int>
    const gate: PinGate

    /** The dialog is only ever open over a complete form. */
    ghost predicate Valid()
      reads this, gate
    {
      gate.Valid() && (gate.open ==> Ready())
    }

    predicate Ready()
      reads this
    {
      !IsBlank(merchantId) && amount.Some? && amount.value > 0
    }

    constructor ()
      ensures Valid() && fresh(gate) && merchantId == "" && amount.None?
      ensures !gate.open && gate.attempts == 0
    {
      merchantId, amount := "", None;
      gate := new PinGate();
    }

    /** The merchant id input upper-cases what is typed. */
    method ChangeMerchantId(input: string)
      requires Valid() && !gate.open
      modifies this
      ensures Valid() && merchantId == ToUpper(input) && amount == old(amount)
    {
      merchantId := ToUpper(input);
    }

    /** A quick-select button. */
    method SelectMerchant(i: nat)
      requires Valid() && !gate.open && i < |Merchants|
      modifies this
      ensures Valid() && merchantId == Merchants[i].id && amount == old(amount)
    {
      merchantId := Merchants[i].id;
    }

    /** The amount input, as `parseFloat` reads it. */
    method ChangeAmount(parsed: Option<int>)
      requires Valid() && !gate.open
      modifies this
      ensures Valid() && amount == parsed && merchantId == old(merchantId)
    {
      amount := parsed;
    }

    /** `handleInitiatePay` */
    method InitiatePay(session: Session) returns (outcome: InitiateOutcome)
      requires Valid()
      modifies gate
      ensures Valid()
      ensures outcome == ToLogin <==> session.userId.None?
      ensures outcome == MissingMerchant <==> session.userId.Some? && IsBlank(merchantId)
      ensures outcome == InvalidAmount <==>
                session.userId.Some? && !IsBlank(merchantId) && !(amount.Some? && amount.value > 0)
      ensures outcome == PinRequested <==> session.userId.Some? && Ready()
      ensures outcome == PinRequested ==> gate.open
      ensures outcome != PinRequested ==> gate.open == old(gate.open)
      ensures gate.pin == old(gate.pin) && gate.attempts == old(gate.attempts)
    {
      if session.userId.None? {
        return ToLogin;
      }
      if IsBlank(merchantId) {
        return MissingMerchant;
      }
      if amount.None? || amount.value <= 0 {
        return InvalidAmount;
      }
      gate.Show();
      return PinRequested;
    }

    /** The row `handlePay` inserts for user `uid`. */
    function Row(uid: UserId): Transaction
      reads this
      requires amount.Some?
    {
      var name := MerchantName(merchantId);
      Transaction(uid, TxType.Merchant, amount.value, Some(name), None, Some(merchantId), Some("Payment to " + name), 0)
    }

    /** What `handlePay` does to the tables, measured from the state before it ran: the
        payment goes through exactly when the user's row holds at least the amount. */
    twostate predicate PayEffect(db: Database, session: Session, outcome: PayOutcome)
      reads this, db, session
      requires Ready()
    {
      (outcome == Paid <==>
         session.userId.Some? && session.userId.value in old(db.users)
         && old(db.users)[session.userId.value].balance >= amount.value)
      && (outcome == InsufficientBalance ==>
            db.users == old(db.users) && db.transactions == old(db.transactions))
      && (outcome == Paid ==>
            var uid := session.userId.value;
            db.users == Rebalanced(old(db.users), uid, old(db.users)[uid].balance - amount.value)
            && db.transactions == old(db.transactions) + [Row(uid).(createdAt := old(db.clock))]
            && Total(db.users) == Total(old(db.users)) - amount.value)
    }

    /** `handlePay`. Without a session user the balance query finds no row, which the page
        reports as an insufficient balance. The dialog is left open. */
    method Pay(db: Database, session: Session) returns (outcome: PayOutcome)
      requires Valid() && Ready() && db.Valid()
      modifies db
      ensures db.Valid() && db.clock == old(db.clock)
      ensures PayEffect(db, session, outcome)
    {
      if session.userId.None? {
        return InsufficientBalance;
      }
      var ok := Debit(db, Row(session.userId.value));
      outcome := if ok then Paid else InsufficientBalance;
    }

    /** Pressing Verify in the PIN dialog: a correct PIN runs the payment once; the dialog
        changes exactly as the dialog itself states, the payment leaving it alone. */
    method SubmitPin(db: Database, session: Session) returns (verified: VerifyResult, payment: Option<PayOutcome>)
      requires Valid() && db.Valid() && gate.open && gate.attempts < MaxAttempts
      modifies gate, db
      ensures Valid() && db.Valid() && db.clock == old(db.clock)
      ensures gate.AfterVerify(verified)
      ensures payment.Some? <==> verified == Approved
      ensures verified != Approved ==> db.users == old(db.users) && db.transactions == old(db.transactions)
      ensures verified == Approved ==> PayEffect(db, session, payment.value)
    {
      verified := gate.Verify();
      if verified == Approved {
        var outcome := Pay(db, session);
        payment := Some(outcome);
      } else {
        payment := None;
      }
    }
  }
}
