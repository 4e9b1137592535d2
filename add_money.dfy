/** Wallet top-up (src/pages/AddMoney.jsx): the card form's input formatters, the
    prototype card check and the two ways of crediting the balance. */
module AddMoney {
  import opened Wrappers
  import opened Seqs
  import opened Text
  import opened Store

  /** The only card, CVV and note values the prototype accepts or writes. */
  const TestCard := "1234123412341234"
  const TestCvv := "123"
  const CardNote := "Added via Card"
  const DevModeNote := "Added via Development Mode"
  /** The development-mode top-up, 500 rupees, in paise. */
  const DevModeAmount := 50000

  predicate NoSpace(s: string) {
    forall i | 0 <= i < |s| :: !IsSpace(s[i])
  }

  /** `v.match(/.{1,4}/g).join(" ")` for a string with no white space (and so no line
      terminator): blocks of four, the last one possibly shorter, joined by single spaces. */
  function Group(v: string): string
    decreases |v|
  {
    if |v| <= 4 then v else v[..4] + " " + Group(v[4..])
  }

  /** Grouping inserts a space exactly at every fifth position and nowhere else. */
  lemma {:induction false} GroupLayout(v: string)
    requires NoSpace(v)
    ensures forall i | 0 <= i < |Group(v)| :: IsSpace(Group(v)[i]) <==> i % 5 == 4
    ensures forall i | 0 <= i < |Group(v)| && i % 5 == 4 :: Group(v)[i] == ' '
    ensures |Group(v)| == if v == [] then 0 else |v| + (|v| - 1) / 4
    decreases |v|
  {
    if |v| > 4 {
      var rest := Group(v[4..]);
      GroupLayout(v[4..]);
      var r := v[..4] + " " + rest;
      assert Group(v) == r;
      forall i | 0 <= i < |r|
        ensures IsSpace(r[i]) <==> i % 5 == 4
        ensures i % 5 == 4 ==> r[i] == ' '
      {
        if i >= 5 {
          assert r[i] == rest[i - 5];
          assert (i - 5) % 5 == i % 5;
        } else if i < 4 {
          assert r[i] == v[i];
        }
      }
    }
  }

  /** Removing the spaces from a grouping gives back what was grouped. */
  lemma {:induction false} GroupUnspaced(v: string)
    requires NoSpace(v)
    ensures RemoveSpaces(Group(v)) == v
    decreases |v|
  {
    FilterKeepsAll(v, c => !IsSpace(c));
    if |v| > 4 {
      GroupUnspaced(v[4..]);
      FilterKeepsAll(v[..4], c => !IsSpace(c));
      FilterConcat(v[..4], " ", c => !IsSpace(c));
      FilterConcat(v[..4] + " ", Group(v[4..]), c => !IsSpace(c));
      assert Filter(" ", c => !IsSpace(c)) == [];
      assert v[..4] + v[4..] == v;
    }
  }

  lemma NoSpaceRemoved(s: string)
    ensures NoSpace(RemoveSpaces(s))
  {
  }

  /** The card number input's `onChange`. */
  function FormatCard(input: string): (r: string)
    ensures RemoveSpaces(r) == RemoveSpaces(input)
    ensures forall i | 0 <= i < |r| :: IsSpace(r[i]) <==> i % 5 == 4
    ensures forall i | 0 <= i < |r| && i % 5 == 4 :: r[i] == ' '
    ensures var n := |RemoveSpaces(input)|; |r| == if n == 0 then 0 else n + (n - 1) / 4
  {
    var v := RemoveSpaces(input);
    NoSpaceRemoved(input);
    GroupLayout(v);
    GroupUnspaced(v);
    Group(v)
  }

  /** Formatting an already formatted number changes nothing. */
  lemma FormatCardIdempotent(input: string)
    ensures FormatCard(FormatCard(input)) == FormatCard(input)
  {
  }

  /** The card check only sees the characters typed, however they were grouped. */
  lemma FormattedCardAccepted(input: string)
    ensures RemoveSpaces(FormatCard(input)) == TestCard <==> RemoveSpaces(input) == TestCard
  {
  }

  function Min(a: int, b: int): int {
    if a < b then a else b
  }

  /** The expiry input's `onChange`: digits only, then `MM/YY` once two digits are in. */
  function FormatExpiry(input: string): (r: string)
    ensures |r| <= 5
    ensures |KeepDigits(input)| < 2 ==> r == KeepDigits(input)
    ensures |KeepDigits(input)| >= 2 ==>
              |r| >= 3 && r[2] == '/' && r[..2] == KeepDigits(input)[..2]
              && r[3..] == KeepDigits(input)[2..Min(4, |KeepDigits(input)|)]
  {
    var v := KeepDigits(input);
    if |v| >= 2 then v[..2] + "/" + v[2..Min(4, |v|)] else v
  }

  /** The digits of a formatted expiry are the first four digits typed. */
  lemma {:induction false} ExpiryDigits(input: string)
    ensures KeepDigits(FormatExpiry(input)) == KeepDigits(input)[..Min(4, |KeepDigits(input)|)]
  {
    var v := KeepDigits(input);
    KeepDigitsSpec(input);
    if |v| >= 2 {
      var head, tail := v[..2], v[2..Min(4, |v|)];
      assert AllDigits(head) && AllDigits(tail);
      KeepDigitsSpec(head);
      KeepDigitsSpec(tail);
      FilterConcat(head, "/", IsDigit);
      FilterConcat(head + "/", tail, IsDigit);
      assert KeepDigits("/") == [];
      assert head + tail == v[..Min(4, |v|)];
    } else {
      assert v[..|v|] == v;
    }
  }

  lemma {:induction false} FormatExpiryIdempotent(input: string)
    ensures FormatExpiry(FormatExpiry(input)) == FormatExpiry(input)
  {
    var v := KeepDigits(input);
    ExpiryDigits(input);
    var w := KeepDigits(FormatExpiry(input));
    if |v| >= 2 {
      assert w[..2] == v[..2];
      assert w[2..Min(4, |w|)] == v[2..Min(4, |v|)];
    }
  }

  datatype TopUpOutcome =
    | ToLogin
    | InvalidAmount
    | WrongCard
    | WrongCvv
    | MissingExpiry
    | BalanceUnavailable
    | Added

  /** The `add_money` row of a top-up. */
  function TopUpRow(userId: UserId, amount: int, note: string, at: int): Transaction {
    Transaction(userId, AddMoney, amount, None, None, None, Some(note), at)
  }

  /** Read the balance, write it back increased by `amount`, then insert the row. */
  method Credit(db: Database, userId: UserId, amount: int, note: string) returns (outcome: TopUpOutcome)
    requires db.Valid() && amount > 0
    modifies db
    ensures db.Valid() && db.clock == old(db.clock)
    ensures outcome == Added <==> userId in old(db.users)
    ensures outcome == BalanceUnavailable <==> userId !in old(db.users)
    ensures outcome == BalanceUnavailable ==>
              db.users == old(db.users) && db.transactions == old(db.transactions)
    ensures outcome == Added ==>
              db.users == Rebalanced(old(db.users), userId, old(db.users)[userId].balance + amount)
              && db.transactions == old(db.transactions) + [TopUpRow(userId, amount, note, old(db.clock))]
              && Total(db.users) == Total(old(db.users)) + amount
  {
    var balance := db.Balance(userId);
    if balance.None? {
      return BalanceUnavailable;
    }
    TotalUpdate(db.users, userId, balance.value + amount);
    db.SetBalance(userId, balance.value + amount);
    db.Insert(TopUpRow(userId, amount, note, 0));
    return Added;
  }

  class AddMoneyPage {
    /** `parseFloat(amount)` in paise; `None` is NaN. */
    var amount: Option<int>
    var cardNumber: string
    var cvv: string
    var expiry: string

    ghost predicate Valid()
      reads this
    {
      AllDigits(cvv) && |expiry| <= 5
      && forall i | 0 <= i < |cardNumber| :: IsSpace(cardNumber[i]) <==> i % 5 == 4
    }

    constructor ()
      ensures Valid() && amount.None? && cardNumber == "" && cvv == "" && expiry == ""
    {
      amount, cardNumber, cvv, expiry := None, "", "", "";
    }

    /** The amount input, as `parseFloat` reads it. */
    method ChangeAmount(parsed: Option<int>)
      requires Valid()
      modifies this
      ensures Valid() && amount == parsed
      ensures cardNumber == old(cardNumber) && cvv == old(cvv) && expiry == old(expiry)
    {
      amount := parsed;
    }

    method ChangeCard(input: string)
      requires Valid()
      modifies this
      ensures Valid() && cardNumber == FormatCard(input)
      ensures amount == old(amount) && cvv == old(cvv) && expiry == old(expiry)
    {
      cardNumber := FormatCard(input);
    }

    method ChangeExpiry(input: string)
      requires Valid()
      modifies this
      ensures Valid() && expiry == FormatExpiry(input)
      ensures amount == old(amount) && cvv == old(cvv) && cardNumber == old(cardNumber)
    {
      expiry := FormatExpiry(input);
    }

    /** The CVV input keeps the digits only. */
    method ChangeCvv(input: string)
      requires Valid()
      modifies this
      ensures Valid() && cvv == KeepDigits(input)
      ensures amount == old(amount) && expiry == old(expiry) && cardNumber == old(cardNumber)
    {
      KeepDigitsSpec(input);
      cvv := KeepDigits(input);
    }

    /** The form checks of `handleAddMoney`, in the order the page makes them. */
    function FormCheck(): (r: TopUpOutcome)
      reads this
      ensures r == InvalidAmount <==> !(amount.Some? && amount.value > 0)
      ensures r == WrongCard <==> amount.Some? && amount.value > 0 && RemoveSpaces(cardNumber) != TestCard
      ensures r == WrongCvv <==>
                amount.Some? && amount.value > 0 && RemoveSpaces(cardNumber) == TestCard && cvv != TestCvv
      ensures r == MissingExpiry <==>
                amount.Some? && amount.value > 0 && RemoveSpaces(cardNumber) == TestCard
                && cvv == TestCvv && expiry == ""
      ensures r == Added <==>
                amount.Some? && amount.value > 0 && RemoveSpaces(cardNumber) == TestCard
                && cvv == TestCvv && expiry != ""
    {
      if amount.None? || amount.value <= 0 then InvalidAmount
      else if cardNumber == "" || RemoveSpaces(cardNumber) != TestCard then WrongCard
      else if cvv == "" || cvv != TestCvv then WrongCvv
      else if expiry == "" then MissingExpiry
      else Added
    }

    /** `handleAddMoney` */
    method AddMoney(db: Database, session: Session) returns (outcome: TopUpOutcome)
      requires Valid() && db.Valid()
      modifies db
      ensures db.Valid() && db.clock == old(db.clock)
      ensures outcome == ToLogin <==> session.userId.None?
      ensures session.userId.Some? && FormCheck() != Added ==> outcome == FormCheck()
      ensures outcome == Added <==>
                session.userId.Some? && FormCheck() == Added && session.userId.value in old(db.users)
      ensures outcome == BalanceUnavailable <==>
                session.userId.Some? && FormCheck() == Added && session.userId.value !in old(db.users)
      ensures outcome != Added ==> db.users == old(db.users) && db.transactions == old(db.transactions)
      ensures outcome == Added ==>
                var uid := session.userId.value;
                db.users == Rebalanced(old(db.users), uid, old(db.users)[uid].balance + amount.value)
                && db.transactions == old(db.transactions) + [TopUpRow(uid, amount.value, CardNote, old(db.clock))]
    {
      if session.userId.None? {
        return ToLogin;
      }
      var check := FormCheck();
      if check != Added {
        return check;
      }
      outcome := Credit(db, session.userId.value, amount.value, CardNote);
    }

    /** `handleDevModeAdd`: a fixed 500 rupees, no form checks. */
    method DevModeAdd(db: Database, session: Session) returns (outcome: TopUpOutcome)
      requires db.Valid()
      modifies db
      ensures db.Valid() && db.clock == old(db.clock)
      ensures outcome == ToLogin <==> session.userId.None?
      ensures outcome == Added <==> session.userId.Some? && session.userId.value in old(db.users)
      ensures outcome == BalanceUnavailable <==> session.userId.Some? && session.userId.value !in old(db.users)
      ensures outcome != Added ==> db.users == old(db.users) && db.transactions == old(db.transactions)
      ensures outcome == Added ==>
                var uid := session.userId.value;
                db.users == Rebalanced(old(db.users), uid, old(db.users)[uid].balance + DevModeAmount)
                && db.transactions == old(db.transactions) + [TopUpRow(uid, DevModeAmount, DevModeNote, old(db.clock))]
    {
      if session.userId.None? {
        return ToLogin;
      }
      outcome := Credit(db, session.userId.value, DevModeAmount, DevModeNote);
    }
  }
}
