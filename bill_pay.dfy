/** Bill payment (src/pages/BillPay.jsx): a category, one of its providers, an account
    number and an amount, paid out of the balance as one `bill` row. */
module BillPay {
  import opened Wrappers
  import opened Store

  datatype Category = MobileRecharge | Electricity | Water

  /** The `id` the page stores and writes into the row. */
  function CategoryId(c: Category): string {
    match c
    case MobileRecharge => "mobile"
    case Electricity => "electricity"
    case Water => "water"
  }

  /** `providers[category]` */
  function Providers(c: Category): seq<string> {
    match c
    case MobileRecharge => ["Airtel", "Jio", "Vi", "BSNL"]
    case Electricity => ["MSEB", "Adani Power", "Tata Power"]
    case Water => ["Mumbai Water", "Delhi Jal Board"]
  }

  /** No provider is offered under two categories, so a provider names its category. */
  lemma ProvidersDisjoint(c: Category, d: Category, p: string)
    requires p in Providers(c) && p in Providers(d)
    ensures c == d
  {
  }

  /** The counterparty and note of a bill row. */
  function BillCounterparty(provider: string, c: Category): string {
    provider + " - " + CategoryId(c)
  }

  function BillNote(c: Category, accountNumber: string): string {
    CategoryId(c) + " payment for " + accountNumber
  }

  datatype PayOutcome = ToLogin | MissingFields | InvalidAmount | InsufficientBalance | Paid

  class BillPayPage {
    /** `None` is the empty string the page starts with. */
    var category: Option<Category>
    var provider: string
    var accountNumber: string
    /** `parseFloat(amount)` in paise; `None` is NaN. */
    var amount: Option<int>

    /** A provider is only ever one offered by the selected category. */
    ghost predicate Valid()
      reads this
    {
      provider != "" ==> category.Some? && provider in Providers(category.value)
    }

    constructor ()
      ensures Valid() && category.None? && provider == "" && accountNumber == "" && amount.None?
    {
      category, provider, accountNumber, amount := None, "", "", None;
    }

    /** A category button: the provider chosen under the previous category is cleared. */
    method SelectCategory(c: Category)
      requires Valid()
      modifies this
      ensures Valid() && category == Some(c) && provider == ""
      ensures accountNumber == old(accountNumber) && amount == old(amount)
    {
      category := Some(c);
      provider := "";
    }

    /** A provider button; only the selected category's providers are shown. */
    method SelectProvider(p: string)
      requires Valid() && category.Some? && p in Providers(category.value)
      modifies this
      ensures Valid() && provider == p && category == old(category)
      ensures accountNumber == old(accountNumber) && amount == old(amount)
    {
      provider := p;
    }

    method ChangeAccountNumber(text: string)
      requires Valid()
      modifies this
      ensures Valid() && accountNumber == text
      ensures category == old(category) && provider == old(provider) && amount == old(amount)
    {
      accountNumber := text;
    }

    /** The amount input, as `parseFloat` reads it. */
    method ChangeAmount(parsed: Option<int>)
      requires Valid()
      modifies this
      ensures Valid() && amount == parsed
      ensures category == old(category) && provider == old(provider) && accountNumber == old(accountNumber)
    {
      amount := parsed;
    }

    /** The row `handlePay` inserts for user `uid`. */
    function Row(uid: UserId): Transaction
      reads this
      requires category.Some? && amount.Some?
    {
      Transaction(uid, Bill, amount.value, Some(BillCounterparty(provider, category.value)), None, None,
                  Some(BillNote(category.value, accountNumber)), 0)
    }

    /** `handlePay` */
    method Pay(db: Database, session: Session) returns (outcome: PayOutcome)
      requires Valid() && db.Valid()
      modifies db
      ensures db.Valid() && db.clock == old(db.clock)
      ensures outcome == ToLogin <==> session.userId.None?
      ensures outcome == MissingFields <==>
                session.userId.Some? && (category.None? || provider == "" || accountNumber == "")
      ensures outcome == InvalidAmount <==>
                session.userId.Some? && category.Some? && provider != "" && accountNumber != ""
                && !(amount.Some? && amount.value > 0)
      ensures outcome == Paid <==>
                session.userId.Some? && category.Some? && provider != "" && accountNumber != ""
                && amount.Some? && amount.value > 0
                && session.userId.value in old(db.users) && old(db.users)[session.userId.value].balance >= amount.value
      ensures outcome != Paid ==> db.users == old(db.users) && db.transactions == old(db.transactions)
      ensures outcome == Paid ==>
                var uid := session.userId.value;
                db.users == Rebalanced(old(db.users), uid, old(db.users)[uid].balance - amount.value)
                && db.users[uid].balance >= 0
                && db.transactions == old(db.transactions) + [Row(uid).(createdAt := old(db.clock))]
                && Total(db.users) == Total(old(db.users)) - amount.value
    {
      if session.userId.None? {
        return ToLogin;
      }
      if category.None? || provider == "" || accountNumber == "" {
        return MissingFields;
      }
      if amount.None? || amount.value <= 0 {
        return InvalidAmount;
      }
      var ok := Debit(db, Row(session.userId.value));
      outcome := if ok then Paid else InsufficientBalance;
    }
  }
}
