/** The transaction history (src/pages/History.jsx): the user's rows newest first, narrowed
    by a type bucket and a search query, with the sign and label of each row. */
module History {
  import opened Wrappers
  import opened Seqs
  import opened Text
  import opened Store
  import Metro
  import MetroTicket

  /** The filter buttons. */
  datatype Bucket = All | SentBucket | ReceivedBucket | Bills

  predicate InBucket(b: Bucket, t: Transaction) {
    match b
    case All => true
    case SentBucket => t.txType == Sent
    case ReceivedBucket => t.txType == Received || t.txType == AddMoney
    case Bills => t.txType == Bill || t.txType == TxType.Merchant
  }

  /** `x?.toLowerCase().includes(q.toLowerCase())`; a missing field never matches. */
  predicate FieldMatches(x: Option<string>, q: string) {
    x.Some? && Includes(ToLower(x.value), ToLower(q))
  }

  /** The search: name or merchant id ignoring case, or mobile as typed. */
  predicate MatchesQuery(q: string, t: Transaction) {
    FieldMatches(t.counterpartyName, q) || FieldMatches(t.merchantId, q)
    || (t.counterpartyMobile.Some? && Includes(t.counterpartyMobile.value, q))
  }

  /** Whether the list keeps row `t`. */
  predicate Keep(b: Bucket, q: string, t: Transaction) {
    InBucket(b, t) && (q == "" || MatchesQuery(q, t))
  }

  /** The filter effect: the bucket filter unless `"all"`, then the search unless the query is empty. */
  function View(txns: seq<Transaction>, b: Bucket, q: string): seq<Transaction> {
    var byType := if b == All then txns else Filter(txns, t => InBucket(b, t));
    if q == "" then byType else Filter(byType, t => MatchesQuery(q, t))
  }

  /** The two chained filters are one filter by `Keep`. */
  lemma {:induction false} ViewIsFilter(txns: seq<Transaction>, b: Bucket, q: string)
    ensures View(txns, b, q) == Filter(txns, t => Keep(b, q, t))
  {
    var inBucket := (t: Transaction) => InBucket(b, t);
    var matches := (t: Transaction) => MatchesQuery(q, t);
    var keep := (t: Transaction) => Keep(b, q, t);
    var byType := Filter(txns, inBucket);
    FilterExt(txns, t => InBucket(b, t), inBucket);
    FilterExt(txns, keep, t => Keep(b, q, t));
    if b == All {
      FilterKeepsAll(txns, inBucket);
    }
    FilterExt(byType, t => MatchesQuery(q, t), matches);
    assert View(txns, b, q) == if q == "" then byType else Filter(byType, matches);
    if q == "" {
      FilterExt(txns, inBucket, keep);
    } else {
      FilterCompose(txns, inBucket, matches, keep);
    }
  }

  /** "All" with no query shows every loaded row. */
  lemma {:induction false} ViewAllUnfiltered(txns: seq<Transaction>)
    ensures View(txns, All, "") == txns
  {
  }

  /** A row is shown exactly when it was loaded and passes the bucket and the query. */
  lemma {:induction false} ViewMembers(txns: seq<Transaction>, b: Bucket, q: string, t: Transaction)
    ensures t in View(txns, b, q) <==> t in txns && InBucket(b, t) && (q == "" || MatchesQuery(q, t))
  {
    ViewIsFilter(txns, b, q);
    FilterMembers(txns, u => Keep(b, q, u), t);
  }

  /** The list is the loaded rows with some left out, in their order. */
  lemma {:induction false} ViewIsSubsequence(txns: seq<Transaction>, b: Bucket, q: string)
    ensures IsSubsequence(View(txns, b, q), txns)
  {
    ViewIsFilter(txns, b, q);
    FilterIsSubsequence(txns, t => Keep(b, q, t));
  }

  /** Applying the same bucket and query to what is shown changes nothing. */
  lemma {:induction false} ViewIdempotent(txns: seq<Transaction>, b: Bucket, q: string)
    ensures View(View(txns, b, q), b, q) == View(txns, b, q)
  {
    ViewIsFilter(txns, b, q);
    ViewIsFilter(View(txns, b, q), b, q);
    FilterIdempotent(txns, t => Keep(b, q, t));
  }

  /** The list keeps the newest-first order of the loaded rows. */
  lemma {:induction false} ViewNewestFirst(txns: seq<Transaction>, b: Bucket, q: string)
    requires Descending(txns, (t: Transaction) => t.createdAt)
    ensures Descending(View(txns, b, q), (t: Transaction) => t.createdAt)
  {
    var older := (t: Transaction) => -t.createdAt;
    assert Ascending(txns, older);
    ViewIsFilter(txns, b, q);
    FilterAscending(txns, t => Keep(b, q, t), older);
  }

  lemma LowerCharIdempotent(c: char)
    ensures LowerChar(LowerChar(c)) == LowerChar(c)
  {
  }

  /** The case of the query does not matter for the name and the merchant id. */
  lemma {:induction false} FieldMatchIgnoresCase(x: Option<string>, q: string)
    ensures FieldMatches(x, ToLower(q)) == FieldMatches(x, q)
  {
    forall i | 0 <= i < |q| ensures ToLower(ToLower(q))[i] == ToLower(q)[i] {
      LowerCharIdempotent(q[i]);
    }
    assert ToLower(ToLower(q)) == ToLower(q);
  }

  /** `transactions.select("*").eq("user_id", id).order("created_at", { ascending: false })`.
      The table grows in `created_at` order, so back to front is newest first. */
  function Loaded(txns: seq<Transaction>, id: UserId): seq<Transaction> {
    Reverse(Filter(txns, (t: Transaction) => t.userId == id))
  }

  lemma {:induction false} LoadedNewestFirst(db: Database, id: UserId)
    requires db.Valid()
    ensures Descending(Loaded(db.transactions, id), (t: Transaction) => t.createdAt)
    ensures forall t :: t in Loaded(db.transactions, id) <==> t in db.transactions && t.userId == id
  {
    var at := (t: Transaction) => t.createdAt;
    assert Ascending(db.transactions, at);
    FilterAscending(db.transactions, (t: Transaction) => t.userId == id, at);
    ReverseDescending(Filter(db.transactions, (t: Transaction) => t.userId == id), at);
    forall t ensures t in Loaded(db.transactions, id) <==> t in db.transactions && t.userId == id {
      ReverseMembers(Filter(db.transactions, (u: Transaction) => u.userId == id), t);
      FilterMembers(db.transactions, (u: Transaction) => u.userId == id, t);
    }
  }

  /** `isMetroTransaction` */
  predicate IsMetroTransaction(t: Transaction) {
    t.counterpartyName == Some(Metro.Operator) && t.note.Some? && Includes(t.note.value, "Metro:")
  }

  /** Every row the metro booking writes opens the ticket dialog. */
  lemma MetroRowsRecognised(t: Transaction, from: string, to: string, line: string)
    requires t.counterpartyName == Some(Metro.Operator) && t.note == Some(Metro.Memo(from, to, line))
    ensures IsMetroTransaction(t)
  {
    assert OccursAt(t.note.value, "Metro:", 0);
  }

  /** `handleTransactionClick`: the row given to the ticket dialog, if any. */
  function SelectedTicket(t: Transaction): (r: Option<Transaction>)
    ensures r.Some? <==> IsMetroTransaction(t)
    ensures r.Some? ==> r.value == t
  {
    if IsMetroTransaction(t) then Some(t) else None
  }

  /** Clicking a Purple or Orange line booking row opens the ticket dialog on exactly the
      booked trip. */
  lemma SelectedBookingShowsTrip(id: Metro.LineId, row: Transaction, f: string, t: string)
    requires id == Metro.Purple || id == Metro.Orange
    requires f in Metro.Stations(id) && t in Metro.Stations(id)
    requires row.counterpartyName == Some(Metro.Operator)
    requires row.note == Some(Metro.Memo(f, t, Metro.LineName(id)))
    ensures SelectedTicket(row) == Some(row)
    ensures MetroTicket.Render(SelectedTicket(row))
              == Some(MetroTicket.TicketView(MetroTicket.MetroDetails(f, t, Metro.LineName(id)), row.amount,
                                             row.createdAt, row.createdAt + Metro.TicketValidityMs))
  {
    MetroRowsRecognised(row, f, t, Metro.LineName(id));
    MetroTicket.RenderPlainBooking(id, row, f, t);
  }

  /** Rows shown with a plus sign. */
  predicate IsCredit(t: Transaction) {
    t.txType == Received || t.txType == AddMoney
  }

  /** The "Received" button shows the credits and the other two buttons only debits. */
  lemma BucketsBySign(t: Transaction)
    ensures InBucket(ReceivedBucket, t) <==> IsCredit(t)
    ensures InBucket(SentBucket, t) || InBucket(Bills, t) ==> !IsCredit(t)
    ensures !IsCredit(t) <==> InBucket(SentBucket, t) || InBucket(Bills, t)
  {
  }

  /** `counterparty_name || merchant_id || type` */
  function DisplayName(t: Transaction): (r: string)
    ensures r != ""
  {
    OrElse(t.counterpartyName, OrElse(t.merchantId, TypeName(t.txType)))
  }
}
