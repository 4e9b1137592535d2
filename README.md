# EasyPay wallet core in Dafny

EasyPay is a React wallet prototype. Its pages keep a balance per user in a `users` table and record every
balance change as a row of an append-only `transactions` table. This project models the logic that sits
inside those pages:

- **Money movement.** Card and development-mode top-up, peer transfer, bill payment, merchant payment
  and metro-ticket purchase. The `users` table is a map from user id to a row whose balance is an integer
  number of paise. The `transactions` table is a sequence that the operations only append to. Both live in
  one `Store.Database` object. The `sessionStorage` keys the pages read and write are a `Store.Session`
  object, passed to every handler.
- **The metro fare calculator and the ticket memo.** `calculateFare`, the 10% discount, the note
  `Metro: <from> to <to> (<line>)` written at booking, and the ticket dialog that reads the note back
  with the regular expression `/Metro: (.+?) to (.+?) \((.+?)\)/`. The expression is modelled with
  JavaScript's backtracking semantics: leftmost start, lazy groups, and `.` never matching a line
  terminator.
- **The PIN, OTP and PIN-setup state machines.** The PIN dialog guarding merchant payment and metro
  booking, the login lockout, the set/confirm PIN steps, the three-step change-PIN panel, the OTP check and
  the login number check.
- **The ledger view and input sanitisers.** The history page's bucket filter and search, its sign and
  label rules, and the card-number, expiry and CVV input formatters.

Every page component whose `useState` fields the handlers update is a class with those fields. Each
handler is a method whose `ensures` gives the whole new state and the outcome. The toast and the
navigation target of a handler become an outcome value. Pure computations are functions, with lemmas
for the properties the pages rely on.

Modules, one per source file: `Store` (the two tables and the session), `PinVerification`, `Metro`,
`MetroTicket`, `SendMoney`, `AddMoney`, `BillPay`, `MerchantPay`, `History`, `EnterPin`, `Settings`,
`SetPin`, `Otp`, `Login`, `Kyc`. The helper modules are `Wrappers` (`Option`), `Seqs` (order-preserving
filter and its lemmas), `Text` (JavaScript string operations and regex classes) and `Mobile` (the `+91`
prefix and the number check shared by login and transfer).

Behaviour of the code that the model keeps:

- The code does not roll back a balance write when an insert fails, and it ignores errors from
  `update`/`insert`. The model treats every write as succeeding; there is no rollback.
- A transfer reads both balances before either write, and nothing stops a user sending to their own
  number. In that case the credit overwrites the debit and the balance grows by the amount (see Findings).
- The transaction types are the code's `sent`, `received`, `add_money`, `bill` and `merchant`. A metro
  ticket is a `bill` row.
- The PIN dialog has no separate `locked` state. Its Verify button is disabled while `attempts >= 3`.
  Only Cancel resets the count; a correct PIN also resets it when attempts are below 3.
- The memo round trip needs a little more than "from has no ` to `". The origin must not contain
  ` to ` after its first character, and it must not end in ` t`, ` to` or ` ` in a way that forms
  ` to ` with the separator that follows (`SafeFrom`). The destination must not contain ` (` after its
  first character (`SafeTo`).

## Model

| member | source | states |
|---|---|---|
| `Store.Database.Balance` | src/pages/BillPay.jsx:52-56 | The balance query returns a value exactly when the user row exists, and that value is the row's balance; in a valid database it is never negative. |
| `Store.Database.FindByMobile` | src/pages/SendMoney.jsx:85-89 | `.eq("mobile", m).single()` returns a user exactly when that user is the only row with mobile `m`, and returns nothing otherwise. |
| `Store.Database.SetBalance` | src/pages/BillPay.jsx:65-68 | An update writes the balance of the named row only, leaves a missing row alone, and keeps the ledger and the non-negative-balance invariant. |
| `Store.Database.Insert` | src/pages/BillPay.jsx:71-77 | An insert appends exactly one row, stamped with the database clock, and changes no balance. |
| `Store.Database.InsertUser` | src/pages/KYC.jsx:65-75 | Account creation either is refused with the table unchanged, or adds one row under a fresh id. |
| `Store.Debit` | src/pages/BillPay.jsx:52-77 | The shared debit succeeds exactly when the row exists and holds at least the amount. On failure nothing changes. On success the balance drops by the amount, one row is appended, and the total over all users drops by the amount. |
| `Store.TotalUpdate` | src/pages/SendMoney.jsx:97-107 | Writing one balance changes the sum of all balances by exactly the difference. |
| `Store.TotalMove` | src/pages/SendMoney.jsx:97-107 | Debiting one account and crediting a different one by the same amount keeps the sum of all balances. |
| `Store.TotalOverwrite` | src/pages/SendMoney.jsx:97-107 | When both writes hit the same account, only the second counts toward the sum of balances. |
| `Metro.IndexOf` | src/pages/MetroBooking.jsx:65-66 | `indexOf` gives -1 exactly when the station is absent, and otherwise the first index holding it. |
| `Metro.FareOn` | src/pages/MetroBooking.jsx:61-79 | On a station list, the fare is 0 unless both stations are non-empty, distinct and on the list; a priced fare is a multiple of 5 in [5, 30]. |
| `Metro.CalculateFare` | src/pages/MetroBooking.jsx:61-79 | The fare is 0 when the line is missing, a station is missing, the stations are equal or one is not on the line; otherwise it is a multiple of 5 in [5, 30]. |
| `Metro.FareBounds` | src/pages/MetroBooking.jsx:70-79 | For 1 <= distance <= total, `5 * round(1 + 5d/t)` already lies in [5, 30], so the clamp never changes it; the full-length journey costs 30. |
| `Metro.FareSymmetric` | src/pages/MetroBooking.jsx:70 | The fare from a to b equals the fare from b to a on every line table. |
| `Metro.FareEndToEnd` | src/pages/MetroBooking.jsx:71-79 | On each of the four shipped lines, first station to last station costs 30. |
| `Metro.LinesWellFormed` | src/pages/MetroBooking.jsx:22-59 | Every shipped line has at least two stations, no empty station name, and a last station that appears nowhere else on it. |
| `Metro.DiscountedFare` | src/pages/MetroBooking.jsx:127 | The charge is the integer nearest to 90% of the fare, with halves rounded up (`Math.round(fare * 0.9)`). |
| `Metro.DiscountTable` | src/pages/MetroBooking.jsx:127 | Fares 5, 10, 15, 20, 25 and 30 charge 5, 9, 14, 18, 23 and 27. |
| `Metro.MetroBookingPage.constructor` | src/pages/MetroBooking.jsx:13-20 | The page starts with no line, no stations, fare 0, no ticket and a closed PIN dialog with no failed attempts. |
| `Metro.MetroBookingPage.LineChange` | src/pages/MetroBooking.jsx:98-103 | Choosing a line selects it, clears both stations and resets the fare to 0. |
| `Metro.MetroBookingPage.StationChange` | src/pages/MetroBooking.jsx:82-96 | Choosing a station sets that end only. When the other end is already chosen, the fare is recomputed for the new pair; otherwise it is kept. |
| `Metro.MetroBookingPage.InitiateBooking` | src/pages/MetroBooking.jsx:105-123 | Without a session user the page goes to login; without a line and both stations it asks for them; with equal stations it refuses. Otherwise it opens the PIN dialog and keeps its attempt count. |
| `Metro.MetroBookingPage.Booking` | src/pages/MetroBooking.jsx:125-190 | The charge is positive. The booking succeeds exactly when the user row exists and holds at least the discounted fare. On failure the balance, ledger and ticket are unchanged. On success the balance drops by exactly the charge and one `bill` row is appended with counterparty `Aamar Kolkata Metro` and note `Metro: <from> to <to> (<line>)`. A ticket valid for 45 minutes is issued and the dialog closes. |
| `Metro.MetroBookingPage.SubmitPin` | src/pages/MetroBooking.jsx:369-374 | The dialog approves exactly when the PIN typed is `1234`, and the booking runs exactly then. A PIN that is not approved changes the dialog as `Verify` states and leaves balance, ledger and ticket alone. An approved PIN clears the PIN and the attempt count; the booking then has exactly the effect `Booking` states, from the state before the press. |
| `PinVerification.PinGate.constructor` | src/components/ui/PinVerification.jsx:15-16 | The dialog starts with an empty PIN and zero attempts. |
| `PinVerification.PinGate.Type` | src/components/ui/PinVerification.jsx:68-71 | The four-slot input sets the PIN and nothing else. |
| `PinVerification.PinGate.Show` | src/pages/MerchantPay.jsx:45 | Opening the dialog keeps the PIN and the attempt count. |
| `PinVerification.PinGate.Close` | src/pages/MetroBooking.jsx:186 | Closing the dialog keeps the PIN and the attempt count. |
| `PinVerification.PinGate.Verify` | src/components/ui/PinVerification.jsx:18-44 | A PIN of length other than 4 changes nothing. A wrong 4-digit PIN adds exactly one attempt and clears the PIN. Below 3 attempts the dialog stays open and reports 3 - attempts remaining; the third failure closes it and leaves attempts at 3. A correct PIN clears the PIN, resets attempts to 0 and approves, which is the single call of `onSuccess`. Verify can only be pressed below 3 attempts. |
| `PinVerification.PinGate.Cancel` | src/components/ui/PinVerification.jsx:46-50 | Cancel clears the PIN, resets attempts to 0 and closes the dialog. |
| `PinVerification.ThreeWrongPinsLock` | src/components/ui/PinVerification.jsx:24-33 | Three consecutive wrong 4-digit PINs from a fresh dialog end with attempts at 3, an empty PIN and the dialog closed. |
| `PinVerification.CorrectPinAfterFailures` | src/components/ui/PinVerification.jsx:24-43 | After one or two wrong PINs the correct PIN is still approved: the press returns `Approved`, and the count starts over at 0. |
| `Text.KeepDigitsSpec` | src/pages/Login.jsx:68 | `replace(/\D/g, "")` yields only digits, is no longer than its input, leaves an all-digit string unchanged and is idempotent. |
| `Text.ToLower` | src/pages/History.jsx:49 | Lower-casing keeps the length and maps each character on its own. No capital letter is left, and a string without capitals is unchanged. |
| `Text.CaseIdempotent` | src/pages/History.jsx:49-51 | Lower-casing twice equals lower-casing once, and the same holds for upper-casing. |
| `Text.CaseFoldsAgree` | src/pages/History.jsx:49-51 | Lower-casing after upper-casing equals lower-casing alone, and the reverse also holds, so the two agree on which strings are equal ignoring case. |
| `Text.ToUpper` | src/pages/MerchantPay.jsx:140 | Upper-casing keeps the length and maps each character on its own. No small letter is left, and a string without small letters is unchanged. |
| `Text.OrElse` | src/pages/SendMoney.jsx:44 | The JavaScript or-fallback gives a present, non-empty string back unchanged. Otherwise it gives the default, so the result is always one of the two. A non-empty default makes the result non-empty. |
| `Text.NullIfEmpty` | src/pages/SendMoney.jsx:116 | The stored note is never the empty string. Reading it back with `|| ""` recovers the note typed. |
| `Seqs.Filter` | src/pages/History.jsx:39-44 | `Array.prototype.filter` returns no more elements than it was given, and every element it returns passes the predicate. |
| `Mobile.WithCountryCode` | src/pages/SendMoney.jsx:24 | The formatted number always starts with `+91`. A number already starting with `+91` is kept; any other number gets the prefix. |
| `Mobile.WithCountryCodeIdempotent` | src/pages/Login.jsx:21 | Prefixing twice is the same as prefixing once. |
| `Mobile.DigitEntryAccepted` | src/pages/Login.jsx:15-23 | For a digits-only entry, `/^\+91[0-9]{10}$/` accepts the prefixed number exactly when ten digits were entered. This is the same as the transfer page's length-13 check. |
| `Mobile.TypedEntryAccepted` | src/pages/Login.jsx:68 | Whatever is typed, the login number is accepted exactly when the input holds ten digits. |
| `SendMoney.Posted` | src/pages/SendMoney.jsx:97-107 | The two writes keep the set of users. For two different users the sender loses and the recipient gains the amount; for one user, the balance ends at old + amount. |
| `SendMoney.PostedFrame` | src/pages/SendMoney.jsx:97-107 | Only balances change: every other user is kept, and every user keeps their mobile, name, email and KYC status. |
| `SendMoney.SelfPosted` | src/pages/SendMoney.jsx:97-107 | With one account on both sides, the two writes amount to a single write of old + amount: the credit overwrites the debit. |
| `SendMoney.PostedConserves` | src/pages/SendMoney.jsx:70-107 | Between two different accounts the two writes keep the sum of all balances. |
| `SendMoney.SelfTransferMints` | src/pages/SendMoney.jsx:70-107 | Sending to one's own account leaves the balance at old + amount, so the sum of balances grows by the amount. |
| `SendMoney.Transfer` | src/pages/SendMoney.jsx:97-107 | The intended transfer refuses exactly the transfers whose sender is also the recipient. |
| `SendMoney.TransferConserves` | src/pages/SendMoney.jsx:97-107 | Every transfer the intended definition accepts moves the amount from sender to recipient and keeps the total. |
| `SendMoney.SendMoneyPage.constructor` | src/pages/SendMoney.jsx:14-18 | The page starts with no number, no recipient, no amount and an empty note. |
| `SendMoney.SendMoneyPage.ChangeMobile` | src/pages/SendMoney.jsx:169-173 | Typing a number keeps its digits and forgets any earlier lookup. |
| `SendMoney.SendMoneyPage.ChangeAmount` | src/pages/SendMoney.jsx:208 | The amount input sets the parsed amount and nothing else. |
| `SendMoney.SendMoneyPage.ChangeNote` | src/pages/SendMoney.jsx:235 | The note input sets the note and nothing else. |
| `SendMoney.SendMoneyPage.Lookup` | src/pages/SendMoney.jsx:23-47 | A prefixed number whose length is not 13 is rejected with no change. A number held by no single user clears `recipientFound` and the name. Otherwise the recipient is found and named by `full_name`, or `EasyPay User` without one. |
| `SendMoney.SendMoneyPage.Move` | src/pages/SendMoney.jsx:97-107 | The two balance writes, each from the balance read before either, give exactly `Posted`. |
| `SendMoney.SendMoneyPage.Post` | src/pages/SendMoney.jsx:97-127 | The transfer's writes and inserts give the `Posted` balances plus exactly two rows: `sent` on the sender and `received` on the recipient. Both carry the same amount, note and timestamp, and each names the other side. |
| `SendMoney.SendMoneyPage.Send` | src/pages/SendMoney.jsx:49-131 | The checks run in the page's order: session, lookup done, amount positive, sender balance sufficient, recipient re-resolved. The recipient is reported missing exactly when every earlier check passes and no user is the only holder of the recipient's number. Any failure leaves balances and ledger unchanged. On success the sender had at least the amount, the balances are `Posted`, and the two paired rows are appended. Between two different users this is the intended `Transfer` and keeps the total. |
| `AddMoney.GroupLayout` | src/pages/AddMoney.jsx:227 | Grouping a space-free number in fours puts a single space at every fifth position and nowhere else, and has the expected length. |
| `AddMoney.GroupUnspaced` | src/pages/AddMoney.jsx:226-228 | Removing the spaces from a grouping gives back the grouped digits. |
| `AddMoney.FormatCard` | src/pages/AddMoney.jsx:225-229 | The card formatter keeps the input's non-space characters in order and places a single space exactly at every fifth position. For `n` such characters the result has length `n + (n - 1) / 4`, or 0 when `n` is 0. |
| `AddMoney.FormatCardIdempotent` | src/pages/AddMoney.jsx:226-228 | Formatting an already formatted card number changes nothing. |
| `AddMoney.FormattedCardAccepted` | src/pages/AddMoney.jsx:80 | The card check accepts the formatted number exactly when the typed characters, without spaces, are the test card. |
| `AddMoney.FormatExpiry` | src/pages/AddMoney.jsx:242-248 | The expiry keeps digits only. Below two digits it is those digits; from two on it is `dd/` followed by at most the next two. It is never longer than 5 characters. |
| `AddMoney.ExpiryDigits` | src/pages/AddMoney.jsx:243-246 | The digits of a formatted expiry are the first four digits typed. |
| `AddMoney.FormatExpiryIdempotent` | src/pages/AddMoney.jsx:243-247 | Formatting an already formatted expiry changes nothing. |
| `AddMoney.Credit` | src/pages/AddMoney.jsx:97-124 | Without a user row nothing changes. Otherwise the balance grows by exactly the amount, one `add_money` row with that amount and note is appended, and the total grows by the amount. |
| `AddMoney.AddMoneyPage.constructor` | src/pages/AddMoney.jsx:13-16 | The form starts empty. |
| `AddMoney.AddMoneyPage.ChangeAmount` | src/pages/AddMoney.jsx:165 | The amount input sets the parsed amount and nothing else. |
| `AddMoney.AddMoneyPage.ChangeCard` | src/pages/AddMoney.jsx:225-229 | The card input stores the formatted number. |
| `AddMoney.AddMoneyPage.ChangeExpiry` | src/pages/AddMoney.jsx:242-248 | The expiry input stores the formatted expiry. |
| `AddMoney.AddMoneyPage.ChangeCvv` | src/pages/AddMoney.jsx:260 | The CVV input keeps only the digits typed. |
| `AddMoney.AddMoneyPage.FormCheck` | src/pages/AddMoney.jsx:74-93 | The form checks run in order: a positive amount, then the test card without spaces, then CVV `123`, then a non-empty expiry. Each outcome holds exactly when the earlier checks pass and its own fails. |
| `AddMoney.AddMoneyPage.AddMoney` | src/pages/AddMoney.jsx:67-128 | Without a session user the page goes to login, and a failed form check is reported as such. `Failed to fetch balance` is reported exactly when the form passes but the user's row is missing. Any failure leaves balances and ledger unchanged. On success the balance grows by the amount and one `add_money` row with note `Added via Card` is appended. |
| `AddMoney.AddMoneyPage.DevModeAdd` | src/pages/AddMoney.jsx:25-65 | Without a session user the page goes to login, and with a missing user row it reports `Failed to fetch balance`; then nothing changes. With a session user whose row exists, the balance grows by exactly 500 rupees and one `add_money` row of 500 with note `Added via Development Mode` is appended. |
| `BillPay.ProvidersDisjoint` | src/pages/BillPay.jsx:25-29 | No provider is listed under two categories. |
| `BillPay.BillPayPage.constructor` | src/pages/BillPay.jsx:13-16 | The form starts empty. |
| `BillPay.BillPayPage.SelectCategory` | src/pages/BillPay.jsx:116-119 | Choosing a category selects it and clears the provider. |
| `BillPay.BillPayPage.SelectProvider` | src/pages/BillPay.jsx:140 | A provider can only be chosen from the selected category's list. |
| `BillPay.BillPayPage.ChangeAccountNumber` | src/pages/BillPay.jsx:161 | The account input sets the account number and nothing else. |
| `BillPay.BillPayPage.ChangeAmount` | src/pages/BillPay.jsx:177 | The amount input sets the parsed amount and nothing else. |
| `BillPay.BillPayPage.Pay` | src/pages/BillPay.jsx:31-82 | The page goes to login without a session user. It rejects an empty category, provider or account number, then a non-positive amount, then a missing row or a balance below the amount; each failure leaves balances and ledger unchanged. On success the balance drops by exactly the amount and stays non-negative. One `bill` row is appended with counterparty `<provider> - <category>` and note `<category> payment for <account>`. |
| `MerchantPay.Find` | src/pages/MerchantPay.jsx:68 | `find` returns the first entry with the id, or reports that none has it. |
| `MerchantPay.KnownMerchants` | src/pages/MerchantPay.jsx:20-24 | The three listed ids resolve to their names, and any other id resolves to itself. |
| `MerchantPay.MerchantPayPage.constructor` | src/pages/MerchantPay.jsx:14-17 | The form starts empty with the PIN dialog closed. |
| `MerchantPay.MerchantPayPage.ChangeMerchantId` | src/pages/MerchantPay.jsx:140 | The merchant id is stored upper-cased. |
| `MerchantPay.MerchantPayPage.SelectMerchant` | src/pages/MerchantPay.jsx:152 | A quick-select button stores that merchant's id. |
| `MerchantPay.MerchantPayPage.ChangeAmount` | src/pages/MerchantPay.jsx:179 | The amount input sets the parsed amount and nothing else. |
| `MerchantPay.MerchantPayPage.InitiatePay` | src/pages/MerchantPay.jsx:26-46 | The PIN dialog opens exactly when there is a session user, a non-blank merchant id and a positive amount. The checks run in that order. |
| `MerchantPay.MerchantPayPage.Pay` | src/pages/MerchantPay.jsx:48-89 | The payment succeeds exactly when the user row exists and holds at least the amount; otherwise nothing changes. On success the balance and the total over all users drop by the amount. One `merchant` row is appended with the merchant id, the resolved name and note `Payment to <name>`. |
| `MerchantPay.MerchantPayPage.SubmitPin` | src/pages/MerchantPay.jsx:207-212 | The dialog changes exactly as `Verify` states, and the payment runs exactly when the PIN is approved. A PIN that is not approved changes neither balance nor ledger. An approved PIN has exactly the effect `Pay` states: paid when the row holds at least the amount, one `merchant` row appended, the total down by the amount. |
| `History.ViewIsFilter` | src/pages/History.jsx:35-56 | The bucket filter followed by the search is one order-preserving filter by "in the bucket and matching the query". |
| `History.ViewAllUnfiltered` | src/pages/History.jsx:36-55 | With `all` and an empty query the list is shown unchanged. |
| `History.ViewMembers` | src/pages/History.jsx:38-53 | A row is shown exactly when it was loaded, is in the bucket, and matches the query when there is one. |
| `History.ViewIsSubsequence` | src/pages/History.jsx:36-55 | The shown list is a subsequence of the loaded list. |
| `History.ViewIdempotent` | src/pages/History.jsx:36-55 | Applying the same bucket and query to the shown list changes nothing. |
| `History.ViewNewestFirst` | src/pages/History.jsx:35-56 | A newest-first loaded list stays newest-first after filtering. |
| `History.FieldMatchIgnoresCase` | src/pages/History.jsx:49-50 | The case of the query does not matter for name and merchant-id matches. |
| `History.LoadedNewestFirst` | src/pages/History.jsx:58-63 | The loaded rows are exactly the user's rows, ordered newest first by `created_at`. |
| `History.MetroRowsRecognised` | src/pages/History.jsx:89-91 | Every row the metro booking writes is recognised as a metro ticket. |
| `History.SelectedTicket` | src/pages/History.jsx:93-98 | Clicking a row selects that row for the ticket dialog exactly when the page recognises it as a metro ticket; `History.SelectedBookingShowsTrip` states what the dialog then shows. |
| `History.SelectedBookingShowsTrip` | src/pages/History.jsx:93-98 | Clicking a Purple or Orange Line booking row opens the ticket dialog on exactly the booked origin, destination and line, valid 45 minutes from `created_at`. |
| `History.BucketsBySign` | src/pages/History.jsx:150 | The `received` bucket holds exactly the credits, and the `sent` and `bills` buckets together hold exactly the debits. |
| `History.DisplayName` | src/pages/History.jsx:151 | The label falls back from name to merchant id to type, and is never empty. |
| `MetroTicket.LineGroup` | src/components/MetroTicketDialog.jsx:18 | `\((.+?)\)` matches from the opening bracket up to a closing `)` with no line terminator before it. |
| `MetroTicket.ToGroup` | src/components/MetroTicketDialog.jsx:18 | A destination group and line group it returns match the text. |
| `MetroTicket.FromGroup` | src/components/MetroTicketDialog.jsx:18 | The three groups it returns match the text. |
| `MetroTicket.Search` | src/components/MetroTicketDialog.jsx:18 | A match it returns starts at or after the given position and matches the text. |
| `MetroTicket.CloseAfterLeast` | src/components/MetroTicketDialog.jsx:18 | The lazy line group ends at the first `)`. When it finds none, the group can end nowhere. |
| `MetroTicket.LineGroupLeast` | src/components/MetroTicketDialog.jsx:18 | `\((.+?)\)` ends at the earliest closing `)` it may end at, and fails only when it can end nowhere. |
| `MetroTicket.ToGroupLeast` | src/components/MetroTicketDialog.jsx:18 | The lazy destination group takes the shortest span after which ` (` and the line group match. Within it, the line group is the shortest. When it fails, nothing matches. |
| `MetroTicket.ToStartLeast` | src/components/MetroTicketDialog.jsx:18 | From the start of the destination, the same: the first pair of group ends in the engine's order, or none exists. |
| `MetroTicket.FromGroupLeast` | src/components/MetroTicketDialog.jsx:18 | The lazy origin group takes the shortest span after which the rest matches, then the shortest destination, then the shortest line. When it fails, nothing matches. |
| `MetroTicket.FromStartLeast` | src/components/MetroTicketDialog.jsx:18 | From the start of the origin, the same: the first triple of group ends in the engine's order, or none exists. |
| `MetroTicket.SearchLeast` | src/components/MetroTicketDialog.jsx:18 | `match` without the global flag returns the first match in the engine's order: leftmost start, then the shortest groups from left to right. It returns nothing only when no match starts at or after the position. |
| `MetroTicket.ParseFirstMatch` | src/components/MetroTicketDialog.jsx:16-28 | `parseMetroDetails` returns details exactly when the note holds some match, and they are the captures of the first match in the engine's order. |
| `MetroTicket.Parse` | src/components/MetroTicketDialog.jsx:16-28 | When `parseMetroDetails` returns three parts, each is non-empty and the note contains `Metro: <from> to <to> (<line>)` spelled from exactly those parts. |
| `MetroTicket.ParseMemo` | src/components/MetroTicketDialog.jsx:18-25 | A booking note built from readable parts, followed by anything, reads back with origin and destination whole and the line cut at its first later `)`. |
| `MetroTicket.ParseMemoRoundTrip` | src/components/MetroTicketDialog.jsx:18-25 | The round trip: a note from readable parts whose line has no later `)` reads back as exactly those parts. |
| `MetroTicket.ParseCutsBracketedLine` | src/components/MetroTicketDialog.jsx:18 | A line name ending in its only later `)` reads back without that bracket. |
| `MetroTicket.StationsPlain` | src/pages/MetroBooking.jsx:22-59 | Every shipped station name is safe on either side of ` to `. |
| `MetroTicket.StationsUnbracketed` | src/pages/MetroBooking.jsx:31 | `Kavi Subhash (New Garia)` is the only station name with a bracket. |
| `MetroTicket.PurpleTicketsRoundTrip` | src/pages/MetroBooking.jsx:43-49 | Purple Line tickets read back exactly as booked. |
| `MetroTicket.OrangeTicketsRoundTrip` | src/pages/MetroBooking.jsx:51-57 | Orange Line tickets read back exactly as booked. |
| `MetroTicket.GreenTicketsLoseBracket` | src/pages/MetroBooking.jsx:35 | Green Line tickets read back with the line `Green Line (East-West`. |
| `MetroTicket.BlueTicketsLoseBracket` | src/pages/MetroBooking.jsx:24 | Blue Line tickets to any station but `Kavi Subhash (New Garia)` read back with the line `Blue Line (North-South`. |
| `MetroTicket.BracketedDestinationTicket` | src/pages/MetroBooking.jsx:31 | A Blue Line ticket to `Kavi Subhash (New Garia)` reads back with destination `Kavi Subhash` and line `New Garia`. |
| `MetroTicket.ParseBooked` | src/components/MetroTicketDialog.jsx:16-28 | The corrected reading, which uses the known line names: whatever it returns spells the note exactly and names a known line. |
| `MetroTicket.BookedRoundTrip` | src/components/MetroTicketDialog.jsx:16-28 | With unambiguous line names, the corrected reading inverts the booking note for every safe origin. |
| `MetroTicket.LineNamesUnambiguous` | src/pages/MetroBooking.jsx:22-59 | No shipped line's bracketed name ends another's. |
| `MetroTicket.BookedTicketsRoundTrip` | src/pages/MetroBooking.jsx:156 | With the corrected reading, every ticket of every shipped line reads back exactly as booked. |
| `MetroTicket.RenderNeedsMemo` | src/components/MetroTicketDialog.jsx:17-31 | A row without a note, or whose note never contains `Metro: `, renders nothing. |
| `MetroTicket.RenderOfNote` | src/components/MetroTicketDialog.jsx:30-35 | A row whose note parses renders those details, the amount, and a validity of `created_at` + 45 minutes. |
| `MetroTicket.RenderPlainBooking` | src/components/MetroTicketDialog.jsx:33-35 | A Purple or Orange Line booking row renders the booked trip, valid 45 minutes from `created_at`. |
| `EnterPin.EnterPinPage.constructor` | src/pages/EnterPin.jsx:12-14 | The page starts with an empty PIN, zero attempts and no number. |
| `EnterPin.EnterPinPage.Mount` | src/pages/EnterPin.jsx:16-23 | Without a stored number (null or empty) the page goes back to login; otherwise it takes the stored number. |
| `EnterPin.EnterPinPage.Type` | src/pages/EnterPin.jsx:96 | The four-slot input sets the PIN and nothing else. |
| `EnterPin.EnterPinPage.Login` | src/pages/EnterPin.jsx:25-66 | A PIN of length other than 4 is rejected without counting. A wrong PIN adds one attempt, clears the PIN and reports 3 - attempts remaining; the third locks the page. A correct PIN with no single matching user writes nothing to the session. Otherwise it stores id, mobile and name, defaulting to `User`. Login only runs below 3 attempts, and no path lowers the count. |
| `EnterPin.ThreeWrongPinsLock` | src/pages/EnterPin.jsx:31-39 | Three wrong 4-digit PINs lock the page and log no one in. |
| `Settings.ChangePinPanel.constructor` | src/pages/Settings.jsx:22-26 | The panel starts closed, in step `current`, with all three PINs empty. |
| `Settings.ChangePinPanel.Open` | src/pages/Settings.jsx:109 | Opening the panel keeps its step and PINs. |
| `Settings.ChangePinPanel.Type` | src/pages/Settings.jsx:127-140 | The input edits only the PIN of the current step. |
| `Settings.ChangePinPanel.Continue` | src/pages/Settings.jsx:31-58 | In `current`, a wrong PIN clears it and stays, and the right PIN moves to `new`. In `new`, a length other than 4 stays and 4 digits move to `confirm`. In `confirm`, a mismatch clears only the confirmation. A match clears all three PINs, returns to `current` and closes the panel. Steps only advance current → new → confirm. |
| `Settings.ChangePinPanel.Cancel` | src/pages/Settings.jsx:154-160 | Cancel from any step gives the initial closed state. |
| `Settings.ChangeInThreeSteps` | src/pages/Settings.jsx:31-58 | The right current PIN and a 4-digit new PIN entered twice complete the change and leave the initial state. |
| `SetPin.SetPinPage.constructor` | src/pages/SetPin.jsx:11-13 | The page starts in step `set` with both PINs empty. |
| `SetPin.SetPinPage.Type` | src/pages/SetPin.jsx:67-68 | The input edits only the PIN of the current step. |
| `SetPin.SetPinPage.Continue` | src/pages/SetPin.jsx:15-35 | In `set`, a length other than 4 stays and 4 digits move to `confirm`. In `confirm`, a length other than 4 changes nothing, and a mismatch clears only the confirmation. A match goes on to KYC. |
| `SetPin.SetPinPage.Back` | src/pages/SetPin.jsx:41 | Back goes to the OTP page from `set`, and from `confirm` returns to `set` keeping the first PIN. |
| `Otp.CheckCode` | src/pages/OTP.jsx:28-41 | A code whose length is not 6 is incomplete, a 6-character code other than `123456` is invalid, and the right code routes to PIN setup exactly for a new user and to PIN entry otherwise. |
| `Otp.OtpPage.constructor` | src/pages/OTP.jsx:11-13 | The page starts with an empty code. |
| `Otp.OtpPage.Mount` | src/pages/OTP.jsx:15-26 | Without a stored number (null or empty) the page goes back to login. Otherwise it takes the number and reads the new-user flag as `"true"`. |
| `Otp.OtpPage.Type` | src/pages/OTP.jsx:76 | The six-slot input sets the code and nothing else. |
| `Otp.OtpPage.Resend` | src/pages/OTP.jsx:43-46 | Resend clears the entered code. |
| `Otp.NewUserFlagRoundTrip` | src/pages/OTP.jsx:17 | The flag written as `toString()` reads back as the value chosen. |
| `Otp.LoginThenOtp` | src/pages/OTP.jsx:15-26 | After a ten-digit login, the OTP page shows the prefixed number and the new-user choice made at login, and the right code routes by that choice. |
| `Login.LoginPage.constructor` | src/pages/Login.jsx:12-13 | The page starts with no number and the existing-user choice. |
| `Login.LoginPage.ChangeMobile` | src/pages/Login.jsx:68 | The input keeps only the digits typed. |
| `Login.LoginPage.ToggleNewUser` | src/pages/Login.jsx:83 | The toggle flips `isNewUser`. |
| `Login.LoginPage.Continue` | src/pages/Login.jsx:20-32 | The number is accepted exactly when the regex accepts the prefixed number, which is exactly when ten digits were entered. On acceptance the session stores the prefixed number and the new-user flag; on rejection the session is unchanged. |
| `Kyc.KycPage.constructor` | src/pages/KYC.jsx:13-14 | The form starts empty. |
| `Kyc.KycPage.ChangeFullName` | src/pages/KYC.jsx:117 | The name input sets the name. |
| `Kyc.KycPage.ChangeEmail` | src/pages/KYC.jsx:128 | The email input sets the email. |
| `Kyc.KycPage.Open` | src/pages/KYC.jsx:65-85 | A refused insert leaves the table and session unwritten. Otherwise one account is added under a fresh id, the total grows by its balance, and the session records id, mobile and name. |
| `Kyc.KycPage.Submit` | src/pages/KYC.jsx:51-89 | A blank name is rejected before anything else. A stored number that is null or empty sends the user to login and creates nothing. Otherwise an account is created with balance 1000 rupees, status `pending` and email or null, and the session name is the full name. |
| `Kyc.KycPage.Skip` | src/pages/KYC.jsx:17-49 | A stored number that is null or empty sends the user to login and creates nothing. Otherwise an account is created with balance 1000 rupees and status `skipped`, and the session name is `User`. |

## Findings

| source | as written | input that shows it | evidently intended | confidence | as-written member | corrected member |
|---|---|---|---|---|---|---|
| src/pages/SendMoney.jsx:70-107 | The sender's and the recipient's new balances are both computed from balances read before either write, and the recipient may be the sender. | A user with balance 500 sends 100 to their own number: the balance becomes 600. | A transfer moves money between two accounts and keeps the total. A transfer to oneself is refused. | high; not executed | `SendMoney.SelfTransferMints` | `SendMoney.TransferConserves` |
| src/components/MetroTicketDialog.jsx:18 | The lazy groups stop the line at the first `)` and the destination at the first ` (`. | A Blue Line ticket shows line `Blue Line (North-South`, and a ticket to `Kavi Subhash (New Garia)` shows destination `Kavi Subhash` and line `New Garia`. | The dialog shows the route exactly as booked. | high; not executed | `MetroTicket.BracketedDestinationTicket` | `MetroTicket.BookedTicketsRoundTrip` |

The page models keep the code's behaviour: `SendMoney.SendMoneyPage.Send` posts a self-transfer as written, and
`MetroTicket.Render` reads notes with the code's expression. `SendMoney.SendMoneyPage.Send` states that every
transfer between two different users is exactly the corrected `SendMoney.Transfer`.

## Left out

- Supabase calls are modelled as the in-memory `Store.Database`. Errors from `update` and `insert` are ignored
  by the pages, so every write succeeds in the model; only account creation can be refused (a parameter).
- Asynchronous interleaving is not modelled. Each handler is one sequential step, so races between tabs are
  out of scope.
- Amounts are integers in paise, not JavaScript floats. `parseFloat` of an amount field is an `Option<int>`
  already in paise, with `None` for NaN. The fare calculator's `Math.round` is exact integer arithmetic.
- Dates, `toLocaleString`, QR image URLs, `toast`, `navigate` and `setTimeout` are left out. Handlers return
  outcome values, and times are integers in milliseconds passed in as parameters.
- The `isProcessing` flag is left out. It only disables buttons while a request is in flight, and the model has
  no concurrency.
- Hard-coded secrets (`1234`, `123456`, the test card and CVV) are constants. Credential storage is not modelled.
- The regular expressions' `.` excludes `\n`, `\r`, U+2028 and U+2029, and `\s` is JavaScript's white-space
  class. Strings are sequences of Unicode characters; JavaScript's UTF-16 code units differ from them only outside the Basic Multilingual Plane.
- `Text.ToLower`: maps only ASCII letters, whereas `toLowerCase` also maps other scripts; the history search is
  modelled on ASCII case only.
- `Text.ToUpper`: maps only ASCII letters, whereas `toUpperCase` also maps other scripts.
- `Metro.MetroBookingPage.InitiateBooking`, `Metro.MetroBookingPage.StationChange` and the other page-input
  methods require the PIN dialog to be closed, because the modal dialog blocks the page beneath it.
- The metro fare is computed in rupees and charged as rupees times 100 paise.
- The ticket dialog's `open`/`onOpenChange` props and the history page's `showMetroTicket` flag are UI state
  and are not modelled; `MetroTicket.Render` is what the dialog shows for a transaction.
- src/pages/Dashboard.jsx is not part of this model: it only fetches and renders, and its sign and label
  rule is the one `History.BucketsBySign` and `History.DisplayName` state.
- src/pages/Welcome.jsx, src/pages/NotFound.jsx, src/App.jsx and src/pages/Index.jsx are pure UI and routing.
- Settings' logout and the other navigation-only buttons are not modelled.
- The `maxLength` caps of the card (19), expiry (5) and CVV (3) inputs in src/pages/AddMoney.jsx, and of the number inputs at src/pages/Login.jsx:66 and src/pages/SendMoney.jsx:167 (10), are not modelled. The model accepts longer typed values, and the number and card checks reject them. The PIN (4) and code (6) caps are kept as requirements of the `Type` methods.
- `SendMoney.SendMoneyPage.Post`: stamps both transfer rows with the same clock value. The database stamps each insert with its own `created_at`, so the two rows may differ by a few milliseconds.
