/** Metro ticket booking (src/pages/MetroBooking.jsx): the line table, the fare
    calculator with its 10% discount, and the page that books a ticket behind the PIN dialog. */
module Metro {
  import opened Wrappers
  import opened Store
  import opened PinVerification

  datatype LineId = Blue | Green | Purple | Orange

  datatype MetroLine = MetroLine(name: string, stations: seq<string>)

  function BlueStations(): seq<string> {
    ["Dakshineswar", "Baranagar", "Noapara", "Belgachia", "Shyambazar",
     "Shobhabazar Sutanuti", "Girish Park", "Mahatma Gandhi Road", "Central",
     "Chandni Chowk", "Esplanade", "Park Street", "Maidan", "Rabindra Sadan",
     "Netaji Bhawan", "Jatin Das Park", "Gitanjali", "Kavi Nazrul",
     "Ghatak Pukur", "Sonarpur", "Kamalgachi", "Kavi Subhash (New Garia)"]
  }

  function GreenStations(): seq<string> {
    ["Sector V", "Salt Lake Stadium", "Central Park", "City Centre",
     "Bidhannagar Road", "Phoolbagan", "Sealdah", "B.B.D. Bag",
     "Esplanade", "Mahakaran", "Howrah", "Howrah Maidan"]
  }

  function PurpleStations(): seq<string> {
    ["Joka", "Thakurpukur", "Majerhat", "Kidderpore", "Park Circus", "Esplanade"]
  }

  function OrangeStations(): seq<string> {
    ["New Garia", "Hemanta Mukhopadhyay", "Bansdroni", "Naktala", "Metropolitan", "Kudghat"]
  }

  function LineName(id: LineId): string {
    match id
    case Blue => "Blue Line (North-South)"
    case Green => "Green Line (East-West)"
    case Purple => "Purple Line"
    case Orange => "Orange Line"
  }

  function Stations(id: LineId): seq<string> {
    match id
    case Blue => BlueStations()
    case Green => GreenStations()
    case Purple => PurpleStations()
    case Orange => OrangeStations()
  }

  /** `metroLines[id]`. */
  function Line(id: LineId): MetroLine {
    MetroLine(LineName(id), Stations(id))
  }

  /** Every line has at least two stations, no station has an empty name, and the last
      station of a line appears nowhere else on it. */
  predicate WellFormed(stations: seq<string>) {
    |stations| >= 2 && "" !in stations
    && forall i | 0 <= i < |stations| - 1 :: stations[i] != stations[|stations| - 1]
  }

  lemma BlueWellFormed()
    ensures WellFormed(BlueStations())
  {
  }

  lemma GreenWellFormed()
    ensures WellFormed(GreenStations())
  {
  }

  lemma PurpleOrangeWellFormed()
    ensures WellFormed(PurpleStations()) && WellFormed(OrangeStations())
  {
  }

  lemma LinesWellFormed(id: LineId)
    ensures WellFormed(Stations(id))
  {
    match id
    case Blue => BlueWellFormed();
    case Green => GreenWellFormed();
    case Purple => PurpleOrangeWellFormed();
    case Orange => PurpleOrangeWellFormed();
  }

  /** The counterparty written on every metro ticket row. */
  const Operator := "Aamar Kolkata Metro"
  const MinFare := 5
  const MaxFare := 30
  const PaisePerRupee := 100
  /** A ticket is valid for 45 minutes, in milliseconds. */
  const TicketValidityMs := 45 * 60 * 1000

  /** `Array.prototype.indexOf`: the first index of `x`, or -1. */
  function IndexOf(s: seq<string>, x: string): (r: int)
    ensures -1 <= r < |s|
    ensures r == -1 <==> x !in s
    ensures r >= 0 ==> s[r] == x && forall i | 0 <= i < r :: s[i] != x
    decreases |s|
  {
    if s == [] then -1
    else if s[0] == x then 0
    else
      var r := IndexOf(s[1..], x);
      if r == -1 then -1 else r + 1
  }

  function Abs(x: int): nat {
    if x < 0 then -x else x
  }

  /** `Math.round(rawFare / 5) * 5` with `rawFare = 5 + (distance / total) * 25`.
      `Math.round(y)` is `floor(y + 1/2)`, and `rawFare / 5 + 1/2 = (3 * total + 10 * distance) / (2 * total)`. */
  function RoundedFare(distance: nat, total: nat): int
    requires total > 0
  {
    5 * ((3 * total + 10 * distance) / (2 * total))
  }

  /** The fare is priced: both stations are distinct and on the line. */
  predicate PriceableOn(stations: seq<string>, from: string, to: string) {
    from != "" && to != "" && from != to && from in stations && to in stations
  }

  /** The line table the page reads; `Line` is the one the application ships. */
  type Network = LineId -> MetroLine

  predicate Priceable(lines: Network, line: Option<LineId>, from: string, to: string) {
    line.Some? && PriceableOn(lines(line.value).stations, from, to)
  }

  /** The fare between two stations of a line with these stations, in rupees. */
  function FareOn(stations: seq<string>, from: string, to: string): (fare: int)
    ensures !PriceableOn(stations, from, to) ==> fare == 0
    ensures PriceableOn(stations, from, to) ==> MinFare <= fare <= MaxFare && fare % 5 == 0
  {
    if from == "" || to == "" || from == to then 0
    else
      var fromIndex := IndexOf(stations, from);
      var toIndex := IndexOf(stations, to);
      if fromIndex == -1 || toIndex == -1 then 0
      else
        var distance := Abs(toIndex - fromIndex);
        var total := |stations| - 1;
        FareBounds(distance, total);
        var fare := RoundedFare(distance, total);
        Max(MinFare, Min(MaxFare, fare))
  }

  /** `calculateFare`, in rupees. */
  function CalculateFare(lines: Network, line: Option<LineId>, from: string, to: string): (fare: int)
    ensures !Priceable(lines, line, from, to) ==> fare == 0
    ensures Priceable(lines, line, from, to) ==> MinFare <= fare <= MaxFare && fare % 5 == 0
  {
    if line.None? then 0 else FareOn(lines(line.value).stations, from, to)
  }

  function Max(a: int, b: int): int { if a < b then b else a }
  function Min(a: int, b: int): int { if a < b then a else b }

  lemma LtCancel(a: int, b: int, m: int)
    requires m > 0 && a * m < b * m
    ensures a < b
  {
  }

  lemma DivRange(n: int, m: int, lo: int, hi: int)
    requires m > 0 && lo * m <= n < (hi + 1) * m
    ensures lo <= n / m <= hi
  {
    var q := n / m;
    assert q * m <= n < (q + 1) * m;
    LtCancel(lo, q + 1, m);
    LtCancel(q, hi + 1, m);
  }

  /** Between two distinct stations the rounded fare already lies in [5, 30], so the clamp
      never changes it, and the longest journey costs the maximum. */
  lemma FareBounds(distance: nat, total: nat)
    requires 1 <= distance <= total
    ensures MinFare <= RoundedFare(distance, total) <= MaxFare
    ensures RoundedFare(distance, total) % 5 == 0
    ensures distance == total ==> RoundedFare(distance, total) == MaxFare
  {
    DivRange(3 * total + 10 * distance, 2 * total, 1, 6);
    if distance == total {
      DivRange(3 * total + 10 * distance, 2 * total, 6, 6);
    }
  }

  /** The distance is an absolute difference, so the fare does not depend on direction. */
  lemma FareSymmetric(lines: Network, line: Option<LineId>, a: string, b: string)
    ensures CalculateFare(lines, line, a, b) == CalculateFare(lines, line, b, a)
  {
  }

  lemma FareOnEnds(stations: seq<string>)
    requires WellFormed(stations)
    ensures FareOn(stations, stations[0], stations[|stations| - 1]) == MaxFare
  {
    var last := |stations| - 1;
    assert IndexOf(stations, stations[0]) == 0;
    assert IndexOf(stations, stations[last]) == last;
    FareBounds(last, last);
  }

  /** A journey from one end of a line to the other costs 30. */
  lemma FareEndToEnd(id: LineId)
    ensures var s := Line(id).stations; CalculateFare(Line, Some(id), s[0], s[|s| - 1]) == MaxFare
  {
    LinesWellFormed(id);
    FareOnEnds(Line(id).stations);
  }

  /** `Math.round(fare * 0.9)`: the nearest integer, halves rounded up. */
  function DiscountedFare(fare: int): (r: int)
    ensures 10 * r - 5 <= 9 * fare < 10 * r + 5
  {
    (9 * fare + 5) / 10
  }

  lemma DiscountTable()
    ensures DiscountedFare(5) == 5 && DiscountedFare(10) == 9 && DiscountedFare(15) == 14
    ensures DiscountedFare(20) == 18 && DiscountedFare(25) == 23 && DiscountedFare(30) == 27
  {
  }

  /** The note written on a ticket row. */
  function Memo(from: string, to: string, lineName: string): string {
    "Metro: " + from + " to " + to + " (" + lineName + ")"
  }

  datatype End = From | To

  /** The ticket shown after booking; times in milliseconds. */
  datatype Ticket = Ticket(from: string, to: string, line: string, fare: int, validUntil: int, bookedAt: int)

  datatype InitiateOutcome = ToLogin | SelectLineAndStations | SelectDifferentStations | PinRequested

  datatype BookingOutcome = InsufficientBalance | Booked

  class MetroBookingPage {
    var selectedLine: Option<LineId>
    var fromStation: string
    var toStation: string
    /** In rupees, before the discount. */
    var calculatedFare: int
    var ticket: Option<Ticket>
    const gate: PinGate
    /** `metroLines`. */
    const lines: Network

    ghost predicate Valid()
      reads this, gate
    {
      gate.Valid()
      && (fromStation != "" ==> selectedLine.Some? && fromStation in lines(selectedLine.value).stations)
      && (toStation != "" ==> selectedLine.Some? && toStation in lines(selectedLine.value).stations)
      && (fromStation != "" && toStation != "" ==>
            calculatedFare == CalculateFare(lines, selectedLine, fromStation, toStation))
      && (gate.open ==> RouteChosen())
    }

    predicate RouteChosen()
      reads this
    {
      selectedLine.Some? && fromStation != "" && toStation != "" && fromStation != toStation
    }

    /** The page over the line table `lines`; the application passes `Line`. */
    constructor (lines: Network)
      ensures Valid() && fresh(gate) && this.lines == lines
      ensures selectedLine.None? && fromStation == "" && toStation == "" && calculatedFare == 0
      ensures ticket.None? && !gate.open && gate.attempts == 0
    {
      selectedLine, fromStation, toStation, calculatedFare, ticket := None, "", "", 0, None;
      gate := new PinGate();
      this.lines := lines;
    }

    /** `handleLineChange`. The page is not reachable while the PIN dialog is open. */
    method LineChange(line: LineId)
      requires Valid() && !gate.open
      modifies this
      ensures Valid()
      ensures selectedLine == Some(line) && fromStation == "" && toStation == "" && calculatedFare == 0
      ensures ticket == old(ticket)
    {
      selectedLine := Some(line);
      fromStation := "";
      toStation := "";
      calculatedFare := 0;
    }

    /** `handleStationChange`; the buttons list the stations of the selected line. */
    method StationChange(end: End, station: string)
      requires Valid() && !gate.open
      requires selectedLine.Some? && station in lines(selectedLine.value).stations
      modifies this
      ensures Valid() && selectedLine == old(selectedLine) && ticket == old(ticket)
      ensures end == From ==> fromStation == station && toStation == old(toStation)
      ensures end == To ==> toStation == station && fromStation == old(fromStation)
      ensures var other := if end == From then old(toStation) else old(fromStation);
              if other == "" then calculatedFare == old(calculatedFare)
              else calculatedFare == CalculateFare(lines, selectedLine, fromStation, toStation)
    {
      if end == From {
        fromStation := station;
        if toStation != "" {
          calculatedFare := CalculateFare(lines, selectedLine, station, toStation);
        }
      } else {
        toStation := station;
        if fromStation != "" {
          calculatedFare := CalculateFare(lines, selectedLine, fromStation, station);
        }
      }
    }

    /** `handleInitiateBooking`: opens the PIN dialog for a complete route. */
    method InitiateBooking(session: Session) returns (outcome: InitiateOutcome)
      requires Valid()
      modifies gate
      ensures Valid()
      ensures outcome == ToLogin <==> session.userId.None?
      ensures outcome == SelectLineAndStations <==>
                session.userId.Some? && (selectedLine.None? || fromStation == "" || toStation == "")
      ensures outcome == PinRequested <==> session.userId.Some? && RouteChosen()
      ensures outcome == PinRequested ==> gate.open && gate.attempts == old(gate.attempts)
      ensures outcome != PinRequested ==> gate.open == old(gate.open)
      ensures gate.pin == old(gate.pin) && gate.attempts == old(gate.attempts)
    {
      if session.userId.None? {
        return ToLogin;
      }
      if selectedLine.None? || fromStation == "" || toStation == "" {
        return SelectLineAndStations;
      }
      if fromStation == toStation {
        return SelectDifferentStations;
      }
      gate.Show();
      return PinRequested;
    }

    /** The rupee fare charged for the chosen route, after the 10% discount. */
    function Charge(): int
      reads this
    {
      DiscountedFare(calculatedFare) * PaisePerRupee
    }

    /** The note on the ticket row of the chosen route. */
    function RouteMemo(): string
      reads this
      requires selectedLine.Some?
    {
      Memo(fromStation, toStation, lines(selectedLine.value).name)
    }

    /** What `handleBooking` does, measured from the state before it ran: the booking goes
        through exactly when the user's row holds at least the charge, and then the balance,
        the ticket row, the ticket and the dialog change as stated; otherwise nothing does. */
    twostate predicate BookingEffect(db: Database, session: Session, now: int, outcome: BookingOutcome)
      reads this, gate, db, session
      requires RouteChosen()
    {
      (outcome == Booked <==>
         session.userId.Some? && session.userId.value in old(db.users)
         && old(db.users)[session.userId.value].balance >= Charge())
      && (outcome == InsufficientBalance ==>
            db.users == old(db.users) && db.transactions == old(db.transactions)
            && ticket == old(ticket) && gate.open == old(gate.open))
      && (outcome == Booked ==>
            var uid := session.userId.value;
            db.users == Rebalanced(old(db.users), uid, old(db.users)[uid].balance - Charge())
            && db.transactions == old(db.transactions)
                 + [Transaction(uid, Bill, Charge(), Some(Operator), None, None, Some(RouteMemo()), old(db.clock))]
            && ticket == Some(Ticket(fromStation, toStation, lines(selectedLine.value).name,
                                     DiscountedFare(calculatedFare), now + TicketValidityMs, now))
            && !gate.open)
    }

    /** `handleBooking`, the PIN dialog's success continuation. `now` is the browser clock;
        the stored balance is read and then debited by the discounted fare. */
    method Booking(db: Database, session: Session, now: int) returns (outcome: BookingOutcome)
      requires Valid() && RouteChosen() && db.Valid()
      modifies this, gate, db
      ensures Valid() && db.Valid() && db.clock == old(db.clock)
      ensures selectedLine == old(selectedLine) && fromStation == old(fromStation)
      ensures toStation == old(toStation) && calculatedFare == old(calculatedFare)
      ensures gate.pin == old(gate.pin) && gate.attempts == old(gate.attempts)
      ensures Charge() > 0
      ensures BookingEffect(db, session, now, outcome)
    {
      if session.userId.None? {
        return InsufficientBalance;
      }
      var ok := Debit(db, Transaction(session.userId.value, Bill, Charge(), Some(Operator), None, None, Some(RouteMemo()), 0));
      if !ok {
        return InsufficientBalance;
      }
      ticket := Some(Ticket(fromStation, toStation, lines(selectedLine.value).name,
                            DiscountedFare(calculatedFare), now + TicketValidityMs, now));
      gate.Close();
      return Booked;
    }

    /** Pressing Verify in the PIN dialog: a correct PIN runs the booking once; any other
        press changes only the dialog, as the dialog itself states. */
    method SubmitPin(db: Database, session: Session, now: int)
      returns (verified: VerifyResult, booking: Option<BookingOutcome>)
      requires Valid() && db.Valid() && gate.open && gate.attempts < MaxAttempts
      modifies this, gate, db
      ensures Valid() && db.Valid() && db.clock == old(db.clock)
      ensures selectedLine == old(selectedLine) && fromStation == old(fromStation)
      ensures toStation == old(toStation) && calculatedFare == old(calculatedFare)
      ensures verified == Approved <==> old(gate.pin) == GatePin
      ensures booking.Some? <==> verified == Approved
      ensures verified != Approved ==>
                gate.AfterVerify(verified) && ticket == old(ticket)
                && db.users == old(db.users) && db.transactions == old(db.transactions)
      ensures verified == Approved ==>
                gate.pin == "" && gate.attempts == 0 && BookingEffect(db, session, now, booking.value)
    {
      verified := gate.Verify();
      if verified == Approved {
        var outcome := Booking(db, session, now);
        booking := Some(outcome);
      } else {
        booking := None;
      }
    }
  }
}
