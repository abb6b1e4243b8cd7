/** The total calculator: the price of a booking from its ticket quantities,
    its visit length and its selected extras. */
module Booking {
  import opened Sums
  import opened Pricing

  /** Ticket quantities by category, as the calculator receives them: a
      dictionary, so each category appears at most once. */
  type Tickets = map<Category, int>

  /** Which extras were ticked, by attraction. */
  type ExtrasSelection = map<Extra, bool>

  /** The quantity booked in each category; an absent category books none. */
  function Quantity(t: Tickets): Category -> int {
    c => if c in t then t[c] else 0
  }

  predicate Selected(x: ExtrasSelection, e: Extra) {
    e in x && x[e]
  }

  /** What one ticket line costs: quantity times unit price. */
  function LineCost(t: Tickets, d: Duration): Category -> int {
    c => Quantity(t)(c) * UnitPrice(c, d)
  }

  /** What one extra costs per person: its surcharge when ticked, else nothing. */
  function SelectedCharge(x: ExtrasSelection): Extra -> int {
    e => if Selected(x, e) then Surcharge(e) else 0
  }

  /** The sum of quantity times unit price over the ticket dictionary. */
  function TicketCost(t: Tickets, d: Duration): int {
    SumOver(AllCategories, t.Keys, LineCost(t, d))
  }

  /** The sum of all quantities in the ticket dictionary: the number of
      people the extras are charged for. */
  function Attendees(t: Tickets): int {
    SumOver(AllCategories, t.Keys, Quantity(t))
  }

  /** The sum of the surcharges of the ticked extras. */
  function ExtrasPerPerson(x: ExtrasSelection): int {
    SumOver(AllExtras, x.Keys, SelectedCharge(x))
  }

  /** The booking total: every ticket line, plus every ticked extra once per
      attendee. */
  function Total(t: Tickets, d: Duration, x: ExtrasSelection): int {
    TicketCost(t, d) + ExtrasPerPerson(x) * Attendees(t)
  }

  /** The calculator as the desk runs it: a pass over the ticket dictionary
      adding quantity times unit price, then a pass over the extras
      dictionary adding, for each ticked extra, its surcharge times the total
      quantity. */
  method CalculateTotal(tickets: Tickets, days: Duration, extras: ExtrasSelection) returns (total: int)
    ensures total == Total(tickets, days, extras)
  {
    var lines := SumTicketLines(tickets, days);
    var people := Attendees(tickets);
    var charged := ChargeExtras(extras, people);
    total := lines + charged;
  }

  /** The first pass of the calculator. Dictionary order is not fixed here:
      the loop visits the keys in any order. */
  method SumTicketLines(tickets: Tickets, days: Duration) returns (total: int)
    ensures total == TicketCost(tickets, days)
  {
    AllCategoriesOnce();
    total := 0;
    SumOverZero(AllCategories, {}, LineCost(tickets, days));
    var pending := tickets.Keys;
    assert tickets.Keys - pending == {};
    while pending != {}
      invariant pending <= tickets.Keys
      invariant total == SumOver(AllCategories, tickets.Keys - pending, LineCost(tickets, days))
      decreases pending
    {
      var c :| c in pending;
      SumOverInsert(AllCategories, tickets.Keys - pending, LineCost(tickets, days), c);
      assert tickets.Keys - (pending - {c}) == (tickets.Keys - pending) + {c};
      assert Quantity(tickets)(c) == tickets[c];
      assert LineCost(tickets, days)(c) == UnitPrice(c, days) * tickets[c];
      total := total + UnitPrice(c, days) * tickets[c];
      pending := pending - {c};
    }
    assert tickets.Keys - pending == tickets.Keys;
  }

  /** The second pass of the calculator: each ticked extra, visited in any
      order, adds its surcharge once for each of the given number of people. */
  method ChargeExtras(extras: ExtrasSelection, people: int) returns (charged: int)
    ensures charged == ExtrasPerPerson(extras) * people
  {
    AllExtrasOnce();
    charged := 0;
    SumOverZero(AllExtras, {}, SelectedCharge(extras));
    var rest := extras.Keys;
    assert extras.Keys - rest == {};
    while rest != {}
      invariant rest <= extras.Keys
      invariant charged == SumOver(AllExtras, extras.Keys - rest, SelectedCharge(extras)) * people
      decreases rest
    {
      var e :| e in rest;
      ghost var before := SumOver(AllExtras, extras.Keys - rest, SelectedCharge(extras));
      SumOverInsert(AllExtras, extras.Keys - rest, SelectedCharge(extras), e);
      assert extras.Keys - (rest - {e}) == (extras.Keys - rest) + {e};
      if extras[e] {
        charged := charged + Surcharge(e) * people;
        assert (before + Surcharge(e)) * people == before * people + Surcharge(e) * people;
      }
      rest := rest - {e};
    }
    assert extras.Keys - rest == extras.Keys;
  }

  /** With no negative quantity the total is never negative, because no
      table entry is negative. */
  lemma TotalNonNegative(t: Tickets, d: Duration, x: ExtrasSelection)
    requires forall c :: c in t ==> t[c] >= 0
    ensures Total(t, d, x) >= 0
  {
    forall c | c in t.Keys ensures LineCost(t, d)(c) >= 0 {
      assert Quantity(t)(c) >= 0;
    }
    SumOverNonNegative(AllCategories, t.Keys, LineCost(t, d));
    SumOverNonNegative(AllCategories, t.Keys, Quantity(t));
    SumOverNonNegative(AllExtras, x.Keys, SelectedCharge(x));
  }

  /** Unticked extras cost nothing: with no extra ticked, the total is the
      ticket sum alone. */
  lemma TotalWithoutExtras(t: Tickets, d: Duration, x: ExtrasSelection)
    requires forall e :: !Selected(x, e)
    ensures Total(t, d, x) == TicketCost(t, d)
  {
    SumOverZero(AllExtras, x.Keys, SelectedCharge(x));
  }

  /** Ticking an extra adds exactly its surcharge once for every attendee,
      whatever the mix of categories and whatever else is ticked. */
  lemma ExtraChargedPerPerson(t: Tickets, d: Duration, x: ExtrasSelection, e: Extra)
    ensures Total(t, d, x[e := true]) == Total(t, d, x[e := false]) + Surcharge(e) * Attendees(t)
  {
    AllExtrasOnce();
    var on, off := x[e := true], x[e := false];
    var others := x.Keys - {e};
    assert on.Keys == others + {e} && off.Keys == others + {e};
    SumOverInsert(AllExtras, others, SelectedCharge(on), e);
    SumOverInsert(AllExtras, others, SelectedCharge(off), e);
    SumOverAgree(AllExtras, others, SelectedCharge(on), SelectedCharge(off));
    var n := Attendees(t);
    var base := SumOver(AllExtras, others, SelectedCharge(off));
    assert ExtrasPerPerson(on) == base + Surcharge(e);
    assert ExtrasPerPerson(off) == base;
    assert (base + Surcharge(e)) * n == base * n + Surcharge(e) * n;
  }
}
