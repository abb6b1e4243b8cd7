/** The package advisor: given a booking and its total, suggests the family
    or the group package when it would have cost less. */
module Advisor {
  import opened Sums
  import opened Pricing
  import opened Booking

  /** A suggestion, with the savings it announces in cents. For the group
      package the announcement calls the amount a saving "per person", but
      the amount is the difference for the whole booking. */
  datatype Suggestion = FamilyPackage(savings: int) | GroupPackage(savings: int)

  /** The advisor's answer: the suggestions, in the order they are made, or
      the first of the three desk categories missing from the ticket
      dictionary (looking it up fails). */
  datatype Advice = Suggestions(items: seq<Suggestion>) | MissingTicket(category: Category)

  /** The ticket dictionary holds the three categories sold at the desk. */
  predicate HasDeskCategories(t: Tickets) {
    Adult in t && Child in t && Senior in t
  }

  /** The number of people the advisor counts: adults, children and seniors
      only. On a dictionary holding just those three categories it is the
      number of people the calculator charges extras for. */
  function Headcount(t: Tickets): (n: int)
    requires HasDeskCategories(t)
    ensures t.Keys == {Adult, Child, Senior} ==> n == Attendees(t)
  {
    SumOverCategories(t.Keys, Quantity(t));
    t[Adult] + t[Child] + t[Senior]
  }

  /** The family tier: a flat price for the whole booking. */
  function FamilyCost(d: Duration): int {
    UnitPrice(Family, d)
  }

  /** The group tier: the group unit price for every person counted. */
  function GroupCost(t: Tickets, d: Duration): int
    requires HasDeskCategories(t)
  {
    Headcount(t) * UnitPrice(Group, d)
  }

  /** The advisor. It looks up the adult, child and senior quantities, then
      checks the family tier (three to five people, a flat price below the
      total) and the group tier (six or more, the group unit price for each
      below the total), in that order, suggesting each tier that is cheaper
      with the difference as its saving. */
  function SuggestBetterPackage(tickets: Tickets, days: Duration, totalCost: int): (r: Advice)
    ensures r.MissingTicket? <==> !HasDeskCategories(tickets)
    ensures r.MissingTicket? ==>
              && r.category !in tickets
              && (r.category == Adult || r.category == Child || r.category == Senior)
              && (r.category != Adult ==> Adult in tickets)
              && (r.category == Senior ==> Child in tickets)
    ensures r.Suggestions? ==> |r.items| <= 1
    ensures r.Suggestions? ==> forall i :: 0 <= i < |r.items| ==> 0 < r.items[i].savings <= totalCost
  {
    if Adult !in tickets then MissingTicket(Adult)
    else if Child !in tickets then MissingTicket(Child)
    else if Senior !in tickets then MissingTicket(Senior)
    else
      var n := Headcount(tickets);
      var family :=
        if 3 <= n <= 5 && totalCost > FamilyCost(days)
        then [FamilyPackage(totalCost - FamilyCost(days))]
        else [];
      var group :=
        if n >= 6 && totalCost > GroupCost(tickets, days)
        then [GroupPackage(totalCost - GroupCost(tickets, days))]
        else [];
      Suggestions(family + group)
  }

  /** The family package is suggested exactly when three to five people are
      counted and the booking costs more than the family price; the saving
      announced is the whole difference. */
  lemma FamilySuggestedIff(t: Tickets, d: Duration, totalCost: int, s: int)
    requires HasDeskCategories(t)
    ensures FamilyPackage(s) in SuggestBetterPackage(t, d, totalCost).items
            <==> 3 <= Headcount(t) <= 5 && totalCost > FamilyCost(d) && s == totalCost - FamilyCost(d)
  {}

  /** The group package is suggested exactly when six or more people are
      counted and the booking costs more than the group price for all of
      them; the saving announced is the whole difference, not divided by the
      headcount. */
  lemma GroupSuggestedIff(t: Tickets, d: Duration, totalCost: int, s: int)
    requires HasDeskCategories(t)
    ensures GroupPackage(s) in SuggestBetterPackage(t, d, totalCost).items
            <==> Headcount(t) >= 6 && totalCost > GroupCost(t, d) && s == totalCost - GroupCost(t, d)
  {}

  /** Following a suggestion costs exactly the package price: the total less
      the announced saving is the family price, or the group price for every
      person counted. */
  lemma SuggestionMatchesPackagePrice(t: Tickets, d: Duration, totalCost: int, s: Suggestion)
    requires HasDeskCategories(t)
    requires s in SuggestBetterPackage(t, d, totalCost).items
    ensures s.FamilyPackage? ==> totalCost - s.savings == FamilyCost(d) && 3 <= Headcount(t) <= 5
    ensures s.GroupPackage? ==> totalCost - s.savings == GroupCost(t, d) && Headcount(t) >= 6
  {}

  /** Only adults, children and seniors are counted: a family or group
      quantity in the ticket dictionary changes no suggestion. */
  lemma TiersNotCounted(t: Tickets, d: Duration, totalCost: int, tier: Category, q: int)
    requires HasDeskCategories(t)
    requires tier == Family || tier == Group
    ensures SuggestBetterPackage(t[tier := q], d, totalCost) == SuggestBetterPackage(t, d, totalCost)
  {}

  /** Fewer than three people never get a suggestion, whatever the total. */
  lemma NoSuggestionBelowThree(t: Tickets, d: Duration, totalCost: int)
    requires HasDeskCategories(t)
    requires Headcount(t) < 3
    ensures SuggestBetterPackage(t, d, totalCost) == Suggestions([])
  {}
}
