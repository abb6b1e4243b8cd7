/** The booking desk's calculation step: the three quantities and the ticked
    boxes read from the form become a ticket dictionary and an extras
    dictionary, which are priced and then passed to the package advisor. */
module Desk {
  import opened Sums
  import opened Pricing
  import opened Booking
  import opened Advisor

  /** The ticket dictionary the desk builds from its three quantity fields. */
  function DeskTickets(adult: int, child: int, senior: int): (t: Tickets)
    ensures t.Keys == {Adult, Child, Senior}
    ensures t[Adult] == adult && t[Child] == child && t[Senior] == senior
    ensures HasDeskCategories(t) && Headcount(t) == adult + child + senior
  {
    map[Adult := adult, Child := child, Senior := senior]
  }

  /** The extras dictionary the desk builds from its three boxes: the BBQ box
      counts only for a two-day visit, the other two pass through. */
  function EffectiveExtras(lion: bool, penguin: bool, bbq: bool, days: Duration): (x: ExtrasSelection)
    ensures x.Keys == {LionFeeding, PenguinFeeding, Bbq}
    ensures Selected(x, LionFeeding) == lion && Selected(x, PenguinFeeding) == penguin
    ensures Selected(x, Bbq) ==> days == TwoDay
    ensures days == TwoDay ==> Selected(x, Bbq) == bbq
  {
    map[LionFeeding := lion, PenguinFeeding := penguin, Bbq := bbq && days == TwoDay]
  }

  /** The total of a desk booking in closed form: each quantity times its
      unit price, plus the ticked extras' surcharges for every one of the
      adults, children and seniors. */
  lemma DeskTotal(adult: int, child: int, senior: int, days: Duration, x: ExtrasSelection)
    ensures Total(DeskTickets(adult, child, senior), days, x)
            == adult * UnitPrice(Adult, days) + child * UnitPrice(Child, days)
               + senior * UnitPrice(Senior, days)
               + ExtrasPerPerson(x) * (adult + child + senior)
  {
    var t := DeskTickets(adult, child, senior);
    SumOverCategories(t.Keys, LineCost(t, days));
    SumOverCategories(t.Keys, Quantity(t));
  }

  /** The per-person surcharge of the desk's extras: BBQ counts only on a
      two-day visit. */
  lemma EffectiveExtrasPerPerson(lion: bool, penguin: bool, bbq: bool, days: Duration)
    ensures ExtrasPerPerson(EffectiveExtras(lion, penguin, bbq, days))
            == (if lion then 250 else 0) + (if penguin then 200 else 0)
               + (if bbq && days == TwoDay then 500 else 0)
  {
    var x := EffectiveExtras(lion, penguin, bbq, days);
    SumOverExtras(x.Keys, SelectedCharge(x));
  }

  /** Ticking BBQ on a one-day visit changes nothing; on a two-day visit it
      adds the BBQ surcharge once per person. */
  lemma BbqCharge(adult: int, child: int, senior: int, days: Duration, lion: bool, penguin: bool)
    ensures Total(DeskTickets(adult, child, senior), days, EffectiveExtras(lion, penguin, true, days))
            == Total(DeskTickets(adult, child, senior), days, EffectiveExtras(lion, penguin, false, days))
               + (if days == TwoDay then Surcharge(Bbq) * (adult + child + senior) else 0)
  {
    var t := DeskTickets(adult, child, senior);
    DeskTotal(adult, child, senior, days, EffectiveExtras(lion, penguin, true, days));
    DeskTotal(adult, child, senior, days, EffectiveExtras(lion, penguin, false, days));
    EffectiveExtrasPerPerson(lion, penguin, true, days);
    EffectiveExtrasPerPerson(lion, penguin, false, days);
  }

  /** The desk's calculate step without the booking number and the message
      box: price the booking, then ask the advisor. */
  method Calculate(adult: int, child: int, senior: int, days: Duration,
                   lion: bool, penguin: bool, bbq: bool)
    returns (total: int, suggestions: seq<Suggestion>)
    ensures total == adult * UnitPrice(Adult, days) + child * UnitPrice(Child, days)
                     + senior * UnitPrice(Senior, days)
                     + ExtrasPerPerson(EffectiveExtras(lion, penguin, bbq, days)) * (adult + child + senior)
    ensures adult >= 0 && child >= 0 && senior >= 0 ==> total >= 0
    ensures SuggestBetterPackage(DeskTickets(adult, child, senior), days, total) == Suggestions(suggestions)
    ensures |suggestions| <= 1
    ensures adult + child + senior < 3 ==> suggestions == []
  {
    var tickets := DeskTickets(adult, child, senior);
    var extras := EffectiveExtras(lion, penguin, bbq, days);
    total := CalculateTotal(tickets, days, extras);
    DeskTotal(adult, child, senior, days, extras);
    if adult >= 0 && child >= 0 && senior >= 0 {
      TotalNonNegative(tickets, days, extras);
    }
    var advice := SuggestBetterPackage(tickets, days, total);
    suggestions := advice.items;
  }

  /** For a desk booking of six or more with no extras, the group package is
      suggested exactly when adults and seniors outweigh children: an adult
      pays more than the group price, a senior a little more, a child less. */
  lemma GroupTierWithoutExtras(adult: int, child: int, senior: int, days: Duration)
    requires adult + child + senior >= 6
    ensures var t := DeskTickets(adult, child, senior);
            var total := Total(t, days, EffectiveExtras(false, false, false, days));
            SuggestBetterPackage(t, days, total).items != []
            <==> if days == OneDay then 5 * adult + senior > 3 * child
                 else 4 * adult + senior > 2 * child
  {
    DeskTotal(adult, child, senior, days, EffectiveExtras(false, false, false, days));
    EffectiveExtrasPerPerson(false, false, false, days);
  }

  /** Worked examples of the calculator. */
  lemma CalculatorExamples()
    ensures Total(DeskTickets(2, 0, 0), OneDay, EffectiveExtras(false, false, false, OneDay)) == 4000
    ensures Total(DeskTickets(1, 1, 0), OneDay, EffectiveExtras(true, false, false, OneDay)) == 3700
  {}

  /** Worked examples of the calculator on two-day visits: BBQ is charged
      per person, and three adults cost exactly the family price. */
  lemma TwoDayExamples()
    ensures Total(DeskTickets(2, 1, 0), TwoDay, EffectiveExtras(false, false, true, TwoDay)) == 9300
    ensures Total(DeskTickets(3, 0, 0), TwoDay, EffectiveExtras(false, false, false, TwoDay)) == FamilyCost(TwoDay)
  {}

  /** Worked examples of the advisor. */
  lemma AdvisorExamples()
    ensures SuggestBetterPackage(DeskTickets(2, 1, 1), OneDay, 7000) == Suggestions([FamilyPackage(1000)])
    ensures SuggestBetterPackage(DeskTickets(2, 1, 1), OneDay, 6000) == Suggestions([])
    ensures SuggestBetterPackage(DeskTickets(4, 2, 1), OneDay, 12000) == Suggestions([GroupPackage(1500)])
    ensures SuggestBetterPackage(map[Adult := 9], OneDay, 18000) == MissingTicket(Child)
  {}
}
