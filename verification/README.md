# Wildlife park ticket desk: pricing model

A Dafny model of the pricing core of the wildlife park ticket desk (`week6.py`):

- **Price tables** (`Pricing`): the ticket table, indexed by category (adult, child, senior, family, group) and visit length (one or two days), and the per-person table of extras (lion feeding, penguin feeding, BBQ). Categories, durations and extras are enumerations. A lookup with an unknown category, duration or extra is therefore impossible by typing. All amounts are integer cents, and every entry is a multiple of 50 cents, so nothing is rounded.
- **Total calculator** (`Booking`): `calculate_total`, written as a method whose loops visit the ticket dictionary and the extras dictionary in any order. It is proved equal to the reference `Booking.Total`, defined as Σ quantity × unit price plus, for each ticked extra, surcharge × the sum of all quantities. `Sums` holds the finite-sum machinery: a sum over a fixed enumeration restricted to a key set, and the fact that adding one key adds one term.
- **Package advisor** (`Advisor`): `suggest_better_package`. A suggestion is a tagged saving in cents (`FamilyPackage` / `GroupPackage`), not a formatted message. The advisor reads `tickets['adult']`, `['child']` and `['senior']`, which fails when one is missing. That failure is the `MissingTicket` answer.
- **Desk calculate step** (`Desk`): the part of the form handler that builds the two dictionaries, including the rule that the BBQ box only counts for a two-day visit, then prices the booking and asks the advisor.

Two behaviours of the source are kept as written:
- The group suggestion calls its amount a saving "per person", but the amount is the difference for the whole booking (`total − headcount × group price`). `Advisor.GroupSuggestedIff` states the undivided amount.
- The family tier compares one flat family price with the whole booking total, whatever the headcount in 3..5.

Three behaviours of the code worth knowing:
- `calculate_total` adds every ticket line, including zero and negative quantities (week6.py:26-27). Nothing in the code skips or rejects them. Quantities are `int`, and non-negativity is a premise of `Booking.TotalNonNegative`.
- The extras are charged for the sum of *all* quantities in the dictionary (week6.py:30, `Booking.Attendees`). The advisor counts adults, children and seniors only (week6.py:41, `Advisor.Headcount`). A family or group quantity in the dictionary changes no suggestion (`Advisor.TiersNotCounted`). The two counts are equal on the dictionary the desk builds (week6.py:103-107).
- The advisor looks up `tickets['adult']`, `['child']` and `['senior']` in that order (week6.py:41), so a missing key fails on the first one absent.

## Model

| member | source | states |
|---|---|---|
| Pricing.UnitPrice | week6.py:7-13 | every ticket price, for every category and visit length, is a positive whole number of half dollars |
| Pricing.Surcharge | week6.py:16-20 | every extra's per-person surcharge is a positive whole number of half dollars |
| Booking.CalculateTotal | week6.py:23-31 | whatever order the dictionaries are visited in, the total equals Σ quantity × unit price over the tickets plus, for each ticked extra, its surcharge × the sum of all quantities |
| Booking.SumTicketLines | week6.py:24-27 | the ticket loop, in any key order, yields Σ quantity × unit price over the ticket dictionary |
| Booking.ChargeExtras | week6.py:28-30 | the extras loop, in any key order, adds each ticked extra's surcharge once per person and nothing for an unticked one |
| Booking.TotalNonNegative | week6.py:23-31 | with no negative quantity the total is never negative |
| Booking.TotalWithoutExtras | week6.py:28-30 | when no extra is ticked the total is exactly the ticket sum |
| Booking.ExtraChargedPerPerson | week6.py:28-30 | ticking one extra raises the total by its surcharge × the number of attendees, whatever the category mix and the other extras |
| Advisor.SuggestBetterPackage | week6.py:38-53 | the lookup fails exactly when adult, child or senior is missing, and names the first missing one in that order; otherwise at most one suggestion comes back, with a saving that is positive and at most the total |
| Advisor.FamilySuggestedIff | week6.py:41-45 | the family package is suggested iff 3 ≤ headcount ≤ 5 and the total exceeds the family price, and the saving is the total minus the family price |
| Advisor.GroupSuggestedIff | week6.py:47-51 | the group package is suggested iff headcount ≥ 6 and the total exceeds headcount × group price, and the saving is that whole difference, not divided by the headcount |
| Advisor.SuggestionMatchesPackagePrice | week6.py:42-51 | for any suggestion made, the total minus the announced saving is the price of the suggested package |
| Advisor.Headcount | week6.py:41 | the advisor's headcount equals the number of people the calculator charges extras for, on a dictionary holding exactly adult, child and senior |
| Advisor.TiersNotCounted | week6.py:41 | a family or group quantity in the ticket dictionary changes no suggestion: only adults, children and seniors are counted |
| Advisor.NoSuggestionBelowThree | week6.py:43-49 | with fewer than three people the advisor suggests nothing, whatever the total |
| Desk.DeskTickets | week6.py:103-107 | the desk's ticket dictionary has exactly the adult, child and senior keys with the three field values, so the advisor's lookups succeed and its headcount is their sum |
| Desk.EffectiveExtras | week6.py:113-117 | the desk's extras dictionary has all three extras, passes lion and penguin feeding through, and ticks BBQ only for a two-day visit |
| Desk.DeskTotal | week6.py:103-120 | for a desk booking the total is adults, children and seniors times their unit prices plus the per-person extras times their headcount |
| Desk.EffectiveExtrasPerPerson | week6.py:113-117 | the desk's per-person extras charge is 2.50 for lion feeding, 2.00 for penguin feeding and 5.00 for BBQ on a two-day visit only |
| Desk.BbqCharge | week6.py:116 | ticking BBQ does not change a one-day total and adds 5.00 per person to a two-day total |
| Desk.Calculate | week6.py:101-126 | the calculate step returns the closed-form total, which is non-negative for non-negative fields; the advisor never fails on the dictionary the desk builds; at most one suggestion, and none below three people |
| Desk.GroupTierWithoutExtras | week6.py:48-49 | for six or more people with no extras, the group package is suggested iff 5·adults + seniors > 3·children (one day) or 4·adults + seniors > 2·children (two days) |
| Desk.CalculatorExamples | week6.py:23-31 | worked cases: 2 adults for one day cost 40.00; an adult and a child with lion feeding cost 37.00 |
| Desk.TwoDayExamples | week6.py:23-31 | worked cases: 2 adults and a child for two days with BBQ cost 93.00; 3 adults for two days cost exactly the family price, 90.00 |
| Desk.AdvisorExamples | week6.py:38-53 | worked cases: four people at 70.00 get a 10.00 family saving and at 60.00 none; seven people at 120.00 get a 15.00 group saving; a dictionary without a child quantity fails on the child lookup |

## Left out

- The Tkinter form: window setup, widgets, radio buttons, check boxes, the message box and the main loop (week6.py:56-99, 128-137). They are presentation only.
- `generate_booking_number` (week6.py:34-35). It reads the wall clock, so its result is not a function of its inputs. `Desk.Calculate` leaves out the booking number.
- The message wording and the two-decimal formatting of amounts (week6.py:45, 51, 129). Suggestions are tagged savings in cents.
- Python floating point. The model computes in exact integer cents. Every table entry is a whole number of cents, so the model gives the exact total. The source's float arithmetic rounds once sums grow large enough, and the model does not reproduce that rounding.
- Advisor.SuggestBetterPackage: takes the total in whole cents. The Python function accepts any float total, including one with fractions of a cent; such totals are not modelled.
- The `KeyError` for an unknown category, duration or extra in the price tables (week6.py:27, 30, 42, 48). It cannot occur because these are enumerations. The `KeyError` on the ticket dictionary in the advisor (week6.py:41) is modelled.
