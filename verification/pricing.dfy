/** The desk's two static price tables, in integer cents. */
module Pricing {
  import opened Sums

  /** Ticket categories. Only the first three are sold at the desk; Family
      and Group exist as comparison tiers for the package advisor. */
  datatype Category = Adult | Child | Senior | Family | Group

  /** The visit length, which selects the price column. */
  datatype Duration = OneDay | TwoDay

  /** Optional attractions, charged per person. */
  datatype Extra = LionFeeding | PenguinFeeding | Bbq

  /** Every category and every extra, each once, in table order. */
  const AllCategories: seq<Category> := [Adult, Child, Senior, Family, Group]
  const AllExtras: seq<Extra> := [LionFeeding, PenguinFeeding, Bbq]

  /** AllCategories lists every category, and none twice. */
  lemma AllCategoriesOnce()
    ensures Distinct(AllCategories)
    ensures forall c: Category :: c in AllCategories
  {
    forall c: Category ensures c in AllCategories {
      match c
      case Adult => assert AllCategories[0] == c;
      case Child => assert AllCategories[1] == c;
      case Senior => assert AllCategories[2] == c;
      case Family => assert AllCategories[3] == c;
      case Group => assert AllCategories[4] == c;
    }
  }

  /** AllExtras lists every extra, and none twice. */
  lemma AllExtrasOnce()
    ensures Distinct(AllExtras)
    ensures forall e: Extra :: e in AllExtras
  {
    forall e: Extra ensures e in AllExtras {
      match e
      case LionFeeding => assert AllExtras[0] == e;
      case PenguinFeeding => assert AllExtras[1] == e;
      case Bbq => assert AllExtras[2] == e;
    }
  }

  /** A sum over the categories, written out term by term. */
  lemma SumOverCategories(S: set<Category>, f: Category -> int)
    ensures SumOver(AllCategories, S, f)
            == (if Adult in S then f(Adult) else 0) + (if Child in S then f(Child) else 0)
               + (if Senior in S then f(Senior) else 0) + (if Family in S then f(Family) else 0)
               + (if Group in S then f(Group) else 0)
  {
    var c4 := [Group];
    var c3 := [Family] + c4;
    var c2 := [Senior] + c3;
    var c1 := [Child] + c2;
    assert AllCategories == [Adult] + c1;
    assert SumOver(c4, S, f) == (if Group in S then f(Group) else 0) + SumOver(c4[1..], S, f);
    assert c4[1..] == [];
    assert c3[1..] == c4 && c2[1..] == c3 && c1[1..] == c2 && AllCategories[1..] == c1;
    assert SumOver(c3, S, f) == (if Family in S then f(Family) else 0) + SumOver(c4, S, f);
    assert SumOver(c2, S, f) == (if Senior in S then f(Senior) else 0) + SumOver(c3, S, f);
    assert SumOver(c1, S, f) == (if Child in S then f(Child) else 0) + SumOver(c2, S, f);
  }

  /** A sum over the extras, written out term by term. */
  lemma SumOverExtras(S: set<Extra>, f: Extra -> int)
    ensures SumOver(AllExtras, S, f)
            == (if LionFeeding in S then f(LionFeeding) else 0)
               + (if PenguinFeeding in S then f(PenguinFeeding) else 0)
               + (if Bbq in S then f(Bbq) else 0)
  {
    var e2 := [Bbq];
    var e1 := [PenguinFeeding] + e2;
    assert AllExtras == [LionFeeding] + e1;
    assert SumOver(e2, S, f) == (if Bbq in S then f(Bbq) else 0) + SumOver(e2[1..], S, f);
    assert e2[1..] == [];
    assert e1[1..] == e2 && AllExtras[1..] == e1;
  }

  /** Picks the one-day or the two-day column of a table row. */
  function Column(d: Duration, oneDay: nat, twoDay: nat): nat {
    match d
    case OneDay => oneDay
    case TwoDay => twoDay
  }

  /** The ticket price table: the unit price of a category for a visit length.
      Every entry is a positive whole number of half dollars. */
  function UnitPrice(c: Category, d: Duration): (p: nat)
    ensures p > 0 && p % 50 == 0
  {
    match c
    case Adult => Column(d, 2000, 3000)
    case Child => Column(d, 1200, 1800)
    case Senior => Column(d, 1600, 2400)
    case Family => Column(d, 6000, 9000)
    case Group => Column(d, 1500, 2200)
  }

  /** The extras table: the per-person surcharge of an attraction.
      Every entry is a positive whole number of half dollars. */
  function Surcharge(e: Extra): (p: nat)
    ensures p > 0 && p % 50 == 0
  {
    match e
    case LionFeeding => 250
    case PenguinFeeding => 200
    case Bbq => 500
  }
}
