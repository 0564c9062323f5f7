/** The rewards page: a fixed catalog of sponsored rewards, a category
    filter over it, and redemption against the session's points balance. */
module Sponsorships {
  import opened Common
  import opened AuthContext

  datatype Sponsorship = Sponsorship(
    id: int, title: string, points: int, category: string, sponsor: string, validUntil: string)

  const Catalog: seq<Sponsorship> := [
    Sponsorship(1, "Starbucks Coffee Voucher", 50, "Food & Beverage", "Starbucks", "2024-12-31"),
    Sponsorship(2, "Amazon Gift Card - ₹100", 100, "Shopping", "Amazon", "2024-12-31"),
    Sponsorship(3, "Swiggy Food Discount - 20%", 75, "Food & Beverage", "Swiggy", "2024-11-30"),
    Sponsorship(4, "Flipkart Electronics Voucher", 150, "Electronics", "Flipkart", "2024-12-15"),
    Sponsorship(5, "Ola Ride Credits - ₹50", 60, "Transportation", "Ola", "2024-11-25"),
    Sponsorship(6, "BookMyShow Movie Ticket", 120, "Entertainment", "BookMyShow", "2024-12-20"),
    Sponsorship(7, "Zomato Gold Membership - 1 Month", 200, "Food & Beverage", "Zomato", "2024-12-31"),
    Sponsorship(8, "Urban Company Service Discount", 90, "Home Services", "Urban Company", "2024-11-30")
  ]

  const AllCategories: string := "All"

  /** Catalog ids are distinct and every cost is positive. */
  lemma CatalogWellFormed()
    ensures forall i, j :: 0 <= i < j < |Catalog| ==> Catalog[i].id != Catalog[j].id
    ensures forall i :: 0 <= i < |Catalog| ==> Catalog[i].points > 0
  {
    forall i, j | 0 <= i < j < |Catalog| ensures Catalog[i].id != Catalog[j].id {
      assert Catalog[i].id == i + 1 && Catalog[j].id == j + 1;
    }
  }

  predicate InCategory(item: Sponsorship, selected: string) {
    item.category == selected
  }

  /** The whole catalog for "All", otherwise exactly the items of the
      selected category, in catalog order. */
  function FilterByCategory(items: seq<Sponsorship>, selected: string): (r: seq<Sponsorship>)
    ensures selected == AllCategories ==> r == items
    ensures selected != AllCategories ==>
      (forall i :: 0 <= i < |r| ==> r[i] in items && r[i].category == selected) &&
      (forall i :: 0 <= i < |items| && items[i].category == selected ==> items[i] in r)
    ensures Subsequence(r, items)
  {
    if selected == AllCategories then
      SubsequenceReflexive(items);
      items
    else
      var p := (x: Sponsorship) => InCategory(x, selected);
      FilterIsSubsequence(items, p);
      Filter(items, p)
  }

  /** The points still missing for an unaffordable item:
      `sponsorship.points - userPoints`, NaN when the balance is NaN. */
  function Missing(cost: int, balance: Num): (m: Num)
    ensures balance.Int? <==> m.Int?
    ensures balance.Int? && !balance.AtLeast(cost) ==> m.n > 0
  {
    if balance.Int? then Int(cost - balance.n) else NaN
  }

  datatype RedeemOutcome = Redeemed | NeedMorePoints(missing: Num)

  class SponsorshipsPage {
    const auth: AuthProvider
    var redeemedItems: seq<int>
    var selectedCategory: string

    constructor (auth: AuthProvider)
      ensures this.auth == auth && redeemedItems == [] && selectedCategory == AllCategories
      ensures FilteredSponsorships() == Catalog
    {
      this.auth := auth;
      redeemedItems := [];
      selectedCategory := AllCategories;
    }

    /** The cards on screen: catalog items in catalog order, all of the
        selected category unless it is "All". */
    function FilteredSponsorships(): (r: seq<Sponsorship>)
      reads this
      ensures Subsequence(r, Catalog)
      ensures selectedCategory != AllCategories ==> forall i :: 0 <= i < |r| ==> r[i].category == selectedCategory
    {
      FilterByCategory(Catalog, selectedCategory)
    }

    /** `userPoints >= points`: false for a NaN balance. */
    predicate CanRedeem(points: int)
      reads this, auth
      ensures CanRedeem(points) <==> auth.userPoints.Int? && auth.userPoints.n >= points
    {
      auth.userPoints.AtLeast(points)
    }

    predicate IsRedeemed(id: int)
      reads this
      ensures IsRedeemed(id) <==> exists i :: 0 <= i < |redeemedItems| && redeemedItems[i] == id
    {
      id in redeemedItems
    }

    /** The redeem button is enabled: affordable and not yet redeemed. */
    predicate RedeemEnabled(item: Sponsorship)
      reads this, auth
      ensures RedeemEnabled(item) <==>
        auth.userPoints.Int? && auth.userPoints.n >= item.points &&
        forall i :: 0 <= i < |redeemedItems| ==> redeemedItems[i] != item.id
    {
      CanRedeem(item.points) && !IsRedeemed(item.id)
    }

    method SelectCategory(category: string)
      modifies this`selectedCategory
      ensures selectedCategory == category
      ensures FilteredSponsorships() == FilterByCategory(Catalog, category)
    {
      selectedCategory := category;
    }

    /** Debits the cost and records the id when the balance covers it;
        otherwise reports the shortfall and changes nothing. It does not
        look at `redeemedItems`. */
    method HandleRedeem(item: Sponsorship) returns (outcome: RedeemOutcome)
      modifies this`redeemedItems, auth`userPoints
      ensures old(CanRedeem(item.points)) ==>
        outcome == Redeemed &&
        auth.userPoints == Int(old(auth.userPoints.n) - item.points) &&
        redeemedItems == old(redeemedItems) + [item.id]
      ensures !old(CanRedeem(item.points)) ==>
        outcome == NeedMorePoints(Missing(item.points, old(auth.userPoints))) &&
        auth.userPoints == old(auth.userPoints) && redeemedItems == old(redeemedItems)
      ensures outcome == Redeemed ==> auth.userPoints.AtLeast(0) && IsRedeemed(item.id)
    {
      if auth.userPoints.AtLeast(item.points) {
        auth.AddPoints(Int(-item.points));
        redeemedItems := redeemedItems + [item.id];
        outcome := Redeemed;
      } else {
        outcome := NeedMorePoints(Missing(item.points, auth.userPoints));
      }
    }
  }

  /** Redeeming the 50-point voucher twice from the mounted balance of 150:
      the button would be disabled after the first, but the handler itself
      debits again and records the id a second time; then 100 points are
      50 short. */
  method RedeemTwiceScenario() returns (ids: seq<int>, balance: Num, enabledAfterFirst: bool, third: RedeemOutcome)
    ensures ids == [1, 1] && balance == Int(50)
    ensures !enabledAfterFirst
    ensures third == NeedMorePoints(Int(50))
  {
    var auth := new AuthProvider();
    auth.Mount();
    var page := new SponsorshipsPage(auth);
    var voucher := Catalog[0];
    var first := page.HandleRedeem(voucher);
    enabledAfterFirst := page.RedeemEnabled(voucher);
    var second := page.HandleRedeem(voucher);
    ids, balance := page.redeemedItems, auth.userPoints;
    third := page.HandleRedeem(Catalog[1]);
  }
}
