/** The waste-exchange marketplace: the per-kilogram points table, the points
    an offer is worth (from its category and the free-text quantity), the
    search and category filter over the listed offers, the offer form, and
    claiming. */
module WasteExchange {
  import opened Common
  import opened JsNumber
  import opened AuthContext

  datatype WasteCategory = WasteCategory(id: string, name: string, points: int)

  /** Points per kilogram of each kind of waste. */
  const Categories: seq<WasteCategory> := [
    WasteCategory("plastic", "Plastic", 5),
    WasteCategory("paper", "Paper", 3),
    WasteCategory("metal", "Metal", 10),
    WasteCategory("glass", "Glass", 8),
    WasteCategory("electronic", "E-Waste", 20),
    WasteCategory("organic", "Organic", 2)
  ]

  /** The points an offer of an unknown category is worth. */
  const UnknownCategoryPoints: int := 50

  /** `categories.find(cat => cat.id === id)`: the first entry with that id. */
  function FindCategory(cats: seq<WasteCategory>, id: string): (r: Option<WasteCategory>)
    ensures r.None? <==> forall i :: 0 <= i < |cats| ==> cats[i].id != id
    ensures r.Some? ==> exists k :: 0 <= k < |cats| && cats[k] == r.value && cats[k].id == id &&
                                    forall j :: 0 <= j < k ==> cats[j].id != id
  {
    if cats == [] then None
    else if cats[0].id == id then Some(cats[0])
    else FindCategory(cats[1..], id)
  }

  /** The per-kilogram rate of a category id: the points of the first
      table entry with that id, None when there is none. `RateTable` and
      `RateOfUnknown` give its value for every id. */
  function RateOf(id: string): (r: Option<int>)
    ensures r.Some? ==> 2 <= r.value <= 20
  {
    match FindCategory(Categories, id)
    case None => None
    case Some(c) =>
      assert c in Categories;
      Some(c.points)
  }

  /** Looking up the id of an entry whose id no other entry shares finds that entry. */
  lemma FindCategoryUnique(cats: seq<WasteCategory>, k: nat)
    requires k < |cats|
    requires forall j :: 0 <= j < |cats| && j != k ==> cats[j].id != cats[k].id
    ensures FindCategory(cats, cats[k].id) == Some(cats[k])
  {
    var r := FindCategory(cats, cats[k].id);
    var k' :| 0 <= k' < |cats| && cats[k'] == r.value && cats[k'].id == cats[k].id &&
              forall j :: 0 <= j < k' ==> cats[j].id != cats[k].id;
    assert k' == k;
  }

  lemma CategoryIdsDistinct()
    ensures forall i, j :: 0 <= i < j < |Categories| ==> Categories[i].id != Categories[j].id
  {
    var ids := ["plastic", "paper", "metal", "glass", "electronic", "organic"];
    assert forall i :: 0 <= i < 6 ==> Categories[i].id == ids[i];
    assert forall i, j :: 0 <= i < j < 6 ==> ids[i][0] != ids[j][0] || |ids[i]| != |ids[j]|;
  }

  /** The rate table: plastic 5, paper 3, metal 10, glass 8, e-waste 20,
      organic 2, and nothing else. */
  lemma RateTable()
    ensures RateOf("plastic") == Some(5) && RateOf("paper") == Some(3)
    ensures RateOf("metal") == Some(10) && RateOf("glass") == Some(8)
    ensures RateOf("electronic") == Some(20) && RateOf("organic") == Some(2)
  {
    RateOfEntry(0);
    RateOfEntry(1);
    RateOfEntry(2);
    RateOfEntry(3);
    RateOfEntry(4);
    RateOfEntry(5);
  }

  /** Each table entry's id has that entry's rate. */
  lemma RateOfEntry(k: nat)
    requires k < |Categories|
    ensures RateOf(Categories[k].id) == Some(Categories[k].points)
  {
    CategoryIdsDistinct();
    FindCategoryUnique(Categories, k);
  }

  /** Every other category id has no rate. */
  lemma RateOfUnknown(id: string)
    requires id != "plastic" && id != "paper" && id != "metal"
    requires id != "glass" && id != "electronic" && id != "organic"
    ensures RateOf(id) == None
  {
  }

  /** `s.split("kg")[0]`: the text before the first "kg", or all of s. */
  function BeforeKg(s: string): (r: string)
    ensures r <= s
    ensures !Contains(r, "kg")
    ensures r == s || "kg" <= s[|r|..]
  {
    if s == [] || "kg" <= s then []
    else
      var rest := BeforeKg(s[1..]);
      assert ([s[0]] + rest)[1..] == rest;
      [s[0]] + rest
  }

  /** Text without "kg" is not cut. */
  lemma {:induction false} BeforeKgWithoutKg(s: string)
    requires !Contains(s, "kg")
    ensures BeforeKg(s) == s
  {
    if s != [] {
      BeforeKgWithoutKg(s[1..]);
    }
  }

  /** The number text of a quantity: the text before "kg", or "1" when that is empty. */
  function QuantityText(quantity: string): (t: string)
    ensures t != [] && !Contains(t, "kg")
    ensures t <= quantity || t == "1"
    ensures t == "1" || quantity[|t|..] == [] || "kg" <= quantity[|t|..]
  {
    var before := BeforeKg(quantity);
    if before == [] then "1" else before
  }

  /** The points an offer is worth: rate times the parsed quantity, NaN when
      the quantity does not parse, 50 for an unknown category. */
  function OfferPoints(category: string, quantity: string): (p: Num)
    ensures RateOf(category).None? ==> p == Int(UnknownCategoryPoints)
    ensures RateOf(category).Some? ==>
      (p.NaN? <==> ParseInt(QuantityText(quantity)).None?)
    ensures RateOf(category).Some? && ParseInt(QuantityText(quantity)).Some? ==>
      p == Int(RateOf(category).value * ParseInt(QuantityText(quantity)).value)
  {
    match RateOf(category)
    case None => Int(UnknownCategoryPoints)
    case Some(rate) =>
      match ParseInt(QuantityText(quantity))
      case None => NaN
      case Some(k) => Int(rate * k)
  }

  /** "<n>kg..." is worth rate × n, whatever follows the "kg". */
  lemma OfferPointsOfKilograms(category: string, n: nat, rest: string)
    requires RateOf(category).Some?
    ensures OfferPoints(category, Decimal(n) + "kg" + rest) == Int(RateOf(category).value * n)
  {
    QuantityTextOfKilograms(n, rest);
    assert Decimal(n) + [] == Decimal(n);
    ParseIntOfDecimal(n, []);
  }

  /** The number text of "<n>kg..." is the rendering of n. */
  lemma QuantityTextOfKilograms(n: nat, rest: string)
    ensures QuantityText(Decimal(n) + "kg" + rest) == Decimal(n)
  {
    var d := Decimal(n);
    var q := d + ("kg" + rest);
    assert d + "kg" + rest == q;
    NoKgInDigits(d);
    assert d[|d| - 1] != 'k';
    BeforeKgOfDigits(d, "kg" + rest);
  }

  /** The text has no letter 'k', so it cannot hold a "kg". */
  predicate WithoutK(t: string) {
    forall i :: 0 <= i < |t| ==> t[i] != 'k'
  }

  lemma WithoutKConcat(a: string, b: string)
    requires WithoutK(a) && WithoutK(b)
    ensures WithoutK(a + b)
  {
    forall i | 0 <= i < |a + b| ensures (a + b)[i] != 'k' {
      if i >= |a| {
        assert (a + b)[i] == b[i - |a|];
      }
    }
  }

  lemma DecimalWithoutK(n: nat)
    ensures WithoutK(Decimal(n))
  {
  }

  lemma BlankWithoutK(w: string)
    requires IsBlank(w)
    ensures WithoutK(w)
  {
    forall i | 0 <= i < |w| ensures w[i] != 'k' {
      assert IsJsWhitespace(w[i]);
    }
  }

  /** "<t>kg..." is worth rate × `parseInt(t)` for any number text t without
      a 'k': white space, a sign and a "0x" prefix are read as `parseInt`
      reads them. */
  lemma OfferPointsOfNumberText(category: string, t: string, rest: string)
    requires RateOf(category).Some? && ParseInt(t).Some?
    requires t != [] && WithoutK(t)
    ensures OfferPoints(category, t + "kg" + rest) == Int(RateOf(category).value * ParseInt(t).value)
  {
    QuantityTextOfNumberText(t, rest);
  }

  /** The number text of "<t>kg..." is t. */
  lemma QuantityTextOfNumberText(t: string, rest: string)
    requires t != [] && WithoutK(t)
    ensures QuantityText(t + "kg" + rest) == t
  {
    var q := t + ("kg" + rest);
    assert t + "kg" + rest == q;
    NoKgWithoutK(t);
    BeforeKgOfDigits(t, "kg" + rest);
  }

  /** Leading white space before "<n>kg..." is skipped: still rate × n. */
  lemma OfferPointsOfPaddedKilograms(category: string, w: string, n: nat, rest: string)
    requires RateOf(category).Some? && IsBlank(w)
    ensures OfferPoints(category, w + Decimal(n) + "kg" + rest) == Int(RateOf(category).value * n)
  {
    BlankWithoutK(w);
    DecimalWithoutK(n);
    WithoutKConcat(w, Decimal(n));
    PaddedDecimalParses(w, n);
    OfferPointsOfNumberText(category, w + Decimal(n), rest);
  }

  /** "-<n>kg..." is worth rate × `parseInt("-<n>")`, which is -n: the sign
      is read, and the balance goes down. */
  lemma OfferPointsOfNegativeKilograms(category: string, n: nat, rest: string)
    requires RateOf(category).Some?
    ensures ParseInt("-" + Decimal(n)) == Some(-(n as int))
    ensures OfferPoints(category, "-" + Decimal(n) + "kg" + rest) ==
            Int(RateOf(category).value * ParseInt("-" + Decimal(n)).value)
  {
    DecimalWithoutK(n);
    WithoutKConcat("-", Decimal(n));
    NegativeDecimalParses(n);
    OfferPointsOfNumberText(category, "-" + Decimal(n), rest);
  }

  lemma PaddedDecimalParses(w: string, n: nat)
    requires IsBlank(w)
    ensures ParseInt(w + Decimal(n)) == Some(n)
  {
    assert Decimal(n) + [] == Decimal(n);
    ParseIntOfDecimal(n, []);
    ParseIntSkipsWhitespace(w, Decimal(n));
  }

  lemma NegativeDecimalParses(n: nat)
    ensures ParseInt("-" + Decimal(n)) == Some(-(n as int))
  {
    assert Decimal(n) + [] == Decimal(n);
    ParseIntOfNegativeDecimal(n, []);
  }

  /** A number followed by other words and no "kg" ("20 bottles") is worth
      rate × that number. */
  lemma OfferPointsOfCount(category: string, n: nat, words: string)
    requires RateOf(category).Some?
    requires !Contains(Decimal(n) + words, "kg")
    requires words == [] || !IsDecimalDigit(words[0])
    requires n == 0 ==> words == [] || (words[0] != 'x' && words[0] != 'X')
    ensures OfferPoints(category, Decimal(n) + words) == Int(RateOf(category).value * n)
  {
    BeforeKgWithoutKg(Decimal(n) + words);
    ParseIntOfDecimal(n, words);
  }

  /** An empty quantity, or one that starts with "kg", counts as one kilogram. */
  lemma OfferPointsWithoutNumber(category: string, quantity: string)
    requires RateOf(category).Some?
    requires quantity == [] || "kg" <= quantity
    ensures OfferPoints(category, quantity) == Int(RateOf(category).value)
  {
    assert QuantityText(quantity) == "1";
    assert ParseInt("1") == Some(1) by {
      assert Decimal(1) + [] == "1";
      ParseIntOfDecimal(1, []);
    }
  }

  /** A quantity whose text before "kg" starts with a letter is NaN points. */
  lemma OfferPointsNaN(category: string, quantity: string)
    requires RateOf(category).Some?
    requires quantity != [] && !("kg" <= quantity)
    requires var c := quantity[0]; !IsJsWhitespace(c) && !IsDecimalDigit(c) && c != '-' && c != '+'
    ensures OfferPoints(category, quantity) == NaN
  {
    var before := BeforeKg(quantity);
    assert before[0] == quantity[0];
    ParseIntOfNonNumeric(before);
  }

  /** Text without the letter 'k' contains no "kg". */
  lemma {:induction false} NoKgWithoutK(t: string)
    requires WithoutK(t)
    ensures !Contains(t, "kg")
  {
    if t != [] {
      assert t[0] != 'k';
      NoKgWithoutK(t[1..]);
    }
  }

  lemma {:induction false} NoKgInDigits(d: string)
    requires forall i :: 0 <= i < |d| ==> IsDecimalDigit(d[i])
    ensures !Contains(d, "kg")
  {
    if d != [] {
      assert d[0] != 'k';
      NoKgInDigits(d[1..]);
    }
  }

  lemma {:induction false} BeforeKgOfDigits(d: string, rest: string)
    requires !Contains(d, "kg") && (d == [] || d[|d| - 1] != 'k')
    requires "kg" <= rest
    ensures BeforeKg(d + rest) == d
  {
    if d == [] {
      assert d + rest == rest;
    } else {
      var s := d + rest;
      assert s[1..] == d[1..] + rest;
      NoKgAtFront(d, rest);
      BeforeKgOfDigits(d[1..], rest);
    }
  }

  /** Text that contains no "kg" and does not end in 'k' does not start a
      "kg" when something is appended to it. */
  lemma NoKgAtFront(d: string, rest: string)
    requires d != [] && !Contains(d, "kg") && d[|d| - 1] != 'k'
    ensures (d + rest)[0] == d[0] && !("kg" <= d + rest)
  {
    var s := d + rest;
    assert !("kg" <= d);
    if |d| == 1 {
      assert s[0] == d[0] && d[0] != 'k';
    } else {
      assert s[..2] == d[..2];
    }
  }

  datatype OfferForm = OfferForm(title: string, category: string, quantity: string, description: string, location: string)

  const EmptyOfferForm: OfferForm := OfferForm("", "", "", "", "")

  datatype OfferField = TitleField | CategoryField | QuantityField | DescriptionField | LocationField

  /** `{ ...prev, [field]: value }` on the offer form: the named field takes
      the value and every other field keeps its own. */
  function WithOfferField(form: OfferForm, field: OfferField, value: string): (r: OfferForm)
    ensures r.title == (if field == TitleField then value else form.title)
    ensures r.category == (if field == CategoryField then value else form.category)
    ensures r.quantity == (if field == QuantityField then value else form.quantity)
    ensures r.description == (if field == DescriptionField then value else form.description)
    ensures r.location == (if field == LocationField then value else form.location)
  {
    match field
    case TitleField => form.(title := value)
    case CategoryField => form.(category := value)
    case QuantityField => form.(quantity := value)
    case DescriptionField => form.(description := value)
    case LocationField => form.(location := value)
  }

  /** A second change of the same field overrides the first. */
  lemma WithOfferFieldOverrides(form: OfferForm, field: OfferField, v1: string, v2: string)
    ensures WithOfferField(WithOfferField(form, field, v1), field, v2) == WithOfferField(form, field, v2)
  {
  }

  /** Changes of two different fields can happen in either order. */
  lemma WithOfferFieldCommutes(form: OfferForm, f1: OfferField, v1: string, f2: OfferField, v2: string)
    requires f1 != f2
    ensures WithOfferField(WithOfferField(form, f1, v1), f2, v2) ==
            WithOfferField(WithOfferField(form, f2, v2), f1, v1)
  {
  }

  datatype WasteOffer = WasteOffer(
    id: int, title: string, category: string, quantity: string, location: string,
    points: int, userName: string, createdAt: string, status: string)

  const MockWasteOffers: seq<WasteOffer> := [
    WasteOffer(1, "Plastic Bottles - 50kg", "plastic", "50kg", "Koramangala, Bangalore", 250,
               "Rahul Sharma", "2024-01-15T08:00:00Z", "available"),
    WasteOffer(2, "Old Newspapers - 20kg", "paper", "20kg", "Lajpat Nagar, Delhi", 100,
               "Priya Patel", "2024-01-14T16:30:00Z", "claimed")
  ]

  /** An offer is listed when its title contains the search term (ignoring
      case) and the category selector is "all" or its category. */
  predicate OfferMatches(offer: WasteOffer, searchTerm: string, selectedCategory: string) {
    MatchesIgnoringCase(offer.title, searchTerm) &&
    (selectedCategory == "all" || offer.category == selectedCategory)
  }

  function FilterOffers(offers: seq<WasteOffer>, searchTerm: string, selectedCategory: string): (r: seq<WasteOffer>)
    ensures forall i :: 0 <= i < |r| ==> r[i] in offers && OfferMatches(r[i], searchTerm, selectedCategory)
    ensures forall i :: 0 <= i < |offers| && OfferMatches(offers[i], searchTerm, selectedCategory) ==> offers[i] in r
    ensures Subsequence(r, offers)
  {
    var p := (o: WasteOffer) => OfferMatches(o, searchTerm, selectedCategory);
    FilterIsSubsequence(offers, p);
    Filter(offers, p)
  }

  /** With an empty search and "all" categories every offer is listed. */
  lemma FilterOffersKeepsAll(offers: seq<WasteOffer>)
    ensures FilterOffers(offers, "", "all") == offers
  {
    forall i | 0 <= i < |offers| ensures OfferMatches(offers[i], "", "all") {
      ContainsEmpty(Lower(offers[i].title));
    }
    FilterAllPass(offers, o => OfferMatches(o, "", "all"));
  }

  /** The claim button is enabled only for an available offer, so never
      for one already claimed. */
  predicate ClaimEnabled(offer: WasteOffer)
    ensures ClaimEnabled(offer) ==> offer.status != "claimed"
  {
    offer.status == "available"
  }

  /** Of the listed offers only the first, the available plastic bottles,
      can be claimed; the newspapers are already claimed. */
  lemma ClaimableFixtures()
    ensures |MockWasteOffers| == 2
    ensures ClaimEnabled(MockWasteOffers[0]) && MockWasteOffers[0].id == 1
    ensures !ClaimEnabled(MockWasteOffers[1]) && MockWasteOffers[1].id == 2
  {
  }

  /** `offers.find(o => o.id === id)`: the first offer with that id. */
  function FindOffer(offers: seq<WasteOffer>, id: int): (r: Option<WasteOffer>)
    ensures r.None? <==> forall i :: 0 <= i < |offers| ==> offers[i].id != id
    ensures r.Some? ==> exists k :: 0 <= k < |offers| && offers[k] == r.value && offers[k].id == id &&
                                    forall j :: 0 <= j < k ==> offers[j].id != id
  {
    Find(offers, (o: WasteOffer) => o.id == id)
  }

  class WasteExchangePage {
    const auth: AuthProvider
    var searchTerm: string
    var selectedCategory: string
    var newOffer: OfferForm

    constructor (auth: AuthProvider)
      ensures this.auth == auth && searchTerm == "" && selectedCategory == "all"
      ensures newOffer == EmptyOfferForm
    {
      this.auth := auth;
      searchTerm := "";
      selectedCategory := "all";
      newOffer := EmptyOfferForm;
    }

    /** The offers on screen: those matching the search and the category,
        in their listed order. */
    function FilteredOffers(): (r: seq<WasteOffer>)
      reads this
      ensures Subsequence(r, MockWasteOffers)
      ensures forall i :: 0 <= i < |r| ==> OfferMatches(r[i], searchTerm, selectedCategory)
    {
      FilterOffers(MockWasteOffers, searchTerm, selectedCategory)
    }

    method SetOfferField(field: OfferField, value: string)
      modifies this`newOffer
      ensures newOffer == WithOfferField(old(newOffer), field, value)
    {
      newOffer := WithOfferField(newOffer, field, value);
    }

    /** Credits the offer's points to the submitter at once and clears the form. */
    method HandleOfferSubmit() returns (points: Num)
      modifies this`newOffer, auth`userPoints
      ensures points == OfferPoints(old(newOffer.category), old(newOffer.quantity))
      ensures auth.userPoints == old(auth.userPoints).Plus(points)
      ensures newOffer == EmptyOfferForm
    {
      points := OfferPoints(newOffer.category, newOffer.quantity);
      auth.AddPoints(points);
      newOffer := EmptyOfferForm;
    }

    /** Looks the offer up for the pickup message; no state changes: neither
        the offer's status nor any balance. */
    method ClaimOffer(offerId: int) returns (found: Option<WasteOffer>)
      ensures found == FindOffer(MockWasteOffers, offerId)
      ensures unchanged(this, auth)
    {
      found := FindOffer(MockWasteOffers, offerId);
    }
  }

  /** "5kg" is the rendering of 5 followed by "kg". */
  lemma FiveKgText()
    ensures Decimal(5) + "kg" + "" == "5kg"
  {
    assert Decimal(5) == "5" by {
      assert DigitChar(5) == '5';
    }
  }

  /** Five kilograms of plastic are worth 25 points. */
  lemma FiveKgOfPlastic()
    ensures OfferPoints("plastic", "5kg") == Int(25)
  {
    RateTable();
    OfferPointsOfKilograms("plastic", 5, "");
    FiveKgText();
  }

  /** Submitting "5kg" of plastic from the mounted balance of 150 credits 25. */
  method SubmitScenario() returns (credited: Num, balance: Num, form: OfferForm)
    ensures credited == Int(25) && balance == Int(175) && form == EmptyOfferForm
  {
    var auth := new AuthProvider();
    auth.Mount();
    var page := new WasteExchangePage(auth);
    page.SetOfferField(CategoryField, "plastic");
    page.SetOfferField(QuantityField, "5kg");
    FiveKgOfPlastic();
    credited := page.HandleOfferSubmit();
    balance, form := auth.userPoints, page.newOffer;
  }
}
