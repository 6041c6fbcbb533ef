/**
 Dietary compatibility, assessed twice: for one menu item in the catalog and for a whole cart.
 Codes and relation types are normalised; the order in which reasons are listed is left out.
 */
module Compatibility {
  import opened Common

  datatype Link = Link(code: string, relation: string, verification: string)

  datatype Claim = Claim(code: string, verification: string)

  datatype Item = Item(ingredients: seq<string>, allergens: seq<Link>, claims: seq<Claim>)

  datatype Passport = Passport(diets: set<string>, allergens: set<string>, ingredients: set<string>)

  datatype Status = Conflict | Unknown | Compatible

  datatype Kind = OfAllergen | OfIngredient | OfDiet | OfDataQuality

  datatype Finding = Finding(kind: Kind, code: string, relation: string)

  predicate Weak(verification: string) {
    verification == "unknown" || verification == "unverified"
  }

  predicate Positive(relation: string) {
    relation == "contains" || relation == "may_contain" || relation == "cross_contact"
  }

  predicate Negative(relation: string) {
    relation == "free_from" || relation == "does_not_contain"
  }

  // --------------------------------------------------------------------------- diets

  function Implied(code: string): set<string> {
    if code == "vegan" then {"vegan", "vegetarian", "pescatarian"}
    else if code == "vegetarian" then {"vegetarian", "pescatarian"}
    else {code}
  }

  /** A code keeps the first verification noted for it, unless that is weak and the new one is not. */
  function Noted(m: map<string, string>, code: string, verification: string): map<string, string> {
    if code !in m || (Weak(m[code]) && !Weak(verification)) then m[code := verification] else m
  }

  function NotedAll(m: map<string, string>, codes: set<string>, verification: string): map<string, string> {
    map code | code in m.Keys + codes ::
      if code in codes && (code !in m || (Weak(m[code]) && !Weak(verification))) then verification else m[code]
  }

  /** What the catalog records for every claimed or implied diet. */
  function Verification(claims: seq<Claim>): map<string, string> {
    if claims == [] then map[]
    else
      var last := claims[|claims| - 1];
      NotedAll(Verification(claims[..|claims| - 1]), Implied(last.code), last.verification)
  }

  function Supported(claims: seq<Claim>): set<string> {
    set code | code in Verification(claims) && !Weak(Verification(claims)[code])
  }

  /** The cart drops weak claims before it expands them. */
  function CartExpanded(claims: seq<Claim>): set<string> {
    if claims == [] then {}
    else
      var last := claims[|claims| - 1];
      CartExpanded(claims[..|claims| - 1]) + if Weak(last.verification) then {} else Implied(last.code)
  }

  predicate Vouches(claim: Claim, code: string) {
    !Weak(claim.verification) && code in Implied(claim.code)
  }

  ghost predicate SomeClaimVouches(claims: seq<Claim>, code: string) {
    exists i :: 0 <= i < |claims| && Vouches(claims[i], code)
  }

  lemma OneMoreClaim(claims: seq<Claim>, code: string)
    requires claims != []
    ensures SomeClaimVouches(claims, code) <==>
              SomeClaimVouches(claims[..|claims| - 1], code) || Vouches(claims[|claims| - 1], code)
  {
    var n := |claims| - 1;
    if SomeClaimVouches(claims[..n], code) {
      var i :| 0 <= i < n && Vouches(claims[..n][i], code);
      assert Vouches(claims[i], code);
    }
    if SomeClaimVouches(claims, code) {
      var i :| 0 <= i < |claims| && Vouches(claims[i], code);
      assert i < n ==> Vouches(claims[..n][i], code);
    }
  }

  /** The merge does not depend on the order of the claims: a diet is supported exactly when some sound claim implies it. */
  lemma {:induction false} SupportedExact(claims: seq<Claim>)
    ensures forall code :: code in Supported(claims) <==> SomeClaimVouches(claims, code)
  {
    if claims != [] {
      SupportedExact(claims[..|claims| - 1]);
      forall code ensures code in Supported(claims) <==> SomeClaimVouches(claims, code) {
        OneMoreClaim(claims, code);
        assert code in Supported(claims[..|claims| - 1]) <==> SomeClaimVouches(claims[..|claims| - 1], code);
      }
    }
  }

  lemma {:induction false} CartExpandedExact(claims: seq<Claim>)
    ensures forall code :: code in CartExpanded(claims) <==> SomeClaimVouches(claims, code)
  {
    if claims != [] {
      CartExpandedExact(claims[..|claims| - 1]);
      forall code ensures code in CartExpanded(claims) <==> SomeClaimVouches(claims, code) {
        OneMoreClaim(claims, code);
      }
    }
  }

  /** Both assessors rely on the same diets, in whatever order the claims are stored. */
  lemma DietsAgree(claims: seq<Claim>, reordered: seq<Claim>)
    requires multiset(claims) == multiset(reordered)
    ensures Supported(claims) == CartExpanded(claims) == Supported(reordered) == CartExpanded(reordered)
  {
    SupportedExact(claims);
    CartExpandedExact(claims);
    SupportedExact(reordered);
    CartExpandedExact(reordered);
    forall code ensures SomeClaimVouches(claims, code) <==> SomeClaimVouches(reordered, code) {
      VouchesMoves(claims, reordered, code);
      VouchesMoves(reordered, claims, code);
    }
  }

  lemma VouchesMoves(a: seq<Claim>, b: seq<Claim>, code: string)
    requires multiset(a) == multiset(b)
    ensures SomeClaimVouches(a, code) ==> SomeClaimVouches(b, code)
  {
    if SomeClaimVouches(a, code) {
      var i :| 0 <= i < |a| && Vouches(a[i], code);
      assert a[i] in multiset(a) && a[i] in multiset(b);
      var j :| 0 <= j < |b| && b[j] == a[i];
    }
  }

  // --------------------------------------------------------------------- ingredients

  /** What the catalog takes an avoided ingredient to include. */
  function Descendants(code: string): set<string> {
    match code
    case "allium" => {"allium", "garlic", "onion", "scallion", "chive"}
    case "dairy" => {"dairy", "milk", "cheese"}
    case "fish" => {"fish", "fish-cake", "mackerel"}
    case "gluten" => {"gluten", "wheat", "wheat-flour"}
    case "meat" => {"meat", "pork", "pork-belly", "beef", "chicken"}
    case "pork" => {"pork", "pork-belly"}
    case "seafood" => {"seafood", "fish", "fish-cake", "mackerel", "squid", "shrimp", "abalone"}
    case "sesame" => {"sesame", "sesame-oil"}
    case "shellfish" => {"shellfish", "squid", "shrimp", "abalone"}
    case "soy" => {"soy", "soybean", "tofu"}
    case _ => {code}
  }

  /** What the cart takes it to include. */
  function Aliases(code: string): set<string> {
    match code
    case "pork" => {"pork", "pork-belly"}
    case "dairy" => {"dairy", "milk", "cheese"}
    case _ => {code}
  }

  /** The diets that rule an ingredient out, in the catalog. */
  function CoveringDiets(code: string): set<string> {
    match code
    case "pork" => {"vegan", "vegetarian", "pescatarian", "halal"}
    case "pork-belly" => {"vegan", "vegetarian", "pescatarian", "halal"}
    case "meat" => {"vegan", "vegetarian", "pescatarian"}
    case "beef" => {"vegan", "vegetarian", "pescatarian"}
    case "chicken" => {"vegan", "vegetarian", "pescatarian"}
    case "dairy" => {"vegan"}
    case "milk" => {"vegan"}
    case "cheese" => {"vegan"}
    case "seafood" => {"vegan", "vegetarian"}
    case "fish" => {"vegan", "vegetarian"}
    case "shellfish" => {"vegan", "vegetarian"}
    case _ => {}
  }

  /** And in the cart. */
  function CartCoveringDiets(code: string): set<string> {
    match code
    case "pork" => {"vegan", "vegetarian", "pescatarian", "halal"}
    case "pork-belly" => {"vegan", "vegetarian", "pescatarian", "halal"}
    case "beef" => {"vegan", "vegetarian", "pescatarian"}
    case "chicken" => {"vegan", "vegetarian", "pescatarian"}
    case "fish" => {"vegan", "vegetarian"}
    case "shellfish" => {"vegan", "vegetarian"}
    case _ => {}
  }

  lemma CartTablesAreSmaller(code: string)
    ensures Aliases(code) <= Descendants(code)
    ensures CartCoveringDiets(code) <= CoveringDiets(code)
  {
  }

  predicate ContainsAny(item: Item, codes: set<string>) {
    exists i :: 0 <= i < |item.ingredients| && item.ingredients[i] in codes
  }

  lemma ContainsMore(item: Item, small: set<string>, large: set<string>)
    requires small <= large
    ensures ContainsAny(item, small) ==> ContainsAny(item, large)
  {
  }

  // ----------------------------------------------------------------------- allergens

  predicate HasPositive(links: seq<Link>, code: string) {
    exists i :: 0 <= i < |links| && links[i].code == code && Positive(links[i].relation)
  }

  predicate HasSoundNegative(links: seq<Link>, code: string) {
    exists i :: 0 <= i < |links| && links[i].code == code && Negative(links[i].relation) && !Weak(links[i].verification)
  }

  /** The cart lets the last negative link decide. */
  function LastNegativeIsSound(links: seq<Link>, code: string): bool {
    if links == [] then false
    else
      var last := links[|links| - 1];
      if last.code == code && Negative(last.relation) && !Positive(last.relation) then !Weak(last.verification)
      else LastNegativeIsSound(links[..|links| - 1], code)
  }

  lemma {:induction false} LastSoundIsSound(links: seq<Link>, code: string)
    ensures LastNegativeIsSound(links, code) ==> HasSoundNegative(links, code)
  {
    if links != [] {
      LastSoundIsSound(links[..|links| - 1], code);
      if HasSoundNegative(links[..|links| - 1], code) {
        var n := |links| - 1;
        var i :| 0 <= i < n && links[..n][i].code == code && Negative(links[..n][i].relation) && !Weak(links[..n][i].verification);
        assert links[i] == links[..n][i];
      }
    }
  }

  // ------------------------------------------------------------------- the assessments

  function CatalogConflicts(p: Passport, item: Item): set<Finding> {
    (set i | 0 <= i < |item.allergens| && item.allergens[i].code in p.allergens && Positive(item.allergens[i].relation) ::
       Finding(OfAllergen, item.allergens[i].code, item.allergens[i].relation))
    + (set code | code in p.ingredients && ContainsAny(item, Descendants(code)) :: Finding(OfIngredient, code, "contains"))
  }

  function CatalogMissing(p: Passport, item: Item): set<Finding> {
    (set code | code in p.diets && code !in Supported(item.claims) :: Finding(OfDiet, code, ""))
    + (set code | code in p.allergens && !HasPositive(item.allergens, code) && !HasSoundNegative(item.allergens, code) ::
         Finding(OfAllergen, code, ""))
    + (set code | code in p.ingredients && !ContainsAny(item, Descendants(code)) && CoveringDiets(code) !! Supported(item.claims) ::
         Finding(OfIngredient, code, ""))
  }

  function CatalogStatus(passport: Option<Passport>, item: Item): Status {
    if passport.None? then Unknown
    else if CatalogConflicts(passport.value, item) != {} then Conflict
    else if CatalogMissing(passport.value, item) != {} then Unknown
    else Compatible
  }

  /** The reasons that one item adds to the assessment of a cart. */
  function IngredientReasons(p: Passport, item: Item): set<Finding> {
    (set code | code in p.ingredients && ContainsAny(item, Aliases(code)) :: Finding(OfIngredient, code, "contains"))
    + (set code | code in p.ingredients && !ContainsAny(item, Aliases(code)) && CartCoveringDiets(code) !! CartExpanded(item.claims) ::
         Finding(OfDataQuality, code, ""))
  }

  function AllergenReasons(p: Passport, item: Item): set<Finding> {
    (set i | 0 <= i < |item.allergens| && item.allergens[i].code in p.allergens && Positive(item.allergens[i].relation) ::
       Finding(OfAllergen, item.allergens[i].code, item.allergens[i].relation))
    + (set code | code in p.allergens && !HasPositive(item.allergens, code) && !LastNegativeIsSound(item.allergens, code) ::
         Finding(OfDataQuality, code, ""))
  }

  function DietReasons(p: Passport, item: Item): set<Finding> {
    set code | code in p.diets && code !in CartExpanded(item.claims) :: Finding(OfDiet, code, "")
  }

  function ItemReasons(p: Passport, item: Item): set<Finding> {
    IngredientReasons(p, item) + AllergenReasons(p, item) + DietReasons(p, item)
  }

  /** Reasons with the position of the item they are about. */
  function Tagged(position: nat, reasons: set<Finding>): set<(nat, Finding)> {
    set f | f in reasons :: (position, f)
  }

  function CartReasons(p: Passport, items: seq<Item>): set<(nat, Finding)> {
    if items == [] then {}
    else CartReasons(p, items[..|items| - 1]) + Tagged(|items| - 1, ItemReasons(p, items[|items| - 1]))
  }

  predicate IsConflict(f: Finding) {
    f.kind.OfAllergen? || f.kind.OfIngredient?
  }

  /** The reasons decide: any conflict, otherwise any reason at all. */
  function StatusOf(reasons: set<(nat, Finding)>): Status {
    if exists r :: r in reasons && IsConflict(r.1) then Conflict
    else if reasons != {} then Unknown
    else Compatible
  }

  function CartStatus(passport: Option<Passport>, items: seq<Item>): Status {
    if passport.None? then Unknown else StatusOf(CartReasons(passport.value, items))
  }

  // --------------------------------------------------------------- what the status means

  lemma CatalogMeaning(p: Passport, item: Item)
    ensures CatalogConflicts(p, item) != {} <==>
              (exists code :: code in p.allergens && HasPositive(item.allergens, code))
              || (exists code :: code in p.ingredients && ContainsAny(item, Descendants(code)))
    ensures CatalogMissing(p, item) == {} <==>
              p.diets <= Supported(item.claims)
              && (forall code :: code in p.allergens ==> HasPositive(item.allergens, code) || HasSoundNegative(item.allergens, code))
              && (forall code :: code in p.ingredients ==>
                    ContainsAny(item, Descendants(code)) || !(CoveringDiets(code) !! Supported(item.claims)))
  {
    forall code | code in p.allergens && HasPositive(item.allergens, code) ensures CatalogConflicts(p, item) != {} {
      var i :| 0 <= i < |item.allergens| && item.allergens[i].code == code && Positive(item.allergens[i].relation);
      assert Finding(OfAllergen, item.allergens[i].code, item.allergens[i].relation) in CatalogConflicts(p, item);
    }
    forall code | code in p.ingredients && ContainsAny(item, Descendants(code)) ensures CatalogConflicts(p, item) != {} {
      assert Finding(OfIngredient, code, "contains") in CatalogConflicts(p, item);
    }
    forall code | code in p.diets && code !in Supported(item.claims) ensures CatalogMissing(p, item) != {} {
      assert Finding(OfDiet, code, "") in CatalogMissing(p, item);
    }
    forall code | code in p.allergens && !HasPositive(item.allergens, code) && !HasSoundNegative(item.allergens, code)
      ensures CatalogMissing(p, item) != {}
    {
      assert Finding(OfAllergen, code, "") in CatalogMissing(p, item);
    }
    forall code | code in p.ingredients && !ContainsAny(item, Descendants(code)) && CoveringDiets(code) !! Supported(item.claims)
      ensures CatalogMissing(p, item) != {}
    {
      assert Finding(OfIngredient, code, "") in CatalogMissing(p, item);
    }
  }

  /** The conflict and the doubt that one item adds to a cart. */
  predicate ItemConflicts(p: Passport, item: Item) {
    exists f :: f in ItemReasons(p, item) && IsConflict(f)
  }

  lemma ItemMeaning(p: Passport, item: Item)
    ensures ItemConflicts(p, item) <==>
              (exists code :: code in p.allergens && HasPositive(item.allergens, code))
              || (exists code :: code in p.ingredients && ContainsAny(item, Aliases(code)))
    ensures ItemReasons(p, item) == {} <==>
              && !ItemConflicts(p, item)
              && p.diets <= CartExpanded(item.claims)
              && (forall code :: code in p.allergens ==> LastNegativeIsSound(item.allergens, code))
              && (forall code :: code in p.ingredients ==> !(CartCoveringDiets(code) !! CartExpanded(item.claims)))
  {
    ItemConflictMeaning(p, item);
    ItemDoubtMeaning(p, item);
  }

  lemma ItemConflictMeaning(p: Passport, item: Item)
    ensures ItemConflicts(p, item) <==>
              (exists code :: code in p.allergens && HasPositive(item.allergens, code))
              || (exists code :: code in p.ingredients && ContainsAny(item, Aliases(code)))
  {
    forall code | code in p.allergens && HasPositive(item.allergens, code) ensures ItemConflicts(p, item) {
      var i :| 0 <= i < |item.allergens| && item.allergens[i].code == code && Positive(item.allergens[i].relation);
      var f := Finding(OfAllergen, item.allergens[i].code, item.allergens[i].relation);
      assert f in ItemReasons(p, item) && IsConflict(f);
    }
    forall code | code in p.ingredients && ContainsAny(item, Aliases(code)) ensures ItemConflicts(p, item) {
      var f := Finding(OfIngredient, code, "contains");
      assert f in ItemReasons(p, item) && IsConflict(f);
    }
  }

  lemma ItemDoubtMeaning(p: Passport, item: Item)
    ensures ItemReasons(p, item) == {} <==>
              && !ItemConflicts(p, item)
              && p.diets <= CartExpanded(item.claims)
              && (forall code :: code in p.allergens ==> LastNegativeIsSound(item.allergens, code))
              && (forall code :: code in p.ingredients ==> !(CartCoveringDiets(code) !! CartExpanded(item.claims)))
  {
    ItemConflictMeaning(p, item);
    forall code | code in p.diets && code !in CartExpanded(item.claims) ensures ItemReasons(p, item) != {} {
      assert Finding(OfDiet, code, "") in DietReasons(p, item);
    }
    forall code | code in p.allergens && !HasPositive(item.allergens, code) && !LastNegativeIsSound(item.allergens, code)
      ensures ItemReasons(p, item) != {}
    {
      assert Finding(OfDataQuality, code, "") in AllergenReasons(p, item);
    }
    forall code | code in p.ingredients && !ContainsAny(item, Aliases(code)) && CartCoveringDiets(code) !! CartExpanded(item.claims)
      ensures ItemReasons(p, item) != {}
    {
      assert Finding(OfDataQuality, code, "") in IngredientReasons(p, item);
    }
  }

  lemma TaggedStatus(position: nat, reasons: set<Finding>)
    ensures StatusOf(Tagged(position, reasons)) ==
              if exists f :: f in reasons && IsConflict(f) then Conflict else if reasons != {} then Unknown else Compatible
  {
    forall f | f in reasons ensures (position, f) in Tagged(position, reasons) {}
  }

  /** One item in a cart of its own. */
  lemma OneItemCart(p: Passport, item: Item)
    ensures CartStatus(Some(p), [item]) ==
              if ItemConflicts(p, item) then Conflict else if ItemReasons(p, item) != {} then Unknown else Compatible
  {
    assert [item][..0] == [];
    assert CartReasons(p, [item]) == Tagged(0, ItemReasons(p, item));
    TaggedStatus(0, ItemReasons(p, item));
  }

  // ------------------------------------------------------------------ what the findings say

  /** A positive link of an avoided allergen, named as the item has it. */
  predicate NamesAllergen(p: Passport, item: Item, f: Finding) {
    && f.kind.OfAllergen? && f.code in p.allergens && Positive(f.relation)
    && exists i :: 0 <= i < |item.allergens| && item.allergens[i].code == f.code && item.allergens[i].relation == f.relation
  }

  /** An avoided ingredient that the item has under one of these codes. */
  predicate NamesIngredient(p: Passport, item: Item, codes: set<string>, f: Finding) {
    && f.kind.OfIngredient? && f.code in p.ingredients && f.relation == "contains"
    && exists i :: 0 <= i < |item.ingredients| && item.ingredients[i] in codes
  }

  lemma CatalogFindingsExact(p: Passport, item: Item, f: Finding)
    ensures f in CatalogConflicts(p, item) <==> NamesAllergen(p, item, f) || NamesIngredient(p, item, Descendants(f.code), f)
    ensures f in CatalogMissing(p, item) <==>
              && f.relation == ""
              && match f.kind
                 case OfDiet => f.code in p.diets && !SomeClaimVouches(item.claims, f.code)
                 case OfAllergen =>
                   && f.code in p.allergens
                   && forall i :: 0 <= i < |item.allergens| && item.allergens[i].code == f.code ==>
                                    !Positive(item.allergens[i].relation)
                                    && (Negative(item.allergens[i].relation) ==> Weak(item.allergens[i].verification))
                 case OfIngredient =>
                   && f.code in p.ingredients
                   && (forall i :: 0 <= i < |item.ingredients| ==> item.ingredients[i] !in Descendants(f.code))
                   && forall diet :: diet in CoveringDiets(f.code) ==> !SomeClaimVouches(item.claims, diet)
                 case OfDataQuality => false
  {
    SupportedExact(item.claims);
    if NamesAllergen(p, item, f) {
      var i :| 0 <= i < |item.allergens| && item.allergens[i].code == f.code && item.allergens[i].relation == f.relation;
      assert f == Finding(OfAllergen, item.allergens[i].code, item.allergens[i].relation);
    }
  }

  /** A reason that the cart has for one of its items. */
  predicate CartObjects(p: Passport, item: Item, f: Finding) {
    || NamesAllergen(p, item, f)
    || NamesIngredient(p, item, Aliases(f.code), f)
    || (f.kind.OfDiet? && f.relation == "" && f.code in p.diets && f.code !in CartExpanded(item.claims))
    || (f.kind.OfDataQuality? && f.relation == "" && f.code in p.allergens
        && !HasPositive(item.allergens, f.code) && !LastNegativeIsSound(item.allergens, f.code))
    || (f.kind.OfDataQuality? && f.relation == "" && f.code in p.ingredients
        && !ContainsAny(item, Aliases(f.code)) && CartCoveringDiets(f.code) !! CartExpanded(item.claims))
  }

  lemma ItemReasonsExact(p: Passport, item: Item, f: Finding)
    ensures f in ItemReasons(p, item) <==> CartObjects(p, item, f)
  {
    if NamesAllergen(p, item, f) {
      var i :| 0 <= i < |item.allergens| && item.allergens[i].code == f.code && item.allergens[i].relation == f.relation;
      assert f == Finding(OfAllergen, item.allergens[i].code, item.allergens[i].relation);
      assert f in AllergenReasons(p, item);
    }
  }

  lemma {:induction false} ReasonsOfItems(p: Passport, items: seq<Item>, position: nat, f: Finding)
    ensures (position, f) in CartReasons(p, items) <==> position < |items| && f in ItemReasons(p, items[position])
  {
    if items != [] {
      var n := |items| - 1;
      ReasonsOfItems(p, items[..n], position, f);
      assert (position, f) in Tagged(n, ItemReasons(p, items[n])) <==> position == n && f in ItemReasons(p, items[n]);
    }
  }

  /** A cart's reasons are those of its items, each under the position of the item that it is about. */
  lemma CartReasonsExact(p: Passport, items: seq<Item>, position: nat, f: Finding)
    ensures (position, f) in CartReasons(p, items) <==> position < |items| && CartObjects(p, items[position], f)
  {
    ReasonsOfItems(p, items, position, f);
    if position < |items| { ItemReasonsExact(p, items[position], f); }
  }

  // ----------------------------------------------------------------- the cart as a whole

  function Rank(s: Status): nat {
    match s case Compatible => 0 case Unknown => 1 case Conflict => 2
  }

  function Worse(a: Status, b: Status): Status {
    if Rank(a) >= Rank(b) then a else b
  }

  /** The worst of the statuses of the single items. */
  function Worst(passport: Option<Passport>, items: seq<Item>): Status
    requires items != []
  {
    var last := CartStatus(passport, [items[|items| - 1]]);
    if |items| == 1 then last else Worse(Worst(passport, items[..|items| - 1]), last)
  }

  lemma StatusOfUnion(a: set<(nat, Finding)>, b: set<(nat, Finding)>)
    ensures StatusOf(a + b) == Worse(StatusOf(a), StatusOf(b))
  {
    if x :| x in a { assert x in a + b; }
    if y :| y in b { assert y in a + b; }
    if r :| r in a + b && IsConflict(r.1) {
      assert r in a || r in b;
    } else {
      assert forall r :: r in a ==> r in a + b;
      assert forall r :: r in b ==> r in a + b;
    }
  }

  /** A cart is as bad as its worst item, in whatever order the items come. */
  lemma {:induction false} CartIsItsWorstItem(passport: Option<Passport>, items: seq<Item>)
    requires items != []
    ensures CartStatus(passport, items) == Worst(passport, items)
  {
    if passport.Some? {
      var p, n := passport.value, |items| - 1;
      OneItemCart(p, items[n]);
      TaggedStatus(n, ItemReasons(p, items[n]));
      if n == 0 {
        assert items == [items[0]];
      } else {
        CartIsItsWorstItem(passport, items[..n]);
        StatusOfUnion(CartReasons(p, items[..n]), Tagged(n, ItemReasons(p, items[n])));
      }
    } else if |items| > 1 {
      CartIsItsWorstItem(passport, items[..|items| - 1]);
    }
  }

  // ----------------------------------------------------------------- one against the other

  /** Whatever the cart refuses, the catalog refuses; without avoided ingredients they refuse the same items. */
  lemma CartConflictIsCatalogConflict(passport: Option<Passport>, item: Item)
    ensures CartStatus(passport, [item]).Conflict? ==> CatalogStatus(passport, item).Conflict?
    ensures passport.Some? && passport.value.ingredients == {} ==>
              (CartStatus(passport, [item]).Conflict? <==> CatalogStatus(passport, item).Conflict?)
  {
    if passport.Some? {
      var p := passport.value;
      OneItemCart(p, item);
      ItemMeaning(p, item);
      CatalogMeaning(p, item);
      forall code | code in p.ingredients && ContainsAny(item, Aliases(code)) ensures ContainsAny(item, Descendants(code)) {
        CartTablesAreSmaller(code);
        ContainsMore(item, Aliases(code), Descendants(code));
      }
    }
  }

  /** An item the cart accepts is never unknown to the catalog, and compatible there unless it has a descendant of an avoided ingredient. */
  lemma CartCompatibleInCatalog(p: Passport, item: Item)
    requires CartStatus(Some(p), [item]).Compatible?
    ensures CatalogStatus(Some(p), item) ==
              if exists code :: code in p.ingredients && ContainsAny(item, Descendants(code)) then Conflict else Compatible
  {
    OneItemCart(p, item);
    ItemMeaning(p, item);
    CatalogMeaning(p, item);
    DietsAgree(item.claims, item.claims);
    forall code | code in p.allergens ensures HasSoundNegative(item.allergens, code) && !HasPositive(item.allergens, code) {
      LastSoundIsSound(item.allergens, code);
    }
    forall code | code in p.ingredients ensures !(CoveringDiets(code) !! Supported(item.claims)) {
      CartTablesAreSmaller(code);
      var diet :| diet in CartCoveringDiets(code) && diet in CartExpanded(item.claims);
      assert diet in CoveringDiets(code);
    }
  }

  /** The last negative link of some avoided allergen is not sound. */
  predicate LastWordIsWeak(p: Passport, item: Item) {
    exists code :: code in p.allergens && !LastNegativeIsSound(item.allergens, code)
  }

  /** No sound diet of the item rules some avoided ingredient out by the cart's table. */
  predicate CartLacksCover(p: Passport, item: Item) {
    exists code :: code in p.ingredients && CartCoveringDiets(code) !! Supported(item.claims)
  }

  predicate ContainsAllergen(p: Passport, item: Item) {
    exists code :: code in p.allergens && HasPositive(item.allergens, code)
  }

  /** An avoided ingredient is contained through a descendant that the cart's table does not know, and the cart objects to nothing else. */
  predicate OnlyADescendant(p: Passport, item: Item) {
    && (exists code :: code in p.ingredients && ContainsAny(item, Descendants(code)))
    && (forall code :: code in p.ingredients ==> !ContainsAny(item, Aliases(code)))
    && !ContainsAllergen(p, item)
  }

  /** Nothing avoided is contained, and there is evidence for every wish. */
  predicate CatalogSatisfied(p: Passport, item: Item) {
    && !ContainsAllergen(p, item)
    && (forall code :: code in p.ingredients ==> !ContainsAny(item, Descendants(code)) && !(CoveringDiets(code) !! Supported(item.claims)))
    && p.diets <= Supported(item.claims)
    && (forall code :: code in p.allergens ==> HasSoundNegative(item.allergens, code))
  }

  lemma SatisfiedIsCompatible(p: Passport, item: Item)
    ensures CatalogSatisfied(p, item) <==> CatalogStatus(Some(p), item).Compatible?
  {
    CatalogMeaning(p, item);
  }

  lemma OnlyADescendantMeaning(p: Passport, item: Item)
    ensures OnlyADescendant(p, item) <==> CatalogStatus(Some(p), item).Conflict? && !CartStatus(Some(p), [item]).Conflict?
  {
    CatalogMeaning(p, item);
    OneItemCart(p, item);
    ItemMeaning(p, item);
  }

  lemma SatisfiedInCart(p: Passport, item: Item)
    requires CatalogSatisfied(p, item)
    ensures CartStatus(Some(p), [item]) == if LastWordIsWeak(p, item) || CartLacksCover(p, item) then Unknown else Compatible
  {
    OneItemCart(p, item);
    ItemMeaning(p, item);
    DietsAgree(item.claims, item.claims);
    forall code | code in p.ingredients ensures !ContainsAny(item, Aliases(code)) {
      CartTablesAreSmaller(code);
      ContainsMore(item, Aliases(code), Descendants(code));
    }
  }

  /**
   The two assessors, for every passport and every item: they agree exactly unless an avoided ingredient is
   contained only through a descendant, or the catalog's evidence is complete but hangs on a last link that is
   weak or on a diet that covers an ingredient in the catalog's table alone.
   */
  lemma AssessorsAgree(p: Passport, item: Item)
    ensures CartStatus(Some(p), [item]) == CatalogStatus(Some(p), item) <==>
              && !OnlyADescendant(p, item)
              && (CatalogSatisfied(p, item) ==> !LastWordIsWeak(p, item) && !CartLacksCover(p, item))
  {
    OnlyADescendantMeaning(p, item);
    SatisfiedIsCompatible(p, item);
    CartConflictIsCatalogConflict(Some(p), item);
    if CatalogSatisfied(p, item) { SatisfiedInCart(p, item); }
    if CartStatus(Some(p), [item]).Compatible? { CartCompatibleInCatalog(p, item); }
  }

  /** Without avoided ingredients one case is left, and in it the cart is in doubt. */
  lemma AssessorsAgreeButForLastLinks(p: Passport, item: Item)
    requires p.ingredients == {}
    ensures CartStatus(Some(p), [item]) ==
              if CatalogSatisfied(p, item) && LastWordIsWeak(p, item) then Unknown else CatalogStatus(Some(p), item)
  {
    AssessorsAgree(p, item);
    if CatalogSatisfied(p, item) { SatisfiedInCart(p, item); }
  }

  lemma SoundClaimSupports(claims: seq<Claim>)
    requires claims == [Claim("vegan", "merchant_reported")]
    ensures Supported(claims) == {"vegan", "vegetarian", "pescatarian"}
  {
    SupportedExact(claims);
    assert !Weak("merchant_reported") by { assert |"merchant_reported"| == 17 && |"unknown"| == 7 && |"unverified"| == 10; }
    forall code ensures SomeClaimVouches(claims, code) <==> code in {"vegan", "vegetarian", "pescatarian"} {
      assert SomeClaimVouches(claims, code) <==> Vouches(claims[0], code);
    }
  }

  /** A vegan dish without ingredient data, for a guest who avoids dairy: only the catalog takes the claim to rule dairy out. */
  lemma DairyIsCoveredOnlyInTheCatalog(p: Passport, item: Item)
    requires p == Passport({}, {}, {"dairy"})
    requires item == Item([], [], [Claim("vegan", "merchant_reported")])
    ensures CatalogStatus(Some(p), item).Compatible? && CartStatus(Some(p), [item]).Unknown?
    ensures !OnlyADescendant(p, item) && !LastWordIsWeak(p, item) && CartLacksCover(p, item)
  {
    SoundClaimSupports(item.claims);
    assert CartCoveringDiets("dairy") == {} && "vegan" in CoveringDiets("dairy");
    assert "dairy" in p.ingredients;
    SatisfiedIsCompatible(p, item);
    SatisfiedInCart(p, item);
  }

  /** A sound negative link that a weak one follows: the catalog accepts, the cart is in doubt. */
  lemma LaterWeakLinkDecidesInTheCart(p: Passport, item: Item)
    requires p == Passport({}, {"peanut"}, {})
    requires item == Item([], [Link("peanut", "free_from", "merchant_reported"), Link("peanut", "does_not_contain", "unverified")], [])
    ensures CatalogStatus(Some(p), item).Compatible? && CartStatus(Some(p), [item]).Unknown?
    ensures LastWordIsWeak(p, item) && !CartLacksCover(p, item)
  {
    assert "peanut" in p.allergens;
    PeanutLinks(item.allergens);
    SatisfiedIsCompatible(p, item);
    SatisfiedInCart(p, item);
  }

  lemma PeanutLinks(links: seq<Link>)
    requires links == [Link("peanut", "free_from", "merchant_reported"), Link("peanut", "does_not_contain", "unverified")]
    ensures HasSoundNegative(links, "peanut") && !HasPositive(links, "peanut") && !LastNegativeIsSound(links, "peanut")
  {
    assert !Weak("merchant_reported") by { assert |"merchant_reported"| == 17 && |"unknown"| == 7 && |"unverified"| == 10; }
    assert links[0].code == "peanut" && Negative(links[0].relation);
    assert !Positive("free_from") by { assert |"free_from"| == 9 && |"contains"| == 8 && |"may_contain"| == 11 && |"cross_contact"| == 13; }
    assert !Positive("does_not_contain") by {
      assert |"does_not_contain"| == 16 && |"contains"| == 8 && |"may_contain"| == 11 && |"cross_contact"| == 13;
    }
    assert links[|links| - 1] == Link("peanut", "does_not_contain", "unverified");
  }

  lemma VeganClaimCoversFish(claims: seq<Claim>)
    requires claims == [Claim("vegan", "merchant_reported")]
    ensures "vegan" in CartExpanded(claims) && !(CartCoveringDiets("fish") !! CartExpanded(claims))
  {
    CartExpandedExact(claims);
    assert Vouches(claims[0], "vegan") by {
      assert |"merchant_reported"| == 17 && |"unknown"| == 7 && |"unverified"| == 10;
    }
    assert SomeClaimVouches(claims, "vegan");
    assert "vegan" in CartCoveringDiets("fish");
  }

  lemma MackerelCodes(item: Item)
    requires item.ingredients == ["mackerel"]
    ensures ContainsAny(item, Descendants("fish")) && !ContainsAny(item, Aliases("fish"))
  {
    assert item.ingredients[0] in Descendants("fish");
    assert Aliases("fish") == {"fish"} && |"mackerel"| == 8 && |"fish"| == 4;
  }

  /** With avoided ingredients they do differ: a vegan dish with mackerel, for a guest who avoids fish. */
  lemma MackerelIsFishOnlyInTheCatalog(p: Passport, item: Item)
    requires p == Passport({}, {}, {"fish"})
    requires item == Item(["mackerel"], [], [Claim("vegan", "merchant_reported")])
    ensures CartStatus(Some(p), [item]).Compatible? && CatalogStatus(Some(p), item).Conflict?
  {
    OneItemCart(p, item);
    ItemMeaning(p, item);
    CatalogMeaning(p, item);
    VeganClaimCoversFish(item.claims);
    MackerelCodes(item);
  }

  // ------------------------------------------------------------------------- the code

  lemma NotedOneMore(m: map<string, string>, codes: set<string>, code: string, verification: string)
    requires code !in codes
    ensures Noted(NotedAll(m, codes, verification), code, verification) == NotedAll(m, codes + {code}, verification)
  {
  }

  method NoteImplied(m: map<string, string>, codes: set<string>, verification: string) returns (noted: map<string, string>)
    ensures noted == NotedAll(m, codes, verification)
  {
    noted := m;
    var rest := codes;
    ghost var done: set<string> := {};
    NothingNoted(m, verification);
    while rest != {}
      invariant done !! rest && done + rest == codes
      invariant noted == NotedAll(m, done, verification)
      decreases |rest|
    {
      var code :| code in rest;
      NotedOneMore(m, done, code, verification);
      noted := Noted(noted, code, verification);
      rest := rest - {code};
      done := done + {code};
    }
    assert done == codes;
  }

  lemma NothingNoted(m: map<string, string>, verification: string)
    ensures NotedAll(m, {}, verification) == m
  {
  }

  method ExpandedDietClaims(claims: seq<Claim>) returns (verification: map<string, string>)
    ensures verification == Verification(claims)
  {
    verification := map[];
    for i := 0 to |claims|
      invariant verification == Verification(claims[..i])
    {
      assert claims[..i + 1][..i] == claims[..i];
      verification := NoteImplied(verification, Implied(claims[i].code), claims[i].verification);
    }
    assert claims[..|claims|] == claims;
  }

  /** Go through a set of codes and collect a finding for each that passes the test. */
  method Collect(codes: set<string>, kind: Kind, relation: string, test: string -> bool) returns (found: set<Finding>)
    ensures found == set code | code in codes && test(code) :: Finding(kind, code, relation)
  {
    found := {};
    var rest := codes;
    while rest != {}
      invariant rest <= codes
      invariant found == set code | code in codes - rest && test(code) :: Finding(kind, code, relation)
      decreases |rest|
    {
      var code :| code in rest;
      if test(code) { found := found + {Finding(kind, code, relation)}; }
      rest := rest - {code};
    }
  }

  /** Both assessors list each positive link of an avoided allergen. */
  method PositiveLinks(p: Passport, item: Item) returns (found: set<Finding>)
    ensures found == set i | 0 <= i < |item.allergens| && item.allergens[i].code in p.allergens && Positive(item.allergens[i].relation) ::
                       Finding(OfAllergen, item.allergens[i].code, item.allergens[i].relation)
  {
    found := {};
    for k := 0 to |item.allergens|
      invariant found == set i | 0 <= i < k && item.allergens[i].code in p.allergens && Positive(item.allergens[i].relation) ::
                           Finding(OfAllergen, item.allergens[i].code, item.allergens[i].relation)
    {
      var link := item.allergens[k];
      if link.code in p.allergens && Positive(link.relation) {
        found := found + {Finding(OfAllergen, link.code, link.relation)};
      }
    }
  }

  lemma ConflictCodes(p: Passport, item: Item, code: string)
    ensures (exists f :: f in CatalogConflicts(p, item) && f.kind.OfAllergen? && f.code == code) <==>
              code in p.allergens && HasPositive(item.allergens, code)
    ensures (exists f :: f in CatalogConflicts(p, item) && f.kind.OfIngredient? && f.code == code) <==>
              code in p.ingredients && ContainsAny(item, Descendants(code))
  {
    if code in p.allergens && HasPositive(item.allergens, code) {
      var i :| 0 <= i < |item.allergens| && item.allergens[i].code == code && Positive(item.allergens[i].relation);
      assert Finding(OfAllergen, code, item.allergens[i].relation) in CatalogConflicts(p, item);
    }
    if code in p.ingredients && ContainsAny(item, Descendants(code)) {
      assert Finding(OfIngredient, code, "contains") in CatalogConflicts(p, item);
    }
  }

  function CodesOf(findings: set<Finding>, kind: Kind): set<string> {
    set f | f in findings && f.kind == kind :: f.code
  }

  lemma ConflictCodeSets(p: Passport, item: Item)
    ensures CodesOf(CatalogConflicts(p, item), OfAllergen) == set code | code in p.allergens && HasPositive(item.allergens, code)
    ensures CodesOf(CatalogConflicts(p, item), OfIngredient) == set code | code in p.ingredients && ContainsAny(item, Descendants(code))
  {
    forall code
      ensures code in CodesOf(CatalogConflicts(p, item), OfAllergen) <==> code in p.allergens && HasPositive(item.allergens, code)
      ensures code in CodesOf(CatalogConflicts(p, item), OfIngredient) <==> code in p.ingredients && ContainsAny(item, Descendants(code))
    {
      ConflictCodes(p, item, code);
    }
  }

  /** What is missing for the wishes without a conflict. */
  method CatalogMissingEvidence(p: Passport, item: Item, conflicts: set<Finding>) returns (missing: set<Finding>)
    requires conflicts == CatalogConflicts(p, item)
    ensures missing == CatalogMissing(p, item)
  {
    ConflictCodeSets(p, item);
    var verification := ExpandedDietClaims(item.claims);
    var supported := set code | code in verification && !Weak(verification[code]);
    assert supported == Supported(item.claims);
    var allergens := p.allergens - CodesOf(conflicts, OfAllergen);
    var ingredients := p.ingredients - CodesOf(conflicts, OfIngredient);
    var unclaimed := Collect(p.diets, OfDiet, "", code => code !in supported);
    var doubtful := Collect(allergens, OfAllergen, "", code => !HasSoundNegative(item.allergens, code));
    var uncovered := Collect(ingredients, OfIngredient, "", code => CoveringDiets(code) !! supported);
    missing := unclaimed + doubtful + uncovered;
  }

  /** The catalog's assessment: conflicts first, then the missing evidence. */
  method CatalogCompatibility(passport: Option<Passport>, item: Item)
    returns (status: Status, conflicts: set<Finding>, missing: set<Finding>)
    ensures status == CatalogStatus(passport, item)
    ensures passport.Some? ==> conflicts == CatalogConflicts(passport.value, item) && missing == CatalogMissing(passport.value, item)
  {
    if passport.None? { return Unknown, {}, {}; }
    var p := passport.value;
    conflicts := PositiveLinks(p, item);
    var contained := Collect(p.ingredients, OfIngredient, "contains", code => ContainsAny(item, Descendants(code)));
    conflicts := conflicts + contained;
    missing := CatalogMissingEvidence(p, item, conflicts);
    status := if conflicts != {} then Conflict else if missing != {} then Unknown else Compatible;
  }

  /** The cart goes through the links of one allergen and remembers the last negative one. */
  method ScanLinks(links: seq<Link>, code: string) returns (positive: bool, negativeVerified: bool)
    ensures positive == HasPositive(links, code) && negativeVerified == LastNegativeIsSound(links, code)
  {
    positive, negativeVerified := false, false;
    for i := 0 to |links|
      invariant positive == exists k :: 0 <= k < i && links[k].code == code && Positive(links[k].relation)
      invariant negativeVerified == LastNegativeIsSound(links[..i], code)
    {
      assert links[..i + 1][..i] == links[..i];
      if links[i].code == code {
        if Positive(links[i].relation) {
          positive := true;
        } else if Negative(links[i].relation) {
          negativeVerified := !Weak(links[i].verification);
        }
      }
    }
    assert links[..|links|] == links;
  }

  method AllergenDoubts(p: Passport, item: Item) returns (found: set<Finding>)
    ensures found == set code | code in p.allergens && !HasPositive(item.allergens, code) && !LastNegativeIsSound(item.allergens, code) ::
                       Finding(OfDataQuality, code, "")
  {
    found := {};
    var rest := p.allergens;
    while rest != {}
      invariant rest <= p.allergens
      invariant found == set code | code in p.allergens - rest && !HasPositive(item.allergens, code) && !LastNegativeIsSound(item.allergens, code) ::
                           Finding(OfDataQuality, code, "")
      decreases |rest|
    {
      var code :| code in rest;
      var positive, negativeVerified := ScanLinks(item.allergens, code);
      if !positive && !negativeVerified { found := found + {Finding(OfDataQuality, code, "")}; }
      rest := rest - {code};
    }
  }

  method ExpandVerifiedClaims(claims: seq<Claim>) returns (expanded: set<string>)
    ensures expanded == CartExpanded(claims)
  {
    expanded := {};
    for i := 0 to |claims|
      invariant expanded == CartExpanded(claims[..i])
    {
      assert claims[..i + 1][..i] == claims[..i];
      if Weak(claims[i].verification) { continue; }
      expanded := expanded + Implied(claims[i].code);
    }
    assert claims[..|claims|] == claims;
  }

  /** Findings that are all conflicts, and findings that are none. */
  ghost predicate Sorted(conflicts: set<Finding>, doubts: set<Finding>) {
    (forall f :: f in conflicts ==> IsConflict(f)) && (forall f :: f in doubts ==> !IsConflict(f))
  }

  method AssessIngredients(p: Passport, item: Item, expanded: set<string>) returns (conflicts: set<Finding>, doubts: set<Finding>)
    requires expanded == CartExpanded(item.claims)
    ensures conflicts + doubts == IngredientReasons(p, item) && Sorted(conflicts, doubts)
  {
    conflicts := Collect(p.ingredients, OfIngredient, "contains", code => ContainsAny(item, Aliases(code)));
    doubts := Collect(p.ingredients, OfDataQuality, "", code => !ContainsAny(item, Aliases(code)) && CartCoveringDiets(code) !! expanded);
  }

  method AssessAllergens(p: Passport, item: Item) returns (conflicts: set<Finding>, doubts: set<Finding>)
    ensures conflicts + doubts == AllergenReasons(p, item) && Sorted(conflicts, doubts)
  {
    conflicts := PositiveLinks(p, item);
    doubts := AllergenDoubts(p, item);
  }

  method AssessDiets(p: Passport, item: Item, expanded: set<string>) returns (doubts: set<Finding>)
    requires expanded == CartExpanded(item.claims)
    ensures doubts == DietReasons(p, item) && Sorted({}, doubts)
  {
    doubts := Collect(p.diets - expanded, OfDiet, "", code => true);
  }

  lemma SortedConflicts(p: Passport, item: Item, conflicts: set<Finding>, doubts: set<Finding>)
    requires conflicts + doubts == ItemReasons(p, item) && Sorted(conflicts, doubts)
    ensures conflicts != {} <==> ItemConflicts(p, item)
  {
    if f :| f in conflicts { assert f in conflicts + doubts; }
    if f :| f in ItemReasons(p, item) && IsConflict(f) { assert f in conflicts + doubts; }
  }

  method AssessItem(p: Passport, item: Item) returns (conflicts: set<Finding>, doubts: set<Finding>)
    ensures conflicts + doubts == ItemReasons(p, item)
    ensures conflicts != {} <==> ItemConflicts(p, item)
    ensures forall f :: f in doubts ==> !IsConflict(f)
  {
    var expanded := ExpandVerifiedClaims(item.claims);
    var contained, uncovered := AssessIngredients(p, item, expanded);
    var positive, doubtful := AssessAllergens(p, item);
    var unclaimed := AssessDiets(p, item, expanded);
    conflicts, doubts := contained + positive, uncovered + doubtful + unclaimed;
    assert conflicts + doubts == (contained + uncovered) + (positive + doubtful) + unclaimed;
    SortedConflicts(p, item, conflicts, doubts);
  }

  /** The cart's assessment: two flags and the reasons, item by item. */
  method CartCompatibility(passport: Option<Passport>, items: seq<Item>) returns (status: Status, reasons: set<(nat, Finding)>)
    ensures status == CartStatus(passport, items)
    ensures passport.Some? ==> reasons == CartReasons(passport.value, items)
  {
    reasons := {};
    if passport.None? { return Unknown, {}; }
    var p := passport.value;
    if p.allergens + p.ingredients + p.diets == {} {
      NoWishesNoReasons(p, items);
      return Compatible, {};
    }
    var hasConflict, hasUnknown := false, false;
    for i := 0 to |items|
      invariant reasons == CartReasons(p, items[..i])
      invariant hasConflict == exists r :: r in reasons && IsConflict(r.1)
      invariant hasConflict || hasUnknown <==> reasons != {}
    {
      assert items[..i + 1][..i] == items[..i];
      var conflicts, doubts := AssessItem(p, items[i]);
      var own := Tagged(i, conflicts + doubts);
      TaggedStatus(i, conflicts + doubts);
      ghost var before := reasons;
      StatusOfUnion(before, own);
      reasons := reasons + own;
      if conflicts != {} { hasConflict := true; }
      if doubts != {} { hasUnknown := true; }
      assert StatusOf(own).Conflict? <==> conflicts != {};
    }
    assert items[..|items|] == items;
    status := if hasConflict then Conflict else if hasUnknown then Unknown else Compatible;
  }

  lemma {:induction false} NoWishesNoReasons(p: Passport, items: seq<Item>)
    requires p.allergens + p.ingredients + p.diets == {}
    ensures CartReasons(p, items) == {}
  {
    if items != [] {
      NoWishesNoReasons(p, items[..|items| - 1]);
      assert p.allergens == {} && p.ingredients == {} && p.diets == {};
      assert ItemReasons(p, items[|items| - 1]) == {};
    }
  }
}
