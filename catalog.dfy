/**
 * The product listing's category filter: a product is listed under the
 * route's `categoryName` when its category, lower-cased and with every run of
 * whitespace turned into "-", equals that name.
 */
module Catalog {
  import opened Wrappers
  import opened Seqs

  /** The product fields the listing filter reads; `category` is optional. */
  datatype Product = Product(id: string, name: string, price: string, category: Option<string>)

  /** ASCII whitespace, what `\s` matches below code point 128: space, tab, LF, VT, FF, CR. */
  predicate IsSpace(c: char) {
    c == ' ' || 9 <= c as int <= 13
  }

  predicate IsUpper(c: char) {
    'A' <= c <= 'Z'
  }

  /** ASCII `toLowerCase` of one character. */
  function Lower(c: char): (l: char)
    ensures !IsUpper(l)
    ensures IsSpace(l) <==> IsSpace(c)
  {
    if IsUpper(c) then (c as int + 32) as char else c
  }

  /**
   * `category.toLowerCase().replace(/\s+/g, '-')`, read left to right: a
   * letter is lower-cased, and a whitespace character gives "-" when it ends
   * its run of whitespace and nothing otherwise.
   */
  function Slug(s: string): (r: string)
    ensures forall i :: 0 <= i < |r| ==> !IsSpace(r[i]) && !IsUpper(r[i])
  {
    if s == [] then []
    else if !IsSpace(s[0]) then [Lower(s[0])] + Slug(s[1..])
    else if |s| > 1 && IsSpace(s[1]) then Slug(s[1..])
    else "-" + Slug(s[1..])
  }

  /** One step of `Slug`, on a string split as first character and rest. */
  lemma SlugCons(c: char, t: string)
    ensures Slug([c] + t) ==
      if !IsSpace(c) then [Lower(c)] + Slug(t)
      else if t != [] && IsSpace(t[0]) then Slug(t)
      else "-" + Slug(t)
  {
    var s := [c] + t;
    assert s[0] == c && s[1..] == t;
    assert |s| > 1 ==> s[1] == t[0];
  }

  predicate NoSpace(s: string) {
    forall i :: 0 <= i < |s| ==> !IsSpace(s[i])
  }

  predicate AllSpace(s: string) {
    forall i :: 0 <= i < |s| ==> IsSpace(s[i])
  }

  /** Without whitespace, the slug is the lower-cased string, character by character. */
  lemma {:induction false} SlugOfWord(s: string)
    requires NoSpace(s)
    ensures |Slug(s)| == |s|
    ensures forall i :: 0 <= i < |s| ==> Slug(s)[i] == Lower(s[i])
  {
    if s != [] {
      SlugOfWord(s[1..]);
    }
  }

  /** A leading run of whitespace becomes one "-". */
  lemma {:induction false} SlugOfLeadingRun(w: string, b: string)
    requires |w| > 0 && AllSpace(w)
    requires b == [] || !IsSpace(b[0])
    ensures Slug(w + b) == "-" + Slug(b)
    decreases |w|
  {
    var t := w[1..] + b;
    assert w + b == [w[0]] + t;
    SlugCons(w[0], t);
    if |w| > 1 {
      assert t[0] == w[1];
      SlugOfLeadingRun(w[1..], b);
    } else {
      assert t == b;
    }
  }

  lemma SplitFirst(a: string, w: string, b: string)
    requires a != []
    ensures a + w + b == [a[0]] + (a[1..] + w + b)
    ensures a == [a[0]] + a[1..]
    ensures |a| > 1 ==> (a[1..] + w + b)[0] == a[1] && a[1..][0] == a[1] && a[1..][|a| - 2] == a[|a| - 1]
    ensures |a| == 1 ==> a[1..] + w + b == w + b && a[1..] == []
  {
  }

  lemma Regroup(c: string, x: string, y: string)
    ensures c + (x + "-" + y) == (c + x) + "-" + y
  {
  }

  /**
   * A maximal run of whitespace becomes one "-": for `a` not ending in
   * whitespace, a non-empty run `w` and `b` not starting with whitespace,
   * the slug of `a + w + b` is the slug of `a`, "-", the slug of `b`.
   */
  lemma {:induction false} SlugOfRun(a: string, w: string, b: string)
    requires a == [] || !IsSpace(a[|a| - 1])
    requires |w| > 0 && AllSpace(w)
    requires b == [] || !IsSpace(b[0])
    ensures Slug(a + w + b) == Slug(a) + "-" + Slug(b)
    decreases |a|
  {
    if a == [] {
      assert a + w + b == w + b;
      SlugOfLeadingRun(w, b);
    } else {
      var rest := a[1..];
      SplitFirst(a, w, b);
      SlugOfRun(rest, w, b);
      SlugCons(a[0], rest + w + b);
      SlugCons(a[0], rest);
      if !IsSpace(a[0]) {
        Regroup([Lower(a[0])], Slug(rest), Slug(b));
      } else if !IsSpace(rest[0]) {
        Regroup("-", Slug(rest), Slug(b));
      }
    }
  }

  /** The slug of a word is its lower-case spelling. */
  lemma SlugOfWordIs(s: string, lower: string)
    requires NoSpace(s) && |lower| == |s|
    requires forall i :: 0 <= i < |s| ==> lower[i] == Lower(s[i])
    ensures Slug(s) == lower
  {
    SlugOfWord(s);
  }

  lemma SlugOfTwoWords(a: string, b: string, lowerA: string, lowerB: string)
    requires a != [] && NoSpace(a) && |lowerA| == |a|
    requires forall i :: 0 <= i < |a| ==> lowerA[i] == Lower(a[i])
    requires b != [] && NoSpace(b) && |lowerB| == |b|
    requires forall i :: 0 <= i < |b| ==> lowerB[i] == Lower(b[i])
    ensures Slug(a + " " + b) == lowerA + "-" + lowerB
  {
    SlugOfRun(a, " ", b);
    SlugOfWordIs(a, lowerA);
    SlugOfWordIs(b, lowerB);
  }

  /** "Desk Accessories" is listed as "desk-accessories". */
  lemma SlugOfDeskAccessories()
    ensures Slug("Desk Accessories") == "desk-accessories"
  {
    assert "Desk Accessories" == "Desk" + " " + "Accessories";
    SlugOfTwoWords("Desk", "Accessories", "desk", "accessories");
    assert "desk" + "-" + "accessories" == "desk-accessories";
  }

  /** "Decorative Statues" is listed as "decorative-statues". */
  lemma SlugOfDecorativeStatues()
    ensures Slug("Decorative Statues") == "decorative-statues"
  {
    assert "Decorative Statues" == "Decorative" + " " + "Statues";
    SlugOfTwoWords("Decorative", "Statues", "decorative", "statues");
    assert "decorative" + "-" + "statues" == "decorative-statues";
  }

  /** The one-word categories of the seed catalog are just lower-cased. */
  lemma SlugOfDecor()
    ensures Slug("Decor") == "decor"
  {
    SlugOfWordIs("Decor", "decor");
  }

  lemma SlugOfElectronics()
    ensures Slug("Electronics") == "electronics"
  {
    SlugOfWordIs("Electronics", "electronics");
  }

  lemma SlugOfStationery()
    ensures Slug("Stationery") == "stationery"
  {
    SlugOfWordIs("Stationery", "stationery");
  }

  /** The product is listed under `categoryName`; a product with no category never is. */
  predicate InCategory(p: Product, categoryName: string) {
    p.category.Some? && Slug(p.category.value) == categoryName
  }

  /** `allProducts.filter(...)` on the listing page. */
  function ProductsInCategory(products: seq<Product>, categoryName: string): seq<Product> {
    if products == [] then []
    else (if InCategory(products[0], categoryName) then [products[0]] else [])
         + ProductsInCategory(products[1..], categoryName)
  }

  /** Sound and complete: exactly the catalog's products whose category slug is `categoryName`. */
  lemma {:induction false} FilterSoundAndComplete(products: seq<Product>, categoryName: string)
    ensures forall p :: p in ProductsInCategory(products, categoryName) <==>
                        p in products && InCategory(p, categoryName)
  {
    if products != [] {
      FilterSoundAndComplete(products[1..], categoryName);
      assert products == [products[0]] + products[1..];
    }
  }

  /** The listed products keep the catalog's order. */
  lemma {:induction false} FilterKeepsOrder(products: seq<Product>, categoryName: string)
    ensures IsSubsequence(ProductsInCategory(products, categoryName), products)
  {
    if products != [] {
      var r := ProductsInCategory(products, categoryName);
      var r' := ProductsInCategory(products[1..], categoryName);
      FilterKeepsOrder(products[1..], categoryName);
      if InCategory(products[0], categoryName) {
        assert r[1..] == r';
      } else {
        assert r == r';
      }
    }
  }

  /** Each product in the category is listed as often as the catalog holds it; no other is. */
  lemma {:induction false} FilterCounts(products: seq<Product>, categoryName: string)
    ensures forall x :: multiset(ProductsInCategory(products, categoryName))[x]
                        == if InCategory(x, categoryName) then multiset(products)[x] else 0
  {
    if products != [] {
      var h, t := products[0], products[1..];
      FilterCounts(t, categoryName);
      assert products == [h] + t;
      var kept := if InCategory(h, categoryName) then [h] else [];
      assert ProductsInCategory(products, categoryName) == kept + ProductsInCategory(t, categoryName);
      forall x
        ensures multiset(ProductsInCategory(products, categoryName))[x]
                == if InCategory(x, categoryName) then multiset(products)[x] else 0
      {
        assert multiset(ProductsInCategory(products, categoryName))
               == multiset(kept) + multiset(ProductsInCategory(t, categoryName));
        assert multiset(products) == multiset([h]) + multiset(t);
      }
    }
  }

  /**
   * A route name with whitespace or an upper-case letter lists nothing: no
   * slug contains either.
   */
  lemma {:induction false} UnsluggedNameListsNothing(products: seq<Product>, categoryName: string, k: int)
    requires 0 <= k < |categoryName| && (IsSpace(categoryName[k]) || IsUpper(categoryName[k]))
    ensures ProductsInCategory(products, categoryName) == []
  {
    if products != [] {
      UnsluggedNameListsNothing(products[1..], categoryName, k);
    }
  }

  // The seed catalog (ids, names, prices and categories of its seven products).

  const MarbleDeskSet := Product("1", "Marble Desk Set", "$45.00", Some("Desk Accessories"))
  const AbstractBronzeForm := Product("2", "Abstract Bronze Form", "$120.00", Some("Decor"))
  const SonicProWireless := Product("3", "Sonic Pro Wireless", "$89.99", Some("Electronics"))
  const ArtisanLeatherJournal := Product("4", "Artisan Leather Journal", "$30.00", Some("Stationery"))
  const AbstractThinkerSculpture := Product("5", "Abstract Thinker Sculpture", "$45.00", Some("Decorative Statues"))
  const GeoSphereAccent := Product("6", "Geo Sphere Accent", "$32.00", Some("Decorative Statues"))
  const NordicWoodBird := Product("7", "Nordic Wood Bird", "$28.50", Some("Decorative Statues"))

  const SeedCatalog: seq<Product> := [
    MarbleDeskSet, AbstractBronzeForm, SonicProWireless, ArtisanLeatherJournal,
    AbstractThinkerSculpture, GeoSphereAccent, NordicWoodBird
  ]

  /** The seed catalog's five categories and their slugs. */
  lemma SeedCategorySlugs()
    ensures Slug("Desk Accessories") == "desk-accessories"
    ensures Slug("Decor") == "decor"
    ensures Slug("Electronics") == "electronics"
    ensures Slug("Stationery") == "stationery"
    ensures Slug("Decorative Statues") == "decorative-statues"
  {
    SlugOfDeskAccessories();
    SlugOfDecor();
    SlugOfElectronics();
    SlugOfStationery();
    SlugOfDecorativeStatues();
  }

  /** Listing a catalog split in two lists each part in turn. */
  lemma {:induction false} FilterAppend(a: seq<Product>, b: seq<Product>, categoryName: string)
    ensures ProductsInCategory(a + b, categoryName)
         == ProductsInCategory(a, categoryName) + ProductsInCategory(b, categoryName)
  {
    if a == [] {
      assert a + b == b;
    } else {
      assert (a + b)[0] == a[0] && (a + b)[1..] == a[1..] + b;
      FilterAppend(a[1..], b, categoryName);
    }
  }

  lemma FilterCons(p: Product, rest: seq<Product>, categoryName: string)
    ensures ProductsInCategory([p] + rest, categoryName)
         == (if InCategory(p, categoryName) then [p] else []) + ProductsInCategory(rest, categoryName)
  {
    assert ([p] + rest)[0] == p && ([p] + rest)[1..] == rest;
  }

  /** The products of a one-product catalog listed under `categoryName`. */
  function Kept(p: Product, categoryName: string): seq<Product> {
    if InCategory(p, categoryName) then [p] else []
  }

  /** The seed catalog is listed product by product. */
  lemma SeedListing(n: string)
    ensures ProductsInCategory(SeedCatalog, n)
         == Kept(MarbleDeskSet, n) + (Kept(AbstractBronzeForm, n) + (Kept(SonicProWireless, n)
          + (Kept(ArtisanLeatherJournal, n) + (Kept(AbstractThinkerSculpture, n) + (Kept(GeoSphereAccent, n)
          + (Kept(NordicWoodBird, n) + []))))))
  {
    var t7 := [NordicWoodBird];
    var t6 := [GeoSphereAccent] + t7;
    var t5 := [AbstractThinkerSculpture] + t6;
    var t4 := [ArtisanLeatherJournal] + t5;
    var t3 := [SonicProWireless] + t4;
    var t2 := [AbstractBronzeForm] + t3;
    var t1 := [MarbleDeskSet] + t2;
    assert SeedCatalog == t1;
    FilterCons(NordicWoodBird, [], n);
    assert [NordicWoodBird] + [] == t7;
    FilterCons(GeoSphereAccent, t7, n);
    FilterCons(AbstractThinkerSculpture, t6, n);
    FilterCons(ArtisanLeatherJournal, t5, n);
    FilterCons(SonicProWireless, t4, n);
    FilterCons(AbstractBronzeForm, t3, n);
    FilterCons(MarbleDeskSet, t2, n);
  }

  /** "decorative-statues" lists products 5, 6 and 7, in catalog order. */
  lemma SeedListsDecorativeStatues()
    ensures ProductsInCategory(SeedCatalog, "decorative-statues")
         == [AbstractThinkerSculpture, GeoSphereAccent, NordicWoodBird]
  {
    var n := "decorative-statues";
    SeedListing(n);
    SeedCategorySlugs();
    assert Kept(MarbleDeskSet, n) == [] && Kept(AbstractBronzeForm, n) == [];
    assert Kept(SonicProWireless, n) == [] && Kept(ArtisanLeatherJournal, n) == [];
    assert Kept(AbstractThinkerSculpture, n) == [AbstractThinkerSculpture];
    assert Kept(GeoSphereAccent, n) == [GeoSphereAccent];
    assert Kept(NordicWoodBird, n) == [NordicWoodBird];
  }

  /**
   * Matching is whole-name equality, not a prefix test: "decor" lists only
   * product 2, none of the decorative statues.
   */
  lemma SeedListsDecor()
    ensures ProductsInCategory(SeedCatalog, "decor") == [AbstractBronzeForm]
  {
    var n := "decor";
    SeedListing(n);
    SeedCategorySlugs();
    assert Kept(MarbleDeskSet, n) == [] && Kept(AbstractBronzeForm, n) == [AbstractBronzeForm];
    assert Kept(SonicProWireless, n) == [] && Kept(ArtisanLeatherJournal, n) == [];
    assert Kept(AbstractThinkerSculpture, n) == [];
    assert Kept(GeoSphereAccent, n) == [];
    assert Kept(NordicWoodBird, n) == [];
  }

  /** "desk-accessories" lists product 1. */
  lemma SeedListsDeskAccessories()
    ensures ProductsInCategory(SeedCatalog, "desk-accessories") == [MarbleDeskSet]
  {
    var n := "desk-accessories";
    SeedListing(n);
    SeedCategorySlugs();
    assert Kept(MarbleDeskSet, n) == [MarbleDeskSet] && Kept(AbstractBronzeForm, n) == [];
    assert Kept(SonicProWireless, n) == [] && Kept(ArtisanLeatherJournal, n) == [];
    assert Kept(AbstractThinkerSculpture, n) == [];
    assert Kept(GeoSphereAccent, n) == [];
    assert Kept(NordicWoodBird, n) == [];
  }
}
