/**
 * The shop page's catalogue view: the category filter on lower-cased, first-space-hyphenated
 * category names, and the sort of a copy of the filtered list by one of three comparators.
 * JavaScript's `sort` is stable; it is modelled by a stable insertion sort, which gives the same
 * result whenever the comparator is a total preorder.
 */
module Shop {
  import Text
  import Seqs

  /** A catalogue entry; prices are in cents. There is no variant id. */
  datatype Product = Product(id: string, name: string, price: int, image: string, category: string,
                             description: string, features: seq<string>, inStock: bool)

  /** `categoryParam || "all"`. */
  function InitialCategory(param: string): string {
    if param == "" then "all" else param
  }

  // ---- filtering ----

  /** `category.toLowerCase().replace(" ", "-")`: only the first space becomes a hyphen. */
  function CategorySlug(category: string): string {
    Text.ReplaceFirst(Text.ToLower(category), ' ', '-')
  }

  predicate Shown(p: Product, selected: string) {
    selected == "all" || CategorySlug(p.category) == selected
  }

  function FilteredProducts(products: seq<Product>, selected: string): seq<Product> {
    Seqs.Filter(products, (p: Product) => Shown(p, selected))
  }

  /** "all" keeps the whole catalogue. */
  lemma AllKeepsEverything(products: seq<Product>)
    ensures FilteredProducts(products, "all") == products
  {
    Seqs.FilterAll(products, (p: Product) => Shown(p, "all"));
  }

  /** Any other selection keeps exactly the products whose slug equals it, in catalogue order. */
  lemma FilterBySlug(products: seq<Product>, selected: string)
    requires selected != "all"
    ensures var r := FilteredProducts(products, selected);
      && Seqs.IsSubsequence(r, products)
      && (forall i :: 0 <= i < |r| ==> CategorySlug(r[i].category) == selected)
      && (forall i :: 0 <= i < |products| && CategorySlug(products[i].category) == selected ==> products[i] in r)
  {
    var r := FilteredProducts(products, selected);
    assert forall i :: 0 <= i < |r| ==> Shown(r[i], selected);
  }

  /** The slug lower-cases ASCII letters and turns the first space, and only that one, into a
      hyphen; it has the length of the category name. */
  lemma SlugShape(category: string)
    ensures var slug := CategorySlug(category);
      && |slug| == |category|
      && (forall i :: 0 <= i < |category| && category[i] != ' ' ==> slug[i] == Text.LowerChar(category[i]))
      && (forall i :: 0 <= i < |category| && category[i] == ' ' ==>
            slug[i] == (if i == Text.IndexOf(category, ' ') then '-' else ' '))
  {
    var lower := Text.ToLower(category);
    assert forall i :: 0 <= i < |category| ==> (lower[i] == ' ' <==> category[i] == ' ');
    LowerSpaceIndex(category);
  }

  /** Lower-casing keeps the position of the first space. */
  lemma {:induction false} LowerSpaceIndex(s: string)
    ensures Text.IndexOf(Text.ToLower(s), ' ') == Text.IndexOf(s, ' ')
  {
    if s != [] {
      LowerSpaceIndex(s[1..]);
      assert Text.ToLower(s)[1..] == Text.ToLower(s[1..]);
      assert Text.ToLower(s)[0] == ' ' <==> s[0] == ' ';
    }
  }

  /** The page as first shown: without a `category` query parameter the whole catalogue, with
      one exactly the products whose slug is that parameter. */
  lemma InitialView(products: seq<Product>, param: string)
    ensures param == "" ==> FilteredProducts(products, InitialCategory(param)) == products
    ensures param != "" && param != "all" ==>
      forall p :: p in FilteredProducts(products, InitialCategory(param)) <==>
                  p in products && CategorySlug(p.category) == param
  {
    if param == "" {
      AllKeepsEverything(products);
    }
  }

  // ---- sorting ----

  /** Places `x` before the first element it does not follow, so that among elements the
      comparator calls equal, those inserted first stay first. */
  function Insert<T>(x: T, r: seq<T>, cmp: (T, T) -> int): (out: seq<T>)
    ensures multiset(out) == multiset(r) + multiset{x}
  {
    if r == [] then [x]
    else if cmp(x, r[0]) <= 0 then [x] + r
    else
      assert r == [r[0]] + r[1..];
      [r[0]] + Insert(x, r[1..], cmp)
  }

  /** `[...s].sort(cmp)`: a new sequence; `s` itself is a value and is not reordered. */
  function Sort<T>(s: seq<T>, cmp: (T, T) -> int): (r: seq<T>)
    ensures multiset(r) == multiset(s) && |r| == |s|
  {
    if s == [] then []
    else
      assert s == [s[0]] + s[1..];
      Insert(s[0], Sort(s[1..], cmp), cmp)
  }

  /** The comparator is total and transitive as an order: `cmp(a, b) <= 0` means `a` may come
      before `b`. */
  ghost predicate TotalPreorder<T(!new)>(cmp: (T, T) -> int) {
    && (forall a, b :: cmp(a, b) > 0 ==> cmp(b, a) <= 0)
    && (forall a, b, c :: cmp(a, b) <= 0 && cmp(b, c) <= 0 ==> cmp(a, c) <= 0)
  }

  predicate SortedBy<T>(r: seq<T>, cmp: (T, T) -> int) {
    forall i, j :: 0 <= i < j < |r| ==> cmp(r[i], r[j]) <= 0
  }

  /** A sorted sequence with an element in front that may precede all of it. */
  lemma SortedCons<T>(h: T, t: seq<T>, cmp: (T, T) -> int)
    requires SortedBy(t, cmp)
    requires forall j :: 0 <= j < |t| ==> cmp(h, t[j]) <= 0
    ensures SortedBy([h] + t, cmp)
  {
    var out := [h] + t;
    forall i, j | 0 <= i < j < |out| ensures cmp(out[i], out[j]) <= 0 {
      assert out[j] == t[j - 1];
      if i > 0 {
        assert out[i] == t[i - 1];
      }
    }
  }

  lemma SortedUncons<T>(r: seq<T>, cmp: (T, T) -> int)
    requires SortedBy(r, cmp) && r != []
    ensures SortedBy(r[1..], cmp)
    ensures forall j :: 0 <= j < |r[1..]| ==> cmp(r[0], r[1..][j]) <= 0
  {
    var tail := r[1..];
    forall i, j | 0 <= i < j < |tail| ensures cmp(tail[i], tail[j]) <= 0 {
      assert tail[i] == r[i + 1] && tail[j] == r[j + 1];
    }
    forall j | 0 <= j < |tail| ensures cmp(r[0], tail[j]) <= 0 {
      assert tail[j] == r[j + 1];
    }
  }

  lemma InsertMembers<T>(x: T, r: seq<T>, cmp: (T, T) -> int)
    ensures forall y :: y in Insert(x, r, cmp) ==> y == x || y in r
  {
    var out := Insert(x, r, cmp);
    forall y | y in out ensures y == x || y in r {
      assert y in multiset(out);
    }
  }

  lemma {:induction false} InsertSorted<T(!new)>(x: T, r: seq<T>, cmp: (T, T) -> int)
    requires TotalPreorder(cmp) && SortedBy(r, cmp)
    ensures SortedBy(Insert(x, r, cmp), cmp)
  {
    if r == [] {
    } else if cmp(x, r[0]) <= 0 {
      forall j | 0 <= j < |r| ensures cmp(x, r[j]) <= 0 {
        if j > 0 {
          assert cmp(r[0], r[j]) <= 0;
        }
      }
      SortedCons(x, r, cmp);
    } else {
      var tail := r[1..];
      SortedUncons(r, cmp);
      InsertSorted(x, tail, cmp);
      var rest := Insert(x, tail, cmp);
      InsertMembers(x, tail, cmp);
      forall j | 0 <= j < |rest| ensures cmp(r[0], rest[j]) <= 0 {
        assert rest[j] in rest;
        if rest[j] != x {
          var k :| 0 <= k < |tail| && tail[k] == rest[j];
        }
      }
      SortedCons(r[0], rest, cmp);
    }
  }

  /** Under a total preorder the sort's result is ordered. */
  lemma {:induction false} SortSorted<T(!new)>(s: seq<T>, cmp: (T, T) -> int)
    requires TotalPreorder(cmp)
    ensures SortedBy(Sort(s, cmp), cmp)
  {
    if s != [] {
      SortSorted(s[1..], cmp);
      InsertSorted(s[0], Sort(s[1..], cmp), cmp);
    }
  }

  /** A comparator that calls everything equal leaves the order as it is. */
  lemma {:induction false} SortUnderTies<T>(s: seq<T>, cmp: (T, T) -> int)
    requires forall a, b :: cmp(a, b) == 0
    ensures Sort(s, cmp) == s
  {
    if s != [] {
      SortUnderTies(s[1..], cmp);
      assert s == [s[0]] + s[1..];
    }
  }

  /** Elements of one class, all of which the comparator lets precede each other. */
  ghost predicate Tied<T(!new)>(cmp: (T, T) -> int, same: T -> bool) {
    forall a, b :: same(a) && same(b) ==> cmp(a, b) <= 0
  }

  /** Inserting `x` places it before every element of its own class. */
  lemma {:induction false} InsertKeepsClass<T(!new)>(x: T, r: seq<T>, cmp: (T, T) -> int, same: T -> bool)
    requires Tied(cmp, same)
    ensures Seqs.Filter(Insert(x, r, cmp), same) == (if same(x) then [x] else []) + Seqs.Filter(r, same)
  {
    if r == [] {
      assert Insert(x, r, cmp) == [x] + [];
      Seqs.FilterAppend([x], [], same);
    } else if cmp(x, r[0]) <= 0 {
      Seqs.FilterAppend([x], r, same);
    } else {
      var rest := Insert(x, r[1..], cmp);
      InsertKeepsClass(x, r[1..], cmp, same);
      assert r == [r[0]] + r[1..];
      Seqs.FilterAppend([r[0]], rest, same);
      Seqs.FilterAppend([r[0]], r[1..], same);
      assert same(x) ==> !same(r[0]);
    }
  }

  /** The sort is stable: the elements of a class the comparator ties keep their input order. */
  lemma {:induction false} SortStable<T(!new)>(s: seq<T>, cmp: (T, T) -> int, same: T -> bool)
    requires Tied(cmp, same)
    ensures Seqs.Filter(Sort(s, cmp), same) == Seqs.Filter(s, same)
  {
    if s != [] {
      SortStable(s[1..], cmp, same);
      InsertKeepsClass(s[0], Sort(s[1..], cmp), cmp, same);
      assert s == [s[0]] + s[1..];
      Seqs.FilterAppend([s[0]], s[1..], same);
    }
  }

  // ---- the three orders of the shop ----

  /** The sort key's comparator; `collate` stands for `localeCompare`. */
  function Comparator(sortBy: string, collate: (string, string) -> int): (Product, Product) -> int {
    if sortBy == "price-low" then (a: Product, b: Product) => a.price - b.price
    else if sortBy == "price-high" then (a: Product, b: Product) => b.price - a.price
    else if sortBy == "name" then (a: Product, b: Product) => collate(a.name, b.name)
    else (a: Product, b: Product) => 0
  }

  /** `sortedProducts`. */
  function SortedProducts(products: seq<Product>, selected: string, sortBy: string,
                          collate: (string, string) -> int): seq<Product> {
    Sort(FilteredProducts(products, selected), Comparator(sortBy, collate))
  }

  /** The sorted list holds exactly the filtered products, each as often. */
  lemma SortedIsPermutation(products: seq<Product>, selected: string, sortBy: string,
                            collate: (string, string) -> int)
    ensures multiset(SortedProducts(products, selected, sortBy, collate))
         == multiset(FilteredProducts(products, selected))
  {
  }

  lemma PriceLowAscending(products: seq<Product>, selected: string, collate: (string, string) -> int)
    ensures var r := SortedProducts(products, selected, "price-low", collate);
      forall i, j :: 0 <= i < j < |r| ==> r[i].price <= r[j].price
  {
    var cmp := Comparator("price-low", collate);
    SortSorted(FilteredProducts(products, selected), cmp);
  }

  lemma PriceHighDescending(products: seq<Product>, selected: string, collate: (string, string) -> int)
    ensures var r := SortedProducts(products, selected, "price-high", collate);
      forall i, j :: 0 <= i < j < |r| ==> r[i].price >= r[j].price
  {
    var cmp := Comparator("price-high", collate);
    SortSorted(FilteredProducts(products, selected), cmp);
  }

  /** The products of one price. */
  function HasPrice(price: int): Product -> bool {
    (p: Product) => p.price == price
  }

  /** Sorting by price, either way, keeps products of equal price in their catalogue order. */
  lemma EqualPricesKeepOrder(products: seq<Product>, selected: string, sortBy: string, price: int,
                             collate: (string, string) -> int)
    requires sortBy == "price-low" || sortBy == "price-high"
    ensures Seqs.Filter(SortedProducts(products, selected, sortBy, collate), HasPrice(price))
         == Seqs.Filter(FilteredProducts(products, selected), HasPrice(price))
  {
    SortStable(FilteredProducts(products, selected), Comparator(sortBy, collate), HasPrice(price));
  }

  /** The products of one name. */
  function HasName(name: string): Product -> bool {
    (p: Product) => p.name == name
  }

  /** When the string order is a total preorder, sorting by name keeps products of the same
      name in their catalogue order. */
  lemma EqualNamesKeepOrder(products: seq<Product>, selected: string, name: string,
                            collate: (string, string) -> int)
    requires TotalPreorder(collate)
    ensures Seqs.Filter(SortedProducts(products, selected, "name", collate), HasName(name))
         == Seqs.Filter(FilteredProducts(products, selected), HasName(name))
  {
    assert collate(name, name) <= 0;
    SortStable(FilteredProducts(products, selected), Comparator("name", collate), HasName(name));
  }

  /** When the string order is a total preorder, "name" orders the products by it. */
  lemma NameOrdered(products: seq<Product>, selected: string, collate: (string, string) -> int)
    requires TotalPreorder(collate)
    ensures var r := SortedProducts(products, selected, "name", collate);
      forall i, j :: 0 <= i < j < |r| ==> collate(r[i].name, r[j].name) <= 0
  {
    var cmp := Comparator("name", collate);
    assert TotalPreorder(cmp) by {
      forall a: Product, b: Product | cmp(a, b) > 0 ensures cmp(b, a) <= 0 {
        assert collate(a.name, b.name) > 0;
      }
      forall a: Product, b: Product, c: Product | cmp(a, b) <= 0 && cmp(b, c) <= 0
        ensures cmp(a, c) <= 0
      {
        assert collate(a.name, b.name) <= 0 && collate(b.name, c.name) <= 0;
      }
    }
    SortSorted(FilteredProducts(products, selected), cmp);
  }

  /** Any other key, the default "featured" among them, keeps the filtered order. */
  lemma OtherKeyKeepsOrder(products: seq<Product>, selected: string, sortBy: string,
                           collate: (string, string) -> int)
    requires sortBy != "price-low" && sortBy != "price-high" && sortBy != "name"
    ensures SortedProducts(products, selected, sortBy, collate) == FilteredProducts(products, selected)
  {
    SortUnderTies(FilteredProducts(products, selected), Comparator(sortBy, collate));
  }
}
