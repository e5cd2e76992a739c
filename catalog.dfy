/**
 The catalog's offline behaviour: the built-in mock dataset, the keyword filter
 used when a category's plants cannot be fetched, the category list with its
 synthetic "All Trees" entry, and the active-category selection.
 */
module Catalog {
  import opened Js
  import opened Normalize

  /** A plant of the built-in mock dataset; all its fields are plain strings and
      an integer price. */
  datatype MockPlant = MockPlant(id: string, name: string, image: string, category: string,
                                 price: int, description: string)

  /** The mock plant as the record that `normalizePlant` receives. */
  function MockRecord(m: MockPlant): Record {
    map["id" := Str(m.id), "name" := Str(m.name), "image" := Str(m.image),
        "category" := Str(m.category), "price" := Num(m.price),
        "description" := Str(m.description)]
  }

  const Mango := MockPlant("101", "Mango Tree",
    "https://images.unsplash.com/photo-1524592714635-61b8f8b62f1e?q=80&w=1200&auto=format&fit=crop",
    "Fruit Tree", 500,
    "A fast-growing tropical tree that produces delicious, juicy mangoes during summer.")
  const Guava := MockPlant("102", "Guava Tree",
    "https://images.unsplash.com/photo-1582971280450-31c0dcfc05f4?q=80&w=1200&auto=format&fit=crop",
    "Fruit Tree", 500,
    "Hardy and fragrant, bears sweet guavas rich in vitamin C.")
  const Bougainvillea := MockPlant("103", "Bougainvillea",
    "https://images.unsplash.com/photo-1501004318641-b39e6451bec6?q=80&w=1200&auto=format&fit=crop",
    "Flowering Tree", 350,
    "Vibrant flowering climber that brightens fences and pergolas.")
  const Neem := MockPlant("104", "Neem",
    "https://images.unsplash.com/photo-1594633312681-425c1b469f9f?q=80&w=1200&auto=format&fit=crop",
    "Shade Tree", 450,
    "Evergreen shade tree known for air-purifying medicinal leaves.")

  /** The mock plant list, in its declared order. */
  const MockPlants: seq<MockPlant> := [Mango, Guava, Bougainvillea, Neem]

  /** The mock category records, in their declared order. */
  const MockCategories: seq<Record> := [
    map["id" := Str("all"), "category" := Str("All Trees")],
    map["id" := Str("1"), "category" := Str("Fruit Trees")],
    map["id" := Str("2"), "category" := Str("Flowering Trees")],
    map["id" := Str("3"), "category" := Str("Shade Trees")]
  ]

  /** The synthetic first category. */
  const AllTrees := Category("all", Str("All Trees"))

  // ---------------- category lists ----------------

  /** The list shown after a successful category fetch: the synthetic entry,
      then every fetched category normalised by position. */
  function FetchedCategoryList(fetched: seq<Record>): (list: seq<Category>)
    ensures |list| == |fetched| + 1 && list[0] == AllTrees
    ensures forall i :: 0 <= i < |fetched| ==> list[i + 1] == NormalizeCategory(fetched[i], i)
  {
    [AllTrees] + NormalizeCategories(fetched)
  }

  /** The list shown when the fetch fails: the synthetic entry, then the
      normalised mock categories without their own leading "all" entry. */
  function MockCategoryList(): (list: seq<Category>)
    ensures |list| >= 1 && list[0] == AllTrees
  {
    [AllTrees] + NormalizeCategories(MockCategories)[1..]
  }

  /** The offline category list, spelled out: "All Trees" appears once, first. */
  lemma MockCategoryListContents()
    ensures MockCategoryList() == [AllTrees, Category("1", Str("Fruit Trees")),
                                   Category("2", Str("Flowering Trees")),
                                   Category("3", Str("Shade Trees"))]
  {
    var cs := NormalizeCategories(MockCategories);
    assert cs[1] == Category("1", Str("Fruit Trees"));
    assert cs[2] == Category("2", Str("Flowering Trees"));
    assert cs[3] == Category("3", Str("Shade Trees"));
  }

  /** The fetched list does not filter out a fetched category whose id is
      already "all": such a catalog yields two entries with that id. */
  lemma FetchedListKeepsDuplicateAll(fetched: seq<Record>)
    requires |fetched| >= 1 && "id" in fetched[0] && fetched[0]["id"] == Str("all")
    ensures var list := FetchedCategoryList(fetched);
            list[0].id == "all" && list[1].id == "all"
  {
  }

  // ---------------- offline plant filter ----------------

  /** The fixed table from a category id to the keyword its mock plants carry;
      any other id maps to the empty (falsy) keyword. */
  function CategoryKeyword(id: string): (key: string)
    ensures key == "" <==> id != "1" && id != "2" && id != "3"
  {
    if id == "1" then "Fruit"
    else if id == "2" then "Flower"
    else if id == "3" then "Shade"
    else ""
  }

  /** The filter's test on a category: with a keyword, the lower-cased
      category includes the lower-cased keyword; without one, it passes. */
  predicate KeepsCategory(category: string, key: string) {
    if key != "" then Includes(Lower(category), Lower(key)) else true
  }

  /** The filter's test for one plant. */
  predicate Keep(p: MockPlant, key: string) {
    KeepsCategory(p.category, key)
  }

  /** `a` is obtained from `b` by deleting elements: it keeps `b`'s order. */
  predicate Subsequence<T(==)>(a: seq<T>, b: seq<T>)
    decreases |b|
  {
    a == [] || (b != [] && ((a[0] == b[0] && Subsequence(a[1..], b[1..])) || Subsequence(a, b[1..])))
  }

  /** `ps.filter(p => Keep(p, key))`. */
  function FilterPlants(ps: seq<MockPlant>, key: string): seq<MockPlant>
  {
    if ps == [] then []
    else
      var rest := FilterPlants(ps[1..], key);
      if Keep(ps[0], key) then [ps[0]] + rest else rest
  }

  /** The filter keeps exactly the plants that pass the test, in their
      original order. */
  lemma {:induction false} FilterPlantsKeeps(ps: seq<MockPlant>, key: string)
    ensures forall p :: p in FilterPlants(ps, key) <==> p in ps && Keep(p, key)
    ensures Subsequence(FilterPlants(ps, key), ps)
    ensures forall p :: multiset(FilterPlants(ps, key))[p] == if Keep(p, key) then multiset(ps)[p] else 0
    decreases |ps|
  {
    if ps != [] {
      var rest := FilterPlants(ps[1..], key);
      FilterPlantsKeeps(ps[1..], key);
      assert ps == [ps[0]] + ps[1..];
      assert multiset(ps) == multiset{ps[0]} + multiset(ps[1..]);
      if Keep(ps[0], key) {
        assert ([ps[0]] + rest)[1..] == rest;
        assert multiset([ps[0]] + rest) == multiset{ps[0]} + multiset(rest);
      }
    }
  }

  /** The plants shown when fetching category `id` fails: the filtered mock
      plants, normalised in order. */
  function MockPlantsByCategory(id: string, token: nat -> string): (ps: seq<Plant>)
  {
    var kept := FilterPlants(MockPlants, CategoryKeyword(id));
    NormalizePlants(seq(|kept|, i requires 0 <= i < |kept| => MockRecord(kept[i])), token)
  }

  /** The plants shown when fetching all plants fails. */
  function MockAllPlants(token: nat -> string): (ps: seq<Plant>)
  {
    NormalizePlants(seq(|MockPlants|, i requires 0 <= i < |MockPlants| => MockRecord(MockPlants[i])), token)
  }

  /** Which plant list a category selection asks for. */
  datatype PlantQuery = AllPlants | ByCategory(id: string)

  /** `setActiveCat`'s choice of loader: "all" loads every plant, any other id
      that category's plants. */
  function QueryFor(id: string): (q: PlantQuery)
    ensures q.AllPlants? <==> id == "all"
    ensures q.ByCategory? ==> q.id == id
  {
    if id == "all" then AllPlants else ByCategory(id)
  }

  /** What the grid shows for a query when the network is unavailable. */
  function OfflinePlants(q: PlantQuery, token: nat -> string): seq<Plant> {
    match q
    case AllPlants => MockAllPlants(token)
    case ByCategory(id) => MockPlantsByCategory(id, token)
  }

  /** The normalised form of a mock plant; mock plants all carry an id, so no
      random token is involved. */
  function NormalizeMock(m: MockPlant): (p: Plant)
    ensures forall token :: NormalizePlant(MockRecord(m), token) == p
    ensures p == Plant(m.id, Str(m.name), Str(m.image), Str(m.category), Finite(m.price), Str(m.description))
  {
    NormalizePlant(MockRecord(m), "")
  }

  /** The all-plants fallback is the four mock plants, normalised in order. */
  lemma MockAllPlantsAreMock(token: nat -> string)
    ensures MockAllPlants(token) == seq(|MockPlants|, i requires 0 <= i < |MockPlants| => NormalizeMock(MockPlants[i]))
  {
  }

  /** Whatever category is selected, the offline grid shows the mock plants
      its keyword keeps; selecting "all" goes through the all-plants fallback,
      which shows the same as an empty keyword. */
  lemma OfflineSelection(id: string, token: nat -> string)
    ensures OfflinePlants(QueryFor(id), token) == MockPlantsByCategory(id, token)
  {
    if id == "all" {
      UnknownCategoryKeepsAll(id, token);
    }
  }

  /** Offline, the "Flowering Trees" button shows just the normalised
      Bougainvillea. */
  lemma OfflineFlowering(token: nat -> string)
    ensures OfflinePlants(QueryFor("2"), token) == [NormalizeMock(Bougainvillea)]
  {
    FlowerCategory();
    MockPlantsByCategoryIsFilter("2", token);
  }

  /** The offline result for a category, in terms of the mock plants it keeps. */
  lemma MockPlantsByCategoryIsFilter(id: string, token: nat -> string)
    ensures var kept := FilterPlants(MockPlants, CategoryKeyword(id));
            MockPlantsByCategory(id, token) == seq(|kept|, i requires 0 <= i < |kept| => NormalizeMock(kept[i]))
  {
  }

  /** An id outside the table keeps every mock plant, exactly as the all-plants
      fallback shows them. */
  lemma UnknownCategoryKeepsAll(id: string, token: nat -> string)
    requires id != "1" && id != "2" && id != "3"
    ensures FilterPlants(MockPlants, CategoryKeyword(id)) == MockPlants
    ensures MockPlantsByCategory(id, token) == MockAllPlants(token)
  {
    assert FilterPlants(MockPlants[3..], "") == [Neem];
    assert FilterPlants(MockPlants[2..], "") == [Bougainvillea, Neem];
    assert FilterPlants(MockPlants[1..], "") == [Guava, Bougainvillea, Neem];
  }

  /** A keyword that starts a category is kept. */
  lemma KeepPrefix(category: string, key: string)
    requires key != "" && key <= category
    ensures KeepsCategory(category, key)
  {
    LowerPrefix(key, category);
  }

  /** A keyword holding the letter `c` at index `k` is not kept by a category
      that has neither `c` nor its upper-case form. */
  lemma KeepMissingLetter(category: string, key: string, k: nat, c: char)
    requires key != "" && k < |key| && key[k] == c && 'a' <= c <= 'z'
    requires c !in category && (c as int - 32) as char !in category
    ensures !KeepsCategory(category, key)
  {
    LowerOmits(category, c);
    assert Lower(key)[k] == c;
    if Includes(Lower(category), Lower(key)) {
      IncludesChar(Lower(category), Lower(key), c);
    }
  }

  /** The keyword "Fruit" keeps the fruit trees' category only. */
  lemma KeepFruit()
    ensures KeepsCategory("Fruit Tree", "Fruit")
    ensures !KeepsCategory("Flowering Tree", "Fruit") && !KeepsCategory("Shade Tree", "Fruit")
  {
    FruitKeepsFruitTree();
    FruitDropsFloweringTree();
    FruitDropsShadeTree();
  }

  // One fact per lemma: each proof stays small.

  lemma FruitKeepsFruitTree()
    ensures KeepsCategory("Fruit Tree", "Fruit")
  {
    KeepPrefix("Fruit Tree", "Fruit");
  }

  lemma FruitDropsFloweringTree()
    ensures !KeepsCategory("Flowering Tree", "Fruit")
  {
    KeepMissingLetter("Flowering Tree", "Fruit", 2, 'u');
  }

  lemma FruitDropsShadeTree()
    ensures !KeepsCategory("Shade Tree", "Fruit")
  {
    KeepMissingLetter("Shade Tree", "Fruit", 2, 'u');
  }

  /** The keyword "Flower" keeps the flowering trees' category only. */
  lemma KeepFlower()
    ensures KeepsCategory("Flowering Tree", "Flower")
    ensures !KeepsCategory("Fruit Tree", "Flower") && !KeepsCategory("Shade Tree", "Flower")
  {
    FlowerKeepsFloweringTree();
    FlowerDropsFruitTree();
    FlowerDropsShadeTree();
  }

  // One fact per lemma: each proof stays small.

  lemma FlowerKeepsFloweringTree()
    ensures KeepsCategory("Flowering Tree", "Flower")
  {
    KeepPrefix("Flowering Tree", "Flower");
  }

  lemma FlowerDropsFruitTree()
    ensures !KeepsCategory("Fruit Tree", "Flower")
  {
    KeepMissingLetter("Fruit Tree", "Flower", 3, 'w');
  }

  lemma FlowerDropsShadeTree()
    ensures !KeepsCategory("Shade Tree", "Flower")
  {
    KeepMissingLetter("Shade Tree", "Flower", 3, 'w');
  }

  /** The keyword "Shade" keeps the shade trees' category only. */
  lemma KeepShade()
    ensures KeepsCategory("Shade Tree", "Shade")
    ensures !KeepsCategory("Fruit Tree", "Shade") && !KeepsCategory("Flowering Tree", "Shade")
  {
    ShadeKeepsShadeTree();
    ShadeDropsFruitTree();
    ShadeDropsFloweringTree();
  }

  // One fact per lemma: each proof stays small.

  lemma ShadeKeepsShadeTree()
    ensures KeepsCategory("Shade Tree", "Shade")
  {
    KeepPrefix("Shade Tree", "Shade");
  }

  lemma ShadeDropsFruitTree()
    ensures !KeepsCategory("Fruit Tree", "Shade")
  {
    KeepMissingLetter("Fruit Tree", "Shade", 1, 'h');
  }

  lemma ShadeDropsFloweringTree()
    ensures !KeepsCategory("Flowering Tree", "Shade")
  {
    KeepMissingLetter("Flowering Tree", "Shade", 1, 'h');
  }

  /** Category "1" keeps the two fruit trees. */
  lemma FruitCategory()
    ensures FilterPlants(MockPlants, CategoryKeyword("1")) == [Mango, Guava]
  {
    KeepFruit();
    assert FilterPlants([Neem], "Fruit") == [];
    assert FilterPlants([Bougainvillea, Neem], "Fruit") == [];
    assert FilterPlants([Guava, Bougainvillea, Neem], "Fruit") == [Guava];
  }

  /** Category "2" keeps just Bougainvillea. */
  lemma FlowerCategory()
    ensures FilterPlants(MockPlants, CategoryKeyword("2")) == [Bougainvillea]
  {
    KeepFlower();
    assert FilterPlants([Neem], "Flower") == [];
    assert FilterPlants([Bougainvillea, Neem], "Flower") == [Bougainvillea];
    assert FilterPlants([Guava, Bougainvillea, Neem], "Flower") == [Bougainvillea];
  }

  /** Category "3" keeps just Neem. */
  lemma ShadeCategory()
    ensures FilterPlants(MockPlants, CategoryKeyword("3")) == [Neem]
  {
    KeepShade();
    assert FilterPlants([Neem], "Shade") == [Neem];
    assert FilterPlants([Bougainvillea, Neem], "Shade") == [Neem];
    assert FilterPlants([Guava, Bougainvillea, Neem], "Shade") == [Neem];
  }
}
