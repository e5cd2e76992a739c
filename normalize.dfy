/**
 Normalisation of loosely shaped catalog records into the fixed Plant and
 Category shapes (`normalizePlant`, `normalizeCategory`). Every field is
 resolved from an ordered list of candidate keys, the first non-nullish one
 winning; when none is present a default applies. Both conversions are total.
 */
module Normalize {
  import opened Js

  /** A record from the catalog service: field name to JSON value. */
  type Record = map<string, Value>

  /** `rec?.[key]` is neither undefined nor null, so `??` stops at it. */
  predicate Present(rec: Record, key: string) {
    key in rec && rec[key] != Null
  }

  /** `rec?.[keys[0]] ?? rec?.[keys[1]] ?? ... ?? default`. */
  function Coalesce(rec: Record, keys: seq<string>, default: Value): (v: Value)
    ensures default != Null ==> v != Null
  {
    if keys == [] then default
    else if Present(rec, keys[0]) then rec[keys[0]]
    else Coalesce(rec, keys[1..], default)
  }

  /** The first candidate key that is present decides the value. */
  lemma {:induction false} CoalesceFirstPresent(rec: Record, keys: seq<string>, default: Value, i: nat)
    requires i < |keys| && Present(rec, keys[i])
    requires forall j :: 0 <= j < i ==> !Present(rec, keys[j])
    ensures Coalesce(rec, keys, default) == rec[keys[i]]
  {
    if i > 0 {
      assert !Present(rec, keys[0]);
      assert forall j :: 0 <= j < i - 1 ==> keys[1..][j] == keys[j + 1];
      CoalesceFirstPresent(rec, keys[1..], default, i - 1);
    }
  }

  /** With no candidate key present, the default applies. */
  lemma {:induction false} CoalesceNonePresent(rec: Record, keys: seq<string>, default: Value)
    requires forall j :: 0 <= j < |keys| ==> !Present(rec, keys[j])
    ensures Coalesce(rec, keys, default) == default
  {
    if keys != [] {
      assert !Present(rec, keys[0]);
      assert forall j :: 0 <= j < |keys| - 1 ==> keys[1..][j] == keys[j + 1];
      CoalesceNonePresent(rec, keys[1..], default);
    }
  }

  // Unfoldings of `Coalesce` for the lengths of the key tables below.

  lemma Coalesce2(rec: Record, a: string, b: string, d: Value)
    ensures Coalesce(rec, [a, b], d)
         == if Present(rec, a) then rec[a] else if Present(rec, b) then rec[b] else d
  {
    assert [a, b][1..] == [b];
    assert [b][1..] == [];
    assert Coalesce(rec, [b], d) == if Present(rec, b) then rec[b] else Coalesce(rec, [], d);
  }

  lemma Coalesce3(rec: Record, a: string, b: string, c: string, d: Value)
    ensures Coalesce(rec, [a, b, c], d)
         == if Present(rec, a) then rec[a] else Coalesce(rec, [b, c], d)
  {
    assert [a, b, c][1..] == [b, c];
  }

  lemma Coalesce4(rec: Record, a: string, b: string, c: string, e: string, d: Value)
    ensures Coalesce(rec, [a, b, c, e], d)
         == if Present(rec, a) then rec[a] else Coalesce(rec, [b, c, e], d)
  {
    assert [a, b, c, e][1..] == [b, c, e];
  }

  lemma Coalesce6(rec: Record, a: string, b: string, c: string, e: string, f: string, g: string, d: Value)
    ensures Coalesce(rec, [a, b, c, e, f, g], d)
         == if Present(rec, a) then rec[a]
            else if Present(rec, b) then rec[b]
            else Coalesce(rec, [c, e, f, g], d)
  {
    assert [a, b, c, e, f, g][1..] == [b, c, e, f, g];
    assert [b, c, e, f, g][1..] == [c, e, f, g];
  }

  // Candidate keys, in the order the script tries them.
  const PlantIdKeys: seq<string> := ["id", "plantId", "_id"]
  const PlantNameKeys: seq<string> := ["name", "plant_name", "title"]
  const PlantImageKeys: seq<string> := ["image", "img", "thumbnail"]
  const PlantCategoryKeys: seq<string> := ["category", "category_name", "type"]
  const PlantPriceKeys: seq<string> := ["price", "cost"]
  const PlantDescriptionKeys: seq<string> := ["description", "short_description", "about"]
  const CategoryIdKeys: seq<string> := ["id", "category_id", "_id", "slug"]
  const CategoryNameKeys: seq<string> := ["category", "category_name", "name", "title", "label", "slug"]

  /** A normalised plant. The text fields keep whatever JSON value the source
      gave (the script does not coerce them); only `id` goes through `String`
      and `price` through `Number`. */
  datatype Plant = Plant(id: string, name: Value, image: Value, category: Value,
                         price: JsNumber, description: Value)

  /** A normalised category. */
  datatype Category = Category(id: string, name: Value)

  /** No field of the plant is null: normalisation never leaks a missing value. */
  predicate Complete(p: Plant) {
    p.name != Null && p.image != Null && p.category != Null && p.description != Null
  }

  /** `normalizePlant(rec)`, where `token` stands for the random identifier the
      script draws when the record carries no identifier of its own. */
  function NormalizePlant(rec: Record, token: string): (p: Plant)
    ensures p.id == ToJsString(
              if Present(rec, "id") then rec["id"]
              else if Present(rec, "plantId") then rec["plantId"]
              else if Present(rec, "_id") then rec["_id"]
              else Str(token))
    ensures p.name ==
              (if Present(rec, "name") then rec["name"]
               else if Present(rec, "plant_name") then rec["plant_name"]
               else if Present(rec, "title") then rec["title"]
               else Str("Tree"))
    ensures p.image ==
              (if Present(rec, "image") then rec["image"]
               else if Present(rec, "img") then rec["img"]
               else if Present(rec, "thumbnail") then rec["thumbnail"]
               else Str(""))
    ensures p.category ==
              (if Present(rec, "category") then rec["category"]
               else if Present(rec, "category_name") then rec["category_name"]
               else if Present(rec, "type") then rec["type"]
               else Str("Tree"))
    ensures p.price == ToNumber(
              if Present(rec, "price") then rec["price"]
              else if Present(rec, "cost") then rec["cost"]
              else Num(0))
    ensures p.description ==
              (if Present(rec, "description") then rec["description"]
               else if Present(rec, "short_description") then rec["short_description"]
               else if Present(rec, "about") then rec["about"]
               else Str(""))
    ensures Complete(p)
  {
    Coalesce3(rec, "id", "plantId", "_id", Str(token));
    Coalesce2(rec, "plantId", "_id", Str(token));
    Coalesce3(rec, "name", "plant_name", "title", Str("Tree"));
    Coalesce2(rec, "plant_name", "title", Str("Tree"));
    Coalesce3(rec, "image", "img", "thumbnail", Str(""));
    Coalesce2(rec, "img", "thumbnail", Str(""));
    Coalesce3(rec, "category", "category_name", "type", Str("Tree"));
    Coalesce2(rec, "category_name", "type", Str("Tree"));
    Coalesce2(rec, "price", "cost", Num(0));
    Coalesce3(rec, "description", "short_description", "about", Str(""));
    Coalesce2(rec, "short_description", "about", Str(""));
    Plant(ToJsString(Coalesce(rec, PlantIdKeys, Str(token))),
          Coalesce(rec, PlantNameKeys, Str("Tree")),
          Coalesce(rec, PlantImageKeys, Str("")),
          Coalesce(rec, PlantCategoryKeys, Str("Tree")),
          ToNumber(Coalesce(rec, PlantPriceKeys, Num(0))),
          Coalesce(rec, PlantDescriptionKeys, Str("")))
  }

  /** `normalizeCategory(rec, idx)`: the identifier falls back to the position
      of the record in its list. */
  function NormalizeCategory(rec: Record, idx: int): (c: Category)
    ensures c.id == ToJsString(
              if Present(rec, "id") then rec["id"]
              else if Present(rec, "category_id") then rec["category_id"]
              else if Present(rec, "_id") then rec["_id"]
              else if Present(rec, "slug") then rec["slug"]
              else Num(idx))
    ensures c.name ==
              (if Present(rec, "category") then rec["category"]
               else if Present(rec, "category_name") then rec["category_name"]
               else if Present(rec, "name") then rec["name"]
               else if Present(rec, "title") then rec["title"]
               else if Present(rec, "label") then rec["label"]
               else if Present(rec, "slug") then rec["slug"]
               else Str("Category"))
    ensures c.name != Null
  {
    Coalesce4(rec, "id", "category_id", "_id", "slug", Num(idx));
    Coalesce3(rec, "category_id", "_id", "slug", Num(idx));
    Coalesce2(rec, "_id", "slug", Num(idx));
    Coalesce6(rec, "category", "category_name", "name", "title", "label", "slug", Str("Category"));
    Coalesce4(rec, "name", "title", "label", "slug", Str("Category"));
    Coalesce3(rec, "title", "label", "slug", Str("Category"));
    Coalesce2(rec, "label", "slug", Str("Category"));
    Category(ToJsString(Coalesce(rec, CategoryIdKeys, Num(idx))),
             Coalesce(rec, CategoryNameKeys, Str("Category")))
  }

  /** `list.map(normalizePlant)`; the i-th random identifier is `token(i)`. */
  function NormalizePlants(recs: seq<Record>, token: nat -> string): (ps: seq<Plant>)
    ensures |ps| == |recs|
  {
    seq(|recs|, i requires 0 <= i < |recs| => NormalizePlant(recs[i], token(i)))
  }

  /** `list.map((c, i) => normalizeCategory(c, i))`. */
  function NormalizeCategories(recs: seq<Record>): (cs: seq<Category>)
    ensures |cs| == |recs|
  {
    seq(|recs|, i requires 0 <= i < |recs| => NormalizeCategory(recs[i], i))
  }

  // ---------------- properties ----------------

  /** The empty record (the script's `plant || {}` case) normalises to the defaults. */
  lemma NormalizeEmptyPlant(token: string)
    ensures NormalizePlant(map[], token)
         == Plant(token, Str("Tree"), Str(""), Str("Tree"), Finite(0), Str(""))
  {
  }

  /** The empty record normalises to the default category named after its position. */
  lemma NormalizeEmptyCategory(idx: int)
    ensures NormalizeCategory(map[], idx) == Category(IntToString(idx), Str("Category"))
  {
  }

  /** Some identifier key is present. */
  predicate HasPlantId(rec: Record) {
    Present(rec, "id") || Present(rec, "plantId") || Present(rec, "_id")
  }

  /** The random token matters exactly when the record has no identifier: then
      it becomes the id; otherwise the result does not depend on it. */
  lemma TokenOnlyWithoutId(rec: Record, t1: string, t2: string)
    ensures HasPlantId(rec) ==> NormalizePlant(rec, t1) == NormalizePlant(rec, t2)
    ensures !HasPlantId(rec) ==> NormalizePlant(rec, t1).id == t1
  {
  }

  /** A plant written back as a record, as a cooperative catalog would serve it. */
  function PlantRecord(p: Plant): Record
    requires p.price.Finite?
  {
    map["id" := Str(p.id), "name" := p.name, "image" := p.image,
        "category" := p.category, "price" := Num(p.price.n),
        "description" := p.description]
  }

  /** Normalisation is idempotent: a complete plant served back in its own
      shape normalises to itself, whatever random token is at hand. */
  lemma NormalizePlantFixpoint(p: Plant, token: string)
    requires Complete(p) && p.price.Finite?
    ensures NormalizePlant(PlantRecord(p), token) == p
  {
  }

  /** A category written back as a record. */
  function CategoryRecord(c: Category): Record {
    map["id" := Str(c.id), "category" := c.name]
  }

  /** Likewise for categories. */
  lemma NormalizeCategoryFixpoint(c: Category, idx: int)
    requires c.name != Null
    ensures NormalizeCategory(CategoryRecord(c), idx) == c
  {
  }
}
