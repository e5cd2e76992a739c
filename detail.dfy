/**
 The detail view's two-phase fill. The view is first filled from the data the
 clicked card carries (the instant detail); when the richer fetch of the plant
 succeeds, fetched fields that come back non-empty override the instant ones.
 */
module Detail {
  import opened Js
  import opened Normalize

  datatype Option<T> = None | Some(value: T)

  /** The fields the detail view shows. */
  datatype Detail = Detail(id: string, name: Value, image: Value, description: Value,
                           category: Value, price: JsNumber)

  /** The merge as the script writes it: the fetched record is first
      normalised, so a field the record lacks arrives as its default ('Tree'
      for name and category, 0 for price) and overrides the instant value. */
  function MergeAsWritten(instant: Detail, fetched: Record, token: string): (d: Detail)
    ensures d.id == instant.id
  {
    var p := NormalizePlant(fetched, token);
    instant.(name := Or(p.name, instant.name),
             image := Or(p.image, instant.image),
             description := Or(p.description, instant.description),
             category := Or(p.category, instant.category),
             price := if p.price.Finite? then p.price else instant.price)
  }

  /** The detail shown first for the mock Mango Tree card, priced 500. */
  const MangoInstant := Detail("101", Str("Mango Tree"), Str(""), Str(""), Str("Fruit Tree"), Finite(500))

  /** As written, a fetched record with a description but no name, category or
      price replaces the shown name and category by 'Tree' and the shown price
      by 0. */
  lemma MergeAsWrittenOverwritesMissing(token: string)
    ensures var d := MergeAsWritten(MangoInstant, map["description" := Str("Juicy")], token);
            d.description == Str("Juicy") && d.name == Str("Tree")
            && d.category == Str("Tree") && d.price == Finite(0)
  {
  }

  /** As written, even a response without a plant (`plant || {}`) resets the
      shown name and category to 'Tree' and the price to 0. */
  lemma MergeAsWrittenNoPlant(instant: Detail, token: string)
    ensures MergeAsWritten(instant, map[], token)
         == instant.(name := Str("Tree"), category := Str("Tree"), price := Finite(0))
  {
    NormalizeEmptyPlant(token);
  }

  /** The fetched value of a field: the first present candidate key, or Null
      (which is falsy) when there is none. */
  function Fetched(fetched: Record, keys: seq<string>): (v: Value)
    ensures (forall j :: 0 <= j < |keys| ==> !Present(fetched, keys[j])) ==> v == Null
    ensures forall i :: (0 <= i < |keys| && Present(fetched, keys[i])
                         && (forall j :: 0 <= j < i ==> !Present(fetched, keys[j]))) ==> v == fetched[keys[i]]
  {
    var v := Coalesce(fetched, keys, Null);
    assert (forall j :: 0 <= j < |keys| ==> !Present(fetched, keys[j])) ==> v == Null by {
      if forall j :: 0 <= j < |keys| ==> !Present(fetched, keys[j]) {
        CoalesceNonePresent(fetched, keys, Null);
      }
    }
    assert forall i :: (0 <= i < |keys| && Present(fetched, keys[i])
                        && (forall j :: 0 <= j < i ==> !Present(fetched, keys[j]))) ==> v == fetched[keys[i]] by {
      forall i | 0 <= i < |keys| && Present(fetched, keys[i])
                 && (forall j :: 0 <= j < i ==> !Present(fetched, keys[j]))
        ensures v == fetched[keys[i]]
      {
        CoalesceFirstPresent(fetched, keys, Null, i);
      }
    }
    v
  }

  /** The corrected merge: a field is overridden only by a non-empty value that
      the fetched record actually holds; the price only by a present,
      numeric price. */
  function Merge(instant: Detail, fetched: Record): (d: Detail)
    ensures d.id == instant.id
    ensures Truthy(Fetched(fetched, PlantNameKeys)) ==> d.name == Fetched(fetched, PlantNameKeys)
    ensures !Truthy(Fetched(fetched, PlantNameKeys)) ==> d.name == instant.name
    ensures Truthy(Fetched(fetched, PlantImageKeys)) ==> d.image == Fetched(fetched, PlantImageKeys)
    ensures !Truthy(Fetched(fetched, PlantImageKeys)) ==> d.image == instant.image
    ensures Truthy(Fetched(fetched, PlantDescriptionKeys)) ==> d.description == Fetched(fetched, PlantDescriptionKeys)
    ensures !Truthy(Fetched(fetched, PlantDescriptionKeys)) ==> d.description == instant.description
    ensures Truthy(Fetched(fetched, PlantCategoryKeys)) ==> d.category == Fetched(fetched, PlantCategoryKeys)
    ensures !Truthy(Fetched(fetched, PlantCategoryKeys)) ==> d.category == instant.category
    ensures var v := Fetched(fetched, PlantPriceKeys);
            d.price == if v != Null && ToNumber(v).Finite? then ToNumber(v) else instant.price
  {
    var price := Fetched(fetched, PlantPriceKeys);
    instant.(name := Or(Fetched(fetched, PlantNameKeys), instant.name),
             image := Or(Fetched(fetched, PlantImageKeys), instant.image),
             description := Or(Fetched(fetched, PlantDescriptionKeys), instant.description),
             category := Or(Fetched(fetched, PlantCategoryKeys), instant.category),
             price := if price != Null && ToNumber(price).Finite? then ToNumber(price) else instant.price)
  }

  /** Phase two never blanks out a shown value: every field that was non-empty
      stays non-empty. The merge as written shares this property; what tells
      the two apart is that `Merge` leaves a field unchanged when the record
      has no non-empty value for it (its `!Truthy` clauses, and `MergeEmpty`). */
  lemma MergeNeverBlanks(instant: Detail, fetched: Record)
    ensures Truthy(instant.name) ==> Truthy(Merge(instant, fetched).name)
    ensures Truthy(instant.image) ==> Truthy(Merge(instant, fetched).image)
    ensures Truthy(instant.description) ==> Truthy(Merge(instant, fetched).description)
    ensures Truthy(instant.category) ==> Truthy(Merge(instant, fetched).category)
    ensures instant.price.Finite? ==> Merge(instant, fetched).price.Finite?
  {
  }

  /** A record with none of a plant's keys changes nothing. */
  lemma MergeEmpty(instant: Detail)
    ensures Merge(instant, map[]) == instant
  {
    CoalesceNonePresent(map[], PlantNameKeys, Null);
    CoalesceNonePresent(map[], PlantImageKeys, Null);
    CoalesceNonePresent(map[], PlantDescriptionKeys, Null);
    CoalesceNonePresent(map[], PlantCategoryKeys, Null);
    CoalesceNonePresent(map[], PlantPriceKeys, Null);
  }

  /** The scenario: a fetched description replaces the shown one while the
      shown name, category and price 500 stay. */
  lemma MergeMangoScenario()
    ensures Merge(MangoInstant, map["description" := Str("Juicy")])
         == MangoInstant.(description := Str("Juicy"))
  {
    var rec: Record := map["description" := Str("Juicy")];
    CoalesceNonePresent(rec, PlantNameKeys, Null);
    CoalesceNonePresent(rec, PlantImageKeys, Null);
    CoalesceFirstPresent(rec, PlantDescriptionKeys, Null, 0);
    CoalesceNonePresent(rec, PlantCategoryKeys, Null);
    CoalesceNonePresent(rec, PlantPriceKeys, Null);
  }

  /** A record that supplies every field, each non-empty, with a numeric price
      merges the same way under both definitions: the correction only changes
      what happens to missing fields. */
  lemma MergeAgreesOnCompleteRecords(instant: Detail, fetched: Record, token: string)
    requires Truthy(Fetched(fetched, PlantNameKeys)) && Truthy(Fetched(fetched, PlantImageKeys))
    requires Truthy(Fetched(fetched, PlantDescriptionKeys)) && Truthy(Fetched(fetched, PlantCategoryKeys))
    requires Fetched(fetched, PlantPriceKeys) != Null && ToNumber(Fetched(fetched, PlantPriceKeys)).Finite?
    ensures Merge(instant, fetched) == MergeAsWritten(instant, fetched, token)
  {
    var p := NormalizePlant(fetched, token);
    FetchedAsNormalized(fetched, PlantNameKeys, Str("Tree"));
    FetchedAsNormalized(fetched, PlantImageKeys, Str(""));
    FetchedAsNormalized(fetched, PlantDescriptionKeys, Str(""));
    FetchedAsNormalized(fetched, PlantCategoryKeys, Str("Tree"));
    FetchedAsNormalized(fetched, PlantPriceKeys, Num(0));
  }

  /** When some candidate key is present, the default does not matter. */
  lemma {:induction false} FetchedAsNormalized(fetched: Record, keys: seq<string>, default: Value)
    requires Fetched(fetched, keys) != Null
    ensures Coalesce(fetched, keys, default) == Fetched(fetched, keys)
  {
    if keys != [] && !Present(fetched, keys[0]) {
      FetchedAsNormalized(fetched, keys[1..], default);
    }
  }

  /** Phase two: a failed fetch leaves the instant detail; a successful one
      merges the fetched record over it, with the corrected merge. */
  function AfterFetch(instant: Detail, response: Option<Record>): (d: Detail)
    ensures response.None? ==> d == instant
    ensures response.Some? ==> d == Merge(instant, response.value)
    ensures d.id == instant.id
  {
    match response
    case None => instant
    case Some(rec) => Merge(instant, rec)
  }

  /** Phase two as written: a successful fetch merges the normalised record. */
  function AfterFetchAsWritten(instant: Detail, response: Option<Record>, token: string): (d: Detail)
    ensures response.None? ==> d == instant
    ensures response.Some? ==> d == MergeAsWritten(instant, response.value, token)
  {
    match response
    case None => instant
    case Some(rec) => MergeAsWritten(instant, rec, token)
  }

  /** The two phase-two definitions part on the description-only record: as
      written the shown price drops to 0, corrected it stays 500. */
  lemma AfterFetchPrices(token: string)
    ensures AfterFetchAsWritten(MangoInstant, Some(map["description" := Str("Juicy")]), token).price == Finite(0)
    ensures AfterFetch(MangoInstant, Some(map["description" := Str("Juicy")])).price == Finite(500)
  {
    MergeAsWrittenOverwritesMissing(token);
    MergeMangoScenario();
  }
}
