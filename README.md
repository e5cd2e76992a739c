# Green Earth storefront — a Dafny model of its catalog and cart logic

The storefront is a single browser script (`script.js`). It shows a catalog of
trees by category, opens a detail view per tree and keeps a cart. This project
models the parts of that script that decide what is shown and what the cart
holds:

- **Normalisation** (`normalize.dfy`). `normalizePlant` and `normalizeCategory`
  turn loosely shaped catalog records into fixed Plant and Category shapes.
  Each field comes from the first non-nullish candidate key, or else from a
  default.
- **Offline catalog** (`catalog.dfy`). This is the built-in mock dataset, the
  keyword filter used when a category cannot be fetched, and the category
  list with its synthetic "All Trees" entry. It also covers the choice of
  loader on a category selection.
- **Card markup helpers** (`markup.dfy`). These are `truncate` and
  `safeAttr`, and the price a card hands to the cart through `data-price`.
- **Detail merge** (`detail.dfy`). The detail view is first filled from the
  card. A successful fetch then overrides the fields it returns.
- **Cart** (`cart.dfy`, `store.dfy`). The cart is a map from item id to an
  entry `{id, name, price, qty}`. It has four transitions and a total.
  `Cart` gives the transitions and the total as functions, with lemmas on
  how each transition moves the total. `Store.Store` is the mutable
  application state (`activeCat`, `cart`). Its methods update the cart in
  place, step by step as the script does, and are proved against those
  functions.
- **JavaScript semantics** (`js.dfy`). These are the parts of the language
  that the rest depends on:
  - values and truthiness, and `||`;
  - `String()` and `Number()` on the values that occur;
  - ASCII `toLowerCase`, `includes` and `slice`.

JSON values are `Str | Num | Bool | Null`. A record is a `map<string, Value>`,
and a key missing from the map is `undefined`. `Math.random` is replaced by a
token parameter.

The code's own comment at script.js:211 says that phase two overrides only
the fields that come back non-empty, so a fetched detail without a price
should leave the shown price. The code normalises the fetched record first,
so a missing price comes back as 0 and replaces the shown one. The model
states the code's behaviour in `Detail.MergeAsWritten` and
`Detail.AfterFetchAsWritten`. It gives the intended behaviour in
`Detail.Merge`, which `Detail.AfterFetch` uses (see Findings).

## Model

| member | source | states |
|---|---|---|
| `Js.Lower` | script.js:141 | lower-casing keeps the length and maps every character through ASCII `toLowerCase` |
| `Js.IncludesOccurs` | script.js:141 | `includes` holds exactly when the needle occurs at some index of the haystack |
| `Js.SliceTo` | script.js:48 | `slice(0, end)` returns a prefix whose length follows JavaScript's clamping, including negative `end` |
| `Js.StringToNumberIntToString` | script.js:244 | `Number(String(n))` gives back every integer `n` |
| `Normalize.Coalesce` | script.js:53-58 | a `??` chain over candidate keys; with a non-null default the result is never null |
| `Normalize.CoalesceFirstPresent` | script.js:53 | a `??` chain yields the value at the first candidate key that is neither undefined nor null |
| `Normalize.CoalesceNonePresent` | script.js:53 | a `??` chain with no candidate present yields its default |
| `Normalize.NormalizePlant` | script.js:51-60 | each plant field comes from its candidate keys in the script's order, else from its default; the id goes through `String` and the price through `Number`; no field is ever null |
| `Normalize.NormalizeCategory` | script.js:63-68 | the id comes from `id, category_id, _id, slug` or else the position; the name comes from six candidate keys or else "Category" and is never null |
| `Normalize.NormalizePlants` | script.js:120 | `map(normalizePlant)` yields one plant per record |
| `Normalize.NormalizeCategories` | script.js:83 | `map(normalizeCategory)` yields one category per record |
| `Normalize.NormalizeEmptyPlant` | script.js:210 | the empty record (the `plant`-or-empty-object case) becomes the all-defaults plant with the token as id |
| `Normalize.NormalizeEmptyCategory` | script.js:65-66 | the empty record becomes a category named "Category" whose id is its position |
| `Normalize.TokenOnlyWithoutId` | script.js:53 | the random token is the id exactly when no id key is present; otherwise the result does not depend on it |
| `Normalize.NormalizePlantFixpoint` | script.js:51-60 | a complete plant served back in its own shape normalises to itself |
| `Normalize.NormalizeCategoryFixpoint` | script.js:63-68 | a category served back in its own shape normalises to itself |
| `Catalog.FetchedCategoryList` | script.js:83-84 | the fetched list is "All Trees" followed by the i-th fetched category normalised at position i |
| `Catalog.MockCategoryList` | script.js:87-88 | the offline list starts with the synthetic "All Trees" entry |
| `Catalog.MockCategoryListContents` | script.js:87-88 | the offline list is exactly All Trees, Fruit Trees, Flowering Trees, Shade Trees, with "all" only once |
| `Catalog.FetchedListKeepsDuplicateAll` | script.js:84 | a fetched category with id "all" is not filtered out and appears beside the synthetic one |
| `Catalog.QueryFor` | script.js:110 | "all" loads every plant, and any other id loads that category |
| `Catalog.CategoryKeyword` | script.js:138-139 | the keyword is empty exactly for an id other than "1", "2" and "3" |
| `Catalog.KeepsCategory` | script.js:141 | the keyword test on a category: lower-cased `includes` when there is a keyword, else true; `KeepPrefix` and `KeepMissingLetter` state when it holds |
| `Catalog.Keep` | script.js:141 | the keyword test applied to a plant's category |
| `Catalog.FilterPlants` | script.js:140-141 | `filter` over the mock plants; `FilterPlantsKeeps` states what it keeps |
| `Catalog.FilterPlantsKeeps` | script.js:140-141 | the filter keeps exactly the plants passing the keyword test, in their order, each as many times as in the input |
| `Catalog.MockPlantsByCategory` | script.js:138-142 | the offline category result; `MockPlantsByCategoryIsFilter` and the three category lemmas state its contents |
| `Catalog.MockAllPlants` | script.js:124 | the all-plants fallback; `MockAllPlantsAreMock` states its contents |
| `Catalog.MockAllPlantsAreMock` | script.js:124 | the all-plants fallback is the four mock plants, normalised in order |
| `Catalog.OfflinePlants` | script.js:110 | what the grid shows offline for the loader `setActiveCat` picks; `OfflineSelection` and `OfflineFlowering` state it |
| `Catalog.OfflineSelection` | script.js:110 | for every selected id, the offline grid is the mock plants its keyword keeps, and "all" shows every plant |
| `Catalog.OfflineFlowering` | script.js:110 | offline, selecting "2" shows just the normalised Bougainvillea |
| `Catalog.NormalizeMock` | script.js:124 | a mock plant normalises to its own fields whatever the random token, since it carries an id |
| `Catalog.MockPlantsByCategoryIsFilter` | script.js:140-142 | the offline category result is the kept mock plants, normalised in order |
| `Catalog.UnknownCategoryKeepsAll` | script.js:139 | an id outside the keyword table keeps every mock plant, the same list as the all-plants fallback |
| `Catalog.KeepPrefix` | script.js:141 | a keyword that starts a category passes the case-insensitive test |
| `Catalog.KeepMissingLetter` | script.js:141 | a keyword with a letter that the category lacks in both cases fails the test |
| `Catalog.KeepFruit` | script.js:138-141 | "Fruit" matches "Fruit Tree" but not "Flowering Tree" or "Shade Tree" |
| `Catalog.KeepFlower` | script.js:138-141 | "Flower" matches "Flowering Tree" only |
| `Catalog.KeepShade` | script.js:138-141 | "Shade" matches "Shade Tree" only |
| `Catalog.FruitCategory` | script.js:138-142 | offline category "1" shows Mango Tree and Guava Tree, in that order |
| `Catalog.FlowerCategory` | script.js:138-142 | offline category "2" shows only Bougainvillea |
| `Catalog.ShadeCategory` | script.js:138-142 | offline category "3" shows only Neem |
| `Markup.Truncate` | script.js:48 | a string up to the limit is kept, and a longer one becomes its first `max-1` characters plus an ellipsis, exactly `max` characters long (counted in Unicode characters); any other value becomes itself when truthy and the empty string otherwise; the result is empty exactly when the input is falsy (for a limit of at least 0) |
| `Markup.TruncateBound` | script.js:48 | with a positive limit the result never exceeds the limit |
| `Markup.TruncateIdempotent` | script.js:48 | truncating twice with the same positive limit is truncating once |
| `Markup.EscapeQuotes` | script.js:158 | no double quote is left, and a string without one is unchanged; `EscapeQuotesRoundTrip` states how it reads back |
| `Markup.SafeAttr` | script.js:158 | the attribute value holds no double quote, and a value without one is unchanged; `SafeAttrRoundTrip` states how it reads back |
| `Markup.HtmlDecode` | script.js:243 | how the parser reads an attribute value back: `&quot;` and `&amp;` are decoded, and text without `&` comes back unchanged |
| `Markup.EscapeQuotesRoundTrip` | script.js:158 | as written, every text without `&` reads back unchanged after escaping: each quote becomes `&quot;` and decodes to a quote |
| `Markup.SafeAttrRoundTrip` | script.js:181 | as written, a name whose string form has no `&` survives the round trip through `data-name` |
| `Markup.SafeAttrEntityCollision` | script.js:158 | as written, the name `&quot;` is read back from its attribute as `"` |
| `Markup.EscapeAttr` | script.js:158 | the corrected escaping leaves no double quote |
| `Markup.SafeAttrFixed` | script.js:158 | the corrected `safeAttr` leaves no double quote |
| `Markup.HtmlDecodeEscapeAttr` | script.js:158 | decoding undoes the corrected escaping on every string |
| `Markup.SafeAttrFixedRoundTrip` | script.js:181 | with the correction, every name survives the round trip through `data-name` |
| `Markup.CardPriceRoundTrip` | script.js:181 | the price written into `data-price` is read back unchanged by the add handler, and NaN arrives as 0 |
| `Markup.AttrPrice` | script.js:181 | `Number(price or 0)` written into `data-price`; `CardPriceRoundTrip` states how it reads back |
| `Markup.ReadAttrPrice` | script.js:244 | `Number(dataset.price or 0)`; `CardPriceRoundTrip` states it inverts `AttrPrice` |
| `Markup.UpToQuote` | script.js:181 | an unescaped attribute value ends at its first double quote: the result is the prefix before it, and the whole text when it has none |
| `Markup.ReadId` | script.js:242 | `dataset.id` read from the unescaped `data-id`: an id without `"` or `&` comes back unchanged |
| `Markup.ReadIdCutAtQuote` | script.js:181 | the id `a"b` reaches the cart as `a` |
| `Markup.ReadIdDecodes` | script.js:242 | the id `&amp;` reaches the cart as `&` |
| `Markup.CardAddRequest` | script.js:242-244 | the add button hands over the id as `dataset.id` reads it, the name as a string, and the price (0 for NaN) |
| `Detail.MergeAsWritten` | script.js:210-219 | the merge as written keeps the instant id |
| `Detail.MergeAsWrittenOverwritesMissing` | script.js:210-219 | as written, a fetched description-only record turns Mango Tree at 500 into "Tree", category "Tree", price 0 |
| `Detail.MergeAsWrittenNoPlant` | script.js:210 | as written, a response with no plant resets the name and category to "Tree" and the price to 0 |
| `Detail.Merge` | script.js:212-219 | each field is overridden exactly when the fetched record holds a non-empty value for it, and the price only by a present numeric price |
| `Detail.MergeNeverBlanks` | script.js:211 | no field shown non-empty in phase one becomes empty |
| `Detail.MergeEmpty` | script.js:212-219 | a record with none of the plant keys changes nothing |
| `Detail.MergeMangoScenario` | script.js:212-219 | a description-only record for Mango Tree at 500 updates the description and keeps the price 500 |
| `Detail.MergeAgreesOnCompleteRecords` | script.js:210-219 | on a record supplying every field, the corrected merge equals the merge as written |
| `Detail.Fetched` | script.js:210 | a fetched field is null when none of its keys is present, and otherwise the value at the first present key |
| `Detail.FetchedAsNormalized` | script.js:210 | when a field is present, normalisation's default plays no part |
| `Detail.AfterFetch` | script.js:205-223 | a failed fetch leaves the phase-one detail untouched; a successful one applies the corrected merge; the id stays |
| `Detail.AfterFetchAsWritten` | script.js:205-223 | as written: a failed fetch leaves the detail untouched, and a successful one applies the merge as written |
| `Detail.AfterFetchPrices` | script.js:210-219 | on a description-only response, the price becomes 0 as written and stays 500 when corrected |
| `Cart.AddItem` | script.js:245-246 | an absent id gets a new entry of quantity 1, and a present one gets one more; other entries do not change; the invariant is kept |
| `Cart.IncreaseItem` | script.js:250 | one more of a present entry; an absent id leaves the cart unchanged; the invariant is kept |
| `Cart.DecreaseItem` | script.js:251 | one fewer of a present entry, deleted when its quantity is no longer positive; an absent id is a no-op; the invariant is kept |
| `Cart.RemoveItem` | script.js:249 | the id is gone and every other entry stays as it was |
| `Cart.WellFormed` | script.js:245-251 | the cart invariant the transitions keep: each entry sits under its own id with a quantity of at least 1 |
| `Cart.Total` | script.js:271 | the sum of `price * qty` over the entries; `TotalSplit` makes it independent of order |
| `Cart.SumLines` | script.js:271 | the `reduce` over a list of entries; `SumLinesIsTotal` ties it to `Total` |
| `Cart.TotalSplit` | script.js:271 | the total does not depend on the order of the entries: any entry can be split off |
| `Cart.SumLinesIsTotal` | script.js:271 | the `reduce` over the entries gives the total, whatever order `Object.values` lists them in |
| `Cart.TotalAfterAdd` | script.js:241-246 | adding an item raises the total by its price |
| `Cart.TotalAfterIncrease` | script.js:250 | increasing raises the total by the entry's price, and is a no-op for an absent id |
| `Cart.TotalAfterDecrease` | script.js:251 | decreasing lowers the total by the entry's price, also when the entry is deleted |
| `Cart.TotalAfterRemove` | script.js:249 | removing lowers the total by the entry's whole line |
| `Cart.AddTwice` | script.js:245-246 | adding a new item twice gives one entry of quantity 2 |
| `Cart.TwoItemExample` | script.js:271 | A at 500 x2 and B at 350 x1 total 1350, and 350 after removing A |
| `Store.Store.constructor` | script.js:24-27 | the initial state is category "all" and an empty cart |
| `Store.Store.AddToCart` | script.js:241-246 | the cart becomes `AddItem` of the old cart; the active category is unchanged; a valid cart stays valid |
| `Store.Store.RemoveFromCart` | script.js:249 | the cart becomes `RemoveItem` of the old cart; a valid cart stays valid |
| `Store.Store.IncreaseQty` | script.js:250 | the cart becomes `IncreaseItem` of the old cart; a valid cart stays valid |
| `Store.Store.DecreaseQty` | script.js:251 | the entry is decremented in place and deleted at 0; the cart becomes `DecreaseItem` of the old cart; a valid cart stays valid |
| `Store.Store.SetActiveCat` | script.js:107-111 | the selection is recorded, the cart is untouched, and the loader chosen is `QueryFor(id)` |
| `Store.Store.CartTotal` | script.js:271 | summing the entry lines one at a time gives `Total(cart)` |

## Left out

- Network access (`fetch`, `res.ok`, `res.json()`) and the probing of
  response envelopes (`data?.plants ?? data?.data ?? []`). A fetch appears
  only as its outcome: a list of records, or `None` for the detail fetch.
- DOM rendering: `renderCategories`, `renderGrid`, `cardHTML`, `fillModal`,
  `renderCart`, the spinner and the modal. This includes the "No trees
  found" message and the highlighting of the active category button.
- `money` and its locale formatting. Floating-point prices are not
  modelled: prices are integers.
- Persistence: `saveCart` and `loadCart`. A stored cart can hold any JSON,
  so cart validity is stated as `old(Valid()) ==> Valid()` and not as an
  invariant of every state.
- The random identifier: `Math.random().toString(36).slice(2)` is a token
  parameter of `NormalizePlant`, and `token(i)` in list normalisation.
- `Number()` on strings covers the empty string, an optional sign and
  decimal digits. Whitespace, fractions, exponents, hexadecimal and
  `Infinity` are not modelled and give NaN here.
- JSON values are strings, integers, booleans and null only. Nested
  objects and arrays in records are not modelled. Neither are keys that
  `state.cart[id]` or the keyword table would find on the object prototype
  (for example an id of "constructor").
- `toLowerCase` is modelled for ASCII letters only. Unicode case mapping is
  not.
- Markup.Truncate: counts length in Unicode characters. JavaScript's
  `length` and `slice` count UTF-16 code units, and a character outside the
  Basic Multilingual Plane (an emoji, say) is two units. For text holding
  such characters the script cuts at a different place, and can split one
  character in half. The model does not capture that.
- Js.SliceTo: counts positions in Unicode characters, not UTF-16 code
  units, for the same reason.
- `encodeURIComponent` and `decodeURIComponent` for the description
  attribute are not modelled.
- The phase-one detail built from the clicked button (`textContent.trim()`,
  `dataset.*`) is taken as a parameter of the merge.
- The race between an older detail fetch and a newer selection is not
  modelled: the script is single-threaded and the merge is modelled per
  response.
- Markup.HtmlDecode: knows only the references `&quot;` and `&amp;`. The
  corrected escaping produces no others. With the escaping as written, any
  other reference already in the text (for example `&lt;`) is decoded by a
  real parser but passes through the model unchanged.
- Markup.ReadId: models only the value of `data-id`. After a double quote
  in the id, the rest of the id becomes other markup in the card, which the
  model does not capture.
- Markup.CardAddRequest: reads the name back through the corrected
  escaping. With the escaping as written, a name containing `&quot;`
  arrives altered (see Findings).
- Normalize.NormalizePlants: states only the length in its own contract.
  The elements are its definition, and the contract of `NormalizePlant`
  carries the content.
- Normalize.NormalizeCategories: states only the length in its own
  contract, for the same reason.
- Detail.AfterFetch: applies the corrected merge, not the code's.
  `Detail.AfterFetchAsWritten` is the code's version, and
  `Detail.AfterFetchPrices` shows where the two part.
- Detail.MergeAsWritten: states only that the id is kept. What it does
  with missing fields is stated by the two as-written lemmas.

## Findings

| source | as written | input that shows it | evidently intended | confidence | as-written member | corrected member |
|---|---|---|---|---|---|---|
| script.js:210-219 | The fetched plant is passed through `normalizePlant` before the merge, so each missing field comes back as its default ('Tree', '', 0). The defaults 'Tree' and 0 are non-empty and numeric, so they override the shown values. | Mango Tree at 500; the fetched record is `{description: "Juicy"}`. The result shows name "Tree", category "Tree" and price 0. | A field the response does not carry keeps its phase-one value, so the price stays 500. | medium; not executed | `Detail.MergeAsWrittenOverwritesMissing` | `Detail.MergeMangoScenario` |
| script.js:158 | `safeAttr` escapes `"` but not `&`, so a reference already in the text is decoded when the attribute is read. Text without `&` round-trips (`Markup.EscapeQuotesRoundTrip`). | A plant named `&quot;` is read back from `data-name` as `"`. | Escape `&` to `&amp;` first, so every string round-trips. | low; not executed | `Markup.SafeAttrEntityCollision` | `Markup.SafeAttrFixedRoundTrip` |
