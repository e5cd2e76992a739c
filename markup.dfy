/**
 The pure helpers behind the product cards: `truncate` for the blurb,
 `safeAttr` for `data-*` attribute values, and the price carried by a card's
 add-to-cart button (written as `Number(price || 0)`, read back as
 `Number(dataset.price || 0)`).
 */
module Markup {
  import opened Js
  import opened Normalize

  /** The one-character ellipsis the script appends. */
  const Ellipsis: char := '\U{2026}'

  /** `truncate(s, maxLen)`: a string longer than `maxLen` is cut to
      `maxLen - 1` characters plus an ellipsis; any other value `v` becomes
      `v || ''` (values without a `length` are never cut). */
  function Truncate(s: Value, maxLen: int := 95): (r: Value)
    ensures r != Null
    ensures Truthy(s) ==> Truthy(r)
    ensures maxLen >= 0 ==> (Truthy(r) <==> Truthy(s))
    ensures s.Str? && |s.s| <= maxLen ==> r == s
    ensures s.Str? && |s.s| > maxLen >= 1 ==>
              r.Str? && |r.s| == maxLen && r.s == s.s[..maxLen - 1] + [Ellipsis]
    ensures !s.Str? ==> (if Truthy(s) then r == s else r == Str(""))
  {
    match s
    case Str(t) =>
      if |t| > maxLen then
        var cut := SliceTo(t, maxLen - 1) + [Ellipsis];
        assert cut[|cut| - 1] == Ellipsis;
        Str(cut)
      else Str(t)
    case _ => if Truthy(s) then s else Str("")
  }

  /** With a positive limit, truncated text never exceeds the limit. */
  lemma TruncateBound(s: Value, maxLen: int)
    requires maxLen >= 1 && s.Str?
    ensures Truncate(s, maxLen).Str? && |Truncate(s, maxLen).s| <= maxLen
  {
  }

  /** Truncating twice with the same positive limit is truncating once. */
  lemma TruncateIdempotent(s: Value, maxLen: int)
    requires maxLen >= 1
    ensures Truncate(Truncate(s, maxLen), maxLen) == Truncate(s, maxLen)
  {
  }

  // ---------------- attribute escaping ----------------

  /** `s.replace(/"/g, '&quot;')`. */
  function EscapeQuotes(s: string): (r: string)
    ensures '"' !in r
    ensures '"' !in s ==> r == s
    decreases |s|
  {
    if s == [] then []
    else
      var rest := EscapeQuotes(s[1..]);
      if s[0] == '"' then "&quot;" + rest
      else
        assert '"' !in s ==> s == [s[0]] + s[1..];
        [s[0]] + rest
  }

  /** `safeAttr(v)`, as written: only double quotes are escaped. */
  function SafeAttr(v: Value := Str("")): (r: string)
    ensures '"' !in r
    ensures '"' !in ToJsString(v) ==> r == ToJsString(v)
  {
    EscapeQuotes(ToJsString(v))
  }

  /** What an HTML parser makes of an attribute value, restricted to the two
      character references `&quot;` and `&amp;`; every other character is
      taken as it stands. */
  function HtmlDecode(s: string): (r: string)
    ensures '&' !in s ==> r == s
    decreases |s|
  {
    if s == [] then []
    else if "&quot;" <= s then
      assert s[0] == '&';
      "\"" + HtmlDecode(s[6..])
    else if "&amp;" <= s then
      assert s[0] == '&';
      "&" + HtmlDecode(s[5..])
    else
      assert '&' !in s ==> s[0] != '&' && s == [s[0]] + s[1..];
      [s[0]] + HtmlDecode(s[1..])
  }

  /** As written, the escaping reads back unchanged from any text without an
      ampersand: each quote becomes `&quot;` and decodes to a quote again. */
  lemma {:induction false} EscapeQuotesRoundTrip(s: string)
    requires '&' !in s
    ensures HtmlDecode(EscapeQuotes(s)) == s
    decreases |s|
  {
    if s != [] {
      var rest := EscapeQuotes(s[1..]);
      assert '&' !in s[1..];
      EscapeQuotesRoundTrip(s[1..]);
      if s[0] == '"' {
        assert ("&quot;" + rest)[6..] == rest;
      } else {
        assert s[0] != '&';
        assert ([s[0]] + rest)[1..] == rest;
        assert !("&quot;" <= [s[0]] + rest) && !("&amp;" <= [s[0]] + rest) by {
          assert ([s[0]] + rest)[0] == s[0];
        }
      }
    }
  }

  /** As written, `safeAttr` round-trips every value whose string form holds
      no ampersand. */
  lemma SafeAttrRoundTrip(v: Value)
    requires '&' !in ToJsString(v)
    ensures HtmlDecode(SafeAttr(v)) == ToJsString(v)
  {
    EscapeQuotesRoundTrip(ToJsString(v));
  }

  /** As written, a value that already contains the text `&quot;` does not
      survive the trip through a `data-*` attribute: it is read back as a
      double quote. */
  lemma SafeAttrEntityCollision()
    ensures SafeAttr(Str("&quot;")) == "&quot;"
    ensures HtmlDecode(SafeAttr(Str("&quot;"))) == "\""
  {
    assert "&quot;"[6..] == "";
  }

  /** Attribute escaping that also escapes the ampersand, first. */
  function EscapeAttr(s: string): (r: string)
    ensures '"' !in r
    decreases |s|
  {
    if s == [] then []
    else
      var rest := EscapeAttr(s[1..]);
      if s[0] == '&' then "&amp;" + rest
      else if s[0] == '"' then "&quot;" + rest
      else [s[0]] + rest
  }

  /** `safeAttr` with the ampersand escaped as well. */
  function SafeAttrFixed(v: Value := Str("")): (r: string)
    ensures '"' !in r
  {
    EscapeAttr(ToJsString(v))
  }

  /** Decoding undoes the corrected escaping on every string. */
  lemma {:induction false} HtmlDecodeEscapeAttr(s: string)
    ensures HtmlDecode(EscapeAttr(s)) == s
    decreases |s|
  {
    if s != [] {
      var rest := EscapeAttr(s[1..]);
      HtmlDecodeEscapeAttr(s[1..]);
      if s[0] == '&' {
        assert ("&amp;" + rest)[5..] == rest;
        assert !("&quot;" <= "&amp;" + rest) by { assert ("&amp;" + rest)[1] == 'a'; }
      } else if s[0] == '"' {
        assert ("&quot;" + rest)[6..] == rest;
      } else {
        assert ([s[0]] + rest)[1..] == rest;
        assert !("&quot;" <= [s[0]] + rest) && !("&amp;" <= [s[0]] + rest) by {
          assert ([s[0]] + rest)[0] == s[0];
        }
      }
    }
  }

  /** The corrected `safeAttr` round-trips every value's string form. */
  lemma SafeAttrFixedRoundTrip(v: Value)
    ensures HtmlDecode(SafeAttrFixed(v)) == ToJsString(v)
  {
    HtmlDecodeEscapeAttr(ToJsString(v));
  }

  // ---------------- card price ----------------

  /** `${Number(price || 0)}`: the price written into a card's `data-price`. */
  function AttrPrice(price: JsNumber): string {
    match price
    case Finite(n) => IntToString(n)
    case NaN => IntToString(0)
  }

  /** `Number(dataset.price || 0)`: the price read back from the attribute. */
  function ReadAttrPrice(attr: string): JsNumber {
    if attr == "" then Finite(0) else StringToNumber(attr)
  }

  /** The card carries the plant's price to the cart unchanged; a NaN price
      arrives as 0. */
  lemma CardPriceRoundTrip(price: JsNumber)
    ensures ReadAttrPrice(AttrPrice(price)) == Finite(if price.Finite? then price.n else 0)
  {
    var n := if price.Finite? then price.n else 0;
    StringToNumberIntToString(n);
  }

  /** What pressing a card's add-to-cart button hands to the cart. */
  datatype AddRequest = AddRequest(id: string, name: string, price: int)

  /** The value of a double-quoted attribute written without escaping: the
      parser ends it at the first double quote. */
  function UpToQuote(s: string): (r: string)
    ensures r <= s && '"' !in r
    ensures '"' !in s ==> r == s
    ensures |r| < |s| ==> s[|r|] == '"'
    decreases |s|
  {
    if s == [] || s[0] == '"' then []
    else
      var rest := UpToQuote(s[1..]);
      assert '"' !in s ==> s == [s[0]] + s[1..];
      [s[0]] + rest
  }

  /** `dataset.id`: the `data-id` attribute, written without escaping, as the
      parser reads it back. */
  function ReadId(id: string): (r: string)
    ensures '"' !in id && '&' !in id ==> r == id
  {
    HtmlDecode(UpToQuote(id))
  }

  /** An id with a double quote is cut at the quote. */
  lemma ReadIdCutAtQuote()
    ensures ReadId("a\"b") == "a"
  {
    assert "a\"b"[1..] == "\"b";
    assert UpToQuote("a\"b") == "a";
  }

  /** An id holding a character reference arrives decoded. */
  lemma ReadIdDecodes()
    ensures ReadId("&amp;") == "&"
  {
    var t := "&amp;";
    assert UpToQuote(t) == t;
    assert !("&quot;" <= t) by { assert t[1] != "&quot;"[1]; }
    assert t[5..] == [];
  }

  /** The add-to-cart request a card for `p` produces: its id through
      `data-id` and back, its name through the (corrected) attribute escaping
      and back, and its price through `data-price` and back. */
  function CardAddRequest(p: Plant): (req: AddRequest)
    ensures req.id == ReadId(p.id)
    ensures req.name == ToJsString(p.name)
    ensures req.price == if p.price.Finite? then p.price.n else 0
  {
    SafeAttrFixedRoundTrip(p.name);
    CardPriceRoundTrip(p.price);
    var price := match ReadAttrPrice(AttrPrice(p.price))
      case Finite(n) => n
      case NaN => 0;
    AddRequest(ReadId(p.id), HtmlDecode(SafeAttrFixed(p.name)), price)
  }
}
