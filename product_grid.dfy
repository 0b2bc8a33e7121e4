/** The product grid of frontend/src/components/Products/ProductGrid.jsx: the key normaliser and
    `pick` lookup that read loosely named catalogue fields, the display tables, the number and
    price sanitising of `normalizeProduct`, the pager and filter state, and the product link. */
module ProductGrid {
  import opened Wrappers
  import opened Text
  import CatalogueNormalise

  // ---------------------------------------------------------------------------------------------
  // normalizeKey

  /** A character `normalizeKey` can keep: a lower-case ASCII letter or a digit. */
  predicate IsKeyChar(c: char) {
    'a' <= c <= 'z' || IsDigit(c)
  }

  predicate AllKeyChars(s: string) {
    forall i :: 0 <= i < |s| ==> IsKeyChar(s[i])
  }

  /** What `toLowerCase()` followed by `replace(/[^a-z0-9]/g, '')` leaves of one character. Apart
      from ASCII, only the dotted capital I (lower-cased to "i" and a combining dot) and the Kelvin
      sign (lower-cased to "k") become key characters. */
  function KeyChar(c: char): (r: Option<char>)
    ensures r.Some? ==> IsKeyChar(r.value)
    ensures IsKeyChar(c) ==> r == Some(c)
    ensures 'A' <= c <= 'Z' ==> r == Some((c as int + 32) as char)
    ensures c == '\U{0130}' ==> r == Some('i')
    ensures c == '\U{212A}' ==> r == Some('k')
    ensures r.None? <==> !IsKeyChar(c) && !('A' <= c <= 'Z') && c != '\U{0130}' && c != '\U{212A}'
  {
    if IsKeyChar(c) then Some(c)
    else if 'A' <= c <= 'Z' then Some(LowerAscii(c))
    else if c == '\U{0130}' then Some('i')
    else if c == '\U{212A}' then Some('k')
    else None
  }

  /** The key characters of `s`, lower-cased, in order. */
  function KeepKeyChars(s: string): (r: string)
    ensures forall i :: 0 <= i < |r| ==> IsKeyChar(r[i])
    ensures |r| <= |s|
  {
    if s == [] then []
    else
      match KeyChar(s[0])
      case Some(c) => [c] + KeepKeyChars(s[1..])
      case None => KeepKeyChars(s[1..])
  }

  /** `normalizeKey(k)`; a missing key reads as ''. A key made of key characters is its own
      normal form. */
  function NormalizeKey(k: Option<string>): (r: string)
    ensures forall i :: 0 <= i < |r| ==> IsKeyChar(r[i])
    ensures k.None? ==> r == ""
    ensures k.Some? && AllKeyChars(k.value) ==> r == k.value
  {
    KeyCharsUnchanged(k.GetOr(""));
    KeepKeyChars(k.GetOr(""))
  }

  // ---------------------------------------------------------------------------------------------
  // pick

  /** What `pick` is handed: something that is not an object, or an object's own keys and values
      in `Object.keys` order. */
  datatype Raw = NotAnObject | Record(fields: seq<(string, JsValue)>)

  /** The `Map` that `pick` fills: normalised key to value, a later key overwriting an earlier one
      that normalises the same way. */
  function TableOf(fields: seq<(string, JsValue)>): map<string, JsValue> {
    if fields == [] then map[]
    else TableOf(fields[..|fields| - 1])[NormalizeKey(Some(fields[|fields| - 1].0)) := fields[|fields| - 1].1]
  }

  /** `map.get(key)`. */
  function Lookup(table: map<string, JsValue>, key: string): JsValue {
    if key in table then table[key] else Undefined
  }

  /** A value `pick` accepts: not undefined, not null and not ''. */
  predicate Usable(v: JsValue) {
    v != Undefined && v != Null && v != Str("")
  }

  /** The value of the first candidate, in order, whose normalised key maps to a usable value. */
  function FirstUsable(table: map<string, JsValue>, candidates: seq<string>): (r: JsValue)
    ensures r == Undefined || Usable(r)
    ensures r != Undefined ==>
      exists i :: 0 <= i < |candidates| && Lookup(table, NormalizeKey(Some(candidates[i]))) == r
        && forall j :: 0 <= j < i ==> !Usable(Lookup(table, NormalizeKey(Some(candidates[j]))))
    ensures r == Undefined <==>
      forall i :: 0 <= i < |candidates| ==> !Usable(Lookup(table, NormalizeKey(Some(candidates[i]))))
  {
    if candidates == [] then Undefined
    else
      var v := Lookup(table, NormalizeKey(Some(candidates[0])));
      if Usable(v) then v
      else
        var r := FirstUsable(table, candidates[1..]);
        assert forall i :: 1 <= i < |candidates| ==> candidates[i] == candidates[1..][i - 1];
        if r != Undefined then
          var i :| 0 <= i < |candidates[1..]| && Lookup(table, NormalizeKey(Some(candidates[1..][i]))) == r
                   && forall j :: 0 <= j < i ==> !Usable(Lookup(table, NormalizeKey(Some(candidates[1..][j]))));
          assert Lookup(table, NormalizeKey(Some(candidates[i + 1]))) == r;
          r
        else r
  }

  /** What `pick(obj, candidates)` returns. */
  function PickSpec(obj: Raw, candidates: seq<string>): JsValue {
    match obj
    case NotAnObject => Undefined
    case Record(fields) => FirstUsable(TableOf(fields), candidates)
  }

  /** `pick`: fill the map from the object's keys, then try the candidates in order. */
  method Pick(obj: Raw, candidates: seq<string>) returns (r: JsValue)
    ensures r == PickSpec(obj, candidates)
  {
    if obj.NotAnObject? {
      return Undefined;
    }
    var table := FillTable(obj.fields);
    r := TryCandidates(table, candidates);
  }

  /** The first loop of `pick`: each key, normalised, is set in the map in turn. */
  method FillTable(fields: seq<(string, JsValue)>) returns (table: map<string, JsValue>)
    ensures table == TableOf(fields)
  {
    table := map[];
    var i := 0;
    while i < |fields|
      invariant 0 <= i <= |fields|
      invariant table == TableOf(fields[..i])
    {
      assert fields[..i + 1][..i] == fields[..i];
      table := table[NormalizeKey(Some(fields[i].0)) := fields[i].1];
      i := i + 1;
    }
    assert fields[..|fields|] == fields;
  }

  /** The second loop of `pick`: the first candidate whose normalised key holds a usable value. */
  method TryCandidates(table: map<string, JsValue>, candidates: seq<string>) returns (r: JsValue)
    ensures r == FirstUsable(table, candidates)
  {
    var j := 0;
    while j < |candidates|
      invariant 0 <= j <= |candidates|
      invariant FirstUsable(table, candidates) == FirstUsable(table, candidates[j..])
    {
      var key := NormalizeKey(Some(candidates[j]));
      if key in table && Usable(table[key]) {
        return table[key];
      }
      assert candidates[j..][1..] == candidates[j + 1..];
      j := j + 1;
    }
    return Undefined;
  }

  // ---------------------------------------------------------------------------------------------
  // Display tables

  /** The book emoji used when none is given. */
  const DefaultBookEmoji: string := "\U{1F4DA}"

  /** The book types the emoji and price tables know, as normalised keys. */
  const KnownBookTypes: set<string> :=
    {"paperback", "hardcover", "boardbook", "massmarketpaperback", "spiralbound", "productbundle"}

  /** The emoji table's entry for a normalised book type, or the default book emoji. */
  function EmojiOf(key: string): (r: string)
    ensures key == "paperback" ==> r == "\U{1F4DA}"
    ensures key == "hardcover" ==> r == "\U{1F4D6}"
    ensures key == "boardbook" ==> r == "\U{1F4D8}"
    ensures key == "massmarketpaperback" ==> r == "\U{1F4D9}"
    ensures key == "spiralbound" ==> r == "\U{1F4D7}"
    ensures key == "productbundle" ==> r == "\U{1F4DA}"
    ensures key !in KnownBookTypes ==> r == DefaultBookEmoji
    ensures r in {"\U{1F4DA}", "\U{1F4D6}", "\U{1F4D8}", "\U{1F4D9}", "\U{1F4D7}"}
  {
    var emojis := map["paperback" := "\U{1F4DA}", "hardcover" := "\U{1F4D6}",
                      "boardbook" := "\U{1F4D8}", "massmarketpaperback" := "\U{1F4D9}",
                      "spiralbound" := "\U{1F4D7}", "productbundle" := "\U{1F4DA}"];
    if key in emojis then emojis[key] else DefaultBookEmoji
  }

  /** `getBookEmoji`: six known book types, looked up by normalised key. */
  function BookEmoji(bookType: Option<string>): (r: string)
    ensures r in {"\U{1F4DA}", "\U{1F4D6}", "\U{1F4D8}", "\U{1F4D9}", "\U{1F4D7}"}
    ensures NormalizeKey(bookType) !in KnownBookTypes ==> r == DefaultBookEmoji
    ensures NormalizeKey(bookType) == "paperback" ==> r == "\U{1F4DA}"
    ensures NormalizeKey(bookType) == "hardcover" ==> r == "\U{1F4D6}"
    ensures NormalizeKey(bookType) == "boardbook" ==> r == "\U{1F4D8}"
    ensures NormalizeKey(bookType) == "massmarketpaperback" ==> r == "\U{1F4D9}"
    ensures NormalizeKey(bookType) == "spiralbound" ==> r == "\U{1F4D7}"
    ensures NormalizeKey(bookType) == "productbundle" ==> r == "\U{1F4DA}"
  {
    EmojiOf(NormalizeKey(bookType))
  }

  /** `getLanguageDisplayName`: en, hi and mixed are spelt out, any other code is shown as is. */
  function LanguageDisplayName(code: Option<string>): (r: Option<string>)
    ensures code == Some("en") ==> r == Some("English")
    ensures code == Some("hi") ==> r == Some("Hindi")
    ensures code == Some("mixed") ==> r == Some("Mixed")
    ensures code !in {Some("en"), Some("hi"), Some("mixed")} ==> r == code
  {
    var languages := map["en" := "English", "hi" := "Hindi", "mixed" := "Mixed"];
    if code.Some? && code.value in languages then Some(languages[code.value]) else code
  }

  // ---------------------------------------------------------------------------------------------
  // normalizeProduct: rating, votes and price

  /** `p[name]`: the value stored under exactly that key, or undefined. */
  function Property(fields: seq<(string, JsValue)>, name: string): JsValue {
    if fields == [] then Undefined
    else if fields[|fields| - 1].0 == name then fields[|fields| - 1].1
    else Property(fields[..|fields| - 1], name)
  }

  /** The price candidates `pick` tries when the product has no `price`. */
  const PriceCandidates: seq<string> :=
    ["price", "amount", "mrp", "cost", "sale_price", "sellingprice", "offerprice", "price_text", "pricetext"]

  /** `p.price ?? pick(p, [...])`. */
  function RawPrice(fields: seq<(string, JsValue)>): JsValue {
    var own := Property(fields, "price");
    if own == Undefined || own == Null then PickSpec(Record(fields), PriceCandidates) else own
  }

  /** The price number before the fallback: `parseFloat` of the cleaned string for a string, and
      `Number(raw)` otherwise; None stands for NaN. */
  function PriceNumber(raw: JsValue): Option<real> {
    if raw.Str? then ParseFloat(CleanPrice(raw.s)) else NumberOf(raw)
  }

  /** `basePrices[key] || basePrices.default`: the price range of a normalised book type. */
  function PriceRange(key: string): (r: (int, int))
    ensures key == "paperback" ==> r == (200, 800)
    ensures key == "hardcover" ==> r == (400, 1200)
    ensures key == "boardbook" ==> r == (150, 500)
    ensures key == "massmarketpaperback" ==> r == (150, 400)
    ensures key == "spiralbound" ==> r == (300, 800)
    ensures key == "productbundle" ==> r == (500, 1500)
    ensures key !in KnownBookTypes ==> r == (200, 600)
    ensures 150 <= r.0 <= r.1 <= 1500
  {
    var ranges := map["paperback" := (200, 800), "hardcover" := (400, 1200), "boardbook" := (150, 500),
                      "massmarketpaperback" := (150, 400), "spiralbound" := (300, 800),
                      "productbundle" := (500, 1500), "default" := (200, 600)];
    if key in ranges then ranges[key] else ranges["default"]
  }

  /** `generateBookPrice(bookType)` for a draw `random` of `Math.random()`: an integer drawn from
      the book type's price range. */
  function GenerateBookPrice(bookType: Option<string>, random: real): (r: int)
    requires 0.0 <= random < 1.0
    ensures 150 <= r <= 1500
    ensures NormalizeKey(bookType) == "paperback" ==> r == DrawInRange(200, 800, random)
    ensures NormalizeKey(bookType) == "hardcover" ==> r == DrawInRange(400, 1200, random)
    ensures NormalizeKey(bookType) == "boardbook" ==> r == DrawInRange(150, 500, random)
    ensures NormalizeKey(bookType) == "massmarketpaperback" ==> r == DrawInRange(150, 400, random)
    ensures NormalizeKey(bookType) == "spiralbound" ==> r == DrawInRange(300, 800, random)
    ensures NormalizeKey(bookType) == "productbundle" ==> r == DrawInRange(500, 1500, random)
    ensures NormalizeKey(bookType) !in KnownBookTypes ==> r == DrawInRange(200, 600, random)
  {
    var range := PriceRange(NormalizeKey(bookType));
    DrawInRange(range.0, range.1, random)
  }

  /** `Math.floor(random * (max - min + 1)) + min`. */
  function DrawInRange(min: int, max: int, random: real): (r: int)
    requires min <= max && 0.0 <= random < 1.0
    ensures min <= r <= max
  {
    var width := (max - min + 1) as real;
    assert 0.0 <= random * width < width by {
      assert random * width < 1.0 * width;
    }
    (random * width).Floor + min
  }

  /** Lines 70-94 of `normalizeProduct`: rating, votes, currency symbol and price, each reassigned
      step by step as in the component. `random` is the `Math.random()` draw the price fallback
      makes. */
  method SanitiseNumbers(fields: seq<(string, JsValue)>, bookType: Option<string>, random: real)
    returns (rating: real, votes: real, price: real, currencySymbol: string)
    requires 0.0 <= random < 1.0
    ensures 0.0 <= rating <= 5.0
    ensures 0.0 <= NumberOrZero(Property(fields, "rating")) <= 5.0 ==>
      rating == NumberOrZero(Property(fields, "rating"))
    ensures !(0.0 <= NumberOrZero(Property(fields, "rating")) <= 5.0) ==> rating == 0.0
    ensures votes >= 0.0
    ensures NumberOrZero(Property(fields, "votes")) >= 0.0 ==> votes == NumberOrZero(Property(fields, "votes"))
    ensures NumberOrZero(Property(fields, "votes")) < 0.0 ==> votes == 0.0
    ensures currencySymbol == "$" <==> RawPrice(fields).Str? && '$' in RawPrice(fields).s
    ensures currencySymbol != "$" ==> currencySymbol == "\U{20B9}"
    ensures price >= 0.0
    ensures PriceNumber(RawPrice(fields)).Some? && PriceNumber(RawPrice(fields)).value >= 0.0 ==>
      price == PriceNumber(RawPrice(fields)).value
    ensures !(PriceNumber(RawPrice(fields)).Some? && PriceNumber(RawPrice(fields)).value >= 0.0) ==>
      price == GenerateBookPrice(bookType, random) as real
  {
    rating := NumberOrZero(Property(fields, "rating"));
    if rating < 0.0 || rating > 5.0 {
      rating := 0.0;
    }
    votes := NumberOrZero(Property(fields, "votes"));
    if votes < 0.0 {
      votes := 0.0;
    }
    var rawPrice := Property(fields, "price");
    if rawPrice == Undefined || rawPrice == Null {
      rawPrice := Pick(Record(fields), PriceCandidates);
    }
    currencySymbol := "\U{20B9}";
    if rawPrice.Str? && '$' in rawPrice.s {
      currencySymbol := "$";
    }
    var priceNum: Option<real>;
    if rawPrice.Str? {
      priceNum := ParseFloat(CleanPrice(rawPrice.s));
    } else {
      priceNum := NumberOf(rawPrice);
    }
    if priceNum.None? || priceNum.value < 0.0 {
      price := GenerateBookPrice(bookType, random) as real;
    } else {
      price := priceNum.value;
    }
  }

  // ---------------------------------------------------------------------------------------------
  // Pager and filters

  /** `handlePrev`'s update: one page back, never below 1. */
  function Prev(page: int): (r: int)
    ensures r >= 1
    ensures page >= 1 ==> r <= page && (r == page <==> page == 1)
  {
    if page - 1 > 1 then page - 1 else 1
  }

  /** `handleNext`'s update: one page on, never past the last page. */
  function Next(page: int, totalPages: int): (r: int)
    ensures r <= totalPages
    ensures page < totalPages ==> r == page + 1
    ensures 1 <= page <= totalPages ==> r >= page && (r == page <==> page == totalPages)
  {
    if totalPages < page + 1 then totalPages else page + 1
  }

  /** `x || fallback` for a number the server may leave out. */
  function OrDefault(x: Option<int>, fallback: int): (r: int)
    ensures x.Some? && x.value != 0 ==> r == x.value
    ensures x.None? || x.value == 0 ==> r == fallback
  {
    if x.Some? && x.value != 0 then x.value else fallback
  }

  /** The filter object the grid starts with. */
  const InitialFilters: map<string, string> :=
    map["category" := "All", "genre" := "All", "language" := "All", "bookType" := "All",
        "search" := "", "sortBy" := "name"]

  /** The component state that drives the product query. */
  class GridState {
    var filters: map<string, string>
    var searchTerm: string
    var page: int
    var limit: int
    var total: int
    var totalPages: int

    constructor ()
      ensures filters == InitialFilters && searchTerm == ""
      ensures page == 1 && limit == 24 && total == 0 && totalPages == 1
    {
      filters, searchTerm := InitialFilters, "";
      page, limit, total, totalPages := 1, 24, 0, 1;
    }

    /** `handleFilterChange`: back to page 1; the search box only updates the pending search term,
        any other name sets that filter. */
    method HandleFilterChange(filterName: string, value: string)
      modifies this
      ensures page == 1
      ensures filterName == "search" ==> searchTerm == value && filters == old(filters)
      ensures filterName != "search" ==> filters == old(filters)[filterName := value] && searchTerm == old(searchTerm)
      ensures limit == old(limit) && total == old(total) && totalPages == old(totalPages)
    {
      page := 1;
      if filterName == "search" {
        searchTerm := value;
      } else {
        filters := filters[filterName := value];
      }
    }

    /** `handleSearch`: back to page 1 with the pending search term applied. */
    method HandleSearch()
      modifies this
      ensures page == 1 && filters == old(filters)["search" := old(searchTerm)]
      ensures searchTerm == old(searchTerm) && limit == old(limit)
      ensures total == old(total) && totalPages == old(totalPages)
    {
      page := 1;
      filters := filters["search" := searchTerm];
    }

    /** The page-size selector: back to page 1 with the new size. */
    method HandleLimitChange(n: int)
      modifies this
      ensures page == 1 && limit == n
      ensures filters == old(filters) && searchTerm == old(searchTerm)
      ensures total == old(total) && totalPages == old(totalPages)
    {
      page := 1;
      limit := n;
    }

    method HandlePrev()
      modifies this
      ensures page == Prev(old(page))
      ensures filters == old(filters) && searchTerm == old(searchTerm) && limit == old(limit)
      ensures total == old(total) && totalPages == old(totalPages)
    {
      page := Prev(page);
    }

    method HandleNext()
      modifies this
      ensures page == Next(old(page), old(totalPages))
      ensures filters == old(filters) && searchTerm == old(searchTerm) && limit == old(limit)
      ensures total == old(total) && totalPages == old(totalPages)
    {
      page := Next(page, totalPages);
    }

    /** `loadProducts` adopting the server's paging numbers, each defaulted when missing or 0. */
    method ApplyMeta(curPage: Option<int>, curLimit: Option<int>, curTotal: Option<int>,
                     curTotalPages: Option<int>)
      modifies this
      ensures page == OrDefault(curPage, 1) && limit == OrDefault(curLimit, 24)
      ensures total == OrDefault(curTotal, 0) && totalPages == OrDefault(curTotalPages, 1)
      ensures filters == old(filters) && searchTerm == old(searchTerm)
    {
      page := OrDefault(curPage, 1);
      limit := OrDefault(curLimit, 24);
      total := OrDefault(curTotal, 0);
      totalPages := OrDefault(curTotalPages, 1);
    }
  }

  // ---------------------------------------------------------------------------------------------
  // Product link

  /** The base of the image link used when a product has no usable link. */
  const ImageBase: string := "http://localhost:5000/api/products/image/"

  /** The `href` of a product card: a non-empty string link, given an https scheme when it has
      none; otherwise the product's image address when it has an id; otherwise no link. */
  function ProductHref(amazonLink: JsValue, id: string): (r: Option<string>)
    ensures r.Some? ==> HasHttpScheme(r.value)
    ensures amazonLink.Str? && amazonLink.s != "" && HasHttpScheme(amazonLink.s) ==> r == Some(amazonLink.s)
    ensures amazonLink.Str? && amazonLink.s != "" && !HasHttpScheme(amazonLink.s) ==>
      r == Some("https://" + StripLeadingSlashes(amazonLink.s))
    ensures !(amazonLink.Str? && amazonLink.s != "") && id != "" ==> r == Some(ImageBase + id)
    ensures r.None? <==> !(amazonLink.Str? && amazonLink.s != "") && id == ""
  {
    if amazonLink.Str? && amazonLink.s != "" then Some(FixLinkProtocol(amazonLink.s))
    else if id != "" then
      assert StartsWithIgnoringCase(ImageBase + id, "http://") by {
        assert forall i :: 0 <= i < 7 ==> (ImageBase + id)[i] == "http://"[i];
      }
      Some(ImageBase + id)
    else None
  }

  // ---------------------------------------------------------------------------------------------
  // Properties

  /** Strings made only of key characters are their own key. */
  lemma {:induction false} KeyCharsUnchanged(s: string)
    ensures AllKeyChars(s) ==> KeepKeyChars(s) == s
  {
    if s != [] {
      KeyCharsUnchanged(s[1..]);
    }
  }

  /** A string without key characters (nor letters that lower-case to one) leaves nothing. */
  lemma {:induction false} NoKeyCharsVanish(s: string)
    requires forall i :: 0 <= i < |s| ==> KeyChar(s[i]).None?
    ensures KeepKeyChars(s) == []
  {
    if s != [] {
      NoKeyCharsVanish(s[1..]);
    }
  }

  /** The key characters of a concatenation are those of each part; with the two lemmas above,
      every character that yields a key character contributes it, in order, and nothing else. */
  lemma {:induction false} KeepKeyCharsSplits(a: string, b: string)
    ensures KeepKeyChars(a + b) == KeepKeyChars(a) + KeepKeyChars(b)
  {
    if a == [] {
      assert a + b == b;
    } else {
      var ab := a + b;
      assert ab[0] == a[0] && ab[1..] == a[1..] + b;
      KeepKeyCharsSplits(a[1..], b);
    }
  }

  /** `normalizeKey` is idempotent. */
  lemma NormalizeKeyIdempotent(k: Option<string>)
    ensures NormalizeKey(Some(NormalizeKey(k))) == NormalizeKey(k)
  {
    KeyCharsUnchanged(NormalizeKey(k));
  }

  /** Two keys that differ only in ASCII letter case normalise alike. */
  lemma {:induction false} NormalizeKeyIgnoresCase(s: string, t: string)
    requires |s| == |t|
    requires forall i :: 0 <= i < |s| ==> LowerAscii(s[i]) == LowerAscii(t[i])
    ensures KeepKeyChars(s) == KeepKeyChars(t)
  {
    if s != [] {
      assert KeyChar(s[0]) == KeyChar(t[0]);
      NormalizeKeyIgnoresCase(s[1..], t[1..]);
    }
  }

  /** Every key `pick`'s map holds comes from some key of the object. */
  lemma {:induction false} TableOfKeys(fields: seq<(string, JsValue)>, key: string)
    ensures key in TableOf(fields) <==> exists i :: 0 <= i < |fields| && NormalizeKey(Some(fields[i].0)) == key
  {
    if fields != [] {
      var prefix := fields[..|fields| - 1];
      TableOfKeys(prefix, key);
      assert forall i :: 0 <= i < |prefix| ==> prefix[i] == fields[i];
      if exists i :: 0 <= i < |fields| && NormalizeKey(Some(fields[i].0)) == key {
        var i :| 0 <= i < |fields| && NormalizeKey(Some(fields[i].0)) == key;
        if i < |prefix| {
          assert NormalizeKey(Some(prefix[i].0)) == key;
        }
      }
    }
  }

  /** When several keys normalise alike, `pick` sees the value of the last of them. */
  lemma {:induction false} TableOfLaterWins(fields: seq<(string, JsValue)>, i: nat)
    requires i < |fields|
    requires forall j :: i < j < |fields| ==> NormalizeKey(Some(fields[j].0)) != NormalizeKey(Some(fields[i].0))
    ensures Lookup(TableOf(fields), NormalizeKey(Some(fields[i].0))) == fields[i].1
  {
    var n := |fields|;
    if i < n - 1 {
      var prefix := fields[..n - 1];
      assert prefix[i] == fields[i];
      TableOfLaterWins(prefix, i);
    }
  }

  /** `pick` returns falsy values other than undefined, null and '': a stored 0 is found. */
  lemma PickKeepsZero()
    ensures PickSpec(Record([("Price", Number(0.0))]), ["price"]) == Number(0.0)
  {
    assert KeepKeyChars("Price") == "price";
    assert KeepKeyChars("price") == "price" by {
      KeyCharsUnchanged("price");
    }
  }

  /** The sanitised price of a string is never negative, and the fallback is the only way a
      negative or unparsable price shows. */
  lemma PriceNumberOfString(s: string)
    ensures PriceNumber(Str(s)).Some? ==> PriceNumber(Str(s)).value >= 0.0
  {
    CatalogueNormalise.ParseFloatNonNegative(CleanPrice(s));
  }

  /** The pager keeps the page within [1, totalPages], and Prev and Next undo each other away from
      the ends. */
  lemma PagerStaysInRange(page: int, totalPages: int)
    requires 1 <= page <= totalPages
    ensures 1 <= Prev(page) <= totalPages && 1 <= Next(page, totalPages) <= totalPages
    ensures page > 1 ==> Next(Prev(page), totalPages) == page
    ensures page < totalPages ==> Prev(Next(page, totalPages)) == page
  {
  }

  /** A link the catalogue normaliser has fixed is used by the grid as it is, and the grid sends a
      user to the same address whether or not the normaliser ran. */
  lemma HrefOfNormalisedLink(f: CatalogueNormalise.Fields, id: string)
    requires f.amazonLink.Str? && f.amazonLink.s != ""
    ensures CatalogueNormalise.Normalised(f).amazonLink.Str?
    ensures ProductHref(CatalogueNormalise.Normalised(f).amazonLink, id)
      == Some(CatalogueNormalise.Normalised(f).amazonLink.s)
    ensures ProductHref(CatalogueNormalise.Normalised(f).amazonLink, id) == ProductHref(f.amazonLink, id)
  {
    FixLinkProtocolIdempotent(f.amazonLink.s);
  }
}
