/** The catalogue clean-up of backend/routes/admin.js (`POST /normalize-products`): the three
    field parsers, the per-product normalisation that overwrites a field only when its cleaned value
    differs, and the loop that counts the products it changed. */
module CatalogueNormalise {
  import opened Wrappers
  import opened Text

  // ---------------------------------------------------------------------------------------------
  // The parsers; None is `undefined`

  /** `parseDigits`: a number is kept as it is; a string keeps its digits and yields their value when
      there are 1 to 10 of them and the value is at most 1000000; anything else is undefined. */
  function ParseDigits(v: JsValue): (r: Option<real>)
    ensures v.Number? ==> r == Some(v.n)
    ensures !v.Number? && !v.Str? ==> r == None
    ensures v.Str? ==>
      (r.Some? <==> 1 <= |KeepDigits(v.s)| <= 10 && NatValue(KeepDigits(v.s)) <= 1000000)
    ensures v.Str? && r.Some? ==> r.value == NatValue(KeepDigits(v.s)) as real && 0.0 <= r.value <= 1000000.0
  {
    match v
    case Number(n) => Some(n)
    case Str(s) =>
      var digits := KeepDigits(s);
      if digits != [] && |digits| <= 10 then
        var votes := NatValue(digits);
        if votes <= 1000000 then Some(votes as real) else None
      else None
    case _ => None
  }

  /** `s.replace(',', '.')`: only the first comma becomes a point. */
  function ReplaceFirstComma(s: string): (r: string)
    ensures |r| == |s|
  {
    if s == [] then []
    else if s[0] == ',' then ['.'] + s[1..]
    else [s[0]] + ReplaceFirstComma(s[1..])
  }

  /** Text of the form `\d+(?:\.\d+)?`: a run of digits, optionally followed by a point and at least
      one more digit. */
  predicate DecimalShape(t: string) {
    var a := LeadingDigits(t);
    a != [] && (|a| == |t| || (|t| > |a| + 1 && t[|a|] == '.' && AllDigits(t[|a| + 1..])))
  }

  /** The text `/\d+(?:\.\d+)?/` matches at the start of `s`, which begins with a digit: the digit
      run, and a point with the digits after it when at least one digit follows the point. */
  function DecimalAt(s: string): (r: string)
    requires s != [] && IsDigit(s[0])
    ensures r <= s && |r| > 0
  {
    var intPart := LeadingDigits(s);
    var rest := s[|intPart|..];
    if |rest| > 1 && rest[0] == '.' && IsDigit(rest[1]) then
      intPart + ['.'] + LeadingDigits(rest[1..])
    else intPart
  }

  /** `s.match(/\d+(?:\.\d+)?/)`: the leftmost match, if there is one. It starts at the first digit. */
  function FirstDecimal(s: string): (r: Option<string>)
    ensures r.None? <==> forall i :: 0 <= i < |s| ==> !IsDigit(s[i])
  {
    if s == [] then None
    else if IsDigit(s[0]) then Some(DecimalAt(s))
    else FirstDecimal(s[1..])
  }

  /** The match starts at the first digit: it is the decimal text found there. */
  lemma {:induction false} FirstDecimalIsLeftmost(s: string, i: nat)
    requires i < |s| && IsDigit(s[i]) && NoDigits(s[..i])
    ensures FirstDecimal(s) == Some(DecimalAt(s[i..]))
  {
    if i > 0 {
      assert !IsDigit(s[..i][0]);
      assert s[1..][..i - 1] == s[1..i];
      assert s[1..][i - 1..] == s[i..];
      FirstDecimalIsLeftmost(s[1..], i - 1);
    }
  }

  /** A string without a comma is unchanged. */
  lemma {:induction false} ReplaceFirstCommaNoComma(s: string)
    requires ',' !in s
    ensures ReplaceFirstComma(s) == s
  {
    if s != [] {
      assert s[0] in s;
      ReplaceFirstCommaNoComma(s[1..]);
    }
  }

  /** Otherwise exactly the position of the first comma changes, to a point. */
  lemma {:induction false} ReplaceFirstCommaAt(s: string, k: nat)
    requires k < |s| && s[k] == ',' && ',' !in s[..k]
    ensures ReplaceFirstComma(s) == s[k := '.']
  {
    if k == 0 {
      assert ['.'] + s[1..] == s[0 := '.'];
    } else {
      assert s[0] in s[..k];
      assert s[1..][..k - 1] == s[1..k];
      ReplaceFirstCommaAt(s[1..], k - 1);
      assert [s[0]] + s[1..][k - 1 := '.'] == s[k := '.'];
    }
  }

  /** The decimal text at the start of `s` has the shape of the pattern. */
  lemma DecimalAtHasShape(s: string)
    requires s != [] && IsDigit(s[0])
    ensures DecimalShape(DecimalAt(s))
  {
    var a := LeadingDigits(s);
    var rest := s[|a|..];
    if |rest| > 1 && rest[0] == '.' && IsDigit(rest[1]) {
      var b := LeadingDigits(rest[1..]);
      assert a + ['.'] + b == a + (['.'] + b);
      LeadingDigitsStop(a, ['.'] + b);
      assert (a + ['.'] + b)[|a| + 1..] == b;
    } else {
      LeadingDigitsStop(a, []);
      assert a + [] == a;
    }
  }

  /** Text with a non-digit after the character that follows its digit run does not have the
      pattern's shape. */
  lemma NotShapeAt(t: string, k: nat)
    requires |LeadingDigits(t)| < k < |t| && !IsDigit(t[k])
    ensures !DecimalShape(t)
  {
    var n := |LeadingDigits(t)|;
    assert t[n + 1..][k - n - 1] == t[k];
  }

  /** The match is the longest one there: no longer prefix of `s` has the pattern's shape. */
  lemma DecimalAtIsLongest(s: string, j: nat)
    requires s != [] && IsDigit(s[0]) && |DecimalAt(s)| < j <= |s|
    ensures !DecimalShape(s[..j])
  {
    var a := LeadingDigits(s);
    var rest := s[|a|..];
    var t := s[..j];
    LeadingDigitsOfPrefix(s, j);
    if |rest| > 1 && rest[0] == '.' && IsDigit(rest[1]) {
      // The fraction's digit run stops inside `t`.
      var b := LeadingDigits(rest[1..]);
      assert rest[1..][|b|] == t[|a| + 1 + |b|];
      NotShapeAt(t, |a| + 1 + |b|);
    } else if |t| > |a| + 1 && t[|a|] == '.' {
      // No digit follows the point.
      assert t[|a| + 1] == rest[1];
      NotShapeAt(t, |a| + 1);
    }
  }

  /** A prefix that reaches past the digit run has the same digit run. */
  lemma {:induction false} LeadingDigitsOfPrefix(s: string, j: nat)
    requires |LeadingDigits(s)| < j <= |s|
    ensures LeadingDigits(s[..j]) == LeadingDigits(s)
  {
    assert s[..j][0] == s[0];
    if IsDigit(s[0]) {
      assert s[..j][1..] == s[1..][..j - 1];
      LeadingDigitsOfPrefix(s[1..], j - 1);
    }
  }

  /** The digit run at the start of `a + t` is `a` when `t` does not continue it. */
  lemma {:induction false} LeadingDigitsStop(a: string, t: string)
    requires AllDigits(a) && (t == [] || !IsDigit(t[0]))
    ensures LeadingDigits(a + t) == a
  {
    if a == [] {
      assert a + t == t;
    } else {
      assert (a + t)[0] == a[0] && (a + t)[1..] == a[1..] + t;
      LeadingDigitsStop(a[1..], t);
    }
  }

  /** `parseRating`: a number is kept as it is; a string yields its first decimal number (after
      the first comma is read as a point) when that lies in [0, 5]; anything else is undefined. */
  function ParseRating(v: JsValue): (r: Option<real>)
    ensures v.Number? ==> r == Some(v.n)
    ensures !v.Number? && !v.Str? ==> r == None
    ensures v.Str? && r.Some? ==> 0.0 <= r.value <= 5.0
  {
    match v
    case Number(n) => Some(n)
    case Str(s) =>
      (match FirstDecimal(ReplaceFirstComma(s))
       case Some(m) =>
         (match ParseFloat(m)
          case Some(rating) => if 0.0 <= rating <= 5.0 then Some(rating) else None
          case None => None)
       case None => None)
    case _ => None
  }

  /** Text of the pattern's shape reads with `parseFloat` as the decimal literal it spells. */
  lemma DecimalLiteralOfShape(t: string)
    requires DecimalShape(t)
    ensures DecimalLiteral(t).Some? && ParseFloat(t) == DecimalLiteral(t)
  {
    var a := LeadingDigits(t);
    var rest := t[|a|..];
    if |a| < |t| {
      assert rest[1..] == t[|a| + 1..];
      LeadingDigitsOfDigits(rest[1..]);
    }
  }

  /** The leftmost match, when there is one, has the pattern's shape. */
  lemma {:induction false} FirstDecimalHasShape(s: string)
    ensures FirstDecimal(s).Some? ==> DecimalShape(FirstDecimal(s).value)
  {
    if s != [] {
      if IsDigit(s[0]) {
        DecimalAtHasShape(s);
      } else {
        FirstDecimalHasShape(s[1..]);
      }
    }
  }

  /** A string rating: with its first comma read as a point, the text has no decimal number and
      the rating is undefined, or its leftmost decimal number is a plain decimal literal and the
      rating is that literal's value exactly when the value lies in [0, 5]. */
  lemma ParseRatingOfString(s: string)
    ensures var m := FirstDecimal(ReplaceFirstComma(s));
      && (m.None? ==> ParseRating(Str(s)).None?)
      && (m.Some? ==>
            && DecimalLiteral(m.value).Some?
            && (ParseRating(Str(s)).Some? <==> 0.0 <= DecimalLiteral(m.value).value <= 5.0)
            && (ParseRating(Str(s)).Some? ==> ParseRating(Str(s)).value == DecimalLiteral(m.value).value))
  {
    var m := FirstDecimal(ReplaceFirstComma(s));
    if m.Some? {
      FirstDecimalHasShape(ReplaceFirstComma(s));
      DecimalLiteralOfShape(m.value);
    }
  }

  /** `parsePrice`: a number is kept as it is; a string is cleaned to digits and its last point and
      read with `parseFloat`, undefined when that gives NaN; anything else is undefined. */
  function ParsePrice(v: JsValue): (r: Option<real>)
    ensures v.Number? ==> r == Some(v.n)
    ensures !v.Number? && !v.Str? ==> r == None
    ensures v.Str? ==> r == ParseFloat(CleanPrice(v.s))
  {
    match v
    case Number(n) => Some(n)
    case Str(s) => ParseFloat(CleanPrice(s))
    case _ => None
  }

  // ---------------------------------------------------------------------------------------------
  // One product

  /** The fields of a stored product that the clean-up reads and writes. */
  datatype Fields = Fields(
    rating: JsValue,
    votes: JsValue,
    price: JsValue,
    name: Option<string>,
    author: Option<string>,
    amazonLink: JsValue)

  /** A field is overwritten when its parsed value is defined and differs from the stored value. */
  function Overwrite(stored: JsValue, parsed: Option<real>): JsValue {
    if parsed.Some? && Number(parsed.value) != stored then Number(parsed.value) else stored
  }

  /** `(s || '').trim()`. */
  function Trimmed(s: Option<string>): string {
    Trim(s.GetOr(""))
  }

  /** A link that is a non-empty string without an http(s) scheme is rewritten. */
  predicate NeedsScheme(link: JsValue) {
    link.Str? && link.s != "" && !HasHttpScheme(link.s)
  }

  /** The fields after one pass of the loop body. */
  function Normalised(f: Fields): Fields {
    Fields(
      Overwrite(f.rating, ParseRating(f.rating)),
      Overwrite(f.votes, ParseDigits(f.votes)),
      Overwrite(f.price, ParsePrice(f.price)),
      Some(Trimmed(f.name)),
      Some(Trimmed(f.author)),
      if NeedsScheme(f.amazonLink) then Str(FixLinkProtocol(f.amazonLink.s)) else f.amazonLink)
  }

  /** The `changed` flag the loop body ends with. */
  predicate NeedsChange(f: Fields) {
    || (ParseRating(f.rating).Some? && Number(ParseRating(f.rating).value) != f.rating)
    || (ParseDigits(f.votes).Some? && Number(ParseDigits(f.votes).value) != f.votes)
    || (ParsePrice(f.price).Some? && Number(ParsePrice(f.price).value) != f.price)
    || Some(Trimmed(f.name)) != f.name
    || Some(Trimmed(f.author)) != f.author
    || NeedsScheme(f.amazonLink)
  }

  class ProductDoc {
    var rating: JsValue
    var votes: JsValue
    var price: JsValue
    var name: Option<string>
    var author: Option<string>
    var amazonLink: JsValue

    function Get(): Fields
      reads this
    {
      Fields(rating, votes, price, name, author, amazonLink)
    }

    constructor (f: Fields)
      ensures Get() == f
    {
      rating, votes, price, name, author, amazonLink := f.rating, f.votes, f.price, f.name, f.author, f.amazonLink;
    }

    /** The loop body for one product: each field is checked and overwritten in turn, and `changed`
        records whether any was. */
    method Normalise() returns (changed: bool)
      modifies this
      ensures Get() == Normalised(old(Get()))
      ensures changed == NeedsChange(old(Get()))
    {
      var f := Get();
      changed := false;
      var r := ParseRating(f.rating);
      if r.Some? && Number(r.value) != f.rating {
        rating := Number(r.value);
        changed := true;
      }
      assert rating == Normalised(f).rating;
      var v := ParseDigits(f.votes);
      if v.Some? && Number(v.value) != f.votes {
        votes := Number(v.value);
        changed := true;
      }
      assert votes == Normalised(f).votes;
      var pr := ParsePrice(f.price);
      if pr.Some? && Number(pr.value) != f.price {
        price := Number(pr.value);
        changed := true;
      }
      assert price == Normalised(f).price;
      var newName := Trimmed(f.name);
      var newAuthor := Trimmed(f.author);
      if Some(newName) != f.name {
        name := Some(newName);
        changed := true;
      }
      if Some(newAuthor) != f.author {
        author := Some(newAuthor);
        changed := true;
      }
      if f.amazonLink.Str? && f.amazonLink.s != "" && !HasHttpScheme(f.amazonLink.s) {
        amazonLink := Str("https://" + StripLeadingSlashes(f.amazonLink.s));
        changed := true;
      }
    }
  }

  /** How many elements of `xs` satisfy `p`, counted from the first to the last. */
  function CountWhere<T>(xs: seq<T>, p: T -> bool): (r: nat)
    ensures r <= |xs|
  {
    if xs == [] then 0
    else CountWhere(xs[..|xs| - 1], p) + (if p(xs[|xs| - 1]) then 1 else 0)
  }

  /** Counting one more element adds one exactly when it satisfies `p`. */
  lemma CountWhereStep<T>(xs: seq<T>, i: nat, p: T -> bool)
    requires i < |xs|
    ensures CountWhere(xs[..i + 1], p) == CountWhere(xs[..i], p) + (if p(xs[i]) then 1 else 0)
  {
    assert xs[..i + 1][..i] == xs[..i];
  }

  /** How many of the field sets need a change. */
  function CountChanged(fs: seq<Fields>): (r: nat)
    ensures r <= |fs|
  {
    CountWhere(fs, NeedsChange)
  }

  /** The fields of each product, in order. */
  function FieldsOf(products: seq<ProductDoc>): (r: seq<Fields>)
    reads set p | p in products
    ensures |r| == |products|
    ensures forall i :: 0 <= i < |products| ==> r[i] == products[i].Get()
  {
    if products == [] then [] else FieldsOf(products[..|products| - 1]) + [products[|products| - 1].Get()]
  }

  /** `norm` and `need` agree with `Normalised` and `NeedsChange`. Each equation is triggered by
      the specification function alone, so a proof that only applies the handles never unfolds
      the per-field parsers. */
  ghost predicate Specifies(norm: Fields -> Fields, need: Fields -> bool)
  {
    && (forall f {:trigger Normalised(f)} :: norm(f) == Normalised(f))
    && (forall f {:trigger NeedsChange(f)} :: need(f) == NeedsChange(f))
  }

  /** One pass of the loop, stated through the handles the loop's invariants use. */
  method NormaliseOne(p: ProductDoc, ghost norm: Fields -> Fields, ghost need: Fields -> bool) returns (changed: bool)
    requires Specifies(norm, need)
    modifies p
    ensures p.Get() == norm(old(p.Get())) && changed == need(old(p.Get()))
  {
    changed := p.Normalise();
  }

  /** The loop itself, proved for any handles that specify the per-product step. */
  method NormaliseEach(products: seq<ProductDoc>, ghost norm: Fields -> Fields, ghost need: Fields -> bool)
    returns (updated: nat)
    requires Specifies(norm, need)
    requires forall i, j :: 0 <= i < |products| && 0 <= j < |products| && i != j ==> products[i] != products[j]
    modifies set p | p in products
    ensures updated == CountWhere(old(FieldsOf(products)), need)
    ensures forall i :: 0 <= i < |products| ==> products[i].Get() == norm(old(products[i].Get()))
  {
    ghost var before := FieldsOf(products);
    updated := 0;
    var i := 0;
    while i < |products|
      invariant 0 <= i <= |products|
      invariant updated == CountWhere(before[..i], need)
      invariant forall j :: 0 <= j < |products| ==> products[j].Get() == if j < i then norm(before[j]) else before[j]
    {
      var changed := NormaliseOne(products[i], norm, need);
      CountWhereStep(before, i, need);
      if changed {
        updated := updated + 1;
      }
      i := i + 1;
    }
    assert before[..|products|] == before;
  }

  /** The loop over every product: each is normalised in place, and `updated` counts those whose
      `changed` flag was set (and which were therefore saved). */
  method NormaliseAll(products: seq<ProductDoc>) returns (updated: nat)
    requires forall i, j :: 0 <= i < |products| && 0 <= j < |products| && i != j ==> products[i] != products[j]
    modifies set p | p in products
    ensures updated == CountChanged(old(FieldsOf(products))) && updated <= |products|
    ensures forall i :: 0 <= i < |products| ==> products[i].Get() == Normalised(old(products[i].Get()))
  {
    updated := NormaliseEach(products, Normalised, NeedsChange);
  }

  // ---------------------------------------------------------------------------------------------
  // Properties

  /** A product is counted exactly when the pass changes one of its fields. */
  lemma NeedsChangeIffChanged(f: Fields)
    ensures NeedsChange(f) <==> Normalised(f) != f
  {
    if NeedsScheme(f.amazonLink) {
      assert Normalised(f).amazonLink != f.amazonLink by {
        FixLinkProtocolIdempotent(f.amazonLink.s);
      }
    }
  }

  /** What one pass leaves in each field: a number is kept; a rating, count or price is either left
      as it was or replaced by a number (a rating read from text then lies in [0, 5]); name and
      author are always present and neither start nor end with white space; a non-empty text
      link ends up with an http(s) scheme, and any other link is left as it was. */
  lemma NormalisedFields(f: Fields)
    ensures var g := Normalised(f);
      && (f.rating.Number? ==> g.rating == f.rating)
      && (g.rating == f.rating || (g.rating.Number? && 0.0 <= g.rating.n <= 5.0))
      && (f.votes.Number? ==> g.votes == f.votes)
      && (g.votes == f.votes || g.votes.Number?)
      && (f.price.Number? ==> g.price == f.price)
      && (g.price == f.price || g.price.Number?)
      && g.name.Some? && g.author.Some?
      && (g.name.value != [] ==> !IsJsWhitespace(g.name.value[0]) && !IsJsWhitespace(g.name.value[|g.name.value| - 1]))
      && (g.author.value != [] ==> !IsJsWhitespace(g.author.value[0]) && !IsJsWhitespace(g.author.value[|g.author.value| - 1]))
      && (f.amazonLink.Str? && f.amazonLink.s != "" ==> g.amazonLink.Str? && HasHttpScheme(g.amazonLink.s))
      && (!NeedsScheme(f.amazonLink) ==> g.amazonLink == f.amazonLink)
  {
    TrimIdempotent(f.name.GetOr(""));
    TrimIdempotent(f.author.GetOr(""));
  }

  /** A second pass changes nothing: the clean-up is idempotent, and a catalogue already clean is
      left as it is and counts no update. */
  lemma NormalisedIsFixpoint(f: Fields)
    ensures Normalised(Normalised(f)) == Normalised(f)
    ensures !NeedsChange(Normalised(f))
  {
    var g := Normalised(f);
    TrimIdempotent(f.name.GetOr(""));
    TrimIdempotent(f.author.GetOr(""));
    NeedsChangeIffChanged(g);
  }

  /** The value a string price yields never has more than one point to read, keeps the original's
      digits, and is never negative. */
  lemma ParsePriceOfString(s: string)
    ensures DotCount(CleanPrice(s)) <= 1 && KeepDigits(CleanPrice(s)) == KeepDigits(s)
    ensures ParsePrice(Str(s)).Some? ==> ParsePrice(Str(s)).value >= 0.0
  {
    CleanPriceShape(s);
    ParseFloatNonNegative(CleanPrice(s));
  }

  lemma ParseFloatNonNegative(s: string)
    ensures ParseFloat(s).Some? ==> ParseFloat(s).value >= 0.0
  {
    var intPart := LeadingDigits(s);
    var rest := s[|intPart|..];
    var fracPart := if rest != [] && rest[0] == '.' then LeadingDigits(rest[1..]) else [];
    FracValueBounds(fracPart);
  }

  lemma {:induction false} FracValueBounds(s: string)
    requires AllDigits(s)
    ensures 0.0 <= FracValue(s) < 1.0
  {
    if s != [] {
      FracValueBounds(s[1..]);
      assert DigitValue(s[0]) <= 9;
    }
  }

  /** The positions of `xs` whose element satisfies `p`. */
  function IndicesWhere<T>(xs: seq<T>, p: T -> bool): set<int> {
    set i | 0 <= i < |xs| && p(xs[i])
  }

  /** The running count is the number of positions that satisfy `p`. */
  lemma {:induction false} CountWhereIsCardinality<T>(xs: seq<T>, p: T -> bool)
    ensures CountWhere(xs, p) == |IndicesWhere(xs, p)|
  {
    if xs == [] {
      assert IndicesWhere(xs, p) == {};
    } else {
      var n := |xs|;
      var prefix := xs[..n - 1];
      CountWhereIsCardinality(prefix, p);
      assert forall i :: 0 <= i < n - 1 ==> prefix[i] == xs[i];
      if p(xs[n - 1]) {
        assert IndicesWhere(xs, p) == IndicesWhere(prefix, p) + {n - 1};
      } else {
        assert IndicesWhere(xs, p) == IndicesWhere(prefix, p);
      }
    }
  }

  /** The number of updated products is the number of products whose fields the pass changes. */
  lemma CountChangedCountsChanges(fs: seq<Fields>)
    ensures CountChanged(fs) == |set i | 0 <= i < |fs| && Normalised(fs[i]) != fs[i]|
  {
    CountWhereIsCardinality(fs, NeedsChange);
    forall i | 0 <= i < |fs| {
      NeedsChangeIffChanged(fs[i]);
    }
    assert IndicesWhere(fs, NeedsChange) == set i | 0 <= i < |fs| && Normalised(fs[i]) != fs[i];
  }
}
