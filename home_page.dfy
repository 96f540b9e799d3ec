/**
  * The home page's logic: turning the generator's recommendations into
  * resort-shaped records, with the slug, price mapping and synthetic ids that
  * takes.
  */
module HomePage {
  import opened ResortTypes
  import opened Text
  import Sequences
  import Catalog
  import Actions

  // ---------------------------------------------------------------------------
  // slugify: lower-case, whitespace runs to dashes, other non-word characters dropped
  // ---------------------------------------------------------------------------

  /** A character JavaScript's `\s` matches. */
  predicate IsJsWhitespace(c: char)
  {
    c == ' ' || c == '\t' || c == '\n' || c == '\r' || c == '\U{000B}' || c == '\U{000C}' ||
    c == '\U{00A0}' || c == '\U{1680}' || ('\U{2000}' <= c <= '\U{200A}') ||
    c == '\U{2028}' || c == '\U{2029}' || c == '\U{202F}' || c == '\U{205F}' ||
    c == '\U{3000}' || c == '\U{FEFF}'
  }

  /** A character JavaScript's `\w` matches. */
  predicate IsWordChar(c: char)
  {
    ('a' <= c <= 'z') || ('A' <= c <= 'Z') || ('0' <= c <= '9') || c == '_'
  }

  /** A character a slug may contain: `[a-z0-9_-]`. */
  predicate IsSlugChar(c: char)
  {
    ('a' <= c <= 'z') || ('0' <= c <= '9') || c == '_' || c == '-'
  }

  predicate IsSlug(s: string)
  {
    forall i :: 0 <= i < |s| ==> IsSlugChar(s[i])
  }

  predicate NoUpper(s: string)
  {
    forall i :: 0 <= i < |s| ==> !('A' <= s[i] <= 'Z')
  }

  function LowerChar(c: char): char
  {
    if 'A' <= c <= 'Z' then (c as int + 32) as char else c
  }

  /** `toLowerCase`, on the ASCII letters. */
  function ToLower(s: string): (r: string)
    ensures |r| == |s| && NoUpper(r)
    ensures forall i :: 0 <= i < |s| ==> r[i] == LowerChar(s[i])
  {
    seq(|s|, i requires 0 <= i < |s| => LowerChar(s[i]))
  }

  /** The text after its leading whitespace. */
  function DropWhitespace(s: string): (r: string)
    ensures |r| <= |s| && r == s[|s| - |r|..]
    ensures r == [] || !IsJsWhitespace(r[0])
    decreases |s|
  {
    if |s| > 0 && IsJsWhitespace(s[0]) then DropWhitespace(s[1..]) else s
  }

  /** `replace(/\s+/g, '-')`: every maximal run of whitespace becomes one dash. */
  function ReplaceWhitespaceRuns(s: string): (r: string)
    ensures forall i :: 0 <= i < |r| ==> !IsJsWhitespace(r[i])
    ensures NoUpper(s) ==> NoUpper(r)
    decreases |s|
  {
    if |s| == 0 then ""
    else
      var head := if IsJsWhitespace(s[0]) then '-' else s[0];
      var rest := ReplaceWhitespaceRuns(if IsJsWhitespace(s[0]) then DropWhitespace(s[1..]) else s[1..]);
      assert forall i :: 0 < i <= |rest| ==> ([head] + rest)[i] == rest[i - 1];
      [head] + rest
  }

  /** `replace(/[^\w-]+/g, '')`: every character other than a word character or a dash is dropped. */
  function RemoveNonWord(s: string): (r: string)
    ensures forall i :: 0 <= i < |r| ==> IsWordChar(r[i]) || r[i] == '-'
    ensures NoUpper(s) ==> NoUpper(r)
    decreases |s|
  {
    if |s| == 0 then ""
    else if IsWordChar(s[0]) || s[0] == '-' then [s[0]] + RemoveNonWord(s[1..])
    else RemoveNonWord(s[1..])
  }

  /** Leading whitespace is all `DropWhitespace` removes. */
  lemma {:induction false} DropWhitespaceKeeps(s: string, c: char)
    requires !IsJsWhitespace(c)
    ensures multiset(DropWhitespace(s))[c] == multiset(s)[c]
    decreases |s|
  {
    if |s| > 0 && IsJsWhitespace(s[0]) {
      Sequences.CountHead(s, c);
      DropWhitespaceKeeps(s[1..], c);
    }
  }

  /** Replacing whitespace runs keeps every character that is neither whitespace nor a dash, as often as before. */
  lemma {:induction false} ReplaceWhitespaceRunsKeeps(s: string, c: char)
    requires !IsJsWhitespace(c) && c != '-'
    ensures multiset(ReplaceWhitespaceRuns(s))[c] == multiset(s)[c]
    decreases |s|
  {
    if |s| > 0 {
      var white := IsJsWhitespace(s[0]);
      var head := if white then '-' else s[0];
      var next := if white then DropWhitespace(s[1..]) else s[1..];
      var rest := ReplaceWhitespaceRuns(next);
      assert ReplaceWhitespaceRuns(s) == [head] + rest;
      Sequences.CountHead([head] + rest, c);
      assert ([head] + rest)[1..] == rest;
      Sequences.CountHead(s, c);
      ReplaceWhitespaceRunsKeeps(next, c);
      if white {
        DropWhitespaceKeeps(s[1..], c);
      }
    }
  }

  /** Removing non-word characters keeps every word character and dash, as often as before, and nothing else. */
  lemma {:induction false} RemoveNonWordKeeps(s: string, c: char)
    ensures multiset(RemoveNonWord(s))[c] == if IsWordChar(c) || c == '-' then multiset(s)[c] else 0
    decreases |s|
  {
    if |s| > 0 {
      RemoveNonWordKeeps(s[1..], c);
      assert s == [s[0]] + s[1..];
    }
  }

  predicate NoWhitespace(s: string)
  {
    forall i :: 0 <= i < |s| ==> !IsJsWhitespace(s[i])
  }

  predicate AllWhitespace(s: string)
  {
    forall i :: 0 <= i < |s| ==> IsJsWhitespace(s[i])
  }

  /** A text without whitespace passes through the whitespace step unchanged. */
  lemma {:induction false} ReplaceWhitespaceRunsFixesNonWhite(a: string)
    requires NoWhitespace(a)
    ensures ReplaceWhitespaceRuns(a) == a
    decreases |a|
  {
    if |a| > 0 {
      ReplaceWhitespaceRunsFixesNonWhite(a[1..]);
      assert a == [a[0]] + a[1..];
    }
  }

  /** A whole whitespace run is what `DropWhitespace` removes, up to the next other character. */
  lemma {:induction false} DropWhitespaceRun(w: string, b: string)
    requires AllWhitespace(w)
    requires b == [] || !IsJsWhitespace(b[0])
    ensures DropWhitespace(w + b) == b
    decreases |w|
  {
    if |w| > 0 {
      assert (w + b)[0] == w[0];
      assert (w + b)[1..] == w[1..] + b;
      DropWhitespaceRun(w[1..], b);
    } else {
      assert w + b == b;
    }
  }

  /** A first character that is not whitespace is kept in front. */
  lemma KeepsNonWhiteHead(c: char, t: string)
    requires !IsJsWhitespace(c)
    ensures ReplaceWhitespaceRuns([c] + t) == [c] + ReplaceWhitespaceRuns(t)
  {
    assert ([c] + t)[0] == c;
    assert ([c] + t)[1..] == t;
  }

  /** A text that opens with a maximal whitespace run gets one dash for it. */
  lemma LeadingRunToDash(w: string, b: string)
    requires |w| > 0 && AllWhitespace(w)
    requires b == [] || !IsJsWhitespace(b[0])
    ensures ReplaceWhitespaceRuns(w + b) == "-" + ReplaceWhitespaceRuns(b)
  {
    assert (w + b)[0] == w[0];
    assert (w + b)[1..] == w[1..] + b;
    DropWhitespaceRun(w[1..], b);
  }

  /** A prefix without whitespace is kept in front. */
  lemma {:induction false} KeepsNonWhitePrefix(a: string, s: string)
    requires NoWhitespace(a)
    ensures ReplaceWhitespaceRuns(a + s) == a + ReplaceWhitespaceRuns(s)
    decreases |a|
  {
    if |a| > 0 {
      var t := a[1..] + s;
      assert a + s == [a[0]] + t;
      KeepsNonWhiteHead(a[0], t);
      KeepsNonWhitePrefix(a[1..], s);
      assert a + ReplaceWhitespaceRuns(s) == [a[0]] + (a[1..] + ReplaceWhitespaceRuns(s));
    } else {
      assert a + s == s;
    }
  }

  /**
    * A maximal whitespace run becomes one dash in its place: the text before
    * it is kept, and the rest is processed on its own.
    */
  lemma ReplaceWhitespaceRunsAtRun(a: string, w: string, b: string)
    requires NoWhitespace(a)
    requires |w| > 0 && AllWhitespace(w)
    requires b == [] || !IsJsWhitespace(b[0])
    ensures ReplaceWhitespaceRuns(a + w + b) == a + "-" + ReplaceWhitespaceRuns(b)
  {
    assert a + w + b == a + (w + b);
    KeepsNonWhitePrefix(a, w + b);
    LeadingRunToDash(w, b);
  }

  /** Removing non-word characters works piecewise, so the kept characters stay in order. */
  lemma {:induction false} RemoveNonWordDistributes(a: string, b: string)
    ensures RemoveNonWord(a + b) == RemoveNonWord(a) + RemoveNonWord(b)
    decreases |a|
  {
    if |a| > 0 {
      RemoveNonWordDistributes(a[1..], b);
      assert (a + b)[0] == a[0];
      assert (a + b)[1..] == a[1..] + b;
    } else {
      assert a + b == b;
    }
  }

  /** `slugify` */
  function Slugify(text: string): (slug: string)
    ensures IsSlug(slug)
  {
    RemoveNonWord(ReplaceWhitespaceRuns(ToLower(text)))
  }

  /** A slug has no whitespace and no upper-case letter. */
  lemma SlugHasNoSpaceOrUpper(text: string)
    ensures forall i :: 0 <= i < |Slugify(text)| ==>
              !IsJsWhitespace(Slugify(text)[i]) && !('A' <= Slugify(text)[i] <= 'Z')
  {
  }

  /** Each of the three steps leaves a slug alone. */
  lemma {:induction false} SlugStepsFixSlugs(s: string)
    requires IsSlug(s)
    ensures ToLower(s) == s
    ensures ReplaceWhitespaceRuns(s) == s
    ensures RemoveNonWord(s) == s
    decreases |s|
  {
    if |s| > 0 {
      SlugStepsFixSlugs(s[1..]);
      assert s == [s[0]] + s[1..];
    }
  }

  /** Slugifying twice is the same as slugifying once. */
  lemma SlugifyIdempotent(text: string)
    ensures Slugify(Slugify(text)) == Slugify(text)
  {
    SlugStepsFixSlugs(Slugify(text));
  }

  // ---------------------------------------------------------------------------
  // mapPriceCategoryToPriceRange
  // ---------------------------------------------------------------------------

  /** The categories the mapping names in an explicit case. */
  predicate IsExplicitCategory(category: string)
  {
    category == "Luxury" || category == "Mid-range" || category == "Budget" || category == "Budget-friendly"
  }

  /** `mapPriceCategoryToPriceRange` */
  function MapPriceCategoryToPriceRange(category: string): (range: PriceRange)
    ensures range == Luxury <==> category == "Luxury"
    ensures range == Budget <==> category == "Budget" || category == "Budget-friendly"
    ensures !IsExplicitCategory(category) ==> range == MidRange
  {
    match category
    case "Luxury" => Luxury
    case "Mid-range" => MidRange
    case "Budget" => Budget
    case "Budget-friendly" => Budget
    case _ => MidRange
  }

  /** A price range's own label maps back to that range. */
  lemma MapPriceLabelRoundTrip(p: PriceRange)
    ensures IsExplicitCategory(PriceRangeLabel(p))
    ensures MapPriceCategoryToPriceRange(PriceRangeLabel(p)) == p
  {
  }

  /** Every budget option of the form is matched by an explicit case, not by the fallback. */
  lemma BudgetOptionsMapExplicitly()
    ensures forall i :: 0 <= i < |Catalog.BudgetOptions| ==> IsExplicitCategory(Catalog.BudgetOptions[i])
    ensures MapPriceCategoryToPriceRange(Catalog.BudgetOptions[0]) == Budget
    ensures MapPriceCategoryToPriceRange(Catalog.BudgetOptions[1]) == MidRange
    ensures MapPriceCategoryToPriceRange(Catalog.BudgetOptions[2]) == Luxury
  {
  }

  // ---------------------------------------------------------------------------
  // The recommendations -> Resort[] transformation
  // ---------------------------------------------------------------------------

  const AiIdPrefix := "ai-rec-"
  const AiImagePrefix := "https://placehold.co/800x600.png?text="

  /** The synthetic id of the recommendation at position `index`. */
  function AiResortId(index: nat, name: string): string
  {
    AiIdPrefix + NatToString(index) + "-" + Slugify(name)
  }

  /** Recommendations at different positions get different ids, whatever their names. */
  lemma AiResortIdsDiffer(i: nat, j: nat, a: string, b: string)
    requires i != j
    ensures AiResortId(i, a) != AiResortId(j, b)
  {
    if AiResortId(i, a) == AiResortId(j, b) {
      var x := AiResortId(i, a);
      assert x[|AiIdPrefix|..] == NatToString(i) + "-" + Slugify(a);
      assert AiResortId(j, b)[|AiIdPrefix|..] == NatToString(j) + "-" + Slugify(b);
      DigitsBeforeDash(NatToString(i), Slugify(a), NatToString(j), Slugify(b));
      NatToStringInjective(i, j);
    }
  }

  /** The resort-shaped record for `rec` at position `index`; `encode` is `encodeURIComponent`. */
  function ToResort(rec: AIRecommendation, index: nat, encode: string -> string): Resort
  {
    Resort(
      AiResortId(index, rec.resortName),
      rec.resortName,
      rec.description,
      [AiImagePrefix + encode(rec.resortName)],
      rec.keyAmenities,
      MapPriceCategoryToPriceRange(rec.priceCategory),
      rec.suitableForSuggestions,
      rec.location,
      rec.estimatedRating,
      Some("#"),
      Some(rec.imagePromptHint))
  }

  /** The resort carries over from the recommendation what it describes. */
  predicate CopiesRecommendation(r: Resort, rec: AIRecommendation)
  {
    r.name == rec.resortName && r.description == rec.description && r.amenities == rec.keyAmenities &&
    r.suitableFor == rec.suitableForSuggestions && r.location == rec.location &&
    r.rating == rec.estimatedRating && r.defaultImageAiHint == Some(rec.imagePromptHint) &&
    r.priceRange == MapPriceCategoryToPriceRange(rec.priceCategory)
  }

  /**
    * The effect over `aiRecommendations`: null stays null, and a list becomes
    * the list of records, position by position.
    */
  function TransformRecommendations(recs: Option<seq<AIRecommendation>>, encode: string -> string): (r: Option<seq<Resort>>)
    ensures r.None? <==> recs.None?
    ensures r.Some? ==> |r.value| == |recs.value|
    ensures r.Some? ==> forall i :: 0 <= i < |r.value| ==>
              CopiesRecommendation(r.value[i], recs.value[i]) &&
              r.value[i].id == AiResortId(i, recs.value[i].resortName) &&
              r.value[i].images == [AiImagePrefix + encode(recs.value[i].resortName)] &&
              r.value[i].virtualTourUrl == Some("#")
  {
    match recs
    case None => None
    case Some(list) => Some(seq(|list|, i requires 0 <= i < |list| => ToResort(list[i], i, encode)))
  }

  /** The transformed records have pairwise distinct ids. */
  lemma TransformedIdsUnique(recs: seq<AIRecommendation>, encode: string -> string)
    ensures UniqueIds(TransformRecommendations(Some(recs), encode).value)
  {
    var out := TransformRecommendations(Some(recs), encode).value;
    forall i, j | 0 <= i < j < |out| ensures out[i].id != out[j].id {
      AiResortIdsDiffer(i, j, recs[i].resortName, recs[j].resortName);
    }
  }

  /** Each transformed record has one image, a placeholder URL carrying a `?text=` query. */
  lemma TransformedImagesArePlaceholders(recs: seq<AIRecommendation>, encode: string -> string)
    ensures forall i :: 0 <= i < |recs| ==>
              |TransformRecommendations(Some(recs), encode).value[i].images| == 1 &&
              StartsWith(TransformRecommendations(Some(recs), encode).value[i].images[0], Catalog.PlaceholdOrigin) &&
              Includes(TransformRecommendations(Some(recs), encode).value[i].images[0], "?text=")
  {
    forall i | 0 <= i < |recs|
      ensures StartsWith(AiImagePrefix + encode(recs[i].resortName), Catalog.PlaceholdOrigin)
      ensures Includes(AiImagePrefix + encode(recs[i].resortName), "?text=")
    {
      var url := AiImagePrefix + encode(recs[i].resortName);
      assert url[..|Catalog.PlaceholdOrigin|] == Catalog.PlaceholdOrigin;
      assert url == "https://placehold.co/800x600.png" + "?text=" + encode(recs[i].resortName);
      IncludesMiddle("https://placehold.co/800x600.png", "?text=", encode(recs[i].resortName));
    }
  }

  /**
    * From request to records: a valid request whose generator returns one
    * recommendation yields one record, with the mapped price range and an id
    * that ends in the slug of the recommended name.
    */
  lemma OneRecommendationEndToEnd(rec: AIRecommendation, encode: string -> string,
                                  generate: Actions.RecommendationInput -> Actions.GeneratorOutcome)
    requires generate(Actions.RecommendationInput("Honeymoon", "beachfront and spa", "Luxury")) ==
             Actions.Generated(Actions.RecommendationsOutput([rec]))
    requires rec.priceCategory == "Luxury"
    ensures var form := Actions.FormInput(Some("Honeymoon"), Some("beachfront and spa"), Some("Luxury"));
            var response := Actions.HandleGenerateRecommendations(form, generate).response;
            response.success && response.data.Some? &&
            var resorts := TransformRecommendations(Some(response.data.value.recommendations), encode);
            resorts.Some? && |resorts.value| == 1 &&
            resorts.value[0].priceRange == Luxury &&
            resorts.value[0].id == "ai-rec-0-" + Slugify(rec.resortName)
  {
    var form := Actions.FormInput(Some("Honeymoon"), Some("beachfront and spa"), Some("Luxury"));
    assert Actions.IsValid(form);
    assert NatToString(0) == "0";
  }
}
