/**
  * The logic of a resort card: which image it starts from, whether that image
  * is a placeholder worth replacing by a generated one, the prompt it asks
  * for, how the generation outcome drives its display state, the price badge
  * and the wishlist toggle.
  */
module ResortCard {
  import opened ResortTypes
  import opened Text
  import Catalog
  import Wishlist

  const DefaultAiHint := "resort building"
  const NoImageUrl := "https://placehold.co/400x250.png?text=No+Image"

  /** The image a card starts from: the first one, or the "No Image" placeholder. */
  function InitialImage(images: seq<string>): (url: string)
    ensures |images| > 0 ==> url == images[0]
    ensures |images| == 0 ==> url == NoImageUrl
  {
    if |images| > 0 then images[0] else NoImageUrl
  }

  /** The card's placeholder test: on the placeholder host, or carrying a `?text=` query. */
  predicate IsPlaceholder(url: string)
  {
    StartsWith(url, Catalog.PlaceholdOrigin) || Includes(url, "?text=")
  }

  /** The "No Image" fallback is itself a placeholder, so a card without images asks for one. */
  lemma NoImageIsPlaceholder()
    ensures IsPlaceholder(NoImageUrl)
    ensures IsPlaceholder(InitialImage([]))
  {
    assert NoImageUrl[..|Catalog.PlaceholdOrigin|] == Catalog.PlaceholdOrigin;
  }

  /** Every catalog card starts from a placeholder, so every catalog card asks for an image. */
  lemma CatalogCardsStartFromPlaceholders()
    ensures forall i :: 0 <= i < |Catalog.PlaceholderResorts()| ==>
              IsPlaceholder(InitialImage(Catalog.PlaceholderResorts()[i].images))
    ensures forall i, k :: 0 <= i < |Catalog.PlaceholderResorts()| && 0 <= k < |Catalog.PlaceholderResorts()[i].images| ==>
              IsPlaceholder(Catalog.PlaceholderResorts()[i].images[k])
  {
    Catalog.CatalogImagesNonEmpty();
    Catalog.CatalogImagesOnPlaceholdHost();
  }

  /** The suitability phrase of the prompt: the first two labels, or "general travel". */
  function SuitableForText(labels: seq<string>): (text: string)
    ensures |labels| == 0 ==> text == "general travel"
    ensures |labels| == 1 ==> text == "good for " + labels[0]
    ensures |labels| >= 2 ==> text == "good for " + labels[0] + ", " + labels[1]
  {
    if |labels| > 0 then
      var shown := Take(labels, 2);
      assert |labels| >= 2 ==> shown == [labels[0], labels[1]] && Join(shown, ", ") == labels[0] + ", " + labels[1];
      "good for " + Join(shown, ", ")
    else "general travel"
  }

  /** `resort.defaultImageAiHint || DEFAULT_AI_HINT`: the resort's hint unless it is absent or empty. */
  function ImageHint(hint: Option<string>): (h: string)
    ensures h != ""
    ensures hint.Some? && hint.value != "" ==> h == hint.value
    ensures hint.None? || hint.value == "" ==> h == DefaultAiHint
  {
    match hint
    case Some(s) => if s != "" then s else DefaultAiHint
    case None => DefaultAiHint
  }

  /** The prompt a card sends to the image action. */
  function ImagePrompt(resort: Resort): string
  {
    "A vibrant, high-quality photograph of " + resort.name + ", a " + PriceRangeLabel(resort.priceRange) +
    " resort in " + resort.location + ", " + SuitableForText(resort.suitableFor) + ". Focus: " +
    ImageHint(resort.defaultImageAiHint) + "."
  }

  /** The prompt mentions the resort's name. */
  lemma PromptMentionsName(resort: Resort)
    ensures Includes(ImagePrompt(resort), resort.name)
  {
    var opening := "A vibrant, high-quality photograph of ";
    var rest := ", a " + PriceRangeLabel(resort.priceRange) + " resort in " + resort.location + ", " +
                SuitableForText(resort.suitableFor) + ". Focus: " + ImageHint(resort.defaultImageAiHint) + ".";
    assert ImagePrompt(resort) == opening + resort.name + rest;
    IncludesMiddle(opening, resort.name, rest);
  }

  /** The prompt mentions the resort's location. */
  lemma PromptMentionsLocation(resort: Resort)
    ensures Includes(ImagePrompt(resort), resort.location)
  {
    var before := "A vibrant, high-quality photograph of " + resort.name + ", a " +
                  PriceRangeLabel(resort.priceRange) + " resort in ";
    var after := ", " + SuitableForText(resort.suitableFor) + ". Focus: " + ImageHint(resort.defaultImageAiHint) + ".";
    assert ImagePrompt(resort) == before + resort.location + after;
    IncludesMiddle(before, resort.location, after);
  }

  /** The prompt ends by naming the image hint it focuses on. */
  lemma PromptMentionsHint(resort: Resort)
    ensures Includes(ImagePrompt(resort), ImageHint(resort.defaultImageAiHint))
  {
    var before := "A vibrant, high-quality photograph of " + resort.name + ", a " +
                  PriceRangeLabel(resort.priceRange) + " resort in " + resort.location + ", " +
                  SuitableForText(resort.suitableFor) + ". Focus: ";
    assert ImagePrompt(resort) == before + ImageHint(resort.defaultImageAiHint) + ".";
    IncludesMiddle(before, ImageHint(resort.defaultImageAiHint), ".");
  }

  /** The `Badge` variant of the price range. */
  datatype BadgeVariant = Destructive | Secondary | Outline

  function PriceBadgeVariant(range: PriceRange): (v: BadgeVariant)
    ensures v == Destructive <==> range == Luxury
    ensures v == Secondary <==> range == MidRange
    ensures v == Outline <==> range == Budget
  {
    match range
    case Luxury => Destructive
    case MidRange => Secondary
    case Budget => Outline
  }

  /**
    * How the promise of the image action settles: resolved with the action's
    * result, or rejected.
    */
  datatype ImageOutcome = Resolved(imageDataUri: Option<string>) | Rejected

  /** A resolved result that replaces the image: a non-empty data URI. */
  predicate Replaces(outcome: ImageOutcome)
  {
    outcome.Resolved? && outcome.imageDataUri.Some? && outcome.imageDataUri.value != ""
  }

  /**
    * One card's state. `effectRuns` counts the runs of the image effect; the
    * `isMounted` flag of run `k` is `IsMounted(k)`: only the latest run's flag is
    * set, and only until its cleanup. `requests` lists the prompts sent, and
    * `pending` holds the runs whose request has been sent and not yet settled.
    */
  class ResortCardView {
    const resort: Resort
    const initialImage: string
    var currentImageUrl: string
    var isGeneratingImage: bool
    var generationFailed: bool
    var effectRuns: nat
    var cleanedUp: bool
    var requests: seq<string>
    var pending: set<nat>

    /** The first render, before any effect has run. */
    constructor (resort: Resort)
      ensures this.resort == resort && initialImage == InitialImage(resort.images)
      ensures currentImageUrl == initialImage && !isGeneratingImage && !generationFailed
      ensures effectRuns == 0 && requests == [] && pending == {}
      ensures RunsStarted()
    {
      this.resort := resort;
      initialImage := InitialImage(resort.images);
      currentImageUrl := InitialImage(resort.images);
      isGeneratingImage := false;
      generationFailed := false;
      effectRuns := 0;
      cleanedUp := false;
      requests := [];
      pending := {};
    }

    /** The `isMounted` flag captured by effect run `run`. */
    predicate IsMounted(run: nat)
      reads this
    {
      run + 1 == effectRuns && !cleanedUp
    }

    /** Every pending request belongs to a run that has started. */
    predicate RunsStarted()
      reads this
    {
      forall k :: k in pending ==> k < effectRuns
    }

    /**
      * A run of the image effect (React has run the previous run's cleanup):
      * a placeholder starts a generation request, a real image is shown as is.
      */
    method RunEffect()
      modifies this
      ensures effectRuns == old(effectRuns) + 1 && IsMounted(effectRuns - 1)
      ensures IsPlaceholder(initialImage) ==>
                isGeneratingImage && !generationFailed && currentImageUrl == old(currentImageUrl) &&
                requests == old(requests) + [ImagePrompt(resort)] && pending == old(pending) + {old(effectRuns)}
      ensures !IsPlaceholder(initialImage) ==>
                !isGeneratingImage && generationFailed == old(generationFailed) &&
                currentImageUrl == initialImage && requests == old(requests) && pending == old(pending)
      ensures old(RunsStarted()) ==> RunsStarted()
    {
      effectRuns := effectRuns + 1;
      cleanedUp := false;
      if IsPlaceholder(initialImage) {
        isGeneratingImage := true;
        generationFailed := false;
        requests := requests + [ImagePrompt(resort)];
        pending := pending + {effectRuns - 1};
      } else {
        currentImageUrl := initialImage;
        isGeneratingImage := false;
      }
    }

    /** The effect's cleanup: the latest run's `isMounted` flag is cleared. */
    method Cleanup()
      modifies this
      ensures cleanedUp && effectRuns == old(effectRuns)
      ensures forall k: nat :: !IsMounted(k)
      ensures currentImageUrl == old(currentImageUrl) && isGeneratingImage == old(isGeneratingImage)
      ensures generationFailed == old(generationFailed) && requests == old(requests) && pending == old(pending)
    {
      cleanedUp := true;
    }

    /**
      * The `then`/`catch`/`finally` handlers of run `run`'s request: while that
      * run is mounted, a data URI replaces the image, anything else marks the
      * generation failed, and either way generating stops; otherwise nothing
      * changes. Only a request that was sent can settle, and only once.
      */
    method Settle(run: nat, outcome: ImageOutcome)
      requires run in pending
      modifies this`currentImageUrl, this`isGeneratingImage, this`generationFailed, this`pending
      ensures pending == old(pending) - {run}
      ensures old(RunsStarted()) ==> RunsStarted()
      ensures !old(IsMounted(run)) ==>
                currentImageUrl == old(currentImageUrl) && isGeneratingImage == old(isGeneratingImage) &&
                generationFailed == old(generationFailed)
      ensures old(IsMounted(run)) ==> !isGeneratingImage
      ensures old(IsMounted(run)) && Replaces(outcome) ==>
                currentImageUrl == outcome.imageDataUri.value && generationFailed == old(generationFailed)
      ensures old(IsMounted(run)) && !Replaces(outcome) ==>
                currentImageUrl == old(currentImageUrl) && generationFailed
    {
      var isMounted := IsMounted(run);
      match outcome {
        case Resolved(uri) =>
          if isMounted && uri.Some? && uri.value != "" {
            currentImageUrl := uri.value;
          } else if isMounted {
            generationFailed := true;
          }
        case Rejected =>
          if isMounted {
            generationFailed := true;
          }
      }
      if isMounted {
        isGeneratingImage := false;
      }
      pending := pending - {run};
    }

    /** `handleWishlistToggle`: remove the resort if it is wishlisted, add it otherwise. */
    method HandleWishlistToggle(store: Wishlist.WishlistStore)
      modifies store
      ensures store.IsWishlisted(resort.id) == !old(store.IsWishlisted(resort.id))
      ensures old(store.IsWishlisted(resort.id)) ==> store.items == Wishlist.RemovedItems(old(store.items), resort.id)
      ensures !old(store.IsWishlisted(resort.id)) ==> store.items == old(store.items) + [resort]
      ensures old(store.IsWishlisted(resort.id)) ==>
                store.notices == old(store.notices) + [Wishlist.RemovedFromWishlist(old(FindById(store.items, resort.id)).value.name)]
      ensures !old(store.IsWishlisted(resort.id)) ==>
                store.notices == old(store.notices) + [Wishlist.AddedToWishlist(resort.name)]
      ensures store.loaded == old(store.loaded) && store.storage == old(store.storage)
    {
      var wishlisted := store.IsWishlisted(resort.id);
      if wishlisted {
        store.RemoveFromWishlist(resort.id);
      } else {
        store.AddToWishlist(resort);
      }
    }
  }
}
