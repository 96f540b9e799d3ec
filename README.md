# OccasionStays core, modelled in Dafny

OccasionStays is a resort-discovery web application. This project models the
logic at its core and proves properties of that logic:

- the resort catalog and its lookup by id (`Catalog`, over the record types in `ResortTypes`);
- the wishlist hook (`Wishlist`). It keeps an ordered list of resorts keyed by
  id. It restores the list from one local-storage key on mount and writes the
  whole list back after every change. It queues a toast notice for each add,
  each duplicate add, each removal of a present id and each failed write;
- the recommendation server action (`Actions`). It validates the three form
  fields. It calls the text generator once, and only for a valid request. It
  masks a failure's message as "busy" (rate limiting) or "server issue". The
  image action hands the image flow's result through unchanged;
- the home page's transformation of AI recommendations into resort-shaped
  records (`HomePage`): the slug of the name, the price-category mapping, the
  synthetic id and the placeholder image;
- the resort card (`ResortCard`). It chooses its initial image and decides
  whether that image is a placeholder to replace. It builds the image prompt.
  The outcome of the image request drives its display state, guarded by the
  per-run "is mounted" flag. It also has the price badge and the wishlist toggle;
- the image gallery (`ResortImageGallery`): circular previous/next, jumping to a
  slide, the layout for zero, one or many images, and the virtual-tour button.

Stateful parts of the source are Dafny classes whose methods update fields:
- the wishlist hook's state and local storage (`Wishlist.WishlistStore`);
- the card's state (`ResortCard.ResortCardView`);
- the gallery's index (`ImageGallery.ResortImageGallery`).

The pure helpers are functions, with lemmas about them.

Outside effects are parameters:
- the text generator is a function from the validated request to an outcome,
  either `Generated` or `Threw(message)`;
- the image flow is a function from request to result;
- `encodeURIComponent` is a function `encode`;
- whether local storage throws on a read or a write is a boolean argument.

Ratings are integer tenths: 48 stands for 4.8.

Behaviour worth noting:
- Removal filters out every entry with the id, not only the first one. A
  restored list can contain duplicates, and all of them are removed.
- The persist effect also runs right after loading. After a corrupt stored
  value has been replaced by the empty list, that first write stores `[]`
  over the corrupt text (`Persist` after `Load`).
- The price mapping's `default` branch maps any other text to "Mid-range",
  including texts the declared union does not allow.

## Model

| member | source | states |
|---|---|---|
| ResortTypes.FindById | src/lib/hooks/useWishlist.ts:48 | `find` by id: `None` exactly when no entry has the id; otherwise the first entry with it |
| ResortTypes.FindByIdUnique | src/lib/hooks/useWishlist.ts:69 | in a list with unique ids, `find` returns the entry at the position of that id |
| ResortTypes.AnyWithId | src/lib/hooks/useWishlist.ts:83 | `some(item => item.id === id)` holds exactly when some entry has the id |
| Text.StartsWith | src/components/resorts/ResortCard.tsx:34 | `startsWith`: the text begins with the prefix; used by the card's placeholder test and stated through `ResortCard.CatalogCardsStartFromPlaceholders` |
| Text.Includes | src/lib/actions.ts:53 | `includes`, a scan over the positions of the text; `Text.IncludesIffOccurs` ties it to occurrence at some position |
| Text.Join | src/components/resorts/ResortCard.tsx:38 | `join`: the parts with the separator between neighbours; `ResortCard.SuitableForText` states the one- and two-label results |
| Text.Take | src/components/resorts/ResortCard.tsx:38 | `slice(0, n)`: the first `n` parts, or all of them when there are fewer |
| Text.NatToString | src/app/page.tsx:39 | the decimal rendering of an index in the template literal: a non-empty string of digits |
| Text.IncludesIffOccurs | src/lib/actions.ts:53 | the substring test holds exactly when the text occurs at some position |
| Text.ParseNatToString | src/app/page.tsx:39 | the decimal rendering of an index reads back as that index |
| Text.NatToStringInjective | src/app/page.tsx:39 | different indexes render as different decimal strings |
| Catalog.GetResortById | src/lib/data.ts:111-113 | `undefined` exactly when no catalog entry has the id; otherwise the first entry with it |
| Catalog.PlaceholderResorts | src/lib/data.ts:4-105 | `placeholderResorts`: the eight catalog entries in display order; `Catalog.CatalogIds` and the lemmas below state their ids, images and ratings |
| Catalog.CatalogIds | src/lib/data.ts:4-105 | the catalog holds 8 resorts, and the id of entry i is the decimal of i+1 |
| Catalog.CatalogIdsUnique | src/lib/data.ts:4-105 | catalog ids are pairwise distinct |
| Catalog.GetResortByIdFindsEntry | src/lib/data.ts:111-113 | looking up the id of catalog entry k returns entry k |
| Catalog.CatalogImagesNonEmpty | src/lib/data.ts:4-105 | every catalog resort has at least one image |
| Catalog.CatalogImagesOnPlaceholdHost | src/lib/data.ts:4-105 | every catalog image URL starts with the placeholder origin |
| Catalog.CatalogRatingsInRange | src/lib/data.ts:4-105 | catalog ratings lie between 4.2 and 4.9, within the 1-to-5 scale |
| Wishlist.GetItem | src/lib/hooks/useWishlist.ts:17 | `localStorage.getItem`: `null` exactly when nothing is stored under the key, otherwise the value stored there |
| Wishlist.Notice.Title | src/lib/hooks/useWishlist.ts:36-75 | the toast titles: "Already in Wishlist", "Added to Wishlist!", "Removed from Wishlist", "Storage Error" |
| Wishlist.Notice.Description | src/lib/hooks/useWishlist.ts:36-75 | the toast descriptions, naming the resort for the three list notices |
| Wishlist.Notice.Destructive | src/lib/hooks/useWishlist.ts:39 | only the storage-error toast uses the destructive variant |
| Wishlist.AddedItems | src/lib/hooks/useWishlist.ts:47-63 | the add updater; `Wishlist.AddAppendsOrKeeps`, `Wishlist.AddTwice` and `Wishlist.AddKeepsIdsUnique` state what it returns |
| Wishlist.AddNotice | src/lib/hooks/useWishlist.ts:48-62 | the add notice; `Wishlist.AddAppendsOrKeeps` states which one is queued |
| Wishlist.RemoveNotice | src/lib/hooks/useWishlist.ts:69-77 | the removal notice; `Wishlist.RemoveNoticeIffPresent` states when it is queued and whom it names |
| Wishlist.RestoredItems | src/lib/hooks/useWishlist.ts:15-27 | the list after the load effect; `Wishlist.RestoreOnMount` states the result from the first render |
| Wishlist.RemovedItems | src/lib/hooks/useWishlist.ts:78 | the filtered list is no longer than the old one, has no entry with the id, and keeps only old entries |
| Wishlist.AddAppendsOrKeeps | src/lib/hooks/useWishlist.ts:46-65 | the add updater returns the same list when the id is present; otherwise the list with the resort appended; the notice is "already in" or "added" to match |
| Wishlist.AddMakesPresent | src/lib/hooks/useWishlist.ts:46-65 | after an add, the resort's id is wishlisted |
| Wishlist.AddTwice | src/lib/hooks/useWishlist.ts:46-65 | adding is idempotent: a second add of the same resort leaves the list unchanged and reports "already in" |
| Wishlist.RemoveFilters | src/lib/hooks/useWishlist.ts:78 | removal keeps every entry with another id, with the same multiplicity, and drops all with the id |
| Wishlist.RemoveDistributes | src/lib/hooks/useWishlist.ts:78 | removal distributes over concatenation |
| Wishlist.RemoveAbsent | src/lib/hooks/useWishlist.ts:78 | removing an id no entry has leaves the list equal to the old one |
| Wishlist.RemoveMakesAbsent | src/lib/hooks/useWishlist.ts:67-80 | after a removal, the id is not wishlisted |
| Wishlist.AddThenRemove | src/lib/hooks/useWishlist.ts:46-80 | adding a resort whose id is absent and then removing it restores the old list |
| Wishlist.AddKeepsIdsUnique | src/lib/hooks/useWishlist.ts:46-65 | adding preserves unique ids |
| Wishlist.RemoveKeepsIdsUnique | src/lib/hooks/useWishlist.ts:78 | removing preserves unique ids |
| Wishlist.RemoveNoticeIffPresent | src/lib/hooks/useWishlist.ts:69-77 | a "removed" notice is queued exactly when an entry has the id, and it names the first entry with the id |
| Wishlist.RestoreOnMount | src/lib/hooks/useWishlist.ts:15-27 | on mount, restore yields the stored list when the key holds a parsable list, and the empty list when the key is missing, unparsable or unreadable |
| Wishlist.WishlistStore.constructor | src/lib/hooks/useWishlist.ts:11-12 | the first render has an empty list, not loaded, with no notices |
| Wishlist.WishlistStore.IsWishlisted | src/lib/hooks/useWishlist.ts:82-84 | true exactly when some entry has the id |
| Wishlist.WishlistStore.Load | src/lib/hooks/useWishlist.ts:15-27 | the load effect sets `loaded`; the list becomes the restored list for the stored value and read failure; storage and notices are unchanged |
| Wishlist.WishlistStore.Persist | src/lib/hooks/useWishlist.ts:29-44 | once loaded, a write stores the whole list under the key; a failed write leaves storage as it was and queues the destructive storage-error notice; before loading, nothing happens |
| Wishlist.WishlistStore.AddToWishlist | src/lib/hooks/useWishlist.ts:46-65 | a present id keeps the list and queues "already in"; otherwise the resort is appended and "added" is queued; afterwards the id is wishlisted and unique ids are preserved |
| Wishlist.WishlistStore.RemoveFromWishlist | src/lib/hooks/useWishlist.ts:67-80 | the list becomes the filtered list, the id is no longer wishlisted, and unique ids are preserved; "removed" naming the first match is queued exactly when one existed |
| Wishlist.Reopen | src/lib/hooks/useWishlist.ts:15-32 | a fresh hook instance over storage holding a written list loads exactly that list |
| Actions.FieldIssue | src/lib/actions.ts:8-12 | a field passes exactly when it is a string of at least the minimum length; a short string reports the field's own message |
| Actions.OccasionIssue | src/lib/actions.ts:9 | the occasion check: at least one character, with "Occasion must be selected." |
| Actions.PreferencesIssue | src/lib/actions.ts:10 | the preferences check: at least three characters, with the preferences message |
| Actions.BudgetIssue | src/lib/actions.ts:11 | the budget check: at least one character, with "Budget must be selected." |
| Actions.IsValid | src/lib/actions.ts:31-33 | `safeParse` succeeds when no field reports an issue; `Actions.InvalidIffFieldErrors` ties it to the field errors |
| Actions.IsRateLimited | src/lib/actions.ts:53 | the rate-limit test, case-sensitive, on the failure's text; `Actions.RateLimitSignals` states that either phrase anywhere passes it |
| Actions.FieldErrors | src/lib/actions.ts:31-39 | the flattened field errors hold an entry for exactly the failing fields, each with that field's message, and no other key |
| Actions.FailureResponse | src/lib/actions.ts:47-57 | a thrown error gives an unsuccessful response whose error is the busy message when the text mentions "rate limit" or "429", and the server-issue message otherwise |
| Actions.HandleGenerateRecommendations | src/lib/actions.ts:21-58 | an invalid form makes no generator call and returns "Invalid input." with the field errors; a valid form makes exactly one call with the validated fields; success returns its data; a throw returns the classified failure; the response succeeds exactly when the form is valid and the call returned |
| Actions.InvalidIffFieldErrors | src/lib/actions.ts:31-39 | validation fails exactly when the field errors are non-empty |
| Actions.ShortPreferencesRejected | src/lib/actions.ts:10 | preferences shorter than three characters are rejected with the preferences message and no generator call |
| Actions.EmptySelectionRejected | src/lib/actions.ts:9-11 | an empty occasion or budget is rejected with that field's "must be selected" message and no call |
| Actions.FailureMessageMasked | src/lib/actions.ts:47-56 | two failures classified alike give the same response, whatever their messages; the error is always one of the two fixed texts |
| Actions.RateLimitSignals | src/lib/actions.ts:53-55 | a message containing "rate limit" or "429" anywhere is answered with the busy message |
| Actions.GenerateResortImageAction | src/lib/actions.ts:61-67 | the image action returns the flow's result unchanged |
| HomePage.ToLower | src/app/page.tsx:14 | lower-casing keeps the length, leaves no ASCII upper-case letter, and maps each character on its own |
| HomePage.DropWhitespace | src/app/page.tsx:14 | the rest of a whitespace run: a suffix of the text that does not start with whitespace |
| HomePage.DropWhitespaceKeeps | src/app/page.tsx:14 | dropping leading whitespace keeps every other character as often as before |
| HomePage.ReplaceWhitespaceRuns | src/app/page.tsx:14 | the result contains no whitespace, and no upper-case letter where there was none |
| HomePage.ReplaceWhitespaceRunsKeeps | src/app/page.tsx:14 | replacing whitespace runs keeps every character that is neither whitespace nor a dash, as often as before |
| HomePage.RemoveNonWord | src/app/page.tsx:14 | removing non-word characters leaves only letters, digits, `_` and `-`, and no upper-case letter where there was none |
| HomePage.RemoveNonWordKeeps | src/app/page.tsx:14 | removing non-word characters keeps every word character and dash as often as before, and no other character |
| HomePage.ReplaceWhitespaceRunsFixesNonWhite | src/app/page.tsx:14 | a text without whitespace passes through the whitespace step unchanged |
| HomePage.DropWhitespaceRun | src/app/page.tsx:14 | a `\s+` match extends over the whole whitespace run and stops at the next other character |
| HomePage.KeepsNonWhiteHead | src/app/page.tsx:14 | a first character that is not whitespace stays first, and the rest is processed on its own |
| HomePage.KeepsNonWhitePrefix | src/app/page.tsx:14 | a prefix without whitespace is kept in front, in order |
| HomePage.LeadingRunToDash | src/app/page.tsx:14 | a leading whitespace run becomes exactly one dash |
| HomePage.ReplaceWhitespaceRunsAtRun | src/app/page.tsx:14 | each maximal whitespace run becomes one dash in its place, with the text before it kept in order (so "azure haven" gives "azure-haven") |
| HomePage.RemoveNonWordDistributes | src/app/page.tsx:14 | dropping non-word characters works piecewise, so the kept characters keep their order |
| HomePage.Slugify | src/app/page.tsx:14 | a slug consists only of word characters and dashes, with no upper-case letter |
| HomePage.SlugHasNoSpaceOrUpper | src/app/page.tsx:14 | a slug contains no whitespace and no upper-case ASCII letter |
| HomePage.SlugStepsFixSlugs | src/app/page.tsx:14 | every step of the slug pipeline leaves an existing slug unchanged |
| HomePage.SlugifyIdempotent | src/app/page.tsx:14 | slugifying a slug gives the same slug |
| HomePage.MapPriceCategoryToPriceRange | src/app/page.tsx:17-29 | "Luxury" maps to Luxury; "Budget" and "Budget-friendly" map to Budget; every other text maps to Mid-range (both directions) |
| HomePage.MapPriceLabelRoundTrip | src/app/page.tsx:17-29 | the label of each price range maps back to that range |
| HomePage.BudgetOptionsMapExplicitly | src/lib/data.ts:109 | the form's three budget options map to Budget, Mid-range and Luxury |
| HomePage.AiResortId | src/app/page.tsx:39 | the synthetic id `ai-rec-<index>-<slug>`; `HomePage.AiResortIdsDiffer` states that positions decide it |
| HomePage.AiResortIdsDiffer | src/app/page.tsx:39 | recommendations at different positions get different ids, whatever their names |
| HomePage.TransformRecommendations | src/app/page.tsx:36-55 | null stays null; a list becomes records of the same length, each copying its recommendation, with the mapped price range, a synthetic id, a placeholder image of the encoded name and the "#" tour |
| HomePage.ToResort | src/app/page.tsx:38-50 | the record for one recommendation; `HomePage.TransformRecommendations` states every field |
| HomePage.TransformedIdsUnique | src/app/page.tsx:38-39 | the transformed records have pairwise distinct ids |
| HomePage.TransformedImagesArePlaceholders | src/app/page.tsx:42 | each transformed record has one image on the placeholder host with a `?text=` query |
| HomePage.OneRecommendationEndToEnd | src/app/page.tsx:36-55 | a valid Luxury request whose generator returns one recommendation succeeds, and the page turns it into one Luxury record with id "ai-rec-0-" plus the slug of the name |
| ResortCard.InitialImage | src/components/resorts/ResortCard.tsx:26 | the card starts from the first image, or from the "No Image" placeholder when there is none |
| ResortCard.IsPlaceholder | src/components/resorts/ResortCard.tsx:34 | the placeholder test: on the placeholder origin, or carrying a `?text=` query; `ResortCard.NoImageIsPlaceholder` and `ResortCard.CatalogCardsStartFromPlaceholders` state which images pass |
| ResortCard.NoImageIsPlaceholder | src/components/resorts/ResortCard.tsx:26-34 | the "No Image" fallback counts as a placeholder, so an image-less card asks for a generated image |
| ResortCard.CatalogCardsStartFromPlaceholders | src/components/resorts/ResortCard.tsx:34 | every image of every catalog resort is a placeholder, so every catalog card asks for a generated image |
| ResortCard.SuitableForText | src/components/resorts/ResortCard.tsx:38 | no labels give "general travel"; otherwise "good for" followed by the first one or two labels |
| ResortCard.ImageHint | src/components/resorts/ResortCard.tsx:40 | the hint is the resort's own when present and non-empty, else the default; it is never empty |
| ResortCard.ImagePrompt | src/components/resorts/ResortCard.tsx:41 | the image prompt; the three `PromptMentions` lemmas state what it names |
| ResortCard.PromptMentionsName | src/components/resorts/ResortCard.tsx:41 | the image prompt contains the resort's name |
| ResortCard.PromptMentionsLocation | src/components/resorts/ResortCard.tsx:41 | the image prompt contains the resort's location |
| ResortCard.PromptMentionsHint | src/components/resorts/ResortCard.tsx:41 | the image prompt contains the image hint |
| ResortCard.PriceBadgeVariant | src/components/resorts/ResortCard.tsx:130 | Luxury gets the destructive badge, Mid-range the secondary one, Budget the outline one (both directions) |
| ResortCard.Replaces | src/components/resorts/ResortCard.tsx:45 | a resolved result with a non-empty data URI, the only outcome that replaces the image in `Settle` |
| ResortCard.ResortCardView.IsMounted | src/components/resorts/ResortCard.tsx:31-69 | the `isMounted` flag of an effect run: set for the latest run until its cleanup |
| ResortCard.ResortCardView.constructor | src/components/resorts/ResortCard.tsx:26-29 | the first render shows the initial image, is not generating, has not failed and has no request pending |
| ResortCard.ResortCardView.RunEffect | src/components/resorts/ResortCard.tsx:31-66 | a fresh run is mounted; for a placeholder it starts generating, clears the failure, sends the prompt and records the run as pending; otherwise it shows the initial image and stops generating; pending runs stay runs that have started |
| ResortCard.ResortCardView.Cleanup | src/components/resorts/ResortCard.tsx:67-69 | after cleanup no run is mounted, and the display state and pending requests are unchanged |
| ResortCard.ResortCardView.Settle | src/components/resorts/ResortCard.tsx:43-61 | only a pending request settles, and only once; for a mounted run: a non-empty data URI replaces the image, anything else (null, empty, rejection) marks failure, and generating stops; for an unmounted run the display state is unchanged |
| ResortCard.ResortCardView.HandleWishlistToggle | src/components/resorts/ResortCard.tsx:73-80 | the toggle flips whether the resort is wishlisted: a present resort is removed and "removed" naming the first match is queued; an absent one is appended and "added" is queued; the store's loaded flag and storage stay as they were |
| ImageGallery.NextIndex | src/components/resorts/ResortImageGallery.tsx:34-38 | next stays in range and wraps from the last image to the first |
| ImageGallery.PreviousIndex | src/components/resorts/ResortImageGallery.tsx:28-32 | previous stays in range and wraps from the first image to the last |
| ImageGallery.NextPreviousInverse | src/components/resorts/ResortImageGallery.tsx:28-38 | next and previous undo each other |
| ImageGallery.Advance | src/components/resorts/ResortImageGallery.tsx:34-38 | the index after k presses of next; `ImageGallery.AdvanceWraps` states where it lands |
| ImageGallery.AdvanceWraps | src/components/resorts/ResortImageGallery.tsx:34-38 | k presses of next (k at most n) move k places forward, modulo n |
| ImageGallery.AdvanceFullCircle | src/components/resorts/ResortImageGallery.tsx:34-38 | n presses of next return to the starting image |
| ImageGallery.GalleryLayout | src/components/resorts/ResortImageGallery.tsx:20-88 | no images show the "no images" box; arrows and dots appear exactly when there is more than one image |
| ImageGallery.VirtualTour | src/components/resorts/ResortImageGallery.tsx:98-115 | a set URL other than "#" is a live link to it; "#" is a disabled "coming soon" button; no URL shows nothing |
| ImageGallery.ResortImageGallery.constructor | src/components/resorts/ResortImageGallery.tsx:18 | the gallery starts at the first image |
| ImageGallery.ResortImageGallery.GoToPrevious | src/components/resorts/ResortImageGallery.tsx:28-32 | the index becomes the previous index and stays valid |
| ImageGallery.ResortImageGallery.GoToNext | src/components/resorts/ResortImageGallery.tsx:34-38 | the index becomes the next index and stays valid |
| ImageGallery.ResortImageGallery.GoToSlide | src/components/resorts/ResortImageGallery.tsx:40-42 | the index becomes the chosen slide |

## Left out

- JSON: `Serialized(items)` stands for any stored text that `JSON.parse` turns into the list `items`, including the text `JSON.stringify` writes. `Unparsable(raw)` stands for a text on which `JSON.parse` throws. Stored JSON that parses to something other than a list of resorts is not modelled.
- `encodeURIComponent`, the text-recommendation flow and the image-generation flow are function parameters. Their internals (prompting, the model call, the flow's own error handling) are not part of this model.
- Toast timing: each notice the hook schedules with `setTimeout(…, 0)` is appended to `notices` at the call. When toasts appear on screen is not modelled.
- React scheduling: the load and persist effects, and each run of a card's image effect, are separate methods for a caller to sequence. React's choice of when an effect re-runs is not modelled. For example, a duplicate add returns the same array, so React skips that persist.
- Concurrency: a card's pending image requests may settle in any order, each once, and its `isMounted` flag is modelled per effect run. Interleavings of the recommendation request with other events, and several hook instances writing the same key, are not modelled.
- The card's `onError` handler on the image element is left out. It refers to a variable that is not in its scope.
- Ratings: they are integer tenths. Floating point and the one-decimal display are not modelled.
- HomePage.ToLower: maps only ASCII letters. JavaScript's full Unicode case mapping (for example U+0130 or U+212A) is not modelled.
- Actions.FieldIssue: counts a string's length in code points, while the schema counts UTF-16 code units, so characters outside the Basic Multilingual Plane count once here. A form entry that is a file instead of a string is not modelled; a missing entry is (`None`).
- ImageGallery.ResortImageGallery.GoToSlide: requires an index within the images, because its only caller is the dot of a slide, one dot per image.
- The option lists `occasions`, `preferencesList` and `budgetOptions` are constants with no contract of their own; `HomePage.BudgetOptionsMapExplicitly` states what the budget options map to.
- The theme provider, header, footer, the recommendation form and results, the resort list, the resort and wishlist pages and the booking pages only render state, so they are not part of this model. The same goes for the server's console logging.
