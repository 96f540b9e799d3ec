/** The static resort catalog and the option lists of the recommendation form. */
module Catalog {
  import opened ResortTypes
  import opened Text

  /** Every catalog image is served by this placeholder host. */
  const PlaceholdOrigin := "https://placehold.co"

  const AzureHavenResort := Resort(
    "1",
    "Azure Haven Resort",
    "A tranquil paradise perfect for romantic getaways, featuring private beaches and world-class spa services. Enjoy breathtaking ocean views from your luxurious villa.",
    [ PlaceholdOrigin + "/800x600.png?txt=Azure+Haven+Resort+Image+1&resort=azure&img=1",
      PlaceholdOrigin + "/800x600.png?txt=Azure+Haven+Resort+Image+2&resort=azure&img=2",
      PlaceholdOrigin + "/800x600.png?txt=Azure+Haven+Resort+Image+3&resort=azure&img=3" ],
    ["Private Beach", "Spa", "Fine Dining", "Infinity Pool", "WiFi", "Fitness Center"],
    Luxury,
    ["Honeymoon", "Couples", "Relaxation", "Luxury Travel"],
    "Maldives",
    48,
    Some("#"),
    Some("tropical beach sunset"))

  const PinePeakLodge := Resort(
    "2",
    "Pine Peak Lodge",
    "Nestled in the mountains, this cozy lodge offers stunning views and outdoor activities like hiking and skiing. Perfect for family adventures and nature lovers.",
    [ PlaceholdOrigin + "/800x600.png?txt=Pine+Peak+Lodge+Image+1&resort=pinepeak&img=1",
      PlaceholdOrigin + "/800x600.png?txt=Pine+Peak+Lodge+Image+2&resort=pinepeak&img=2",
      PlaceholdOrigin + "/800x600.png?txt=Pine+Peak+Lodge+Image+3&resort=pinepeak&img=3" ],
    ["Mountain Views", "Hiking Trails", "Ski Access", "Fireplace Lounge", "Restaurant", "Pet-friendly"],
    MidRange,
    ["Family Vacation", "Adventure", "Nature Lovers", "Ski Trip"],
    "Aspen, Colorado",
    45,
    None,
    Some("snowy mountain cabin"))

  const UrbanOasisSuites := Resort(
    "3",
    "Urban Oasis Suites",
    "Experience the city in style at Urban Oasis Suites. Located downtown, with easy access to attractions, shopping, and nightlife. Rooftop pool and bar.",
    [ PlaceholdOrigin + "/800x600.png?txt=Urban+Oasis+Suites+Image+1&resort=urbanoasis&img=1",
      PlaceholdOrigin + "/800x600.png?txt=Urban+Oasis+Suites+Image+2&resort=urbanoasis&img=2",
      PlaceholdOrigin + "/800x600.png?txt=Urban+Oasis+Suites+Image+3&resort=urbanoasis&img=3" ],
    ["Rooftop Pool", "City Views", "Bar", "Gym", "Concierge", "Business Center"],
    MidRange,
    ["Business Travel", "City Break", "Nightlife", "Shopping"],
    "New York City",
    42,
    None,
    Some("modern city building"))

  const CoralCoveInn := Resort(
    "4",
    "Coral Cove Inn",
    "A charming beachfront inn offering a relaxed atmosphere, vibrant coral reefs for snorkeling, and fresh local seafood. Ideal for a laid-back tropical escape.",
    [ PlaceholdOrigin + "/800x600.png?txt=Coral+Cove+Inn+1&resort=coralcove&img=1",
      PlaceholdOrigin + "/800x600.png?txt=Coral+Cove+Inn+2&resort=coralcove&img=2" ],
    ["Beach Access", "Snorkeling", "Restaurant", "Hammocks", "WiFi"],
    Budget,
    ["Beach Lovers", "Snorkeling", "Budget Travel", "Relaxation"],
    "Belize",
    43,
    Some("#"),
    Some("coral reef underwater"))

  const EmeraldForestRetreat := Resort(
    "5",
    "Emerald Forest Retreat",
    "Secluded cabins deep in the rainforest, offering tranquility, wildlife spotting, and guided nature walks. An immersive eco-friendly experience.",
    [ PlaceholdOrigin + "/800x600.png?txt=Emerald+Forest+1&resort=emerald&img=1",
      PlaceholdOrigin + "/800x600.png?txt=Emerald+Forest+2&resort=emerald&img=2" ],
    ["Rainforest Setting", "Wildlife Tours", "Eco-Friendly", "Private Cabins", "Yoga Deck"],
    MidRange,
    ["Nature Lovers", "Eco-Tourism", "Wellness", "Adventure", "Digital Detox"],
    "Costa Rica",
    47,
    None,
    Some("lush rainforest canopy"))

  const DesertMirageResortSpa := Resort(
    "6",
    "Desert Mirage Resort & Spa",
    "An opulent oasis in the heart of the desert. Features expansive pools, a luxurious spa, gourmet dining, and stargazing tours.",
    [ PlaceholdOrigin + "/800x600.png?txt=Desert+Mirage+1&resort=desertmirage&img=1",
      PlaceholdOrigin + "/800x600.png?txt=Desert+Mirage+2&resort=desertmirage&img=2" ],
    ["Desert Landscape", "Luxury Spa", "Multiple Pools", "Gourmet Restaurants", "Stargazing", "Golf Course Access"],
    Luxury,
    ["Luxury Travel", "Spa Getaway", "Relaxation", "Golfers"],
    "Dubai, UAE",
    49,
    Some("#"),
    Some("desert oasis night"))

  const TheCozyCornerBB := Resort(
    "7",
    "The Cozy Corner B&B",
    "A delightful bed and breakfast in a historic town, known for its homemade breakfasts, charming rooms, and friendly hosts. Explore antique shops and local history.",
    [ PlaceholdOrigin + "/800x600.png?txt=Cozy+Corner+1&resort=cozycorner&img=1" ],
    ["Historic Building", "Homemade Breakfast", "Garden", "Free WiFi", "Personalized Service"],
    Budget,
    ["Couples", "Historic Exploration", "Weekend Getaway", "Quiet Retreat"],
    "Savannah, Georgia",
    46,
    None,
    Some("historic town street"))

  const ArcticAuroraLodge := Resort(
    "8",
    "Arctic Aurora Lodge",
    "Experience the magic of the Northern Lights from this unique lodge. Offers glass-roofed igloos, husky sledding, and snowmobiling adventures.",
    [ PlaceholdOrigin + "/800x600.png?txt=Arctic+Aurora+1&resort=arctic&img=1",
      PlaceholdOrigin + "/800x600.png?txt=Arctic+Aurora+2&resort=arctic&img=2" ],
    ["Aurora Viewing", "Glass Igloos", "Husky Sledding", "Snowmobiling", "Sauna", "Restaurant"],
    Luxury,
    ["Adventure Travel", "Northern Lights", "Unique Experience", "Winter Holiday"],
    "Lapland, Finland",
    48,
    Some("#"),
    Some("northern lights sky"))

  /** `placeholderResorts`: the fixed, read-only catalog, in display order. */
  function PlaceholderResorts(): (r: seq<Resort>)
    ensures |r| == 8
  {
    [AzureHavenResort, PinePeakLodge, UrbanOasisSuites, CoralCoveInn,
     EmeraldForestRetreat, DesertMirageResortSpa, TheCozyCornerBB, ArcticAuroraLodge]
  }

  /** `occasions`: the choices of the form's occasion field. */
  const Occasions: seq<string> := ["Honeymoon", "Family Vacation", "Business Trip", "Adventure Travel",
    "Relaxation Getaway", "Weekend Break", "Cultural Exploration", "Luxury Escape", "Budget Holiday"]

  /** `preferencesList`: suggestions for the free-text preferences field. */
  const PreferencesList: seq<string> := ["Beachfront", "Spa", "All-inclusive", "Kid-friendly activities",
    "Adults-only", "Pet-friendly", "Hiking trails", "Ski-in/ski-out", "City center", "Quiet and secluded",
    "Pool", "Gym", "Fine dining", "Good WiFi"]

  /** `budgetOptions`: the choices of the form's budget field. */
  const BudgetOptions: seq<string> := ["Budget-friendly", "Mid-range", "Luxury"]

  /**
    * `getResortById`: the first catalog entry with the given id, or `None`
    * (the page's not-found outcome) when no entry has it.
    */
  function GetResortById(id: string): (r: Option<Resort>)
    ensures r.None? <==> forall i :: 0 <= i < |PlaceholderResorts()| ==> PlaceholderResorts()[i].id != id
    ensures r.Some? ==> exists i :: 0 <= i < |PlaceholderResorts()| && PlaceholderResorts()[i] == r.value &&
                                    r.value.id == id &&
                                    forall j :: 0 <= j < i ==> PlaceholderResorts()[j].id != id
  {
    FindById(PlaceholderResorts(), id)
  }

  /** The catalog ids are "1" to "8", in order. */
  lemma CatalogIds()
    ensures |PlaceholderResorts()| == 8
    ensures forall i :: 0 <= i < |PlaceholderResorts()| ==> PlaceholderResorts()[i].id == NatToString(i + 1)
  {
  }

  /** No two catalog entries share an id. */
  lemma CatalogIdsUnique()
    ensures UniqueIds(PlaceholderResorts())
  {
    CatalogIds();
    forall i, j | 0 <= i < j < |PlaceholderResorts()|
      ensures PlaceholderResorts()[i].id != PlaceholderResorts()[j].id
    {
      ParseNatToString(i + 1);
      ParseNatToString(j + 1);
    }
  }

  /** Looking up the id of any catalog entry finds exactly that entry. */
  lemma GetResortByIdFindsEntry(k: nat)
    requires k < |PlaceholderResorts()|
    ensures GetResortById(PlaceholderResorts()[k].id) == Some(PlaceholderResorts()[k])
  {
    CatalogIdsUnique();
    FindByIdUnique(PlaceholderResorts(), k);
  }

  /** Every catalog entry has at least one image. */
  lemma CatalogImagesNonEmpty()
    ensures forall i :: 0 <= i < |PlaceholderResorts()| ==> |PlaceholderResorts()[i].images| > 0
  {
  }

  /** Every catalog image URL starts with the placeholder host. */
  lemma CatalogImagesOnPlaceholdHost()
    ensures forall i, k :: 0 <= i < |PlaceholderResorts()| && 0 <= k < |PlaceholderResorts()[i].images| ==>
              StartsWith(PlaceholderResorts()[i].images[k], PlaceholdOrigin)
  {
    forall i, k | 0 <= i < |PlaceholderResorts()| && 0 <= k < |PlaceholderResorts()[i].images|
      ensures StartsWith(PlaceholderResorts()[i].images[k], PlaceholdOrigin)
    {
      var url := PlaceholderResorts()[i].images[k];
      assert url[..|PlaceholdOrigin|] == PlaceholdOrigin;
    }
  }

  /** Every catalog rating lies between 4.2 and 4.9 stars, so within the 1 to 5 scale. */
  lemma CatalogRatingsInRange()
    ensures forall i :: 0 <= i < |PlaceholderResorts()| ==> 42 <= PlaceholderResorts()[i].rating <= 49
    ensures forall i :: 0 <= i < |PlaceholderResorts()| ==> 10 <= PlaceholderResorts()[i].rating <= 50
  {
  }
}
