/**
  * The records the application passes around: catalog resorts and the
  * recommendations the text generator returns, and the two list queries
  * (`find` and `some` by id) that the catalog and the wishlist share.
  */
module ResortTypes {

  datatype Option<T> = None | Some(value: T)

  /** `Resort['priceRange']` */
  datatype PriceRange = Budget | MidRange | Luxury

  /** The label a price range is written with. */
  function PriceRangeLabel(p: PriceRange): string
  {
    match p
    case Budget => "Budget"
    case MidRange => "Mid-range"
    case Luxury => "Luxury"
  }

  /**
    * A resort. `rating` is in tenths of a star (48 stands for 4.8); the two
    * optional fields are `None` where the record leaves them out.
    */
  datatype Resort = Resort(
    id: string,
    name: string,
    description: string,
    images: seq<string>,
    amenities: seq<string>,
    priceRange: PriceRange,
    suitableFor: seq<string>,
    location: string,
    rating: int,
    virtualTourUrl: Option<string>,
    defaultImageAiHint: Option<string>)

  /**
    * One recommendation of the text generator. `priceCategory` is kept as the
    * generator's text, since values outside the four declared labels reach
    * the price mapping too; `estimatedRating` is in tenths of a star.
    */
  datatype AIRecommendation = AIRecommendation(
    resortName: string,
    description: string,
    location: string,
    priceCategory: string,
    estimatedRating: int,
    keyAmenities: seq<string>,
    suitableForSuggestions: seq<string>,
    imagePromptHint: string)

  /** Some entry of `items` has the id `id`. */
  ghost predicate HasId(items: seq<Resort>, id: string)
  {
    exists i :: 0 <= i < |items| && items[i].id == id
  }

  /** No two entries of `items` share an id. */
  ghost predicate UniqueIds(items: seq<Resort>)
  {
    forall i, j :: 0 <= i < j < |items| ==> items[i].id != items[j].id
  }

  /**
    * `items.find(item => item.id === id)`: the first entry with that id, or
    * `None` when there is none.
    */
  function FindById(items: seq<Resort>, id: string): (r: Option<Resort>)
    ensures r.None? <==> !HasId(items, id)
    ensures r.Some? ==> exists i :: 0 <= i < |items| && items[i] == r.value && items[i].id == id &&
                                    forall j :: 0 <= j < i ==> items[j].id != id
  {
    if |items| == 0 then None
    else if items[0].id == id then Some(items[0])
    else
      var r := FindById(items[1..], id);
      assert HasId(items, id) ==> HasId(items[1..], id) by {
        if HasId(items, id) {
          var i :| 0 <= i < |items| && items[i].id == id;
          assert items[1..][i - 1].id == id;
        }
      }
      assert r.Some? ==> exists i :: 0 <= i < |items| && items[i] == r.value && items[i].id == id &&
                                      forall j :: 0 <= j < i ==> items[j].id != id by {
        if r.Some? {
          var i :| 0 <= i < |items[1..]| && items[1..][i] == r.value && items[1..][i].id == id &&
                   forall j :: 0 <= j < i ==> items[1..][j].id != id;
          assert items[i + 1] == r.value;
          assert forall j :: 0 <= j < i + 1 ==> items[j].id != id by {
            forall j | 0 <= j < i + 1 ensures items[j].id != id {
              if j > 0 { assert items[j] == items[1..][j - 1]; }
            }
          }
        }
      }
      r
  }

  /** When ids are unique, the entry `find` returns is the only one with that id. */
  lemma FindByIdUnique(items: seq<Resort>, k: nat)
    requires UniqueIds(items) && k < |items|
    ensures FindById(items, items[k].id) == Some(items[k])
  {
  }

  /** `items.some(item => item.id === id)`, scanning from the front. */
  function AnyWithId(items: seq<Resort>, id: string): (b: bool)
    ensures b <==> HasId(items, id)
  {
    if |items| == 0 then false
    else if items[0].id == id then true
    else
      assert HasId(items[1..], id) ==> HasId(items, id) by {
        if HasId(items[1..], id) {
          var i :| 0 <= i < |items[1..]| && items[1..][i].id == id;
          assert items[i + 1].id == id;
        }
      }
      assert HasId(items, id) ==> HasId(items[1..], id) by {
        if HasId(items, id) {
          var i :| 0 <= i < |items| && items[i].id == id;
          assert items[1..][i - 1].id == id;
        }
      }
      AnyWithId(items[1..], id)
  }
}
