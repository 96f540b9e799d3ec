/**
  * The wishlist hook: an ordered list of resorts keyed by id, restored from and
  * written back to one key of the browser's local storage, with a notice queued
  * for the user on every change.
  */
module Wishlist {
  import opened ResortTypes
  import Sequences

  /** The local-storage key the wishlist is kept under. */
  const WishlistStorageKey := "occasionStaysWishlist"

  /**
    * What local storage holds under a key: the serialised form of a list of
    * resorts, or some other text that does not parse as one.
    */
  datatype StoredValue = Serialized(items: seq<Resort>) | Unparsable(raw: string)

  /** `localStorage.getItem(key)`: the value under `key`, or `None` (null) when there is none. */
  function GetItem(storage: map<string, StoredValue>, key: string): (r: Option<StoredValue>)
    ensures r.None? <==> key !in storage
    ensures r.Some? ==> key in storage && r.value == storage[key]
  {
    if key in storage then Some(storage[key]) else None
  }

  /** A toast the hook queues for the user. */
  datatype Notice =
    | AlreadyInWishlist(name: string)
    | AddedToWishlist(name: string)
    | RemovedFromWishlist(name: string)
    | StorageError
  {
    function Title(): string
    {
      match this
      case AlreadyInWishlist(_) => "Already in Wishlist"
      case AddedToWishlist(_) => "Added to Wishlist!"
      case RemovedFromWishlist(_) => "Removed from Wishlist"
      case StorageError => "Storage Error"
    }

    function Description(): string
    {
      match this
      case AlreadyInWishlist(n) => n + " is already in your wishlist."
      case AddedToWishlist(n) => n + " has been added to your wishlist."
      case RemovedFromWishlist(n) => n + " has been removed from your wishlist."
      case StorageError => "Could not save your wishlist. Your browser's local storage might be full or disabled."
    }

    /** Only the storage failure is shown in the destructive style. */
    predicate Destructive()
    {
      StorageError?
    }
  }

  // ---------------------------------------------------------------------------
  // The list updaters passed to `setWishlistItems`, as functions of the old list
  // ---------------------------------------------------------------------------

  /** The updater of `addToWishlist`: the list unchanged if the id is there, else `resort` appended. */
  function AddedItems(items: seq<Resort>, resort: Resort): seq<Resort>
  {
    if FindById(items, resort.id).Some? then items else items + [resort]
  }

  /** The notice `addToWishlist` queues. */
  function AddNotice(items: seq<Resort>, resort: Resort): Notice
  {
    if FindById(items, resort.id).Some? then AlreadyInWishlist(resort.name) else AddedToWishlist(resort.name)
  }

  /** The updater of `removeFromWishlist`: `items.filter(item => item.id !== id)`. */
  function RemovedItems(items: seq<Resort>, id: string): (r: seq<Resort>)
    ensures |r| <= |items|
    ensures forall k :: 0 <= k < |r| ==> r[k].id != id
    ensures forall k :: 0 <= k < |r| ==> r[k] in items
  {
    if |items| == 0 then []
    else if items[0].id == id then RemovedItems(items[1..], id)
    else [items[0]] + RemovedItems(items[1..], id)
  }

  /** The notice `removeFromWishlist` queues, if any: one naming the first entry with that id. */
  function RemoveNotice(items: seq<Resort>, id: string): Option<Notice>
  {
    match FindById(items, id)
    case Some(found) => Some(RemovedFromWishlist(found.name))
    case None => None
  }

  // ---------------------------------------------------------------------------
  // Properties of the updaters
  // ---------------------------------------------------------------------------

  /** Adding an absent id appends the resort at the end; a present id changes nothing. */
  lemma AddAppendsOrKeeps(items: seq<Resort>, resort: Resort)
    ensures !HasId(items, resort.id) ==>
              AddedItems(items, resort) == items + [resort] &&
              AddNotice(items, resort) == AddedToWishlist(resort.name)
    ensures HasId(items, resort.id) ==>
              AddedItems(items, resort) == items &&
              AddNotice(items, resort) == AlreadyInWishlist(resort.name)
  {
  }

  /** After an add, the id is in the list. */
  lemma AddMakesPresent(items: seq<Resort>, resort: Resort)
    ensures HasId(AddedItems(items, resort), resort.id)
  {
    if !HasId(items, resort.id) {
      assert AddedItems(items, resort)[|items|] == resort;
    }
  }

  /** Adding the same resort twice is the same as adding it once, and the second add says so. */
  lemma AddTwice(items: seq<Resort>, resort: Resort)
    ensures AddedItems(AddedItems(items, resort), resort) == AddedItems(items, resort)
    ensures AddNotice(AddedItems(items, resort), resort) == AlreadyInWishlist(resort.name)
  {
    AddMakesPresent(items, resort);
  }

  /** Removing keeps exactly the entries with another id, each as often as before. */
  lemma {:induction false} RemoveFilters(items: seq<Resort>, id: string, x: Resort)
    ensures multiset(RemovedItems(items, id))[x] == if x.id == id then 0 else multiset(items)[x]
  {
    if |items| > 0 {
      RemoveFilters(items[1..], id, x);
      Sequences.CountHead(items, x);
      if items[0].id != id {
        var kept := RemovedItems(items, id);
        assert kept == [items[0]] + RemovedItems(items[1..], id);
        assert kept[1..] == RemovedItems(items[1..], id);
        Sequences.CountHead(kept, x);
      }
    }
  }

  /** Removing works piecewise, so the kept entries stay in their relative order. */
  lemma {:induction false} RemoveDistributes(a: seq<Resort>, b: seq<Resort>, id: string)
    ensures RemovedItems(a + b, id) == RemovedItems(a, id) + RemovedItems(b, id)
  {
    if |a| > 0 {
      RemoveDistributes(a[1..], b, id);
      assert (a + b)[0] == a[0];
      assert (a + b)[1..] == a[1..] + b;
    } else {
      assert a + b == b;
    }
  }

  /** Removing an id that is absent returns the list unchanged. */
  lemma {:induction false} RemoveAbsent(items: seq<Resort>, id: string)
    requires !HasId(items, id)
    ensures RemovedItems(items, id) == items
  {
    if |items| > 0 {
      RemoveAbsent(items[1..], id);
      assert items == [items[0]] + items[1..];
    }
  }

  /** After a remove, the id is no longer in the list. */
  lemma RemoveMakesAbsent(items: seq<Resort>, id: string)
    ensures !HasId(RemovedItems(items, id), id)
  {
  }

  /** Adding a resort whose id is absent and then removing that id restores the list. */
  lemma AddThenRemove(items: seq<Resort>, resort: Resort)
    requires !HasId(items, resort.id)
    ensures RemovedItems(AddedItems(items, resort), resort.id) == items
  {
    RemoveDistributes(items, [resort], resort.id);
    RemoveAbsent(items, resort.id);
  }

  /** Adding keeps the ids unique. */
  lemma AddKeepsIdsUnique(items: seq<Resort>, resort: Resort)
    requires UniqueIds(items)
    ensures UniqueIds(AddedItems(items, resort))
  {
  }

  /** Removing keeps the ids unique. */
  lemma {:induction false} RemoveKeepsIdsUnique(items: seq<Resort>, id: string)
    requires UniqueIds(items)
    ensures UniqueIds(RemovedItems(items, id))
  {
    if |items| > 0 {
      RemoveKeepsIdsUnique(items[1..], id);
      var rest := RemovedItems(items[1..], id);
      forall k | 0 <= k < |rest| ensures rest[k].id != items[0].id {
        var j :| 0 <= j < |items[1..]| && items[1..][j] == rest[k];
        assert items[j + 1] == rest[k];
      }
    }
  }

  /** A removal notice is queued exactly when the id was present, and it names the first entry with the id. */
  lemma RemoveNoticeIffPresent(items: seq<Resort>, id: string)
    ensures RemoveNotice(items, id).Some? <==> HasId(items, id)
    ensures HasId(items, id) ==>
              exists i :: 0 <= i < |items| && items[i].id == id && (forall j :: 0 <= j < i ==> items[j].id != id) &&
                          RemoveNotice(items, id) == Some(RemovedFromWishlist(items[i].name))
  {
  }

  /**
    * Restoring on mount: the stored list when storage can be read and the key
    * holds a serialised list; the current list when the key is missing or holds
    * the empty string (both falsy); the empty list when reading or parsing fails.
    */
  function RestoredItems(current: seq<Resort>, stored: Option<StoredValue>, readFails: bool): seq<Resort>
  {
    if readFails then []
    else match stored
      case None => current
      case Some(Unparsable(raw)) => if raw == "" then current else []
      case Some(Serialized(saved)) => saved
  }

  /** On mount, when the list is still empty, restoring yields the saved list or nothing. */
  lemma RestoreOnMount(stored: Option<StoredValue>, readFails: bool)
    ensures RestoredItems([], stored, readFails) ==
              if !readFails && stored.Some? && stored.value.Serialized? then stored.value.items else []
  {
  }

  // ---------------------------------------------------------------------------
  // The hook's state
  // ---------------------------------------------------------------------------

  /**
    * One instance of the hook. `items` and `loaded` are its React state,
    * `notices` the toasts it has queued so far, and `storage` the browser's
    * local storage, key by key.
    */
  class WishlistStore {
    var items: seq<Resort>
    var loaded: bool
    var notices: seq<Notice>
    var storage: map<string, StoredValue>

    /** The first render: an empty list, not yet loaded, over the existing storage. */
    constructor (existing: map<string, StoredValue>)
      ensures items == [] && !loaded && notices == [] && storage == existing
    {
      items := [];
      loaded := false;
      notices := [];
      storage := existing;
    }

    /** `isWishlisted(id)`: whether some entry has that id. */
    function IsWishlisted(id: string): (b: bool)
      reads this
      ensures b <==> exists i :: 0 <= i < |items| && items[i].id == id
    {
      AnyWithId(items, id)
    }

    /**
      * The load effect. `readFails` says whether `localStorage.getItem`
      * throws; a stored text that is not a serialised list makes the parse throw.
      */
    method Load(readFails: bool)
      modifies this
      ensures loaded
      ensures items == RestoredItems(old(items), GetItem(old(storage), WishlistStorageKey), readFails)
      ensures storage == old(storage) && notices == old(notices)
    {
      if readFails {
        items := [];
      } else {
        var stored := GetItem(storage, WishlistStorageKey);
        match stored
        case None =>
        case Some(Serialized(saved)) =>
          items := saved;
        case Some(Unparsable(raw)) =>
          if raw != "" {
            items := [];
          }
      }
      loaded := true;
    }

    /**
      * The persist effect: once loaded, the whole list is written under the key.
      * `writeFails` says whether `localStorage.setItem` throws (quota exceeded,
      * storage disabled); then storage keeps its old value, the list is untouched
      * and a storage-error notice is queued.
      */
    method Persist(writeFails: bool)
      modifies this
      ensures items == old(items) && loaded == old(loaded)
      ensures !old(loaded) ==> storage == old(storage) && notices == old(notices)
      ensures old(loaded) && !writeFails ==>
                storage == old(storage)[WishlistStorageKey := Serialized(items)] && notices == old(notices)
      ensures old(loaded) && writeFails ==>
                storage == old(storage) && notices == old(notices) + [StorageError]
    {
      if loaded {
        if writeFails {
          notices := notices + [StorageError];
        } else {
          storage := storage[WishlistStorageKey := Serialized(items)];
        }
      }
    }

    /** `addToWishlist(resort)` */
    method AddToWishlist(resort: Resort)
      modifies this
      ensures old(IsWishlisted(resort.id)) ==>
                items == old(items) && notices == old(notices) + [AlreadyInWishlist(resort.name)]
      ensures !old(IsWishlisted(resort.id)) ==>
                items == old(items) + [resort] && notices == old(notices) + [AddedToWishlist(resort.name)]
      ensures IsWishlisted(resort.id)
      ensures old(UniqueIds(items)) ==> UniqueIds(items)
      ensures loaded == old(loaded) && storage == old(storage)
    {
      AddMakesPresent(items, resort);
      if UniqueIds(items) {
        AddKeepsIdsUnique(items, resort);
      }
      var existing := FindById(items, resort.id);
      if existing.Some? {
        notices := notices + [AlreadyInWishlist(resort.name)];
      } else {
        notices := notices + [AddedToWishlist(resort.name)];
        items := items + [resort];
      }
    }

    /** `removeFromWishlist(id)` */
    method RemoveFromWishlist(id: string)
      modifies this
      ensures items == RemovedItems(old(items), id)
      ensures !IsWishlisted(id)
      ensures old(UniqueIds(items)) ==> UniqueIds(items)
      ensures old(FindById(items, id)).Some? ==>
                notices == old(notices) + [RemovedFromWishlist(old(FindById(items, id)).value.name)]
      ensures old(FindById(items, id)).None? ==> items == old(items) && notices == old(notices)
      ensures loaded == old(loaded) && storage == old(storage)
    {
      RemoveMakesAbsent(items, id);
      if UniqueIds(items) {
        RemoveKeepsIdsUnique(items, id);
      }
      var toRemove := FindById(items, id);
      if toRemove.Some? {
        notices := notices + [RemovedFromWishlist(toRemove.value.name)];
      } else {
        RemoveAbsent(items, id);
      }
      items := RemovedItems(items, id);
    }
  }

  /**
    * A list written by one instance is what a later instance restores: a fresh
    * store over the written storage loads the same items.
    */
  method Reopen(written: WishlistStore) returns (reopened: WishlistStore)
    ensures fresh(reopened)
    ensures WishlistStorageKey in written.storage && written.storage[WishlistStorageKey] == Serialized(written.items) ==>
              reopened.items == written.items
  {
    reopened := new WishlistStore(written.storage);
    reopened.Load(false);
  }
}
