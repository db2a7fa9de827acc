/**
 * The listing card (src/components/property/PropertyCard.tsx): the image it
 * shows, the "new" badge, and the save button backed by the browser's
 * `savedProperties` list, which every card on the page shares.
 */
module PropertyCard {
  import opened Common
  import opened PropertyTypes

  /** `images.find(img => img.isPrimary) || images[0]`; `None` is `undefined`. */
  function PrimaryImage(images: seq<PropertyImage>): (r: Option<PropertyImage>)
    ensures r.None? <==> images == []
    ensures r.Some? ==> r.value in images
    ensures r.Some? && r.value.isPrimary ==> exists i :: 0 <= i < |images| && images[i] == r.value && forall j :: 0 <= j < i ==> !images[j].isPrimary
    ensures r.Some? && !r.value.isPrimary ==> r.value == images[0] && forall img :: img in images ==> !img.isPrimary
  {
    if images == [] then None
    else if images[0].isPrimary then Some(images[0])
    else
      var rest := PrimaryImage(images[1..]);
      if rest.Some? && rest.value.isPrimary then
        var i :| 0 <= i < |images[1..]| && images[1..][i] == rest.value && forall j :: 0 <= j < i ==> !images[1..][j].isPrimary;
        assert images[i + 1] == rest.value;
        rest
      else
        Some(images[0])
  }

  const MsPerDay: int := 1000 * 60 * 60 * 24

  /**
   * The "new" badge: the whole days since `createdAt` (rounded down) are at
   * most seven, which is an age below eight days; listings dated in the
   * future count as new.
   */
  function IsNew(now: int, createdAt: int): (r: bool)
    ensures r <==> now - createdAt < 8 * MsPerDay
  {
    var elapsed := now - createdAt;
    var days := elapsed / MsPerDay;
    assert elapsed == days * MsPerDay + elapsed % MsPerDay;
    days <= 7
  }

  /** `getSavedStatus`: false while rendering without a browser, else membership of the saved list. */
  function SavedStatus(inBrowser: bool, saved: seq<string>, id: string): (r: bool)
    ensures r ==> id in saved
    ensures !inBrowser ==> !r
  {
    inBrowser && id in saved
  }

  /**
   * One click on the save button, as a new flag and a new saved list: a
   * saved card drops every copy of its id and keeps the rest in order, an
   * unsaved one appends it.
   */
  function SaveClick(isSaved: bool, saved: seq<string>, id: string): (r: (bool, seq<string>))
    ensures r.0 == !isSaved
    ensures isSaved ==> id !in r.1 && forall x :: x != id ==> (x in r.1 <==> x in saved)
    ensures isSaved ==> r.1 == Filter(saved, Unequal(id))
    ensures !isSaved ==> r.1 == saved + [id]
  {
    if isSaved then (false, RemoveAll(saved, id)) else (true, saved + [id])
  }

  /** The card's flag agrees with the stored list. */
  predicate Consistent(isSaved: bool, saved: seq<string>, id: string) {
    isSaved <==> id in saved
  }

  lemma InitialStatusConsistent(saved: seq<string>, id: string)
    ensures Consistent(SavedStatus(true, saved, id), saved, id)
  {
  }

  /** A click keeps the flag and the list in agreement, and a duplicate-free list duplicate-free. */
  lemma SaveClickKeepsConsistent(isSaved: bool, saved: seq<string>, id: string)
    requires Consistent(isSaved, saved, id)
    ensures var r := SaveClick(isSaved, saved, id); Consistent(r.0, r.1, id)
    ensures NoDup(saved) ==> NoDup(SaveClick(isSaved, saved, id).1)
  {
    if NoDup(saved) {
      ToggleNoDup(saved, id);
    }
  }

  /** Saving and then unsaving gives back the list as it was. */
  lemma SaveThenUnsaveRestores(saved: seq<string>, id: string)
    requires id !in saved
    ensures var r := SaveClick(false, saved, id); SaveClick(r.0, r.1, id) == (false, saved)
  {
    RemoveAllAppend(saved, id);
  }

  /** A click on another card leaves this card's membership alone. */
  lemma OtherCardKeepsStatus(isSaved: bool, saved: seq<string>, other: string, id: string)
    requires other != id
    ensures id in SaveClick(isSaved, saved, other).1 <==> id in saved
  {
  }

  /** An unsaved card whose id is already stored (a stale flag) stores it a second time. */
  lemma StaleFlagDuplicates(saved: seq<string>, id: string)
    requires id in saved
    ensures !NoDup(SaveClick(false, saved, id).1)
  {
    var r := saved + [id];
    var i :| 0 <= i < |saved| && saved[i] == id;
    assert r[i] == r[|saved|];
  }

  /** The browser's `savedProperties` entry; `None` when it is absent. */
  class SavedStorage {
    var stored: Option<seq<string>>

    /** `JSON.parse(getItem("savedProperties") || "[]")` */
    function Saved(): seq<string>
      reads this
    {
      if stored.Some? then stored.value else []
    }

    constructor(initial: Option<seq<string>>)
      ensures stored == initial
    {
      stored := initial;
    }
  }

  /** One mounted card: its listing id, its `isSaved` cell and the shared storage. */
  class Card {
    const id: string
    const storage: SavedStorage
    var isSaved: bool

    /** Mounting reads the initial flag from storage. */
    constructor(id: string, storage: SavedStorage, inBrowser: bool)
      ensures this.id == id && this.storage == storage
      ensures isSaved == SavedStatus(inBrowser, storage.Saved(), id)
    {
      this.id := id;
      this.storage := storage;
      isSaved := inBrowser && id in storage.Saved();
    }

    /** `handleSaveClick` */
    method HandleSaveClick()
      modifies this, storage
      ensures (isSaved, storage.Saved()) == SaveClick(old(isSaved), old(storage.Saved()), id)
      ensures storage.stored.Some?
    {
      var saved := storage.Saved();
      if isSaved {
        var updated := RemoveAll(saved, id);
        storage.stored := Some(updated);
        isSaved := false;
      } else {
        saved := saved + [id];
        storage.stored := Some(saved);
        isSaved := true;
      }
    }
  }
}
