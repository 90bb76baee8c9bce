/**
 * The backpack shop (BackpackView.swift): a list of items bought with stars
 * from the shared ledger, each bought at most once while the screen lives.
 * Ownership is screen state only; the stars spent are saved by the ledger.
 */
module Backpack {
  import opened Wrappers
  import opened Ledger

  /** The UUID an item receives when the list is built, modelled as a number. */
  type ItemId = nat

  datatype BackpackItem = BackpackItem(id: ItemId, name: string, iconName: string, cost: int, isOwned: bool)

  /** The six items on sale, none owned yet; `ids` are the UUIDs they were given. */
  function Catalog(ids: seq<ItemId>): (items: seq<BackpackItem>)
    requires |ids| == 6
    ensures |items| == 6
    ensures forall i :: 0 <= i < 6 ==> items[i].id == ids[i] && !items[i].isOwned && items[i].cost > 0
  {
    [ BackpackItem(ids[0], "Fox Hat", "pawprint.fill", 40, false),
      BackpackItem(ids[1], "Rainbow Trail", "rainbow", 60, false),
      BackpackItem(ids[2], "Magic Wand", "wand.and.stars", 75, false),
      BackpackItem(ids[3], "Sparkle Shoes", "shoeprints.fill", 50, false),
      BackpackItem(ids[4], "Comfy Cape", "scarf.fill", 90, false),
      BackpackItem(ids[5], "Balloon Buddy", "balloon.2.fill", 35, false) ]
  }

  predicate DistinctIds(items: seq<BackpackItem>) {
    forall i, j :: 0 <= i < j < |items| ==> items[i].id != items[j].id
  }

  /** The total cost of the items owned. */
  function OwnedCost(items: seq<BackpackItem>): int
    decreases |items|
  {
    if items == [] then 0
    else (if items[0].isOwned then items[0].cost else 0) + OwnedCost(items[1..])
  }

  /** A list with nothing owned has cost nothing. */
  lemma {:induction false} NothingOwnedCostsNothing(items: seq<BackpackItem>)
    requires forall i :: 0 <= i < |items| ==> !items[i].isOwned
    ensures OwnedCost(items) == 0
    decreases |items|
  {
    if items != [] {
      NothingOwnedCostsNothing(items[1..]);
    }
  }

  /** Marking one unowned item owned adds exactly its cost to the owned total. */
  lemma {:induction false} MarkOwnedAddsCost(items: seq<BackpackItem>, i: int)
    requires 0 <= i < |items| && !items[i].isOwned
    ensures OwnedCost(items[i := items[i].(isOwned := true)]) == OwnedCost(items) + items[i].cost
    decreases |items|
  {
    var after := items[i := items[i].(isOwned := true)];
    if i == 0 {
      assert after[1..] == items[1..];
    } else {
      assert after[1..] == items[1..][i - 1 := items[i].(isOwned := true)];
      MarkOwnedAddsCost(items[1..], i - 1);
    }
  }

  /** What a purchase reads and changes: the ledger balance, the items, and the card to shake. */
  datatype Shop = Shop(balance: int, items: seq<BackpackItem>, notEnoughStarsFor: Option<ItemId>)

  /**
   * Buying the item at `index`: an index outside the list or an item already
   * owned is ignored; otherwise the ledger is debited the cost and the item
   * marked owned, or, if the debit is refused, that item's card is set shaking.
   */
  function Buy(s: Shop, index: int): (r: Shop)
    ensures |r.items| == |s.items|
    ensures forall j :: 0 <= j < |s.items| && j != index ==> r.items[j] == s.items[j]
    ensures forall j :: 0 <= j < |s.items| && s.items[j].isOwned ==> r.items[j].isOwned
    ensures r.balance + OwnedCost(r.items) == s.balance + OwnedCost(s.items)
    ensures r.items != s.items ==>
              0 <= index < |s.items| && !s.items[index].isOwned && Affordable(s.balance, s.items[index].cost)
              && r.items[index] == s.items[index].(isOwned := true)
    ensures r.notEnoughStarsFor != s.notEnoughStarsFor ==>
              0 <= index < |s.items| && !s.items[index].isOwned && !Affordable(s.balance, s.items[index].cost)
              && r.notEnoughStarsFor == Some(s.items[index].id) && r.balance == s.balance && r.items == s.items
  {
    if !(0 <= index < |s.items|) || s.items[index].isOwned then s
    else
      var item := s.items[index];
      if Affordable(s.balance, item.cost) then
        MarkOwnedAddsCost(s.items, index);
        s.(balance := s.balance - item.cost, items := s.items[index := item.(isOwned := true)])
      else
        s.(notEnoughStarsFor := Some(item.id))
  }

  /** The shop after a sequence of taps on Buy buttons. */
  function BuyAll(s: Shop, taps: seq<int>): Shop
    decreases |taps|
  {
    if taps == [] then s else BuyAll(Buy(s, taps[0]), taps[1..])
  }

  /**
   * Starting from the unowned list, the stars spent by any sequence of taps
   * equal the total cost of the items owned afterwards.
   */
  lemma {:induction false} SpentEqualsOwnedCost(ids: seq<ItemId>, balance: int, shaking: Option<ItemId>, taps: seq<int>)
    requires |ids| == 6
    ensures var r := BuyAll(Shop(balance, Catalog(ids), shaking), taps);
            balance - r.balance == OwnedCost(r.items)
  {
    NothingOwnedCostsNothing(Catalog(ids));
    BuyAllConserves(Shop(balance, Catalog(ids), shaking), taps);
  }

  /** Taps on Buy buttons move stars from the balance into owned items and create none. */
  lemma {:induction false} BuyAllConserves(s: Shop, taps: seq<int>)
    ensures BuyAll(s, taps).balance + OwnedCost(BuyAll(s, taps).items) == s.balance + OwnedCost(s.items)
    decreases |taps|
  {
    if taps != [] {
      BuyAllConserves(Buy(s, taps[0]), taps[1..]);
    }
  }

  /** Ownership only grows along a sequence of taps, so nothing is paid for twice. */
  lemma {:induction false} BuyAllKeepsOwnership(s: Shop, taps: seq<int>, j: int)
    requires 0 <= j < |s.items| && s.items[j].isOwned
    ensures |BuyAll(s, taps).items| == |s.items| && BuyAll(s, taps).items[j].isOwned
    decreases |taps|
  {
    if taps != [] {
      BuyAllKeepsOwnership(Buy(s, taps[0]), taps[1..], j);
    }
  }

  /** What each card of the grid shows. */
  datatype Card = Card(item: BackpackItem, canAfford: bool, isShaking: bool)

  /** The grid: one card per item, its flags computed from the ledger and the shaking id. */
  function Cards(s: Shop): (cards: seq<Card>)
    ensures |cards| == |s.items|
  {
    seq(|s.items|, i requires 0 <= i < |s.items| =>
      Card(s.items[i], Affordable(s.balance, s.items[i].cost), s.notEnoughStarsFor == Some(s.items[i].id)))
  }

  /** A card shows "affordable" exactly when tapping its unowned item buys it. */
  lemma CardPredictsPurchase(s: Shop, i: int)
    requires 0 <= i < |s.items| && !s.items[i].isOwned
    ensures Cards(s)[i].canAfford <==> Buy(s, i).items[i].isOwned
  {
  }

  /** After a refused purchase exactly the card of that item shakes. */
  lemma RefusedPurchaseShakesOneCard(s: Shop, i: int, j: int)
    requires DistinctIds(s.items)
    requires 0 <= i < |s.items| && !s.items[i].isOwned && !Affordable(s.balance, s.items[i].cost)
    requires 0 <= j < |s.items|
    ensures Cards(Buy(s, i))[j].isShaking <==> j == i
  {
  }

  /** The backpack screen: its item list and the card currently shaking. */
  class BackpackView {
    var items: seq<BackpackItem>
    var notEnoughStarsFor: Option<ItemId>
    const starBank: StarBank

    ghost predicate Valid()
      reads this
    {
      DistinctIds(items)
    }

    ghost function Snapshot(): Shop
      reads this, starBank
    {
      Shop(starBank.stars, items, notEnoughStarsFor)
    }

    constructor (starBank: StarBank, ids: seq<ItemId>)
      requires |ids| == 6
      requires forall i, j :: 0 <= i < j < 6 ==> ids[i] != ids[j]
      ensures Valid() && this.starBank == starBank
      ensures items == Catalog(ids) && notEnoughStarsFor == None
    {
      this.starBank := starBank;
      items := Catalog(ids);
      notEnoughStarsFor := None;
    }

    /** The grid as drawn: each card's flag asks the ledger whether it can afford the item. */
    function Grid(): (cards: seq<Card>)
      reads this, starBank
      ensures |cards| == |items|
      ensures forall i :: 0 <= i < |items| ==>
                cards[i].item == items[i] && cards[i].canAfford == starBank.CanAfford(items[i].cost)
    {
      Cards(Shop(starBank.stars, items, notEnoughStarsFor))
    }

    method HandleBuy(index: int)
      requires Valid()
      modifies this, starBank, starBank.store
      ensures Valid()
      ensures Snapshot() == Buy(old(Snapshot()), index)
      ensures items == old(items) ==> unchanged(starBank.store)
      ensures items != old(items) ==>
                starBank.stars == old(starBank.stars) - old(items)[index].cost
                && starBank.store.data == old(starBank.store.data).SetInteger(StarsKey, starBank.stars)
    {
      if !(0 <= index < |items|) {
        return;
      }
      if items[index].isOwned {
        return;
      }
      var cost := items[index].cost;
      var bought := starBank.SpendStars(cost);
      if bought {
        items := items[index := items[index].(isOwned := true)];
      } else {
        notEnoughStarsFor := Some(items[index].id);
      }
    }

    /** The delayed step that stops a card shaking, unless another one took its place. */
    method ShakeTimeout(id: ItemId)
      modifies this
      ensures items == old(items)
      ensures notEnoughStarsFor == if old(notEnoughStarsFor) == Some(id) then None else old(notEnoughStarsFor)
    {
      if notEnoughStarsFor == Some(id) {
        notEnoughStarsFor := None;
      }
    }
  }
}
