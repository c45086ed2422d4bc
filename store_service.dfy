/**
 * `StoreService` (src/store/store.service.ts): the catalogue of available items and the gem
 * purchase, which checks the item, the user and the balance before it changes anything.
 */
module StoreService {
  import opened Wrappers
  import opened UserModel
  import opened Sorting

  datatype ItemType = Powerup | Cosmetic | Boost | HeartRefill

  /** The JSON `item_data` column; only its `avatarUrl` key is read by the service. */
  datatype ItemData = ItemData(avatarUrl: Option<string>)

  /** A row of `store_items`. */
  datatype StoreItem = StoreItem(
    id: int, name: string, itemType: ItemType, itemData: Option<ItemData>,
    gemCost: int, isAvailable: bool, sortOrder: int)

  /** A row of `user_items` (the inventory). */
  datatype UserItem = UserItem(userId: int, storeItemId: int, quantity: int)

  datatype StoreError = NotFound(message: string) | BadRequest(message: string)

  /** The body of a successful purchase. */
  datatype Purchase = Purchase(remainingGems: int, purchasedItem: StoreItem)

  const ITEM_NOT_FOUND := "Item not found or unavailable"
  const USER_NOT_FOUND := "User not found"
  const NOT_ENOUGH_GEMS := "Not enough gems to purchase this item"

  /** The catalogue order: `sortOrder` ascending, then `gemCost` ascending. */
  function CatalogueKey(item: StoreItem): Key {
    Key(item.sortOrder, item.gemCost)
  }

  /** The rows with `isAvailable = true`, in table order. */
  function AvailableOnly(items: seq<StoreItem>): (r: seq<StoreItem>)
    ensures forall it :: it in r ==> it.isAvailable
    ensures forall it :: it in items && it.isAvailable ==> it in r
    ensures forall it :: multiset(r)[it] == if it.isAvailable then multiset(items)[it] else 0
  {
    if items == [] then []
    else
      assert items == [items[0]] + items[1..];
      (if items[0].isAvailable then [items[0]] else []) + AvailableOnly(items[1..])
  }

  /** `findOne({ id, isAvailable: true })`: the first available row with that id. */
  function FindAvailableItem(items: seq<StoreItem>, id: int): (r: Option<StoreItem>)
    ensures r.Some? ==> r.value in items && r.value.id == id && r.value.isAvailable
    ensures r.None? <==> forall it :: it in items ==> it.id != id || !it.isAvailable
  {
    if items == [] then None
    else if items[0].id == id && items[0].isAvailable then Some(items[0])
    else
      assert items == [items[0]] + items[1..];
      FindAvailableItem(items[1..], id)
  }

  /** The avatar URL a cosmetic item sets: `itemData?.avatarUrl` when it is a non-empty string. */
  function CosmeticAvatarUrl(item: StoreItem): (r: Option<string>)
    ensures r.Some? <==> item.itemType == Cosmetic && item.itemData.Some?
                         && item.itemData.value.avatarUrl.Some? && item.itemData.value.avatarUrl.value != ""
    ensures r.Some? ==> r.value == item.itemData.value.avatarUrl.value
  {
    if item.itemType == Cosmetic then
      match item.itemData
      case Some(ItemData(Some(url))) => if url != "" then Some(url) else None
      case _ => None
    else None
  }

  /**
   * The user's columns after a successful purchase of `item`: the cost is deducted, a
   * cosmetic item's avatar URL replaces the avatar, and nothing else changes.
   */
  function AfterPurchase(u: UserRow, item: StoreItem): (r: UserRow)
    ensures r.totalGems == u.totalGems - item.gemCost
    ensures r.avatarUrl == if CosmeticAvatarUrl(item).Some? then CosmeticAvatarUrl(item) else u.avatarUrl
    ensures r.totalXp == u.totalXp && r.currentStreak == u.currentStreak
    ensures r.maxStreak == u.maxStreak && r.lastActivityDate == u.lastActivityDate
  {
    var paid := u.(totalGems := u.totalGems - item.gemCost);
    match CosmeticAvatarUrl(item)
    case Some(url) => paid.(avatarUrl := Some(url))
    case None => paid
  }

  /** Two sequences with the same multiset have the same members. */
  lemma SameElements<T>(a: seq<T>, b: seq<T>)
    requires multiset(a) == multiset(b)
    ensures forall x :: x in a <==> x in b
  {
    forall x ensures x in a <==> x in b {
      assert x in a <==> x in multiset(a);
      assert x in b <==> x in multiset(b);
    }
  }

  class StoreServiceState {
    /** The users repository. */
    const users: map<int, User>
    /** The `store_items` repository (read only here). */
    const storeItems: seq<StoreItem>
    /** The `user_items` repository. */
    var userItems: seq<UserItem>

    constructor (users: map<int, User>, storeItems: seq<StoreItem>, userItems: seq<UserItem>)
      requires TableValid(users)
      ensures this.users == users && this.storeItems == storeItems && this.userItems == userItems
      ensures Valid()
    {
      this.users, this.storeItems, this.userItems := users, storeItems, userItems;
    }

    ghost predicate Valid() {
      TableValid(users)
    }

    /** `getAvailableItems`: exactly the available items, ordered by `sortOrder` then `gemCost`. */
    function GetAvailableItems(): (r: seq<StoreItem>)
      ensures forall k :: 0 <= k < |r| ==> r[k].isAvailable
      ensures forall it :: it in storeItems && it.isAvailable ==> it in r
      ensures forall it :: multiset(r)[it] == if it.isAvailable then multiset(storeItems)[it] else 0
      ensures forall i, j :: 0 <= i < j < |r| ==>
        r[i].sortOrder < r[j].sortOrder || (r[i].sortOrder == r[j].sortOrder && r[i].gemCost <= r[j].gemCost)
    {
      var available := AvailableOnly(storeItems);
      var r := SortBy(available, CatalogueKey);
      SameElements(available, r);
      r
    }

    /**
     * `purchaseItem`: NotFound for an unknown or unavailable item, then NotFound for an unknown
     * user, then BadRequest when the balance is below the cost; each leaves every user and the
     * inventory as they were. Otherwise the cost is deducted, a cosmetic item with an avatar URL
     * becomes the avatar, and one inventory row is appended.
     */
    method PurchaseItem(userId: int, storeItemId: int) returns (r: Result<Purchase, StoreError>)
      requires Valid()
      modifies this`userItems, UserFrame(users, userId)
      ensures var found := FindAvailableItem(storeItems, storeItemId);
        if found.None? then r == Err(NotFound(ITEM_NOT_FOUND))
        else if userId !in users then r == Err(NotFound(USER_NOT_FOUND))
        else if old(users[userId].totalGems) < found.value.gemCost then r == Err(BadRequest(NOT_ENOUGH_GEMS))
        else r.Ok? && r.value.purchasedItem == found.value
      ensures r.Err? ==> userItems == old(userItems)
      ensures r.Err? ==> forall id :: id in users ==> users[id].Row() == old(users[id].Row())
      ensures r.Ok? ==>
        && userId in users
        && users[userId].Row() == AfterPurchase(old(users[userId].Row()), r.value.purchasedItem)
        && users[userId].totalGems == old(users[userId].totalGems) - r.value.purchasedItem.gemCost >= 0
        && r.value.remainingGems == users[userId].totalGems
        && userItems == old(userItems) + [UserItem(userId, r.value.purchasedItem.id, 1)]
      ensures forall id :: id in users && id != userId ==> users[id].Row() == old(users[id].Row())
    {
      var found := FindAvailableItem(storeItems, storeItemId);
      if found.None? {
        return Err(NotFound(ITEM_NOT_FOUND));
      }
      var item := found.value;
      if userId !in users {
        return Err(NotFound(USER_NOT_FOUND));
      }
      var user := users[userId];
      if user.totalGems < item.gemCost {
        return Err(BadRequest(NOT_ENOUGH_GEMS));
      }
      user.totalGems := user.totalGems - item.gemCost;
      var url := CosmeticAvatarUrl(item);
      if url.Some? {
        user.avatarUrl := url;
      }
      userItems := userItems + [UserItem(userId, item.id, 1)];
      return Ok(Purchase(user.totalGems, item));
    }
  }
}
