/**
 * The shop routes of the server (`routes/shops.js`) over the in-memory
 * `shops` array: the listing, the lookup, the creation with its defaults,
 * and the owner-or-admin gate in front of an update or a delete. The
 * `Registry` class holds the array and its methods perform the handlers in
 * place. Ratings are whole numbers; ids and stamps are parameters.
 */
module ShopsRoute {
  import opened Common
  import opened Strings
  import opened Backend

  datatype StoredShop = StoredShop(
    id: string,
    shopName: string,
    ownerName: string,
    category: string,
    address: string,
    city: string,
    phone: string,
    timings: string,
    description: string,
    logo: Option<string>,
    ownerId: string,
    rating: Option<int>,
    reviewCount: int,
    isVerified: bool,
    createdAt: string,
    updatedAt: string)

  /** The body of `POST /api/shops`; a missing required field arrives as the empty string. */
  datatype ShopBody = ShopBody(
    shopName: string,
    category: string,
    address: string,
    city: string,
    phone: string,
    timings: Option<string>,
    description: Option<string>,
    logo: Option<string>)

  /** The body of `PUT /api/shops/:id`: each field `Object.assign` copies, present or absent. */
  datatype ShopPatch = ShopPatch(
    shopName: Option<string>,
    category: Option<string>,
    address: Option<string>,
    city: Option<string>,
    phone: Option<string>,
    timings: Option<string>,
    description: Option<string>,
    logo: Option<Option<string>>,
    ownerId: Option<string>,
    isVerified: Option<bool>)

  const DefaultTimings: string := "9:00 AM - 9:00 PM"

  /** JavaScript truthiness of an optional body string. */
  predicate Truthy(s: Option<string>)
  {
    s.Some? && s.value != ""
  }

  /** `GET /:id`. */
  function GetShop(shops: seq<StoredShop>, id: string): (r: Reply<StoredShop>)
    ensures r.Code() == 404 <==> forall i :: 0 <= i < |shops| ==> shops[i].id != id
    ensures r.Code() != 404 ==> r.Code() == 200 && r.Served? && r.value.Some? && r.value.value in shops && r.value.value.id == id
  {
    match FindFirst(shops, (s: StoredShop) => s.id == id)
    case None => Refused(404, "Shop not found")
    case Some(s) => Served(200, None, Some(s))
  }

  /** The validator chain of `POST /`. */
  predicate CreateBodyValid(b: ShopBody)
  {
    Trim(b.shopName) != "" && Trim(b.category) != "" && Trim(b.address) != "" && Trim(b.city) != "" && Trim(b.phone) != ""
  }

  /** The shop `POST /` stores: owned by the caller, unrated, unreviewed and unverified. */
  function NewShop(caller: Caller, b: ShopBody, id: string, now: string): (r: StoredShop)
    ensures r.id == id && r.ownerId == caller.id && r.ownerName == caller.name
    ensures r.timings == (if Truthy(b.timings) then b.timings.value else DefaultTimings)
    ensures r.description == (if Truthy(b.description) then b.description.value else "")
    ensures r.logo == (if Truthy(b.logo) then b.logo else None)
    ensures r.rating.None? && r.reviewCount == 0 && !r.isVerified
    ensures r.createdAt == now && r.updatedAt == now
  {
    StoredShop(
      id, Trim(b.shopName), caller.name, Trim(b.category), Trim(b.address), Trim(b.city), Trim(b.phone),
      if Truthy(b.timings) then b.timings.value else DefaultTimings,
      if Truthy(b.description) then b.description.value else "",
      if Truthy(b.logo) then b.logo else None,
      caller.id, None, 0, false, now, now)
  }

  /** `POST /`: validation first (400), then the role (403); only a success appends. */
  function CreateShop(shops: seq<StoredShop>, caller: Caller, b: ShopBody, id: string, now: string)
    : (r: (Reply<StoredShop>, seq<StoredShop>))
    ensures !CreateBodyValid(b) ==> r == (Invalid, shops)
    ensures CreateBodyValid(b) && caller.role != "shopkeeper" ==> r == (Refused(403, "Only shopkeepers can create shops"), shops)
    ensures CreateBodyValid(b) && caller.role == "shopkeeper" ==>
              r == (Served(201, Some("Shop created successfully"), Some(NewShop(caller, b, id, now))),
                    shops + [NewShop(caller, b, id, now)])
  {
    if !CreateBodyValid(b) then (Invalid, shops)
    else if caller.role != "shopkeeper" then (Refused(403, "Only shopkeepers can create shops"), shops)
    else
      var s := NewShop(caller, b, id, now);
      (Served(201, Some("Shop created successfully"), Some(s)), shops + [s])
  }

  /** Validation is checked before the role, and only a 201 stores anything. */
  lemma CreateShopOutcome(shops: seq<StoredShop>, caller: Caller, b: ShopBody, id: string, now: string)
    ensures var r := CreateShop(shops, caller, b, id, now);
      (r.0.Code() == 201 <==> CreateBodyValid(b) && caller.role == "shopkeeper") &&
      (r.0.Code() == 400 <==> !CreateBodyValid(b)) &&
      (r.0.Code() != 201 ==> r.1 == shops)
  {
  }

  /** A created shop is appended after the stored ones and is the shop the reply carries. */
  lemma CreateShopAppends(shops: seq<StoredShop>, caller: Caller, b: ShopBody, id: string, now: string)
    requires CreateBodyValid(b) && caller.role == "shopkeeper"
    ensures var r := CreateShop(shops, caller, b, id, now);
      r.1[..|shops|] == shops && |r.1| == |shops| + 1 && r.0.value == Some(r.1[|shops|]) && r.1[|shops|].ownerId == caller.id
  {
    var s := NewShop(caller, b, id, now);
    assert (shops + [s])[..|shops|] == shops;
  }

  /** The gate of `PUT` and `DELETE`: the owner, or any admin. */
  predicate MayManage(caller: Caller, s: StoredShop)
  {
    s.ownerId == caller.id || caller.role == "admin"
  }

  /** The validator chain of `PUT /:id`: only a supplied name and category are checked. */
  predicate PatchValid(p: ShopPatch)
  {
    (p.shopName.Some? ==> Trim(p.shopName.value) != "") && (p.category.Some? ==> Trim(p.category.value) != "")
  }

  /** A supplied field, or the one already stored. */
  function Or(v: Option<string>, stored: string): (r: string)
    ensures v.Some? ==> r == v.value
    ensures v.None? ==> r == stored
  {
    if v.Some? then v.value else stored
  }

  /** `Object.assign(shop, req.body, { updatedAt })`. */
  function Merged(prev: StoredShop, p: ShopPatch, now: string): (r: StoredShop)
    ensures r.id == prev.id && r.ownerName == prev.ownerName && r.rating == prev.rating && r.reviewCount == prev.reviewCount
    ensures r.shopName == (if p.shopName.Some? then Trim(p.shopName.value) else prev.shopName)
    ensures r.ownerId == (if p.ownerId.Some? then p.ownerId.value else prev.ownerId)
    ensures r.isVerified == (if p.isVerified.Some? then p.isVerified.value else prev.isVerified)
    ensures r.createdAt == prev.createdAt && r.updatedAt == now
  {
    var shopName := if p.shopName.Some? then Trim(p.shopName.value) else prev.shopName;
    var category := if p.category.Some? then Trim(p.category.value) else prev.category;
    StoredShop(
      prev.id, shopName, prev.ownerName, category,
      Or(p.address, prev.address), Or(p.city, prev.city), Or(p.phone, prev.phone),
      Or(p.timings, prev.timings), Or(p.description, prev.description),
      p.logo.GetOr(prev.logo),
      Or(p.ownerId, prev.ownerId), prev.rating, prev.reviewCount,
      p.isVerified.GetOr(prev.isVerified),
      prev.createdAt, now)
  }

  /** `PUT /:id`: validation (400), the lookup (404), then the owner-or-admin gate (403). */
  function UpdateShop(shops: seq<StoredShop>, caller: Caller, id: string, p: ShopPatch, now: string)
    : (r: (Reply<StoredShop>, seq<StoredShop>))
    ensures r.0.Code() != 200 ==> r.1 == shops
    ensures !PatchValid(p) ==> r.0 == Invalid
    ensures PatchValid(p) && (forall i :: 0 <= i < |shops| ==> shops[i].id != id) ==> r.0 == Refused(404, "Shop not found")
  {
    if !PatchValid(p) then (Invalid, shops)
    else match FindIndex(shops, (s: StoredShop) => s.id == id)
      case None => (Refused(404, "Shop not found"), shops)
      case Some(k) =>
        if !MayManage(caller, shops[k]) then (Refused(403, "Not authorized to update this shop"), shops)
        else
          var updated := Merged(shops[k], p, now);
          (Served(200, Some("Shop updated successfully"), Some(updated)), shops[k := updated])
  }

  /**
   * An update of a stored shop succeeds exactly for its owner or an admin,
   * and then merges into that one shop only.
   */
  lemma UpdateShopAt(shops: seq<StoredShop>, caller: Caller, k: nat, p: ShopPatch, now: string)
    requires k < |shops| && forall j :: 0 <= j < k ==> shops[j].id != shops[k].id
    requires PatchValid(p)
    ensures var r := UpdateShop(shops, caller, shops[k].id, p, now);
      (MayManage(caller, shops[k]) ==> r.0.Code() == 200 && r.1 == shops[k := Merged(shops[k], p, now)]) &&
      (!MayManage(caller, shops[k]) ==> r == (Refused(403, "Not authorized to update this shop"), shops))
  {
    var f := (s: StoredShop) => s.id == shops[k].id;
    assert f(shops[k]);
    var found := FindIndex(shops, f);
    assert found == Some(k) by {
      assert found.Some? && found.value <= k;
    }
  }

  /**
   * Nothing restricts which fields the owner sends: an owner may mark their
   * own shop verified, or hand it to another user, who alone may then
   * manage it (unless the new owner is the caller itself).
   */
  lemma OwnerMayVerifyAndTransfer(shops: seq<StoredShop>, caller: Caller, k: nat, other: string, now: string)
    requires k < |shops| && forall j :: 0 <= j < k ==> shops[j].id != shops[k].id
    requires shops[k].ownerId == caller.id && caller.role != "admin" && other != caller.id
    ensures var p := ShopPatch(None, None, None, None, None, None, None, None, Some(other), Some(true));
      var r := UpdateShop(shops, caller, shops[k].id, p, now);
      r.0.Code() == 200 && r.1[k].isVerified && r.1[k].ownerId == other && !MayManage(caller, r.1[k])
  {
    var p := ShopPatch(None, None, None, None, None, None, None, None, Some(other), Some(true));
    UpdateShopAt(shops, caller, k, p, now);
  }

  /** `DELETE /:id`: the lookup (404), the owner-or-admin gate (403), then the splice. */
  function DeleteShop(shops: seq<StoredShop>, caller: Caller, id: string): (r: (Reply<StoredShop>, seq<StoredShop>))
    ensures r.0.Code() != 200 ==> r.1 == shops
    ensures r.0.Code() == 404 <==> forall i :: 0 <= i < |shops| ==> shops[i].id != id
    ensures r.0.Code() in {200, 403, 404}
  {
    match FindIndex(shops, (s: StoredShop) => s.id == id)
    case None => (Refused(404, "Shop not found"), shops)
    case Some(k) =>
      if !MayManage(caller, shops[k]) then (Refused(403, "Not authorized to delete this shop"), shops)
      else (Served(200, Some("Shop deleted successfully"), None), RemoveAt(shops, k))
  }

  /** A delete by the owner or an admin removes exactly that shop and keeps the others in order; anyone else gets 403. */
  lemma DeleteShopAt(shops: seq<StoredShop>, caller: Caller, k: nat)
    requires k < |shops| && forall j :: 0 <= j < k ==> shops[j].id != shops[k].id
    ensures var r := DeleteShop(shops, caller, shops[k].id);
      (MayManage(caller, shops[k]) ==> r.0.Code() == 200 && r.1 == shops[..k] + shops[k + 1..]) &&
      (!MayManage(caller, shops[k]) ==> r == (Refused(403, "Not authorized to delete this shop"), shops))
  {
    var f := (s: StoredShop) => s.id == shops[k].id;
    assert f(shops[k]);
    assert RemoveAt(shops, k) == shops[..k] + shops[k + 1..];
  }

  /** The in-memory `shops` array. */
  class Registry {
    var shops: seq<StoredShop>

    constructor()
      ensures shops == []
    {
      shops := [];
    }

    /** `GET /` answers with the whole array. */
    method List() returns (r: seq<StoredShop>)
      ensures r == shops
    {
      r := shops;
    }

    method Get(id: string) returns (r: Reply<StoredShop>)
      ensures r == GetShop(shops, id)
    {
      var shop := FindFirst(shops, (s: StoredShop) => s.id == id);
      if shop.None? {
        return Refused(404, "Shop not found");
      }
      r := Served(200, None, shop);
    }

    method Create(caller: Caller, b: ShopBody, id: string, now: string) returns (r: Reply<StoredShop>)
      modifies this
      ensures (r, shops) == CreateShop(old(shops), caller, b, id, now)
    {
      if !CreateBodyValid(b) {
        return Invalid;
      }
      if caller.role != "shopkeeper" {
        return Refused(403, "Only shopkeepers can create shops");
      }
      var shop := NewShop(caller, b, id, now);
      shops := shops + [shop];
      r := Served(201, Some("Shop created successfully"), Some(shop));
    }

    method Update(caller: Caller, id: string, p: ShopPatch, now: string) returns (r: Reply<StoredShop>)
      modifies this
      ensures (r, shops) == UpdateShop(old(shops), caller, id, p, now)
    {
      if !PatchValid(p) {
        return Invalid;
      }
      var shopIndex := FindIndex(shops, (s: StoredShop) => s.id == id);
      if shopIndex.None? {
        return Refused(404, "Shop not found");
      }
      var k := shopIndex.value;
      if shops[k].ownerId != caller.id && caller.role != "admin" {
        return Refused(403, "Not authorized to update this shop");
      }
      var shop := Merged(shops[k], p, now);
      shops := shops[k := shop];
      r := Served(200, Some("Shop updated successfully"), Some(shop));
    }

    method Delete(caller: Caller, id: string) returns (r: Reply<StoredShop>)
      modifies this
      ensures (r, shops) == DeleteShop(old(shops), caller, id)
    {
      var shopIndex := FindIndex(shops, (s: StoredShop) => s.id == id);
      if shopIndex.None? {
        return Refused(404, "Shop not found");
      }
      var k := shopIndex.value;
      if shops[k].ownerId != caller.id && caller.role != "admin" {
        return Refused(403, "Not authorized to delete this shop");
      }
      shops := RemoveAt(shops, k);
      r := Served(200, Some("Shop deleted successfully"), None);
    }
  }
}
