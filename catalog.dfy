/** The product record supplied by the data-fetch layer, and the two ways the
    component searches its SKUs: `Array.prototype.filter` and `Array.prototype.find`
    by `itemId`. */
module Catalog {
  import opened Wrappers
  import opened Js

  /** One node of the root-to-leaf category path. */
  datatype CategoryNode = CategoryNode(id: string, name: string)

  /** An element of a SKU's `referenceId` list (`{ Value }`). */
  datatype Reference = Reference(value: string)

  /** A seller's offer. The prices are kept in the form the template string renders them. */
  datatype CommertialOffer = CommertialOffer(listPrice: string, price: string)

  datatype Seller = Seller(sellerId: string, commertialOffer: CommertialOffer)

  /** A purchasable variant. Every list-valued field may be missing altogether. */
  datatype Sku = Sku(
    itemId: string,
    ean: Option<string>,
    referenceId: Option<seq<Reference>>,
    sellers: Option<seq<Seller>>)

  /** The fields of the fetched product that the component reads. */
  datatype ProductInfo = ProductInfo(
    titleTag: string,
    brand: string,
    categoryId: string,
    categoryTree: Option<seq<CategoryNode>>,
    productId: string,
    productName: string,
    items: Option<seq<Sku>>)

  /** The URL query parameters; only `skuId` is read. */
  datatype Query = Query(skuId: Option<string>)

  /** The product object. The component never writes the fetched fields, which are
      therefore constant; the pixel builder adds `selectedSku` to the object in place. */
  class Product {
    const info: ProductInfo
    var selectedSku: Option<string>

    constructor (info: ProductInfo)
      ensures this.info == info && selectedSku == None
    {
      this.info := info;
      selectedSku := None;
    }
  }

  /** `k` is the position of the first item whose `itemId` is `id`. */
  ghost predicate IsFirstWithId(items: seq<Sku>, id: string, k: int) {
    0 <= k < |items| && items[k].itemId == id &&
    forall j :: 0 <= j < k ==> items[j].itemId != id
  }

  /** `items.filter(sku => sku.itemId === id)`, where `id` is `undefined` when no SKU id
      was resolved (no item's `itemId` is `undefined`, so nothing is kept then). */
  function FilterById(items: seq<Sku>, id: Option<string>): (r: seq<Sku>)
    ensures forall k :: 0 <= k < |r| ==> id == Some(r[k].itemId)
    ensures forall k :: 0 <= k < |items| && id == Some(items[k].itemId) ==> items[k] in r
    ensures |r| <= |items|
    ensures multiset(r) <= multiset(items)
  {
    if items == [] then []
    else
      assert items == [items[0]] + items[1..];
      if id == Some(items[0].itemId) then [items[0]] + FilterById(items[1..], id)
      else FilterById(items[1..], id)
  }

  /** The filter keeps every matching item as many times as `items` holds it, and nothing else. */
  lemma {:induction false} FilterByIdCounts(items: seq<Sku>, id: Option<string>)
    ensures forall x ::
      multiset(FilterById(items, id))[x] == if id == Some(x.itemId) then multiset(items)[x] else 0
  {
    if items != [] {
      FilterByIdCounts(items[1..], id);
      assert items == [items[0]] + items[1..];
    }
  }

  /** `items.find(sku => sku.itemId === id)`: the first item carrying `id`, if any. */
  function FindById(items: seq<Sku>, id: string): (r: Option<Sku>)
    ensures r.None? <==> forall k :: 0 <= k < |items| ==> items[k].itemId != id
    ensures r.Some? ==> exists k :: IsFirstWithId(items, id, k) && items[k] == r.value
  {
    if items == [] then None
    else if items[0].itemId == id then
      assert IsFirstWithId(items, id, 0);
      Some(items[0])
    else
      assert forall k :: IsFirstWithId(items[1..], id, k) ==> IsFirstWithId(items, id, k + 1);
      FindById(items[1..], id)
  }

  /** The first element of the filtered list is what `find` returns. */
  lemma {:induction false} FilterHeadIsFind(items: seq<Sku>, id: string)
    ensures Head(FilterById(items, Some(id))) == FindById(items, id)
  {
    if items != [] && items[0].itemId != id {
      FilterHeadIsFind(items[1..], id);
    }
  }
}
