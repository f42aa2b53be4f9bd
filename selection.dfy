/** The SKU exposed to descendant components, and the selected-quantity state cell. */
module Selection {
  import opened Wrappers
  import opened Js
  import opened Catalog

  /** `path(['items'], product) || []`: the product's items, or none at all when the
      product or its `items` field is missing. */
  function ItemsOf(product: Product?): seq<Sku> {
    if product == null then []
    else match product.info.items
      case None => []
      case Some(items) => items
  }

  /** The selected item. With a truthy `skuId` it is the first item carrying that id, and
      nothing when no item does (there is no fallback); otherwise it is the first item. */
  function SelectedItem(product: Product?, query: Query): (r: Option<Sku>)
    ensures r.Some? ==> r.value in ItemsOf(product)
    ensures Truthy(query.skuId) ==>
      (r.None? <==> forall k :: 0 <= k < |ItemsOf(product)| ==> ItemsOf(product)[k].itemId != query.skuId.value)
    ensures Truthy(query.skuId) && r.Some? ==>
      exists k :: IsFirstWithId(ItemsOf(product), query.skuId.value, k) && ItemsOf(product)[k] == r.value
    ensures !Truthy(query.skuId) ==>
      (r.None? <==> ItemsOf(product) == []) && (r.Some? ==> r.value == ItemsOf(product)[0])
  {
    var items := ItemsOf(product);
    if Truthy(query.skuId) then FindById(items, query.skuId.value) else Head(items)
  }

  /** The `useState(1)` cell behind `selectedQuantity`; its setter is handed to
      descendants as `onChangeQuantity` and accepts any value. */
  class QuantityState {
    var selectedQuantity: int

    constructor ()
      ensures selectedQuantity == 1
    {
      selectedQuantity := 1;
    }

    method OnChangeQuantity(quantity: int)
      modifies this
      ensures selectedQuantity == quantity
    {
      selectedQuantity := quantity;
    }
  }
}
