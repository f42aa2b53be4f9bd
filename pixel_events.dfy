/** The analytics payload the product page hands to the pixel dispatcher: a `pageInfo`
    event followed by a `productView` event, or nothing at all. */
module PixelEvents {
  import opened Wrappers
  import opened Js
  import opened Catalog
  import Selection

  /** The TypeErrors the builder can throw, each named after the value that turned out to
      be `undefined` when a property was read from it. */
  datatype BuildError =
    | NoCategoryNode   // `head(categoryTree).name` on an empty tree
    | NoFirstItem      // `head(items).itemId` or `items[0].itemId` on an empty list
    | NoReference      // `const [{ Value }] = referenceId` on an empty list
    | NoSeller         // `const [{ commertialOffer, sellerId }] = sellers` on an empty list
    | ItemsUndefined   // `product.items[0]` when the product has no `items`

  /** The four fields taken from the category path. */
  datatype CategoryFields = CategoryFields(
    pageDepartment: string,
    productCategoryName: string,
    productDepartmentId: string,
    productDepartmentName: string)

  /** The `pageInfo` event. Fields the builder adds after creating the object are
      optional: `None` means the field is not present on the object. */
  datatype PageInfo = PageInfo(
    event: string,
    eventType: string,
    accountName: string,
    pageCategory: string,
    pageDepartment: string,
    pageFacets: seq<string>,
    pageTitle: string,
    pageUrl: string,
    productBrandName: string,
    productCategoryId: string,
    productCategoryName: string,
    productDepartmentId: string,
    productDepartmentName: string,
    productId: string,
    productName: string,
    skuStockOutFromProductDetail: seq<string>,
    skuStockOutFromShelf: seq<string>,
    productEans: Option<seq<Option<string>>>,
    productReferenceId: Option<string>,
    productListPriceFrom: Option<string>,
    productListPriceTo: Option<string>,
    productPriceFrom: Option<string>,
    productPriceTo: Option<string>,
    sellerId: Option<string>,
    sellerIds: Option<string>)

  /** An event handed to the dispatcher; `productView` carries the product object itself. */
  datatype PixelEvent = PageInfoEvent(pageInfo: PageInfo) | ProductViewEvent(product: Product)

  /** What one successful build produces: the `pageInfo` event and the value it writes
      into the product's `selectedSku`. */
  datatype Payload = Payload(pageInfo: PageInfo, selectedSku: string)

  /** The category fields: from the first node (department) and the last node (category)
      of the path, all empty when the path is missing, and a TypeError when it is empty,
      since the guard tests the array's truthiness and not its length. */
  function CategoryFieldsOf(tree: Option<seq<CategoryNode>>): (r: Result<CategoryFields, BuildError>)
    ensures tree.None? ==> r == Success(CategoryFields("", "", "", ""))
    ensures tree == Some([]) ==> r == Failure(NoCategoryNode)
    ensures tree.Some? && tree.value != [] ==>
      r.Success? &&
      r.value.pageDepartment == tree.value[0].name &&
      r.value.productDepartmentName == tree.value[0].name &&
      r.value.productDepartmentId == tree.value[0].id &&
      r.value.productCategoryName == tree.value[|tree.value| - 1].name
  {
    match tree
    case None => Success(CategoryFields("", "", "", ""))
    case Some(nodes) =>
      var first := Head(nodes);
      var last := Last(nodes);
      if first.None? || last.None? then Failure(NoCategoryNode)
      else Success(CategoryFields(first.value.name, last.value.name, first.value.id, first.value.name))
  }

  /** The `pageInfo` object as first created, before any field is added to it. */
  function NewPageInfo(info: ProductInfo, account: string, url: string, categories: CategoryFields): PageInfo {
    PageInfo(
      event := "pageInfo",
      eventType := "productView",
      accountName := account,
      pageCategory := "Product",
      pageDepartment := categories.pageDepartment,
      pageFacets := [],
      pageTitle := info.titleTag,
      pageUrl := url,
      productBrandName := info.brand,
      productCategoryId := info.categoryId,
      productCategoryName := categories.productCategoryName,
      productDepartmentId := categories.productDepartmentId,
      productDepartmentName := categories.productDepartmentName,
      productId := info.productId,
      productName := info.productName,
      skuStockOutFromProductDetail := [],
      skuStockOutFromShelf := [],
      productEans := None,
      productReferenceId := None,
      productListPriceFrom := None,
      productListPriceTo := None,
      productPriceFrom := None,
      productPriceTo := None,
      sellerId := None,
      sellerIds := None)
  }

  /** `query.skuId || (items && head(items).itemId)`: the query's id when truthy, else the
      first item's id; `undefined` when there are no items, a TypeError when they are empty. */
  function AnalyticsSkuId(items: Option<seq<Sku>>, query: Query): (r: Result<Option<string>, BuildError>)
    ensures Truthy(query.skuId) ==> r == Success(query.skuId)
    ensures !Truthy(query.skuId) && items.None? ==> r == Success(None)
    ensures !Truthy(query.skuId) && items == Some([]) ==> r == Failure(NoFirstItem)
    ensures !Truthy(query.skuId) && items.Some? && items.value != [] ==>
      r == Success(Some(items.value[0].itemId))
  {
    if Truthy(query.skuId) then Success(query.skuId)
    else match items
      case None => Success(None)
      case Some(s) =>
        match Head(s)
        case None => Failure(NoFirstItem)
        case Some(first) => Success(Some(first.itemId))
  }

  /** `const [sku] = (items && items.filter(p => p.itemId === skuId)) || []`: the first
      item carrying the resolved id, if any. */
  function AnalyticsSku(items: Option<seq<Sku>>, skuId: Option<string>): (r: Option<Sku>)
    ensures r.Some? ==>
      items.Some? && skuId == Some(r.value.itemId) &&
      exists k :: IsFirstWithId(items.value, r.value.itemId, k) && items.value[k] == r.value
    ensures r.None? <==> items.None? || forall k :: 0 <= k < |items.value| ==> skuId != Some(items.value[k].itemId)
  {
    match items
    case None => None
    case Some(s) =>
      assert skuId.Some? ==> Head(FilterById(s, skuId)) == FindById(s, skuId.value) by {
        if skuId.Some? { FilterHeadIsFind(s, skuId.value); }
      }
      Head(FilterById(s, skuId))
  }

  /** `const { ean } = sku || {}`. */
  function EanOf(sku: Option<Sku>): Option<string> {
    if sku.None? then None else sku.value.ean
  }

  /** Adds `productReferenceId` from the first reference of the SKU. The guard
      `referenceId.length >= 0` holds for every array, so an empty list is a TypeError. */
  function AddReferenceId(pageInfo: PageInfo, sku: Option<Sku>): (r: Result<PageInfo, BuildError>)
    ensures r.Failure? <==> sku.Some? && sku.value.referenceId == Some([])
    ensures r.Failure? ==> r.error == NoReference
    ensures r.Success? ==> r.value.(productReferenceId := pageInfo.productReferenceId) == pageInfo
    ensures r.Success? && sku.Some? && sku.value.referenceId.Some? ==>
      r.value.productReferenceId == Some(sku.value.referenceId.value[0].value)
    ensures sku.None? || sku.value.referenceId.None? ==> r == Success(pageInfo)
  {
    if sku.None? || sku.value.referenceId.None? then Success(pageInfo)
    else match Head(sku.value.referenceId.value)
      case None => Failure(NoReference)
      case Some(first) => Success(pageInfo.(productReferenceId := Some(first.value)))
  }

  /** Adds the price and seller fields from the first seller of the SKU only. The guard
      `sellers.length >= 0` holds for every array, so an empty list is a TypeError. */
  function AddSellerFields(pageInfo: PageInfo, sku: Option<Sku>): (r: Result<PageInfo, BuildError>)
    ensures r.Failure? <==> sku.Some? && sku.value.sellers == Some([])
    ensures r.Failure? ==> r.error == NoSeller
    ensures r.Success? ==>
      r.value.(productListPriceFrom := pageInfo.productListPriceFrom,
               productListPriceTo := pageInfo.productListPriceTo,
               productPriceFrom := pageInfo.productPriceFrom,
               productPriceTo := pageInfo.productPriceTo,
               sellerId := pageInfo.sellerId,
               sellerIds := pageInfo.sellerIds) == pageInfo
    ensures r.Success? && sku.Some? && sku.value.sellers.Some? ==>
      var seller := sku.value.sellers.value[0];
      r.value.productListPriceFrom == Some(seller.commertialOffer.listPrice) &&
      r.value.productListPriceTo == Some(seller.commertialOffer.listPrice) &&
      r.value.productPriceFrom == Some(seller.commertialOffer.price) &&
      r.value.productPriceTo == Some(seller.commertialOffer.price) &&
      r.value.sellerId == Some(seller.sellerId) &&
      r.value.sellerIds == Some(seller.sellerId)
    ensures sku.None? || sku.value.sellers.None? ==> r == Success(pageInfo)
  {
    if sku.None? || sku.value.sellers.None? then Success(pageInfo)
    else match Head(sku.value.sellers.value)
      case None => Failure(NoSeller)
      case Some(first) =>
        var offer := first.commertialOffer;
        Success(pageInfo.(
          productListPriceFrom := Some(offer.listPrice),
          productListPriceTo := Some(offer.listPrice),
          productPriceFrom := Some(offer.price),
          productPriceTo := Some(offer.price),
          sellerId := Some(first.sellerId),
          sellerIds := Some(first.sellerId)))
  }

  /** `query.skuId ? query.skuId : product.items[0].itemId`: the value written into the
      product; reading the first item fails when `items` is missing or empty. */
  function SelectedSkuValue(items: Option<seq<Sku>>, query: Query): (r: Result<string, BuildError>)
    ensures Truthy(query.skuId) ==> r == Success(query.skuId.value)
    ensures !Truthy(query.skuId) && items.None? ==> r == Failure(ItemsUndefined)
    ensures !Truthy(query.skuId) && items == Some([]) ==> r == Failure(NoFirstItem)
    ensures !Truthy(query.skuId) && items.Some? && items.value != [] ==> r == Success(items.value[0].itemId)
  {
    if Truthy(query.skuId) then Success(query.skuId.value)
    else match items
      case None => Failure(ItemsUndefined)
      case Some(s) =>
        match Head(s)
        case None => Failure(NoFirstItem)
        case Some(first) => Success(first.itemId)
  }

  /** The whole build for a present product, in the order the source evaluates it. */
  function PixelPayload(info: ProductInfo, query: Query, account: string, url: string): (r: Result<Payload, BuildError>)
    ensures r.Success? ==>
      var p := r.value.pageInfo;
      p.event == "pageInfo" && p.eventType == "productView" && p.pageCategory == "Product" &&
      p.accountName == account && p.pageUrl == url &&
      p.pageFacets == [] && p.skuStockOutFromProductDetail == [] && p.skuStockOutFromShelf == [] &&
      p.pageTitle == info.titleTag && p.productBrandName == info.brand &&
      p.productCategoryId == info.categoryId && p.productId == info.productId &&
      p.productName == info.productName
    ensures r.Success? ==>
      var p := r.value.pageInfo;
      match info.categoryTree
      case None =>
        p.pageDepartment == "" && p.productCategoryName == "" &&
        p.productDepartmentId == "" && p.productDepartmentName == ""
      case Some(nodes) =>
        nodes != [] &&
        p.pageDepartment == nodes[0].name && p.productDepartmentName == nodes[0].name &&
        p.productDepartmentId == nodes[0].id && p.productCategoryName == nodes[|nodes| - 1].name
    ensures r.Success? && Truthy(query.skuId) ==> r.value.selectedSku == query.skuId.value
    ensures r.Success? && !Truthy(query.skuId) ==>
      info.items.Some? && info.items.value != [] && r.value.selectedSku == info.items.value[0].itemId
    ensures r.Success? ==>
      var sku := AnalyticsSku(info.items, Some(r.value.selectedSku));
      r.value.pageInfo.productEans == Some([EanOf(sku)])
    ensures r.Success? ==>
      var sku := AnalyticsSku(info.items, Some(r.value.selectedSku));
      if sku.Some? && sku.value.referenceId.Some? then
        sku.value.referenceId.value != [] &&
        r.value.pageInfo.productReferenceId == Some(sku.value.referenceId.value[0].value)
      else
        r.value.pageInfo.productReferenceId.None?
    ensures r.Success? ==>
      var sku := AnalyticsSku(info.items, Some(r.value.selectedSku));
      var p := r.value.pageInfo;
      if sku.Some? && sku.value.sellers.Some? then
        sku.value.sellers.value != [] &&
        var seller := sku.value.sellers.value[0];
        p.productListPriceFrom == Some(seller.commertialOffer.listPrice) &&
        p.productListPriceTo == Some(seller.commertialOffer.listPrice) &&
        p.productPriceFrom == Some(seller.commertialOffer.price) &&
        p.productPriceTo == Some(seller.commertialOffer.price) &&
        p.sellerId == Some(seller.sellerId) && p.sellerIds == Some(seller.sellerId)
      else
        p.productListPriceFrom.None? && p.productListPriceTo.None? &&
        p.productPriceFrom.None? && p.productPriceTo.None? &&
        p.sellerId.None? && p.sellerIds.None?
  {
    var categories :- CategoryFieldsOf(info.categoryTree);
    var created := NewPageInfo(info, account, url, categories);
    var skuId :- AnalyticsSkuId(info.items, query);
    var sku := AnalyticsSku(info.items, skuId);
    var withEans := created.(productEans := Some([EanOf(sku)]));
    var withReference :- AddReferenceId(withEans, sku);
    var withSellers :- AddSellerFields(withReference, sku);
    var selected :- SelectedSkuValue(info.items, query);
    Success(Payload(withSellers, selected))
  }

  /** Exactly when the build fails, and with which error: the first failing step wins. */
  lemma PixelPayloadFailure(info: ProductInfo, query: Query, account: string, url: string)
    ensures var r := PixelPayload(info, query, account, url);
      var sku := AnalyticsSku(info.items, if Truthy(query.skuId) then query.skuId
                                          else if info.items.Some? && info.items.value != [] then Some(info.items.value[0].itemId)
                                          else None);
      if info.categoryTree == Some([]) then r == Failure(NoCategoryNode)
      else if !Truthy(query.skuId) && info.items == Some([]) then r == Failure(NoFirstItem)
      else if sku.Some? && sku.value.referenceId == Some([]) then r == Failure(NoReference)
      else if sku.Some? && sku.value.sellers == Some([]) then r == Failure(NoSeller)
      else if !Truthy(query.skuId) && info.items.None? then r == Failure(ItemsUndefined)
      else r.Success?
  {
  }

  /** The SKU whose data fills the analytics event is the selected item the page exposes,
      and the id written into the product is that SKU's id whenever one is selected. */
  lemma AnalyticsSkuIsSelectedItem(product: Product, query: Query, account: string, url: string)
    requires PixelPayload(product.info, query, account, url).Success?
    ensures var payload := PixelPayload(product.info, query, account, url).value;
      var selected := Selection.SelectedItem(product, query);
      AnalyticsSku(product.info.items, Some(payload.selectedSku)) == selected &&
      (selected.Some? ==> selected.value.itemId == payload.selectedSku)
  {
  }

  /** The pixel builder of the product page. Nothing is built and nothing changes without a
      product or outside a browser document; otherwise the events are `[pageInfo, productView]`
      and the product object is given its `selectedSku`, unless a TypeError interrupts the build
      first, in which case the product is left as it was. */
  method BuildPixelEvents(product: Product?, hasDocument: bool, query: Query, account: string, url: string)
    returns (r: Result<seq<PixelEvent>, BuildError>)
    modifies product
    ensures product == null || !hasDocument ==> r == Success([])
    ensures product != null && (product.selectedSku != old(product.selectedSku)) ==> r.Success? && r.value != []
    ensures product != null && hasDocument ==>
      match PixelPayload(product.info, query, account, url)
      case Failure(e) => r == Failure(e) && product.selectedSku == old(product.selectedSku)
      case Success(payload) =>
        r == Success([PageInfoEvent(payload.pageInfo), ProductViewEvent(product)]) &&
        product.selectedSku == Some(payload.selectedSku)
  {
    if product == null || !hasDocument {
      return Success([]);
    }
    var info := product.info;
    var categories :- CategoryFieldsOf(info.categoryTree);
    var pageInfo := NewPageInfo(info, account, url, categories);

    var skuId :- AnalyticsSkuId(info.items, query);
    var sku := AnalyticsSku(info.items, skuId);
    pageInfo := pageInfo.(productEans := Some([EanOf(sku)]));

    if sku.Some? && sku.value.referenceId.Some? {
      var references := sku.value.referenceId.value;
      if references == [] {
        return Failure(NoReference);
      }
      pageInfo := pageInfo.(productReferenceId := Some(references[0].value));
    }

    if sku.Some? && sku.value.sellers.Some? {
      var sellers := sku.value.sellers.value;
      if sellers == [] {
        return Failure(NoSeller);
      }
      var offer := sellers[0].commertialOffer;
      pageInfo := pageInfo.(productListPriceFrom := Some(offer.listPrice));
      pageInfo := pageInfo.(productListPriceTo := Some(offer.listPrice));
      pageInfo := pageInfo.(productPriceFrom := Some(offer.price));
      pageInfo := pageInfo.(productPriceTo := Some(offer.price));
      pageInfo := pageInfo.(sellerId := Some(sellers[0].sellerId));
      pageInfo := pageInfo.(sellerIds := Some(sellers[0].sellerId));
    }

    if Truthy(query.skuId) {
      product.selectedSku := query.skuId;
    } else if info.items.None? {
      return Failure(ItemsUndefined);
    } else if info.items.value == [] {
      return Failure(NoFirstItem);
    } else {
      product.selectedSku := Some(info.items.value[0].itemId);
    }
    return Success([PageInfoEvent(pageInfo), ProductViewEvent(product)]);
  }
}
