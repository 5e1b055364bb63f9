/**
 * The product handlers: input checks and normalisation on add, the update
 * object built on update, the filter and sort built for a listing, and the
 * guards on removal. Product bodies arrive as multipart form fields, so every
 * field may be a string; JSON bodies may carry numbers and booleans as well.
 */
module ProductController {
  import opened Wrappers
  import opened JsValues

  datatype Product = Product(
    name: string,
    description: string,
    category: string,
    price: int,
    subCategory: string,
    bestseller: bool,
    sizes: seq<string>,
    image: seq<string>,
    discount: int,
    date: int)

  /** `Math.min(100, Math.max(0, n))`. */
  function Clamp(n: int): (r: int)
    ensures 0 <= r <= 100
    ensures 0 <= n <= 100 ==> r == n
    ensures n < 0 ==> r == 0
    ensures n > 100 ==> r == 100
  {
    var atLeastZero := if n > 0 then n else 0;
    if atLeastZero < 100 then atLeastZero else 100
  }

  /** `Math.min(100, Math.max(0, Number(v)))`; NaN passes through both and stays None. */
  function DiscountOf(v: JsValue): (r: Option<int>)
    ensures r.None? <==> ToNumber(v).None?
    ensures r.Some? ==> 0 <= r.value <= 100 && r.value == Clamp(ToNumber(v).value)
  {
    match ToNumber(v)
    case None => None
    case Some(n) => Some(Clamp(n))
  }

  /** `bestseller === "true"`. */
  predicate IsBestseller(v: JsValue) {
    v == Str("true")
  }

  /** The fields of an add request the handler reads; an empty string stands for an absent text field. */
  datatype AddRequest = AddRequest(
    name: string,
    description: string,
    price: JsValue,
    category: string,
    subCategory: string,
    sizes: JsValue,
    bestseller: JsValue,
    discount: JsValue)

  /** Line 19: the falsy-field check. */
  predicate MissingRequired(req: AddRequest) {
    req.name == "" || req.description == "" || !Truthy(req.price) || req.category == "" || req.subCategory == ""
  }

  /**
   * The price is tested for truthiness before it is converted: a price sent
   * as the form text "0" passes line 19 and converts to a stored price of 0,
   * while a JSON number 0 is refused as a missing field.
   */
  lemma ZeroPriceTextAccepted(req: AddRequest)
    ensures req.price == Str("0") ==>
      && ToNumber(req.price) == Some(0)
      && (MissingRequired(req) <==>
            req.name == "" || req.description == "" || req.category == "" || req.subCategory == "")
    ensures req.price == Num(0) ==> MissingRequired(req)
  {
    ZeroStringTruthy();
  }

  /** `discount = 0` in the destructuring: the default applies only to an absent field. */
  function DiscountInput(v: JsValue): JsValue {
    if v.Undefined? then Num(0) else v
  }

  /** An absent discount is stored as 0. */
  lemma DiscountDefaultsToZero()
    ensures DiscountOf(DiscountInput(Undefined)) == Some(0)
  {
  }

  /** The stored discount of an add request lies in [0, 100] whenever it is a number at all. */
  lemma StoredDiscountInRange(v: JsValue)
    requires ToNumber(DiscountInput(v)).Some?
    ensures DiscountOf(DiscountInput(v)).Some? && 0 <= DiscountOf(DiscountInput(v)).value <= 100
  {
  }

  // ---------------------------------------------------------------------------
  // The update object of updateProduct.

  /** A value of the update object: a body field as given, or one the handler converted. */
  datatype FieldValue = Raw(v: JsValue) | NumberValue(n: Option<int>) | BoolValue(b: bool) | StringList(xs: seq<string>)

  predicate Given(data: map<string, JsValue>, k: string) {
    k in data && !data[k].Undefined?
  }

  /** The keys whose value the handler converts instead of copying. */
  predicate Converted(data: map<string, JsValue>, updatedImages: Option<seq<string>>, k: string) {
    || (k == "price" && k in data && Truthy(data[k]))
    || (k == "discount" && Given(data, k))
    || (k == "image" && updatedImages.Some?)
    || (k == "bestseller" && Given(data, k))
  }

  /** Lines 120-130: the body spread, then price, discount, images and bestseller overridden when supplied. */
  function UpdateObject(data: map<string, JsValue>, updatedImages: Option<seq<string>>): (u: map<string, FieldValue>)
    ensures u.Keys == data.Keys + (if updatedImages.Some? then {"image"} else {})
    ensures "price" in data && Truthy(data["price"]) ==> u["price"] == NumberValue(ToNumber(data["price"]))
    ensures Given(data, "discount") ==> u["discount"] == NumberValue(DiscountOf(data["discount"]))
    ensures updatedImages.Some? ==> u["image"] == StringList(updatedImages.value)
    ensures Given(data, "bestseller") ==> u["bestseller"] == BoolValue(IsBestseller(data["bestseller"]))
    ensures forall k :: k in data && !Converted(data, updatedImages, k) ==> u[k] == Raw(data[k])
  {
    var spread := map k | k in data :: Raw(data[k]);
    var withPrice :=
      if "price" in data && Truthy(data["price"]) then spread["price" := NumberValue(ToNumber(data["price"]))]
      else spread;
    var withDiscount :=
      if Given(data, "discount") then withPrice["discount" := NumberValue(DiscountOf(data["discount"]))]
      else withPrice;
    var withImages :=
      if updatedImages.Some? then withDiscount["image" := StringList(updatedImages.value)]
      else withDiscount;
    if Given(data, "bestseller") then withImages["bestseller" := BoolValue(IsBestseller(data["bestseller"]))]
    else withImages
  }

  /**
   * The `!== undefined` tests let a JSON `null` through: a null discount is
   * stored as `Number(null)` clamped, which is 0, and a null bestseller as false.
   */
  lemma NullFieldsConverted(data: map<string, JsValue>, updatedImages: Option<seq<string>>)
    ensures "discount" in data && data["discount"] == Null ==>
      UpdateObject(data, updatedImages)["discount"] == NumberValue(Some(0))
    ensures "bestseller" in data && data["bestseller"] == Null ==>
      UpdateObject(data, updatedImages)["bestseller"] == BoolValue(false)
  {
  }

  // ---------------------------------------------------------------------------
  // The filter and sort of listProducts.

  datatype ListQuery = ListQuery(
    category: Option<string>,
    subCategory: Option<string>,
    onDiscount: Option<string>,
    sortBy: Option<string>,
    sortOrder: Option<string>)

  /** The filter object: each field is either absent or a condition on products. */
  datatype ProductFilter = ProductFilter(category: Option<string>, subCategory: Option<string>, discountPositive: bool)

  datatype SortKey = ByDiscount | ByPrice | ByDate

  /** The sort object: exactly one key, with direction 1 (ascending) or -1 (descending). */
  datatype SortSpec = SortSpec(key: SortKey, direction: int)

  /** The products `find(filter)` returns. */
  predicate Matches(f: ProductFilter, p: Product) {
    (f.category.Some? ==> p.category == f.category.value) &&
    (f.subCategory.Some? ==> p.subCategory == f.subCategory.value) &&
    (f.discountPositive ==> p.discount > 0)
  }

  /** Lines 177-189: the filter and the sort, built field by field. */
  method BuildListQuery(q: ListQuery) returns (filter: ProductFilter, sort: SortSpec)
    ensures filter.category == (if Present(q.category) && q.category.value != "All" then q.category else None)
    ensures filter.subCategory == (if Present(q.subCategory) then q.subCategory else None)
    ensures filter.discountPositive <==> q.onDiscount == Some("true")
    ensures forall p :: Matches(filter, p) <==>
      && (Present(q.category) && q.category.value != "All" ==> p.category == q.category.value)
      && (Present(q.subCategory) ==> p.subCategory == q.subCategory.value)
      && (q.onDiscount == Some("true") ==> p.discount > 0)
    ensures sort.key == ByDiscount <==> q.sortBy == Some("discount")
    ensures sort.key == ByPrice <==> q.sortBy == Some("price")
    ensures sort.direction == 1 <==> q.sortOrder == Some("asc")
    ensures sort.direction == 1 || sort.direction == -1
    ensures q.sortBy.None? && q.sortOrder.None? ==> sort == SortSpec(ByDate, -1)
  {
    var sortBy := if q.sortBy.Some? then q.sortBy.value else "date";
    var sortOrder := if q.sortOrder.Some? then q.sortOrder.value else "desc";
    filter := ProductFilter(None, None, false);
    if Present(q.category) && q.category.value != "All" {
      filter := filter.(category := q.category);
    }
    if Present(q.subCategory) {
      filter := filter.(subCategory := q.subCategory);
    }
    if q.onDiscount == Some("true") {
      filter := filter.(discountPositive := true);
    }
    var direction := if sortOrder == "asc" then 1 else -1;
    if sortBy == "discount" {
      sort := SortSpec(ByDiscount, direction);
    } else if sortBy == "price" {
      sort := SortSpec(ByPrice, direction);
    } else {
      sort := SortSpec(ByDate, direction);
    }
  }

  // ---------------------------------------------------------------------------
  // The handlers over the product collection.

  datatype ProductError = MissingFields | MissingId | InvalidSizes | ProductNotFound | ServerError

  /** The text of an id field; any other value fails the ObjectId cast. */
  function IdText(v: JsValue): Option<string> {
    if v.Str? then Some(v.s) else None
  }

  class ProductStore {
    /** The product collection, keyed by id. */
    var products: map<string, Product>

    constructor ()
      ensures products == map[]
    {
      products := map[];
    }

    /**
     * addProduct (lines 5-84). `imagesUrl` are the uploaded images' URLs,
     * `parsedSizes` the result of `JSON.parse(sizes)` when it is an array,
     * and `newId` the id the database assigns. A price or discount that is
     * not a number fails the schema cast when the product is created.
     */
    method AddProduct(req: AddRequest, imagesUrl: seq<string>, parsedSizes: Option<seq<string>>, newId: string, now: int)
      returns (r: Result<string, ProductError>)
      requires newId !in products
      modifies this
      ensures MissingRequired(req) ==> r == Err(MissingFields) && products == old(products)
      ensures !MissingRequired(req) && Truthy(req.sizes) && parsedSizes.None? ==>
        r == Err(InvalidSizes) && products == old(products)
      ensures !MissingRequired(req) && !(Truthy(req.sizes) && parsedSizes.None?) &&
              (ToNumber(req.price).None? || DiscountOf(DiscountInput(req.discount)).None?) ==>
        r == Err(ServerError) && products == old(products)
      ensures r.Ok? ==>
        && !MissingRequired(req)
        && r.value == newId
        && products.Keys == old(products).Keys + {newId}
        && (forall id :: id in old(products) ==> products[id] == old(products)[id])
        && products[newId] == Product(
             req.name, req.description, req.category, ToNumber(req.price).value, req.subCategory,
             IsBestseller(req.bestseller),
             if Truthy(req.sizes) then parsedSizes.value else [],
             imagesUrl,
             DiscountOf(DiscountInput(req.discount)).value,
             now)
        && 0 <= products[newId].discount <= 100
      ensures r.Err? ==> products == old(products)
      ensures (!MissingRequired(req) && !(Truthy(req.sizes) && parsedSizes.None?) &&
               ToNumber(req.price).Some? && DiscountOf(DiscountInput(req.discount)).Some?) ==> r.Ok?
    {
      if MissingRequired(req) {
        return Err(MissingFields);
      }
      var sizes: seq<string> := [];
      if Truthy(req.sizes) {
        if parsedSizes.None? {
          return Err(InvalidSizes);
        }
        sizes := parsedSizes.value;
      }
      var price := ToNumber(req.price);
      var discount := DiscountOf(DiscountInput(req.discount));
      if price.None? || discount.None? {
        return Err(ServerError);
      }
      var product := Product(req.name, req.description, req.category, price.value, req.subCategory,
                             IsBestseller(req.bestseller), sizes, imagesUrl, discount.value, now);
      products := products[newId := product];
      r := Ok(newId);
    }

    /**
     * updateProduct (lines 87-172). `updatedImages` are the URLs of newly
     * uploaded images, if any were sent; `parsedSizes` is `JSON.parse(sizes)`
     * when it is an array; `isObjectId` is whether an id string casts to an
     * ObjectId. `findByIdAndUpdate` with `runValidators` casts the filter, then
     * casts and validates the update object, and only then looks the product
     * up: `updateRejected` is that cast and validation failing, which depends
     * on the update object alone, and `applyUpdate` is the update applied to
     * the stored product.
     */
    method UpdateProduct(body: map<string, JsValue>, updatedImages: Option<seq<string>>,
                         parsedSizes: Option<seq<string>>, isObjectId: string -> bool,
                         updateRejected: map<string, FieldValue> -> bool,
                         applyUpdate: (Product, map<string, FieldValue>) -> Product)
      returns (r: Result<Product, ProductError>)
      modifies this
      ensures r.Err? ==> products == old(products)
      ensures !("id" in body && Truthy(body["id"])) ==> r == Err(MissingId)
      ensures "id" in body && Truthy(body["id"]) ==>
        var data := body - {"id"};
        var update := UpdateObject(data, updatedImages);
        if "sizes" in data && Truthy(data["sizes"]) && parsedSizes.None? then r == Err(InvalidSizes)
        else if IdText(body["id"]).None? || !isObjectId(IdText(body["id"]).value) then r == Err(ServerError)
        else
          var id := IdText(body["id"]).value;
          var full := if "sizes" in data && Truthy(data["sizes"])
                      then update["sizes" := StringList(parsedSizes.value)] else update;
          if updateRejected(full) then r == Err(ServerError)
          else if id !in old(products) then r == Err(ProductNotFound)
          else
            && r == Ok(applyUpdate(old(products)[id], full))
            && products == old(products)[id := r.value]
    {
      if !("id" in body && Truthy(body["id"])) {
        return Err(MissingId);
      }
      var data := body - {"id"};
      var update := UpdateObject(data, updatedImages);
      if "sizes" in data && Truthy(data["sizes"]) {
        if parsedSizes.None? {
          return Err(InvalidSizes);
        }
        update := update["sizes" := StringList(parsedSizes.value)];
      }
      var id := IdText(body["id"]);
      if id.None? || !isObjectId(id.value) {
        return Err(ServerError);
      }
      if updateRejected(update) {
        return Err(ServerError);
      }
      if id.value !in products {
        return Err(ProductNotFound);
      }
      var updated := applyUpdate(products[id.value], update);
      products := products[id.value := updated];
      r := Ok(updated);
    }

    /**
     * removeProduct (lines 212-245); an id that does not cast to an ObjectId
     * makes the delete throw, which the handler reports as a server error.
     */
    method RemoveProduct(id: Option<string>, isObjectId: string -> bool) returns (r: Result<Product, ProductError>)
      modifies this
      ensures !Present(id) ==> r == Err(MissingId) && products == old(products)
      ensures Present(id) && !isObjectId(id.value) ==> r == Err(ServerError) && products == old(products)
      ensures Present(id) && isObjectId(id.value) && id.value !in old(products) ==>
        r == Err(ProductNotFound) && products == old(products)
      ensures Present(id) && isObjectId(id.value) && id.value in old(products) ==>
        r == Ok(old(products)[id.value]) && products == old(products) - {id.value}
    {
      if !Present(id) {
        return Err(MissingId);
      }
      if !isObjectId(id.value) {
        return Err(ServerError);
      }
      if id.value !in products {
        return Err(ProductNotFound);
      }
      var removed := products[id.value];
      products := products - {id.value};
      r := Ok(removed);
    }
  }
}
