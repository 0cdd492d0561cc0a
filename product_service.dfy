/** The mock REST backend (class `MockProductService` of
    src/services/productService.ts): a private, in-memory list of products
    with list, get, create, update and delete.

    What the source draws from `Math.random` and the clock is supplied by the
    caller: `networkFails`/`serverFails` say whether the simulated failure
    fires, `newId` is the generated id, and the timestamps are the strings
    `new Date().toISOString()` returns. The artificial delays are not
    modelled; every call runs to completion at once. */
module ProductService {
  import opened Wrappers
  import opened ProductTypes
  import opened JsString
  import opened KeyedList

  const NetworkErrorMessage := "Network error: Failed to fetch products"
  const NameRequiredMessage := "Product name is required"
  const CreateServerErrorMessage := "Server error: Failed to create product"
  const UpdateServerErrorMessage := "Server error: Failed to update product"
  const DeleteServerErrorMessage := "Server error: Failed to delete product"

  const FetchAllSuccessMessage := "Products fetched successfully"
  const FetchOneSuccessMessage := "Product fetched successfully"
  const CreateSuccessMessage := "Product created successfully"
  const UpdateSuccessMessage := "Product updated successfully"
  const DeleteSuccessMessage := "Product deleted successfully"

  /** The message thrown for an unknown id: the id, verbatim, between a
      fixed prefix and a fixed suffix. */
  function NotFoundMessage(id: string): (m: string)
    ensures |m| == |id| + 26
    ensures m[..16] == "Product with id " && m[16..|m| - 10] == id && m[|m| - 10..] == " not found"
  {
    var m := "Product with id " + id + " not found";
    assert m == ("Product with id " + id) + " not found";
    assert ("Product with id " + id)[16..] == id;
    m
  }

  /** Two different ids never produce the same not-found message. */
  lemma NotFoundMessageInjective(a: string, b: string)
    ensures NotFoundMessage(a) == NotFoundMessage(b) ==> a == b
  {
  }

  /** The products the service starts with: five products with distinct
      ids, each created and last updated at the same instant. */
  function SeedProducts(): (s: seq<Product>)
    ensures |s| == 5 && UniqueIds(s)
    ensures forall i :: 0 <= i < |s| ==> s[i].createdAt == s[i].updatedAt
  {
    [
    Product("1", "Laptop Pro", "High-performance laptop for professionals", 1299.99,
            "Electronics", true, "2024-01-15T10:00:00Z", "2024-01-15T10:00:00Z"),
    Product("2", "Wireless Headphones", "Premium noise-cancelling wireless headphones", 299.99,
            "Electronics", true, "2024-01-16T09:30:00Z", "2024-01-16T09:30:00Z"),
    Product("3", "Coffee Maker", "Automatic drip coffee maker with timer", 89.99,
            "Home & Kitchen", false, "2024-01-17T14:15:00Z", "2024-01-17T14:15:00Z"),
    Product("4", "Running Shoes", "Comfortable running shoes with excellent cushioning", 129.99,
            "Sports", true, "2024-01-18T11:45:00Z", "2024-01-18T11:45:00Z"),
    Product("5", "Desk Lamp", "LED desk lamp with adjustable brightness", 45.99,
            "Home & Office", true, "2024-01-19T16:20:00Z", "2024-01-19T16:20:00Z")
    ]
  }

  /** The record `createProduct` builds: the generated id, every field of the
      request, and the two clock readings. */
  function NewProduct(id: string, data: CreateProductData, createdAt: Timestamp, updatedAt: Timestamp): (p: Product)
    ensures p.id == id && Attributes(p) == data
    ensures p.createdAt == createdAt && p.updatedAt == updatedAt
  {
    Product(id, data.name, data.description, data.price, data.category, data.inStock, createdAt, updatedAt)
  }

  /** `{ ...current, ...patch, updatedAt: now }`: the fields present in the
      patch override, the others are kept. */
  function ApplyPatch(current: Product, patch: UpdateProductData, now: Timestamp): (r: Product)
    ensures r.id == patch.id && r.createdAt == current.createdAt && r.updatedAt == now
  {
    Product(
      patch.id,
      patch.name.GetOr(current.name),
      patch.description.GetOr(current.description),
      patch.price.GetOr(current.price),
      patch.category.GetOr(current.category),
      patch.inStock.GetOr(current.inStock),
      current.createdAt,
      now)
  }

  /** The patch built from `first` and then `second`: a field of `second`
      wins over the same field of `first`. */
  function Overlay(first: UpdateProductData, second: UpdateProductData): UpdateProductData {
    UpdateProductData(
      second.id,
      if second.name.Some? then second.name else first.name,
      if second.description.Some? then second.description else first.description,
      if second.price.Some? then second.price else first.price,
      if second.category.Some? then second.category else first.category,
      if second.inStock.Some? then second.inStock else first.inStock)
  }

  /** Patch semantics: a field present in the patch takes the patch's value,
      an omitted field keeps the record's value. */
  lemma PatchFieldwise(current: Product, patch: UpdateProductData, now: Timestamp)
    ensures var r := ApplyPatch(current, patch, now);
      && (patch.name.Some? ==> r.name == patch.name.value)
      && (patch.name.None? ==> r.name == current.name)
      && (patch.description.Some? ==> r.description == patch.description.value)
      && (patch.description.None? ==> r.description == current.description)
      && (patch.price.Some? ==> r.price == patch.price.value)
      && (patch.price.None? ==> r.price == current.price)
      && (patch.category.Some? ==> r.category == patch.category.value)
      && (patch.category.None? ==> r.category == current.category)
      && (patch.inStock.Some? ==> r.inStock == patch.inStock.value)
      && (patch.inStock.None? ==> r.inStock == current.inStock)
  {
  }

  /** A patch of the record's own id that names only the price changes the
      price and `updatedAt` and nothing else. */
  lemma PricePatchChangesOnlyPrice(current: Product, price: Price, now: Timestamp)
    ensures ApplyPatch(current, UpdateProductData(current.id, None, None, Some(price), None, None), now)
         == current.(price := price, updatedAt := now)
  {
  }

  /** Applying one patch and then another equals applying their overlay once:
      later fields win and the first timestamp is overwritten. */
  lemma PatchesCompose(current: Product, first: UpdateProductData, second: UpdateProductData, t1: Timestamp, t2: Timestamp)
    ensures ApplyPatch(ApplyPatch(current, first, t1), second, t2) == ApplyPatch(current, Overlay(first, second), t2)
  {
  }

  /** Repeating an update with the same patch and timestamp changes nothing. */
  lemma PatchIdempotent(current: Product, patch: UpdateProductData, now: Timestamp)
    ensures ApplyPatch(ApplyPatch(current, patch, now), patch, now) == ApplyPatch(current, patch, now)
  {
  }

  /** A patch carrying every creation field reproduces the creation: the
      attributes are those of the patch, identity and `createdAt` are kept. */
  lemma FullPatchRewritesAttributes(current: Product, data: CreateProductData, now: Timestamp)
    ensures var r := ApplyPatch(current, FullPatch(current.id, data), now);
      r == NewProduct(current.id, data, current.createdAt, now)
  {
  }

  class MockProductService {
    /** The private collection; every operation sees and changes only it. */
    var products: seq<Product>

    constructor ()
      ensures products == SeedProducts()
    {
      products := SeedProducts();
    }

    /** `getAllProducts`: a copy of the whole collection, unless the
        simulated network failure fires. */
    method GetAllProducts(networkFails: bool) returns (r: Result<ApiResponse<seq<Product>>, string>)
      ensures networkFails ==> r == Failure(NetworkErrorMessage)
      ensures !networkFails ==> r == Success(ApiResponse(products, FetchAllSuccessMessage, true))
    {
      if networkFails {
        return Failure(NetworkErrorMessage);
      }
      return Success(ApiResponse(products, FetchAllSuccessMessage, true));
    }

    /** `getProductById`: the first product holding `id`; an unknown id
        throws the not-found message. */
    method GetProductById(id: string) returns (r: Result<ApiResponse<Product>, string>)
      ensures !HasId(products, id) ==> r == Failure(NotFoundMessage(id))
      ensures HasId(products, id) ==>
        r == Success(ApiResponse(products[IndexOfId(products, id)], FetchOneSuccessMessage, true))
      ensures r.Success? ==> r.value.data in products && r.value.data.id == id
    {
      var product := Find(products, id);
      if product.None? {
        return Failure(NotFoundMessage(id));
      }
      return Success(ApiResponse(product.value, FetchOneSuccessMessage, true));
    }

    /** `createProduct`: a name that is blank after trimming is refused before
        the simulated server failure is consulted; otherwise the new product
        is appended. Both failures leave the collection as it was. */
    method CreateProduct(data: CreateProductData, serverFails: bool, newId: string,
                         createdAt: Timestamp, updatedAt: Timestamp)
      returns (r: Result<ApiResponse<Product>, string>)
      modifies this
      ensures Trim(data.name) == [] ==> r == Failure(NameRequiredMessage) && products == old(products)
      ensures Trim(data.name) != [] && serverFails ==>
        r == Failure(CreateServerErrorMessage) && products == old(products)
      ensures Trim(data.name) != [] && !serverFails ==>
        var p := NewProduct(newId, data, createdAt, updatedAt);
        && r == Success(ApiResponse(p, CreateSuccessMessage, true))
        && products == old(products) + [p]
      ensures UniqueIds(old(products)) && !HasId(old(products), newId) ==> UniqueIds(products)
    {
      if Trim(data.name) == [] {
        return Failure(NameRequiredMessage);
      }
      if serverFails {
        return Failure(CreateServerErrorMessage);
      }
      var p := NewProduct(newId, data, createdAt, updatedAt);
      if UniqueIds(products) && !HasId(products, newId) {
        AppendFreshKeepsUnique(products, p);
      }
      products := products + [p];
      return Success(ApiResponse(p, CreateSuccessMessage, true));
    }

    /** `updateProduct`: an unknown id is refused before the simulated server
        failure is consulted; otherwise the first record holding the id is
        overwritten, in place, by the patch merged over it. */
    method UpdateProduct(patch: UpdateProductData, serverFails: bool, now: Timestamp)
      returns (r: Result<ApiResponse<Product>, string>)
      modifies this
      ensures !HasId(old(products), patch.id) ==>
        r == Failure(NotFoundMessage(patch.id)) && products == old(products)
      ensures HasId(old(products), patch.id) && serverFails ==>
        r == Failure(UpdateServerErrorMessage) && products == old(products)
      ensures HasId(old(products), patch.id) && !serverFails ==>
        var k := IndexOfId(old(products), patch.id);
        var u := ApplyPatch(old(products)[k], patch, now);
        && r == Success(ApiResponse(u, UpdateSuccessMessage, true))
        && products == old(products)[k := u]
      ensures |products| == |old(products)|
      ensures UniqueIds(old(products)) ==> UniqueIds(products)
    {
      var index := FindIndex(products, patch.id);
      if index == -1 {
        return Failure(NotFoundMessage(patch.id));
      }
      if serverFails {
        return Failure(UpdateServerErrorMessage);
      }
      var updated := ApplyPatch(products[index], patch, now);
      if UniqueIds(products) {
        ReplaceKeepsUnique(products, index, updated);
      }
      products := products[index := updated];
      return Success(ApiResponse(updated, UpdateSuccessMessage, true));
    }

    /** `deleteProduct`: an unknown id is refused before the simulated server
        failure is consulted; otherwise the first record holding the id is
        spliced out. */
    method DeleteProduct(id: string, serverFails: bool) returns (r: Result<ApiResponse<()>, string>)
      modifies this
      ensures !HasId(old(products), id) ==> r == Failure(NotFoundMessage(id)) && products == old(products)
      ensures HasId(old(products), id) && serverFails ==>
        r == Failure(DeleteServerErrorMessage) && products == old(products)
      ensures HasId(old(products), id) && !serverFails ==>
        && r == Success(ApiResponse((), DeleteSuccessMessage, true))
        && products == RemoveAt(old(products), IndexOfId(old(products), id))
      ensures UniqueIds(old(products)) ==> UniqueIds(products)
      ensures UniqueIds(old(products)) && r.Success? ==> products == RemoveId(old(products), id)
    {
      var index := FindIndex(products, id);
      if index == -1 {
        return Failure(NotFoundMessage(id));
      }
      if serverFails {
        return Failure(DeleteServerErrorMessage);
      }
      if UniqueIds(products) {
        RemoveAtKeepsUnique(products, index);
        SpliceAgreesWithFilter(products, id);
      }
      products := RemoveAt(products, index);
      return Success(ApiResponse((), DeleteSuccessMessage, true));
    }
  }
}
