/** The products slice of the client store (src/store/productsSlice.ts):
    the state record, its case reducers, and the five async operations that
    call the backend and settle the state through pending, fulfilled and
    rejected transitions. Each transition runs atomically; overlapping
    operations are not modelled. */
module ProductsSlice {
  import opened Wrappers
  import opened ProductTypes
  import opened KeyedList
  import opened JsString
  import ProductService

  /** The five async operations. */
  datatype Operation = FetchProducts | FetchProductById | CreateProduct | UpdateProduct | DeleteProduct

  /** The rejection text used when the thrown value is not an `Error`: a
      non-empty sentence that starts with "Failed to ". */
  function Fallback(op: Operation): (r: string)
    ensures |r| > 10 && r[..10] == "Failed to "
  {
    match op
    case FetchProducts => "Failed to fetch products"
    case FetchProductById => "Failed to fetch product"
    case CreateProduct => "Failed to create product"
    case UpdateProduct => "Failed to update product"
    case DeleteProduct => "Failed to delete product"
  }

  /** What an awaited call can throw: an `Error` object with its message, or
      any other value. */
  datatype Thrown = ErrorObject(message: string) | NonError

  /** The rejection payload of a thunk: the message of an `Error`, verbatim
      (even when empty), otherwise the operation's fallback text. */
  function RejectionMessage(thrown: Thrown, op: Operation): (msg: string)
    ensures thrown.ErrorObject? ==> msg == thrown.message
    ensures thrown.NonError? ==> msg == Fallback(op) && |msg| > 0
  {
    match thrown
    case ErrorObject(m) => m
    case NonError => Fallback(op)
  }

  /** Each operation has its own fallback, so a non-`Error` rejection
      still tells which operation failed. */
  lemma FallbacksAreDistinct(a: Operation, b: Operation)
    ensures a != b ==> Fallback(a) != Fallback(b)
  {
  }

  /** The slice state (`ProductsState` in src/types/product.ts). */
  class ProductsState {
    var products: seq<Product>
    var selectedProduct: Option<Product>
    var loading: bool
    var error: Option<string>

    /** `initialState`. */
    constructor ()
      ensures products == [] && selectedProduct == None && !loading && error == None
    {
      products := [];
      selectedProduct := None;
      loading := false;
      error := None;
    }

    /** `clearError`: only the error is reset. */
    method ClearError()
      modifies this`error
      ensures error == None
      ensures products == old(products) && selectedProduct == old(selectedProduct) && loading == old(loading)
    {
      error := None;
    }

    /** `clearSelectedProduct`: only the selection is reset. */
    method ClearSelectedProduct()
      modifies this`selectedProduct
      ensures selectedProduct == None
      ensures products == old(products) && loading == old(loading) && error == old(error)
    {
      selectedProduct := None;
    }

    // ---- pending: every operation marks the state busy and clears the error

    method FetchProductsPending()
      modifies this`loading, this`error
      ensures loading && error == None
      ensures products == old(products) && selectedProduct == old(selectedProduct)
    {
      loading := true;
      error := None;
    }

    method FetchProductByIdPending()
      modifies this`loading, this`error
      ensures loading && error == None
      ensures products == old(products) && selectedProduct == old(selectedProduct)
    {
      loading := true;
      error := None;
    }

    method CreateProductPending()
      modifies this`loading, this`error
      ensures loading && error == None
      ensures products == old(products) && selectedProduct == old(selectedProduct)
    {
      loading := true;
      error := None;
    }

    method UpdateProductPending()
      modifies this`loading, this`error
      ensures loading && error == None
      ensures products == old(products) && selectedProduct == old(selectedProduct)
    {
      loading := true;
      error := None;
    }

    method DeleteProductPending()
      modifies this`loading, this`error
      ensures loading && error == None
      ensures products == old(products) && selectedProduct == old(selectedProduct)
    {
      loading := true;
      error := None;
    }

    // ---- rejected: every operation clears the busy flag and records the payload

    method FetchProductsRejected(payload: string)
      modifies this`loading, this`error
      ensures !loading && error == Some(payload)
      ensures products == old(products) && selectedProduct == old(selectedProduct)
    {
      loading := false;
      error := Some(payload);
    }

    method FetchProductByIdRejected(payload: string)
      modifies this`loading, this`error
      ensures !loading && error == Some(payload)
      ensures products == old(products) && selectedProduct == old(selectedProduct)
    {
      loading := false;
      error := Some(payload);
    }

    method CreateProductRejected(payload: string)
      modifies this`loading, this`error
      ensures !loading && error == Some(payload)
      ensures products == old(products) && selectedProduct == old(selectedProduct)
    {
      loading := false;
      error := Some(payload);
    }

    method UpdateProductRejected(payload: string)
      modifies this`loading, this`error
      ensures !loading && error == Some(payload)
      ensures products == old(products) && selectedProduct == old(selectedProduct)
    {
      loading := false;
      error := Some(payload);
    }

    method DeleteProductRejected(payload: string)
      modifies this`loading, this`error
      ensures !loading && error == Some(payload)
      ensures products == old(products) && selectedProduct == old(selectedProduct)
    {
      loading := false;
      error := Some(payload);
    }

    // ---- fulfilled

    /** The fetched list replaces the old one wholesale. */
    method FetchProductsFulfilled(payload: seq<Product>)
      modifies this`loading, this`products
      ensures !loading && products == payload
      ensures selectedProduct == old(selectedProduct) && error == old(error)
    {
      loading := false;
      products := payload;
    }

    /** The fetched product becomes the selection; the list is untouched. */
    method FetchProductByIdFulfilled(payload: Product)
      modifies this`loading, this`selectedProduct
      ensures !loading && selectedProduct == Some(payload)
      ensures products == old(products) && error == old(error)
    {
      loading := false;
      selectedProduct := Some(payload);
    }

    /** The created product is pushed at the end of the list. */
    method CreateProductFulfilled(payload: Product)
      modifies this`loading, this`products
      ensures !loading && products == old(products) + [payload]
      ensures |products| == |old(products)| + 1 && products[..|old(products)|] == old(products)
      ensures selectedProduct == old(selectedProduct) && error == old(error)
    {
      loading := false;
      products := products + [payload];
    }

    /** The first list entry with the payload's id is overwritten in place (no
        insertion when there is none); independently, a selection with that
        id is replaced too. */
    method UpdateProductFulfilled(payload: Product)
      modifies this`loading, this`products, this`selectedProduct
      ensures !loading && error == old(error)
      ensures var k := IndexOfId(old(products), payload.id);
        products == if k == -1 then old(products) else old(products)[k := payload]
      ensures |products| == |old(products)|
      ensures forall i :: 0 <= i < |products| && old(products)[i].id != payload.id ==> products[i] == old(products)[i]
      ensures selectedProduct ==
        if old(selectedProduct).Some? && old(selectedProduct).value.id == payload.id
        then Some(payload) else old(selectedProduct)
    {
      loading := false;
      var index := FindIndex(products, payload.id);
      if index != -1 {
        products := products[index := payload];
      }
      if selectedProduct.Some? && selectedProduct.value.id == payload.id {
        selectedProduct := Some(payload);
      }
    }

    /** Every list entry with the deleted id is filtered out, the others keep
        their order; a selection with that id is cleared. */
    method DeleteProductFulfilled(id: string)
      modifies this`loading, this`products, this`selectedProduct
      ensures !loading && error == old(error)
      ensures products == RemoveId(old(products), id) && !HasId(products, id)
      ensures selectedProduct ==
        if old(selectedProduct).Some? && old(selectedProduct).value.id == id
        then None else old(selectedProduct)
    {
      loading := false;
      RemoveIdIdempotent(products, id);
      products := RemoveId(products, id);
      if selectedProduct.Some? && selectedProduct.value.id == id {
        selectedProduct := None;
      }
    }
  }

  /** The store's list mirrors the backend's collection. */
  predicate Mirrors(state: ProductsState, service: ProductService.MockProductService)
    reads state, service
  {
    state.products == service.products
  }

  // ---- the async thunks: pending, the backend call, then fulfilled or rejected

  /** `fetchProducts`. On success the list becomes the backend's collection. */
  method FetchProductsThunk(state: ProductsState, service: ProductService.MockProductService, networkFails: bool)
    modifies state
    ensures !state.loading && state.selectedProduct == old(state.selectedProduct)
    ensures networkFails ==>
      state.error == Some(ProductService.NetworkErrorMessage) && state.products == old(state.products)
    ensures !networkFails ==> state.error == None && Mirrors(state, service)
  {
    state.FetchProductsPending();
    var r := service.GetAllProducts(networkFails);
    match r
    case Success(response) =>
      state.FetchProductsFulfilled(response.data);
    case Failure(message) =>
      state.FetchProductsRejected(RejectionMessage(ErrorObject(message), FetchProducts));
  }

  /** `fetchProductById`. On success the backend's first match is selected. */
  method FetchProductByIdThunk(state: ProductsState, service: ProductService.MockProductService, id: string)
    modifies state
    ensures !state.loading && state.products == old(state.products)
    ensures !HasId(service.products, id) ==>
      state.error == Some(ProductService.NotFoundMessage(id))
      && state.selectedProduct == old(state.selectedProduct)
    ensures HasId(service.products, id) ==>
      state.error == None
      && state.selectedProduct == Some(service.products[IndexOfId(service.products, id)])
  {
    state.FetchProductByIdPending();
    var r := service.GetProductById(id);
    match r
    case Success(response) =>
      state.FetchProductByIdFulfilled(response.data);
    case Failure(message) =>
      state.FetchProductByIdRejected(RejectionMessage(ErrorObject(message), FetchProductById));
  }

  /** `createProduct`. Both sides append the same new product, so a store
      that mirrored the backend still does. */
  method CreateProductThunk(state: ProductsState, service: ProductService.MockProductService,
                            data: CreateProductData, serverFails: bool, newId: string,
                            createdAt: Timestamp, updatedAt: Timestamp)
    modifies state, service
    ensures !state.loading && state.selectedProduct == old(state.selectedProduct)
    ensures Trim(data.name) == [] ==>
      state.error == Some(ProductService.NameRequiredMessage)
      && state.products == old(state.products) && service.products == old(service.products)
    ensures Trim(data.name) != [] && serverFails ==>
      state.error == Some(ProductService.CreateServerErrorMessage)
      && state.products == old(state.products) && service.products == old(service.products)
    ensures Trim(data.name) != [] && !serverFails ==>
      var p := ProductService.NewProduct(newId, data, createdAt, updatedAt);
      && state.error == None
      && state.products == old(state.products) + [p]
      && service.products == old(service.products) + [p]
    ensures old(Mirrors(state, service)) ==> Mirrors(state, service)
  {
    state.CreateProductPending();
    var r := service.CreateProduct(data, serverFails, newId, createdAt, updatedAt);
    match r
    case Success(response) =>
      state.CreateProductFulfilled(response.data);
    case Failure(message) =>
      state.CreateProductRejected(RejectionMessage(ErrorObject(message), CreateProduct));
  }

  /** `updateProduct`. The backend overwrites its first match and the store
      overwrites the entry at the same position, so a mirror stays a mirror;
      a selection with the id takes the updated record. */
  method UpdateProductThunk(state: ProductsState, service: ProductService.MockProductService,
                            patch: UpdateProductData, serverFails: bool, now: Timestamp)
    modifies state, service
    ensures !state.loading
    ensures !HasId(old(service.products), patch.id) ==>
      state.error == Some(ProductService.NotFoundMessage(patch.id))
    ensures HasId(old(service.products), patch.id) && serverFails ==>
      state.error == Some(ProductService.UpdateServerErrorMessage)
    ensures state.error.Some? ==>
      && state.products == old(state.products) && state.selectedProduct == old(state.selectedProduct)
      && service.products == old(service.products)
    ensures HasId(old(service.products), patch.id) && !serverFails ==>
      var k := IndexOfId(old(service.products), patch.id);
      var u := ProductService.ApplyPatch(old(service.products)[k], patch, now);
      var j := IndexOfId(old(state.products), patch.id);
      && state.error == None
      && service.products == old(service.products)[k := u]
      && state.products == (if j == -1 then old(state.products) else old(state.products)[j := u])
      && state.selectedProduct ==
           if old(state.selectedProduct).Some? && old(state.selectedProduct).value.id == patch.id
           then Some(u) else old(state.selectedProduct)
    ensures old(Mirrors(state, service)) ==> Mirrors(state, service)
  {
    state.UpdateProductPending();
    var r := service.UpdateProduct(patch, serverFails, now);
    match r
    case Success(response) =>
      state.UpdateProductFulfilled(response.data);
    case Failure(message) =>
      state.UpdateProductRejected(RejectionMessage(ErrorObject(message), UpdateProduct));
  }

  /** `deleteProduct`. The backend splices its first match and the store
      filters every match; over a collection with unique ids they remove the
      same element, so a mirror stays a mirror. */
  method DeleteProductThunk(state: ProductsState, service: ProductService.MockProductService,
                            id: string, serverFails: bool)
    modifies state, service
    ensures !state.loading
    ensures !HasId(old(service.products), id) ==>
      state.error == Some(ProductService.NotFoundMessage(id))
    ensures HasId(old(service.products), id) && serverFails ==>
      state.error == Some(ProductService.DeleteServerErrorMessage)
    ensures state.error.Some? ==>
      && state.products == old(state.products) && state.selectedProduct == old(state.selectedProduct)
      && service.products == old(service.products)
    ensures HasId(old(service.products), id) && !serverFails ==>
      && state.error == None
      && service.products == RemoveAt(old(service.products), IndexOfId(old(service.products), id))
      && state.products == RemoveId(old(state.products), id)
      && state.selectedProduct ==
           if old(state.selectedProduct).Some? && old(state.selectedProduct).value.id == id
           then None else old(state.selectedProduct)
    ensures old(Mirrors(state, service)) && UniqueIds(old(service.products)) ==>
      Mirrors(state, service) && UniqueIds(service.products)
  {
    state.DeleteProductPending();
    var r := service.DeleteProduct(id, serverFails);
    match r
    case Success(_) =>
      state.DeleteProductFulfilled(id);
    case Failure(message) =>
      state.DeleteProductRejected(RejectionMessage(ErrorObject(message), DeleteProduct));
  }
}
