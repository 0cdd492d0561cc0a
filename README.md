# Product inventory store and mock backend, in Dafny

This project models the state-synchronisation core of a small product
inventory single-page application:

* the **products slice** of the client store (`src/store/productsSlice.ts`):
  the state record (`products`, `selectedProduct`, `loading`, `error`), its
  two synchronous reducers, the pending / fulfilled / rejected case reducers
  of the five async operations, and the rule that turns a thrown value into
  the rejection message;
* the **mock backend** (`MockProductService` in
  `src/services/productService.ts`): a private in-memory list of products with
  list, get, create, update and delete, including its validation, its exact
  error messages, its patch semantics and its in-place list updates.

Module layout:

| file | module | what it holds |
|---|---|---|
| `wrappers.dfy` | `Wrappers` | `Option` (for `null`/omitted) and `Result` (return or throw) |
| `product_types.dfy` | `ProductTypes` | `Product`, `CreateProductData`, the partial `UpdateProductData`, `ApiResponse` |
| `js_string.dfy` | `JsString` | JavaScript `trim` and its white-space set |
| `keyed_list.dfy` | `KeyedList` | `findIndex`/`find` by id as loops, `filter` on the id, `splice` of one index, and what they preserve |
| `product_service.dfy` | `ProductService` | the backend class, its messages, record construction and patch merge |
| `products_slice.dfy` | `ProductsSlice` | the state class with one method per case reducer, the rejection rule, and the five thunks composing store and backend |
| `scenarios.dfy` | `Scenarios` | client code replaying the documented scenarios through the contracts |

The state that the source updates in place is modelled as classes: the
backend's private array is a `seq<Product>` field that `push`, index
assignment and `splice` reassign, and the store state is a class whose case
reducers are methods with field-level `modifies` frames, so each frame also
says which fields a transition leaves alone. The searches (`find`,
`findIndex`) are loops proved against the specification function
`IndexOfId`.

The thunk methods run one operation from end to end: the pending reducer, the
backend call, then the fulfilled or rejected reducer. Besides the final
`loading`/`error` values, their contracts show that a store whose list
mirrors the backend's collection still mirrors it afterwards. For delete,
this holds only when ids are unique. The reason is that the store filters
out every entry with the id, while the backend splices out only the first
(`KeyedList.SpliceAgreesWithFilter`, `KeyedList.SpliceDiffersFromFilterOnDuplicates`).

Three points where the model follows the code literally, rather than the
intent stated in its comments and names:
* Ids are not guaranteed unique. `generateId` draws from `Math.random`, and
  neither the backend nor the store checks for duplicates. Uniqueness is
  therefore a hypothesis of the lemmas that need it, never a claimed
  invariant.
* The rejection text falls back to the per-operation string only when the
  thrown value is not an `Error`. An `Error` whose message is empty still
  yields its (empty) message.
* `createProduct` reads the clock twice, so `createdAt` and `updatedAt` are
  two separate inputs. They agree only when both readings agree.

## Model

| member | source | states |
|---|---|---|
| `JsString.TrimStart` | src/services/productService.ts:178 | the result is a suffix of the input, the dropped prefix is all white space, and the result does not start with white space |
| `JsString.TrimEnd` | src/services/productService.ts:178 | the result is a prefix of the input, the dropped suffix is all white space, and the result does not end with white space |
| `JsString.TrimEmptyIffAllWhiteSpace` | src/services/productService.ts:178 | `name.trim()` is empty exactly when every character of the name is JavaScript white space or a line terminator |
| `JsString.Trim` | src/services/productService.ts:178 | `name.trim()` is a contiguous slice of the name whose dropped prefix and dropped suffix are all white space, and whose own first and last characters are not |
| `KeyedList.IndexOfId` | src/services/productService.ts:222 | `findIndex` by id: -1 exactly when no element has the id, otherwise an index holding the id with no earlier index holding it |
| `KeyedList.FindIndex` | src/store/productsSlice.ts:132 | the linear search loop returns exactly the first matching index, or -1 |
| `KeyedList.Find` | src/services/productService.ts:143 | the linear `find` loop returns nothing exactly when no element has the id, otherwise the element at the first matching index |
| `KeyedList.RemoveId` | src/store/productsSlice.ts:151 | the `filter` on the id never lengthens the list |
| `KeyedList.RemoveIdMembers` | src/store/productsSlice.ts:151 | the filtered list holds exactly the elements whose id differs from the deleted id |
| `KeyedList.RemoveIdAppend` | src/store/productsSlice.ts:151 | the filter distributes over concatenation, so the survivors keep their relative order |
| `KeyedList.RemoveIdAbsent` | src/store/productsSlice.ts:151 | filtering an id that no element holds leaves the list unchanged |
| `KeyedList.RemoveIdIdempotent` | src/store/productsSlice.ts:151 | after the filter no element holds the id, and filtering again changes nothing |
| `KeyedList.RemoveIdKeepsUnique` | src/store/productsSlice.ts:151 | filtering a list with unique ids keeps them unique |
| `KeyedList.RemoveAt` | src/services/productService.ts:275 | `splice(k, 1)` removes exactly one element: the length drops by one, elements before `k` stay, elements after shift down by one |
| `KeyedList.SpliceAgreesWithFilter` | src/services/productService.ts:275 | with unique ids, splicing the first match equals filtering the id out |
| `KeyedList.SpliceDiffersFromFilterOnDuplicates` | src/services/productService.ts:264-275 | with a duplicated id the splice removes one copy while the filter removes both |
| `KeyedList.ReplaceKeepsUnique` | src/services/productService.ts:239 | overwriting an index with a record of the same id keeps ids unique |
| `KeyedList.AppendFreshKeepsUnique` | src/services/productService.ts:194 | appending a product with an id not yet present keeps ids unique |
| `KeyedList.RemoveAtKeepsUnique` | src/services/productService.ts:275 | splicing out one index keeps ids unique |
| `ProductService.NotFoundMessage` | src/services/productService.ts:146 | the message `Product with id ${id} not found` (also thrown at lines 225 and 267) carries the id verbatim between its fixed 16-character prefix and 10-character suffix |
| `ProductService.NotFoundMessageInjective` | src/services/productService.ts:146 | two different ids never produce the same not-found message |
| `ProductService.SeedProducts` | src/services/productService.ts:18-69 | `mockProducts`: five products with distinct ids, each with `createdAt` equal to `updatedAt` |
| `ProductService.NewProduct` | src/services/productService.ts:187-192 | the created record has the supplied id, every field of the request, and the two supplied timestamps |
| `ProductService.ApplyPatch` | src/services/productService.ts:233-237 | the merged record takes the patch's id, keeps `createdAt` and takes the new `updatedAt` |
| `ProductService.PatchFieldwise` | src/services/productService.ts:233-237 | each field present in the patch takes the patch value, and each omitted field keeps the stored value |
| `ProductService.PricePatchChangesOnlyPrice` | src/services/__tests__/productService.test.ts:346-356 | a price-only patch changes the price and `updatedAt` and nothing else |
| `ProductService.PatchesCompose` | src/services/productService.ts:233-237 | two successive updates equal one update with the overlaid patch, with later fields winning |
| `ProductService.PatchIdempotent` | src/services/productService.ts:233-237 | repeating the same patch with the same timestamp changes nothing |
| `ProductService.FullPatchRewritesAttributes` | src/services/productService.ts:233-237 | a patch naming every field yields the record creation would build, with the old id and `createdAt` |
| `ProductService.MockProductService.constructor` | src/services/productService.ts:97 | the service starts with the five seed products, whose ids are unique |
| `ProductService.MockProductService.GetAllProducts` | src/services/productService.ts:112-125 | with the injected network failure it throws `Network error: Failed to fetch products`; otherwise it returns the whole collection, with nothing changed |
| `ProductService.MockProductService.GetProductById` | src/services/productService.ts:140-154 | returns the first product with the id, otherwise throws `Product with id ${id} not found`; never modifies the collection |
| `ProductService.MockProductService.CreateProduct` | src/services/productService.ts:174-201 | a blank trimmed name throws `Product name is required` before the server failure is consulted, and that failure throws `Server error: Failed to create product`; both leave the collection unchanged. Otherwise exactly the new product is appended. A fresh id keeps ids unique |
| `ProductService.MockProductService.UpdateProduct` | src/services/productService.ts:219-246 | an unknown id throws the not-found message before the server failure is consulted, and that failure throws `Server error: Failed to update product`; both leave the collection unchanged. Otherwise the first match is overwritten in place by the merged record, and the length and all other elements are unchanged |
| `ProductService.MockProductService.DeleteProduct` | src/services/productService.ts:261-282 | an unknown id throws the not-found message before the server failure is consulted, and that failure throws `Server error: Failed to delete product`; both leave the collection unchanged. Otherwise exactly the first match is spliced out. With unique ids this equals filtering the id |
| `ProductsSlice.RejectionMessage` | src/store/productsSlice.ts:12-13 | an `Error` rejects with its own message; any other thrown value rejects with the operation's non-empty fallback |
| `ProductsSlice.Fallback` | src/store/productsSlice.ts:13-61 | the fallback of each operation (lines 13, 25, 37, 49, 61) is a sentence starting with `Failed to ` |
| `ProductsSlice.FallbacksAreDistinct` | src/store/productsSlice.ts:13-61 | the five fallbacks differ pairwise |
| `ProductsSlice.ProductsState.constructor` | src/store/productsSlice.ts:66-71 | initial state: empty list, no selection, not loading, no error |
| `ProductsSlice.ProductsState.ClearError` | src/store/productsSlice.ts:77-79 | sets `error` to none and changes nothing else |
| `ProductsSlice.ProductsState.ClearSelectedProduct` | src/store/productsSlice.ts:80-82 | sets `selectedProduct` to none and changes nothing else |
| `ProductsSlice.ProductsState.FetchProductsPending` | src/store/productsSlice.ts:87-90 | loading on, error cleared, list and selection unchanged |
| `ProductsSlice.ProductsState.FetchProductsFulfilled` | src/store/productsSlice.ts:91-94 | loading off and the list replaced exactly by the payload; selection and error unchanged |
| `ProductsSlice.ProductsState.FetchProductsRejected` | src/store/productsSlice.ts:95-98 | loading off, error set to the payload, list and selection unchanged |
| `ProductsSlice.ProductsState.FetchProductByIdPending` | src/store/productsSlice.ts:100-103 | loading on, error cleared, list and selection unchanged |
| `ProductsSlice.ProductsState.FetchProductByIdFulfilled` | src/store/productsSlice.ts:104-107 | loading off and the selection set to the payload; list and error unchanged |
| `ProductsSlice.ProductsState.FetchProductByIdRejected` | src/store/productsSlice.ts:108-111 | loading off, error set to the payload, list and selection unchanged |
| `ProductsSlice.ProductsState.CreateProductPending` | src/store/productsSlice.ts:113-116 | loading on, error cleared, list and selection unchanged |
| `ProductsSlice.ProductsState.CreateProductFulfilled` | src/store/productsSlice.ts:117-120 | loading off and the payload appended: the length grows by one and the old prefix is unchanged |
| `ProductsSlice.ProductsState.CreateProductRejected` | src/store/productsSlice.ts:121-124 | loading off, error set to the payload, list and selection unchanged |
| `ProductsSlice.ProductsState.UpdateProductPending` | src/store/productsSlice.ts:126-129 | loading on, error cleared, list and selection unchanged |
| `ProductsSlice.ProductsState.UpdateProductFulfilled` | src/store/productsSlice.ts:130-139 | the first entry with the payload's id is replaced in place, or the list is unchanged when none matches; the length and the entries with other ids are kept. Independently, the selection becomes the payload exactly when its id matches |
| `ProductsSlice.ProductsState.UpdateProductRejected` | src/store/productsSlice.ts:140-143 | loading off, error set to the payload, list and selection unchanged |
| `ProductsSlice.ProductsState.DeleteProductPending` | src/store/productsSlice.ts:145-148 | loading on, error cleared, list and selection unchanged |
| `ProductsSlice.ProductsState.DeleteProductFulfilled` | src/store/productsSlice.ts:149-155 | the list becomes its filter on the id, so no entry with the id remains; the selection is cleared if and only if its id equals the deleted id |
| `ProductsSlice.ProductsState.DeleteProductRejected` | src/store/productsSlice.ts:156-159 | loading off, error set to the payload, list and selection unchanged |
| `ProductsSlice.FetchProductsThunk` | src/store/productsSlice.ts:6-16 | ends not loading; a network failure records its exact message, and success clears the error and makes the list equal to the backend's collection |
| `ProductsSlice.FetchProductByIdThunk` | src/store/productsSlice.ts:18-28 | ends not loading with the list untouched; an unknown id records the not-found message, and otherwise the backend's first match is selected |
| `ProductsSlice.CreateProductThunk` | src/store/productsSlice.ts:30-40 | the blank-name, server-failure and success outcomes each land in both store and backend; on success both append the same product, so a mirroring store keeps mirroring |
| `ProductsSlice.UpdateProductThunk` | src/store/productsSlice.ts:42-52 | the failures record their exact message and change nothing. On success the backend overwrites its first match with the merged record, and the store overwrites its own first match, if any, with the same record; a matching selection takes it. A mirroring store keeps mirroring |
| `ProductsSlice.DeleteProductThunk` | src/store/productsSlice.ts:54-64 | the failures record their exact message and change nothing. On success the backend splices, the store filters, and a matching selection is cleared. With unique ids a mirroring store keeps mirroring and ids stay unique |

## Left out

- Network delays (`delay`, `setTimeout`): every call completes at once, and the latency ordering between operations is not modelled.
- Concurrency: overlapping in-flight operations race on the single `loading` flag and can apply stale results. Each transition is modelled atomically, and the thunks run one at a time.
- `Math.random`: the 10% and 5% failure draws are the boolean inputs `networkFails` and `serverFails`. `generateId` is the supplied `newId`, which may be empty or repeated, as in the source.
- The clock: `new Date().toISOString()` values are supplied opaque strings, and their ISO-8601 format is not checked.
- Redux Toolkit machinery: `createAsyncThunk`, `createSlice`, action objects, `dispatch`, subscriptions and Immer drafts. Each case reducer is a method on the state class, and each thunk is a method that calls them in order.
- Object identity: `getAllProducts` returns a new array that holds the stored objects; `getProductById`, `createProduct` and `updateProduct` return the stored object itself. Products are modelled as immutable values, so aliasing is not modelled.
- `ProductService.ApplyPatch`: a patch key that is present but holds `undefined` overwrites the field in JavaScript's spread; the model only distinguishes present values from omitted keys. Extra runtime properties spread in from untyped callers are also not modelled.
- Prices are `real` values that are copied and never computed. IEEE double rounding plays no part.
- The `success`/`message` envelope is modelled, but nothing downstream consumes it.
- React pages and components, routing, formatting helpers and configuration are not part of this model.
