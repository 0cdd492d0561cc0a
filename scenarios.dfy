/** Client code that replays the documented scenarios against the contracts
    of the backend and the store, using only what those contracts promise. */
module Scenarios {
  import opened Wrappers
  import opened ProductTypes
  import opened KeyedList
  import opened JsString
  import opened ProductService
  import opened ProductsSlice

  /** An unknown id is reported with its exact message. */
  method MissingIdScenario() {
    var service := new MockProductService();
    var missing := service.GetProductById("999");
    forall i | 0 <= i < |SeedProducts()| ensures SeedProducts()[i].id != "999" {
      assert |SeedProducts()[i].id| == 1;
    }
    assert NotFoundMessage("999") == "Product with id 999 not found";
    assert missing == Failure("Product with id 999 not found");
  }

  /** A white-space name is refused and the collection is unchanged. */
  method BlankNameScenario(createdAt: Timestamp, updatedAt: Timestamp) {
    var service := new MockProductService();
    var blank := service.CreateProduct(CreateProductData("   ", "d", 1.0, "c", true), false, "x", createdAt, updatedAt);
    TrimEmptyIffAllWhiteSpace("   ");
    assert blank == Failure("Product name is required") && service.products == SeedProducts();
  }

  /** Patching name and price of product "1" keeps its description, its
      creation time and its position. */
  method PartialUpdateScenario(now: Timestamp) {
    var service := new MockProductService();
    var patch := UpdateProductData("1", Some("Updated Laptop"), None, Some(1399.99), None, None);
    assert SeedProducts()[0].id == "1";
    assert IndexOfId(SeedProducts(), "1") == 0;
    var updated := service.UpdateProduct(patch, false, now);
    assert updated.Success?;
    var u := updated.value.data;
    assert u.name == "Updated Laptop" && u.price == 1399.99;
    assert u.description == "High-performance laptop for professionals";
    assert u.createdAt == "2024-01-15T10:00:00Z" && u.updatedAt == now;
    assert |service.products| == 5 && service.products[0] == u;
  }

  /** A valid product is appended with its own fields; with a single clock
      reading its two timestamps agree. */
  method CreateScenario(now: Timestamp) {
    var service := new MockProductService();
    var data := CreateProductData("Test Product", "Test Description", 99.99, "Test", true);
    var name := "Test Product";
    assert name[0] == 'T' && !IsWhiteSpace('T');
    TrimEmptyIffAllWhiteSpace(name);
    var created := service.CreateProduct(data, false, "k3x9", now, now);
    assert created.Success? && created.value.data.createdAt == created.value.data.updatedAt;
    assert |service.products| == 6 && service.products[5].price == 99.99;
  }

  /** Deleting "2" from [1, 2] while "2" is selected, through the store and
      the backend together. */
  method DeleteSelectedScenario() {
    var service := new MockProductService();
    var state := new ProductsState();
    FetchProductsThunk(state, service, false);
    assert Mirrors(state, service);
    assert service.products[0].id != "2" && service.products[1].id == "2";
    FirstMatchIsIndexOf(service.products, "2", 1);
    FetchProductByIdThunk(state, service, "2");
    assert state.selectedProduct.Some? && state.selectedProduct.value.id == "2";
    DeleteProductThunk(state, service, "2", false);
    assert state.selectedProduct == None && state.error == None && !state.loading;
    assert Mirrors(state, service) && !HasId(state.products, "2");
  }
}
