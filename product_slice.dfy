/** The `products` slice of the Redux store: the product list the screens show. */
module ProductSlice {
  import opened Catalog

  class ProductStore {
    /** `state.list` */
    var list: seq<Product>

    /** The initial state holds no product. */
    constructor ()
      ensures list == []
    {
      list := [];
    }

    /** `setProducts`: the list becomes the payload, whatever it held before;
        applying it twice with the same payload is the same as applying it once. */
    method SetProducts(payload: seq<Product>)
      modifies this
      ensures list == payload
    {
      list := payload;
    }

    /** `addProduct`: the payload is pushed at the end; earlier entries stay in
        place, and no check is made that its id is new. */
    method AddProduct(payload: Product)
      modifies this
      ensures list == old(list) + [payload]
      ensures |list| == |old(list)| + 1 && list[|list| - 1] == payload
      ensures forall k :: 0 <= k < |old(list)| ==> list[k] == old(list)[k]
    {
      list := list + [payload];
    }
  }
}
