/** The detail screen: saving an edited product over the stored record with
    the same id. */
module DetailScreen {
  import opened Wrappers
  import opened Catalog

  /** The stored list after the edited product overwrites the first record with
      its id; the list is unchanged when no record has that id. */
  function ReplaceById(products: seq<Product>, edited: Product): (r: seq<Product>)
    ensures |r| == |products|
    ensures !HasId(products, edited.id) ==> r == products
    ensures HasId(products, edited.id) ==>
      var i := IndexOfId(products, edited.id);
      r[i] == edited && forall k :: 0 <= k < |r| && k != i ==> r[k] == products[k]
  {
    var i := IndexOfId(products, edited.id);
    if i == -1 then products else products[i := edited]
  }

  /** Saving the same edited product twice gives the list saving it once gives. */
  lemma ReplaceByIdIdempotent(products: seq<Product>, edited: Product)
    ensures ReplaceById(ReplaceById(products, edited), edited) == ReplaceById(products, edited)
  {
    var once := ReplaceById(products, edited);
    if HasId(products, edited.id) {
      var i := IndexOfId(products, edited.id);
      assert HasId(once, edited.id) by { assert once[i].id == edited.id; }
      assert IndexOfId(once, edited.id) == i;
    }
  }

  /** `handleUpdateProduct`: load the stored list (empty when the key holds
      nothing), find the first record with the edited product's id and
      overwrite it in place. The result is the list written back, or `None`
      when no record matched and nothing was written. */
  method HandleUpdateProduct(stored: Option<seq<Product>>, edited: Product)
    returns (written: Option<seq<Product>>)
    ensures written.Some? <==> HasId(StoredOrEmpty(stored), edited.id)
    ensures written.Some? ==> written.value == ReplaceById(StoredOrEmpty(stored), edited)
    ensures stored == None ==> written == None
  {
    var list := StoredOrEmpty(stored);
    var products := new Product[|list|](k requires 0 <= k < |list| => list[k]);
    assert products[..] == list;
    var productIndex := IndexOfId(products[..], edited.id);
    if productIndex != -1 {
      products[productIndex] := edited;
      written := Some(products[..]);
    } else {
      written := None;
    }
  }
}
