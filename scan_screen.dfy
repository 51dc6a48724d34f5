/** The scan screen: the form that creates a product and appends it to the
    stored list. */
module ScanScreen {
  import opened Wrappers
  import opened Catalog
  import opened ProductSlice

  /** The text typed into the form's fields. */
  datatype ProductForm = ProductForm(
    barcode: string,
    name: string,
    kind: string,
    price: string,
    supplier: string,
    quantity: string,
    image: string,
    warehouse: string,
    city: string,
    latitude: string,
    longitude: string)

  /** The numbers read from the numeric fields (`parseFloat` / `parseInt`). */
  datatype ParsedNumbers = ParsedNumbers(price: real, quantity: int, latitude: real, longitude: real)

  /** The warehouseman recorded as the author of every product created here. */
  const CreatorId: int := 1444

  /** The submission check: every field except barcode, type and image is filled. */
  predicate RequiredFieldsFilled(form: ProductForm): (ok: bool)
    ensures ok <==> "" !in [form.name, form.price, form.supplier, form.warehouse,
                            form.city, form.latitude, form.longitude, form.quantity]
  {
    && form.name != ""
    && form.price != ""
    && form.supplier != ""
    && form.warehouse != ""
    && form.city != ""
    && form.latitude != ""
    && form.longitude != ""
    && form.quantity != ""
  }

  /** Barcode, type and image are optional: emptying them never blocks a
      submission, and emptying any other field always does. */
  lemma OptionalFields(form: ProductForm)
    ensures RequiredFieldsFilled(form) ==> RequiredFieldsFilled(form.(barcode := "", kind := "", image := ""))
    ensures !RequiredFieldsFilled(form.(name := ""))
    ensures !RequiredFieldsFilled(form.(price := ""))
    ensures !RequiredFieldsFilled(form.(quantity := ""))
    ensures !RequiredFieldsFilled(form.(city := ""))
    ensures !RequiredFieldsFilled(form.(supplier := ""))
    ensures !RequiredFieldsFilled(form.(warehouse := ""))
    ensures !RequiredFieldsFilled(form.(latitude := ""))
    ensures !RequiredFieldsFilled(form.(longitude := ""))
  {
  }

  /** The record built from the form. `now` and `stockNow` are the two clock
      readings taken for the product id and for the stock id, `today` the
      date of creation. */
  function NewProduct(form: ProductForm, nums: ParsedNumbers, now: int, stockNow: int, today: string): (p: Product)
    ensures p.id == now && p.name == form.name && p.price == nums.price
    ensures p.image == None <==> form.image == ""
    ensures p.image.Some? ==> p.image.value == form.image
    ensures |p.stocks| == 1 && p.stocks[0].id == stockNow + 1 && p.stocks[0].quantity == nums.quantity
    ensures p.stocks[0].localisation.city == form.city
    ensures p.editedBy == [EditRecord(CreatorId, today)]
  {
    Product(
      now,
      form.name,
      form.kind,
      form.barcode,
      nums.price,
      form.supplier,
      if form.image == "" then None else Some(form.image),
      [Stock(stockNow + 1, form.warehouse, nums.quantity, Localisation(form.city, nums.latitude, nums.longitude))],
      [EditRecord(CreatorId, today)])
  }

  /** Appending without an id check can put two records with one id in the list. */
  lemma AppendCanDuplicateId(products: seq<Product>, p: Product)
    requires HasId(products, p.id)
    ensures !UniqueIds(products + [p])
  {
    var k :| 0 <= k < |products| && products[k].id == p.id;
    var all := products + [p];
    assert all[k].id == all[|products|].id;
  }

  /** `handleSubmit`: reject an incomplete form; otherwise push the new product
      onto the stored list (empty when the key holds nothing), write it back and
      publish the same list to the store. The result is the list written, or
      `None` when nothing was written. */
  method HandleSubmit(form: ProductForm, nums: ParsedNumbers, now: int, stockNow: int, today: string,
                      stored: Option<seq<Product>>, store: ProductStore)
    returns (written: Option<seq<Product>>)
    modifies store
    ensures !RequiredFieldsFilled(form) ==> written == None && store.list == old(store.list)
    ensures RequiredFieldsFilled(form) ==>
      && written == Some(StoredOrEmpty(stored) + [NewProduct(form, nums, now, stockNow, today)])
      && store.list == written.value
  {
    if !RequiredFieldsFilled(form) {
      return None;
    }
    var newProduct := NewProduct(form, nums, now, stockNow, today);
    var products := StoredOrEmpty(stored);
    products := products + [newProduct];
    written := Some(products);
    store.SetProducts(products);
  }
}
