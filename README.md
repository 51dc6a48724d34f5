# Smart-Stock inventory client: a Dafny model of its list logic

Smart-Stock is a React Native inventory client for warehousemen. Its logic is a
handful of list-of-records steps inside screen event handlers and Redux reducers.
Each step takes the product list (loaded from the device's storage under the key
`products`, fetched from a json-server, or read from the Redux store) and returns,
or leaves behind, the list that is saved or shown. This project models those
steps and proves what they do:

- `Catalog` (catalog.dfy): the `Product`, `Stock`, `Localisation` and `EditRecord`
  records, the test that some record has a given id (`HasId`) and `findIndex` by id
  (`IndexOfId`).
- `StatisticsScreen` (statistics_screen.dfy): the merge of the stored list with
  the remote list. It is a stable first-occurrence dedup by id, so local records
  win. This module also holds the four figures of the statistics screen.
- `ProductListScreen` (product_list_screen.dfy): restock / draw-down of one
  product, and the red / yellow / green stock colour.
- `ScanScreen` (scan_screen.dfy): form validation, the new product record, and
  its append to the stored list.
- `DetailScreen` (detail_screen.dfy): overwrite of the first stored record that
  has the edited product's id. The app's navigator (App.js:18-26) does not
  register this screen, so the shipped app never reaches this step; its logic
  is self-contained and is modelled all the same.
- `ProductSlice` (product_slice.dfy): the `products` slice as a class with a
  `list` field.
- `AuthSlice` (auth_slice.dfy): the `auth` slice as a class with four fields,
  with the invariant `isAuthenticated ⇔ user ≠ null`. It also holds the
  secret-key lookup of `loginUser`.

Storage and the network are parameters. The stored list is an
`Option<seq<Product>>` (`None` when the key holds nothing), and the remote list
and the remote warehousemen are plain sequences. Each screen method returns the
list it writes back (`None` when it writes nothing) or, on the statistics
screen, the merged list it shows. Prices, latitudes and
longitudes are Dafny `real` numbers, which are exact. Ids and quantities are
`int`.

Behaviours of the code worth knowing, all modelled as written:

- Restock / draw-down changes only the stocks whose id equals the first stock's
  id (screens/ProductListScreen.js:50), not every stock of the product.
- Creating a product makes no duplicate-id check before the append
  (screens/ScanScreen.js:57).
- The statistics screen does not write the merged list back to storage
  (screens/StatisticsScreen.js:33-34).
- A negative representative quantity is classified yellow
  (screens/ProductListScreen.js:74-75).
- The code has no delete and no name search, so none is modelled.

## Model

| member | source | states |
|---|---|---|
| Catalog.StoredOrEmpty | screens/ScanScreen.js:56 | a missing stored list reads as the empty list; a stored list reads as itself (also StatisticsScreen.js:18 and DetailScreen.js:24) |
| Catalog.IndexOfId | screens/DetailScreen.js:27 | `findIndex` by id: -1 exactly when no record has the id; otherwise a position holding the id with no earlier position holding it |
| StatisticsScreen.Dedup | screens/StatisticsScreen.js:26-31 | the `reduce` result is never longer than its input and holds only records of the input |
| StatisticsScreen.Reconcile | screens/StatisticsScreen.js:25-31 | the merge is never longer than the two lists together and holds only local or remote records |
| StatisticsScreen.DedupIds | screens/StatisticsScreen.js:25-31 | an id occurs in the deduplicated list exactly when it occurs in the input: nothing is lost, nothing invented |
| StatisticsScreen.DedupUnique | screens/StatisticsScreen.js:26-31 | the deduplicated list never holds two records with the same id |
| StatisticsScreen.DedupKeepsFirst | screens/StatisticsScreen.js:25-29 | every kept record is the input's first record with its id |
| StatisticsScreen.DedupOrdered | screens/StatisticsScreen.js:25-31 | kept records appear in the order of their first occurrence, so the output is a subsequence of the input and is never re-sorted |
| StatisticsScreen.DedupOfUnique | screens/StatisticsScreen.js:26-31 | a list whose ids are already distinct is returned unchanged |
| StatisticsScreen.DedupIdempotent | screens/StatisticsScreen.js:26-31 | deduplicating a deduplicated list changes nothing |
| StatisticsScreen.DedupPrefix | screens/StatisticsScreen.js:26-31 | what was kept from a list stays in place when more records follow it |
| StatisticsScreen.DedupAbsorbs | screens/StatisticsScreen.js:27 | trailing records whose ids were already seen are all dropped |
| StatisticsScreen.ReconcileProperties | screens/StatisticsScreen.js:25-31 | the merge has distinct ids and covers every local and remote id; for an id present locally the local record is kept; distinct local ids make the local list a prefix of the result |
| StatisticsScreen.ReconcileIdempotent | screens/StatisticsScreen.js:25-31 | merging a merged list with nothing, or again with the same remote list, gives it back unchanged |
| StatisticsScreen.ReconcileKeepsCoveredLocal | screens/StatisticsScreen.js:25-31 | a local list with distinct ids that already holds every remote id survives the merge as it is (local edits win over renamed remote records) |
| StatisticsScreen.MergeProducts | screens/StatisticsScreen.js:25-31 | the `reduce` loop computes the merge, with distinct ids, id coverage, local precedence and the local prefix stated on its result |
| StatisticsScreen.OutOfStockCount | screens/StatisticsScreen.js:48-51 | the out-of-stock count never exceeds the number of products |
| StatisticsScreen.NoneOutOfStockIff | screens/StatisticsScreen.js:48-51 | the out-of-stock count is 0 exactly when every product has a stock entry |
| StatisticsScreen.AllOutOfStockIff | screens/StatisticsScreen.js:48-51 | the count equals the number of products exactly when none has a stock entry, so stocks holding 0 units do not count |
| StatisticsScreen.StockValue | screens/StatisticsScreen.js:52-55 | a product priced 0 contributes no value whatever its stocks |
| StatisticsScreen.TotalValue | screens/StatisticsScreen.js:48-56 | when every product is out of stock the total value is 0 |
| StatisticsScreen.StockCities | screens/StatisticsScreen.js:52-53 | a product's stocks contribute at most as many cities as there are stocks |
| StatisticsScreen.Cities | screens/StatisticsScreen.js:44-58 | when every product is out of stock no city is counted |
| StatisticsScreen.StockValueIsPriceTimesQuantity | screens/StatisticsScreen.js:52-55 | summing `quantity × price` over a product's stocks gives its price times its total quantity |
| StatisticsScreen.TotalValueExample | screens/StatisticsScreen.js:52-55 | price 10 with stocks of 3 and 5 units is worth 80 |
| StatisticsScreen.StockCitiesIff | screens/StatisticsScreen.js:52-53 | a city is collected from a stock list exactly when some stock is located there |
| StatisticsScreen.CitiesIff | screens/StatisticsScreen.js:44-58 | a city is counted exactly when some stock of some product is located there; products without stocks add none |
| StatisticsScreen.AddStocks | screens/StatisticsScreen.js:52-55 | the inner `forEach` adds exactly the product's stock cities to the set and exactly its stock value to the running total |
| StatisticsScreen.CalculateStatistics | screens/StatisticsScreen.js:43-61 | the nested loops yield the product count, the number of distinct cities, the out-of-stock count and the total value |
| StatisticsScreen.FetchProducts | screens/StatisticsScreen.js:14-34 | the stored list (empty when absent) is merged with the remote list and the statistics describe the merged list |
| ProductSlice.ProductStore.constructor | redux/productSlice.js:5-7 | the initial list is empty |
| ProductSlice.ProductStore.SetProducts | redux/productSlice.js:9-11 | the list becomes exactly the payload whatever it held, so applying it twice equals applying it once |
| ProductSlice.ProductStore.AddProduct | redux/productSlice.js:12-14 | the list grows by one with the payload last, earlier entries unchanged, no id check |
| ProductListScreen.AdjustStocks | screens/ProductListScreen.js:49-54 | the adjusted stock list has as many entries as before |
| ProductListScreen.AdjustProduct | screens/ProductListScreen.js:47-57 | only the stocks of a product can change, and their number is kept; a product with another id, or with no stocks, is returned unchanged |
| ProductListScreen.AdjustQuantity | screens/ProductListScreen.js:47-58 | the adjusted product list has as many products as before |
| ProductListScreen.AdjustQuantityFrame | screens/ProductListScreen.js:47-58 | other products are unchanged; in the matching product each stock sharing the first stock's id moves by exactly `change`, with no floor at zero, and everything else is kept |
| ProductListScreen.AdjustQuantityNoOp | screens/ProductListScreen.js:47-58 | an unknown product id, or a matching product with no stocks, leaves the list equal to the input |
| ProductListScreen.AdjustQuantityRoundTrip | screens/ProductListScreen.js:136-137 | restocking by `change` and then drawing down by `change` restores the list |
| ProductListScreen.UpdateProductQuantity | screens/ProductListScreen.js:46-58 | the nested `map` loops compute the adjusted list |
| ProductListScreen.UpdateProductQuantityInStore | screens/ProductListScreen.js:46-61 | the store then holds the adjusted list, which is the same list handed to storage |
| ProductListScreen.StockColor | screens/ProductListScreen.js:73-77 | red exactly for 0, yellow exactly for other values below 10 (negatives included), green exactly for 10 or more |
| ProductListScreen.RepresentativeQuantity | screens/ProductListScreen.js:124-125 | the quantity a product is classified by is its first stock's, or 0 when it has no stocks |
| ProductListScreen.ProductColor | screens/ProductListScreen.js:124-132 | a product with no stocks shows red; otherwise its first stock's quantity decides the colour |
| ProductListScreen.AdjustMovesRepresentative | screens/ProductListScreen.js:49-51 | restock / draw-down moves a stocked product's representative quantity by exactly `change` |
| ScanScreen.RequiredFieldsFilled | screens/ScanScreen.js:21 | a form passes exactly when none of name, price, supplier, warehouse, city, latitude, longitude and quantity is empty |
| ScanScreen.OptionalFields | screens/ScanScreen.js:21-24 | emptying barcode, type and image never blocks a submission; emptying any of the eight required fields always does |
| ScanScreen.NewProduct | screens/ScanScreen.js:26-52 | the new product has one stock, one `editedBy` entry by warehouseman 1444, and `null` as image exactly when the image field is empty |
| ScanScreen.AppendCanDuplicateId | screens/ScanScreen.js:57 | appending without an id check can leave two records with one id |
| ScanScreen.HandleSubmit | screens/ScanScreen.js:20-59 | an incomplete form writes nothing and leaves the store as it was; otherwise the stored list (empty when absent) with the new product appended is written and published to the store |
| DetailScreen.ReplaceById | screens/DetailScreen.js:27-31 | same length; the first record with the edited id becomes the edited product and every other position, later duplicates included, is unchanged; no match leaves the list unchanged |
| DetailScreen.ReplaceByIdIdempotent | screens/DetailScreen.js:27-34 | saving the same edited product twice gives the list saving it once gives |
| DetailScreen.HandleUpdateProduct | screens/DetailScreen.js:20-45 | something is written exactly when a stored record has the edited id, and then it is the in-place overwrite; an absent stored list writes nothing |
| AuthSlice.FindBySecretKey | redux/authSlice.js:13 | `find` by secret key: none exactly when no warehouseman has the key, otherwise the first one with it |
| AuthSlice.LoginUser | redux/authSlice.js:5-24 | a transport error rejects with its message; otherwise success exactly when some warehouseman has the key, carrying the first warehouseman with that key (the one `FindBySecretKey` returns) with token "fake-jwt-token", else rejection with "Identifiants incorrects" |
| AuthSlice.AuthState.constructor | redux/authSlice.js:28-33 | the initial state has no user, is not authenticated, is not loading, has no error, and keeps the invariant |
| AuthSlice.AuthState.Logout | redux/authSlice.js:35-39 | clears user, authentication and error; keeps `loading`; establishes the invariant |
| AuthSlice.AuthState.Pending | redux/authSlice.js:43-46 | sets loading, clears the error, keeps the user and authentication; preserves the invariant |
| AuthSlice.AuthState.Fulfilled | redux/authSlice.js:47-52 | stores the payload as user, authenticates, clears loading and error; establishes the invariant |
| AuthSlice.AuthState.Rejected | redux/authSlice.js:53-56 | stores the payload as error, clears loading, keeps the user and authentication; preserves the invariant |
| AuthSlice.AuthState.Login | redux/authSlice.js:43-56 | pending then fulfilled or rejected by the lookup's outcome: signed in as the found user, or the error set with the sign-in state kept |

## Left out

- Storage and network I/O (AsyncStorage, `fetch`, `axios`, the hard-coded URLs) are not modelled. The stored list, the remote lists and a transport error message are parameters, and the list a screen writes is its result.
- A failed fetch or storage call in the statistics, scan and detail screens (their `catch` blocks) is not modelled. On the statistics screen the failure skips the merge and the statistics entirely.
- The product list screen's load effect is not modelled. It races a storage load against a remote fetch and, when it fetches, replaces the list wholesale.
- `JSON.parse`/`JSON.stringify` are not modelled, and neither is the floating-point text parsing by `parseFloat`/`parseInt` (including `NaN`). ScanScreen takes the parsed numbers as a `ParsedNumbers` input, and the detail screen's edit form is out of the model.
- StatisticsScreen.TotalValue: prices are exact reals, so floating-point rounding in `quantity * price` is not modelled.
- `Date.now()` and the ISO date are inputs (`now`, `stockNow`, `today`).
- JavaScript object aliasing is not modelled. `updateProductQuantity` mutates stock objects shared with the Redux store; the model states its effect on the list only.
- Products carry only the fields the screens read or build. An edited product's extra `solde` field is not modelled; the edited product is stored whole, as given.
- Warehousemen carry an id, a name and a secret key. Their other server fields pass through the `{...user, token}` copy unchanged and are not modelled.
- Ids are compared as integers. JavaScript's `===` between a number id and a string id is not modelled.
- Rendering and UI are not modelled: App.js, HomeScreen.js, LoginScreen.js, navigation, alerts, modals and PDF export. redux/store.js is only wiring.
