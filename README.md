# Artisan Haven marketplace — a verified model of its page and route logic

Artisan Haven is a Next.js marketplace for handcrafted goods. Sellers
("artisans") list products. Administrators verify sellers. Buyers search,
sort and page through the catalogue, order through a checkout page, and can
ask a shopping assistant backed by a language model. The application has no
engine of its own: its logic is small rules embedded in pages and route
handlers around a hosted document store, a media host and a language-model
API.

This project models those rules in Dafny and proves what they promise:

- **Product listing.** Name search, price ceiling, three sort orders (an
  in-place sort over an array) and 12-per-page paging.
- **Shopping assistant route.** The local product search the model may call
  (at most 3 verified matches), the chat history handed to the model, and
  the reply's shape.
- **Chat panel.** The message log, input and loading flag as a class whose
  accepted submissions grow the log by exactly two messages.
- **Seller dashboard.** The verified-product count and the revenue and
  sales fold (nested loops), shared by the one-shot page and the live page
  with its two listeners.
- **Checkout.** The order document, the de-duplicated seller ids, and the
  per-product sales increments (a loop proved against a specification
  function). The cart is emptied only when the order is written.
- **Verification queue.** The admin guard, the pending-only load, and
  approve and reject. Local removal keeps the list equal to the pending
  query.
- **Product dialogs.** Files and previews kept in lockstep, the video/image
  rule, the image urls derived from media, validation, the new product
  record, and the edit dialog's append-if-absent media update.
- **Product analysis route, both versions.** Required fields by JavaScript
  truthiness, counter defaults, and the `{ … }` span cut out of the model's
  reply, with its idempotence.
- **Access rules.** The session's user record with defaults, the dashboard
  guard, and the header's search URL and menu visibility.

Shared pieces:

- `common.dfy`: the JavaScript array, string and truthiness operations the
  code relies on.
  - `filter`, `slice` with negative indices, `[...new Set()]`, the store's
    `arrayUnion`.
  - `toLowerCase`, `includes`, `startsWith`, `trim`.
  - `||` defaults.
- `catalog.dfy`: the product record.

The hosted services are inputs:

- store queries, writes and transactions succeed or fail as a parameter says;
- uploads are a function from file to an optional url;
- the language model's answers are parameters;
- `JSON.parse` and `encodeURIComponent` are function parameters.

Prices are whole numbers (for instance paise).

Where the pages' UI text and code comments suggest behaviour the code does
not have, the model follows the code. The differences:

- The products page does not reset `currentPage` when a filter changes
  (`ProductListing.ClearFilters` keeps it).
- The category filter is inactive (`ProductListing.CategoryIgnored`).
- The edit dialog's `removeExistingMedia` changes nothing.

## Model

| member | source | states |
|---|---|---|
| Seqs.Filter | src/app/products/page.js:49-53 | a filter keeps exactly the elements that pass, never more than it was given |
| Seqs.FilterSubMultiset | src/app/products/page.js:47-53 | a filter never adds or duplicates an element |
| Seqs.FilterConcat | src/app/admin/verify/page.js:63 | filtering distributes over concatenation |
| Seqs.FilterRemovesOne | src/app/admin/verify/page.js:63 | when only the element at k fails, the filter removes exactly it and keeps the order of the rest |
| Seqs.FilterNone | src/components/artisans/EditProductDialog.js:108 | when no element passes, nothing is kept |
| Seqs.RemoveAt | src/components/artisans/AddProductDialog.js:42-45 | removing index i by the index-filter is `s[..i] + s[i+1..]` in range and the identity out of range |
| Seqs.JsSlice | src/app/products/page.js:63-66 | `slice` picks the consecutive elements between the clipped relative indices |
| Seqs.Dedup | src/app/checkout/page.js:51 | spreading a `Set` keeps each value once and loses none |
| Seqs.ArrayUnion | src/components/artisans/EditProductDialog.js:106-108 | `arrayUnion` keeps the existing list as a prefix and appends only values not already present |
| Text.Lower | src/app/products/page.js:49 | lowercasing keeps the length and leaves no upper-case letter |
| Text.IncludesIff | src/app/products/page.js:49 | `includes` holds exactly when the needle occurs at some position |
| Text.Trim | src/components/shared/Navbar.js:32 | trimming leaves no whitespace at either end and is empty exactly for blank input |
| Js.Or | src/context/AuthContext.jsx:25-27 | `v \|\| d` is `v` when truthy and `d` otherwise |
| ProductListing.InitialFilters | src/app/products/page.js:17-27 | first render: sort newest, ceiling 10000, category all, page 1, search from `?q=` |
| ProductListing.ClearFilters | src/app/products/page.js:85-87 | clearing resets sort, ceiling, category and search and keeps the page |
| ProductListing.ClearRestoresInitial | src/app/products/page.js:85-87 | clearing gives back the initial filter state with no search term, only the page number kept |
| ProductListing.OrderOf | src/app/products/page.js:54-58 | 'price-asc' and 'price-desc' pick the price orders; anything else falls to newest |
| ProductListing.SortProducts | src/app/products/page.js:54-58 | the in-place sort leaves the array ordered by the comparator and a permutation of itself |
| ProductListing.MatchingSpec | src/app/products/page.js:47-53 | the search and price filters keep exactly the products whose lowercased name contains the lowercased term (when the term is non-empty) and whose price is at most the ceiling |
| ProductListing.CategoryIgnored | src/app/products/page.js:52 | the category choice never changes which products match |
| ProductListing.SortedMeaning | src/app/products/page.js:55-57 | each order means non-decreasing price, non-increasing price, or non-increasing seconds with a missing timestamp as 0 |
| ProductListing.ProcessProducts | src/app/products/page.js:46-60 | the result is a permutation of the matching products, a sub-multiset of the catalogue, sorted as the option says |
| ProductListing.TotalPages | src/app/products/page.js:62 | the page count is the ceiling of n/12 |
| ProductListing.Page | src/app/products/page.js:63-66 | page p holds indices (p-1)*12 up to p*12 clipped to the list, at most 12 items |
| ProductListing.PagesUpToPrefix | src/app/products/page.js:62-66 | pages 1..c together are the first min(12c, n) products |
| ProductListing.PagesReassemble | src/app/products/page.js:62-66 | pages 1..totalPages concatenated give back the whole list |
| AssistantRoute.SearchProducts | src/app/api/ai/assistant/route.ts:28-44 | at most 3 results, each verified, from the store and matching in name, description or category; the first up-to-3 matches in store order; a product without category matches only by name or description |
| AssistantRoute.BuildHistory | src/app/api/ai/assistant/route.ts:58-67 | the history is every message but the last, texts kept, 'assistant' as 'model' and the rest 'user', less exactly one leading greeting |
| AssistantRoute.Post | src/app/api/ai/assistant/route.ts:47-97 | missing key or empty log gives 500; the last message is what is sent; products appear exactly when the first call is `searchProducts`, and are then that search's result |
| ChatAssistant.OutcomeOf | src/components/ai/AIShoppingAssistant.js:52-56 | a non-OK response is a failure; a reply passes its text and products through |
| ChatAssistant.ReplyMessage | src/components/ai/AIShoppingAssistant.js:59-69 | a reply becomes an assistant message with products defaulting to empty; a failure becomes the fixed apology |
| ChatAssistant.ChatPanel.constructor | src/components/ai/AIShoppingAssistant.js:20-24 | the log starts with exactly the greeting, input empty, not loading |
| ChatAssistant.ChatPanel.SetInput | src/components/ai/AIShoppingAssistant.js:136 | the input becomes the typed text |
| ChatAssistant.ChatPanel.BeginSubmit | src/components/ai/AIShoppingAssistant.js:36-49 | a blank input or a request in flight changes nothing; otherwise one user message with the untrimmed input is appended, input cleared, loading set, and the whole log is the body |
| ChatAssistant.ChatPanel.FinishSubmit | src/components/ai/AIShoppingAssistant.js:59-72 | exactly one reply or apology is appended and loading ends |
| ChatAssistant.ChatPanel.HandleSubmit | src/components/ai/AIShoppingAssistant.js:34-73 | an accepted submission grows the log by exactly two messages and ends not loading |
| SellerDashboard.SumOrders | src/app/artisan-hub/page.js:35-49 | the nested loops compute the seller's revenue and sales folds; no orders gives zero |
| SellerDashboard.ActiveCount | src/app/artisan-hub/page.js:29 | the active count is the number of indices of verified products |
| SellerDashboard.SalesAppend | src/app/page.js:42-52 | the totals over two batches of orders add up |
| SellerDashboard.ForeignItemIgnored | src/app/artisan-hub/page.js:44 | a line of another seller changes neither total |
| SellerDashboard.TotalsNonNegative | src/app/artisan-hub/page.js:35-49 | with non-negative prices and quantities both totals are non-negative |
| SellerDashboard.HubDashboard.Refresh | src/app/artisan-hub/page.js:19-62 | nothing happens without a user; a failed fetch keeps the stats; a successful one sets all three; loading ends false |
| SellerDashboard.LiveDashboard.OnProductsSnapshot | src/app/page.js:27-34 | only the active count changes |
| SellerDashboard.LiveDashboard.OnOrdersSnapshot | src/app/page.js:39-59 | revenue and sales recomputed from zero, active count kept, loading false |
| SellerDashboard.LiveDashboard.OnSetupError | src/app/page.js:67-70 | a setup error ends loading |
| SellerDashboard.LiveDashboard.Subscribe | src/app/page.js:19-22 | with a user, loading is set before the listeners start; without one, loading is unchanged |
| SellerDashboard.ListenersAgree | src/app/page.js:26-59 | in either listener order the live page ends with the stats the one-shot page computes |
| Checkout.CheckoutRedirect | src/app/checkout/page.js:26-31 | no redirect while loading; login without a user; home with an empty cart |
| Checkout.FinalTotal | src/app/checkout/page.js:23-24 | the total exceeds the subtotal by the delivery charge of 50 |
| Checkout.ArtisanIds | src/app/checkout/page.js:51 | the seller ids have no duplicates and are exactly the cart lines' sellers |
| Checkout.FirstImage | src/app/checkout/page.js:61 | the line's image is its first image url, absent when it has none |
| Checkout.OrderLines | src/app/checkout/page.js:56-63 | one order line per cart line, in order, copying id, name, price, quantity and seller |
| Checkout.MakeOrder | src/app/checkout/page.js:52-71 | the order records buyer, seller ids, lines, subtotal, delivery charge, total = subtotal + charge, status Packaging, Manual and Paid, and the address with the buyer's name |
| Checkout.OrderListsEverySeller | src/app/checkout/page.js:51-63 | every line's seller is among the order's seller ids |
| Checkout.OrderSalesMatchCart | src/app/checkout/page.js:56-63 | a seller's sales counted over the order lines equal the quantities of their cart lines |
| Checkout.IncrementsSpec | src/app/checkout/page.js:74-85 | the transaction succeeds exactly when every line's product exists, and then each product gains its total ordered quantity and no product appears or disappears |
| Checkout.QuantityOfAbsent | src/app/checkout/page.js:79-84 | a product with no cart line gains nothing |
| Checkout.ApplyIncrements | src/app/checkout/page.js:79-84 | the loop applies one increment per cart line, failing on a missing product |
| Checkout.PlacedSales | src/app/checkout/page.js:79-84 | after a placed order, untouched products keep their sales and others gain exactly their quantity |
| Checkout.CheckoutPage.AddressFetched | src/app/checkout/page.js:33-40 | a stored address is taken; loading ends |
| Checkout.CheckoutPage.PlaceOrder | src/app/checkout/page.js:46-95 | without user, address or cart nothing is written; an order is placed exactly when the transaction commits, then the order is added, sales incremented and the cart cleared; placing ends false |
| Auth.DeriveUser | src/context/AuthContext.jsx:19-44 | a truthy stored role or flag is kept as stored; a falsy one becomes null (role) or false (flags); no readable profile gives null and false |
| Auth.AuthState.constructor | src/context/AuthContext.jsx:11-12 | no user, loading |
| Auth.AuthState.OnAuthChanged | src/context/AuthContext.jsx:15-51 | signing out clears the user and ends loading |
| Auth.AuthState.OnProfile | src/context/AuthContext.jsx:19-44 | every profile event sets the derived user and ends loading |
| DashboardLayout.DashboardRedirect | src/app/layout.js:60-79 | no redirect while loading; otherwise login, home, then verification, the first that applies; a redirect exists exactly when the dashboard does not render |
| DashboardLayout.HighlightedLinks | src/app/layout.js:25-42 | a link is highlighted exactly when the pathname equals its href, so at most one is |
| DashboardLayout.FilterSingle | src/app/layout.js:42 | filtering distinct hrefs for one value leaves that value or nothing |
| Navbar.SearchTarget | src/components/shared/Navbar.js:30-36 | a non-blank term goes to `/products?q=` plus the encoded trimmed term; a blank one to `/products` |
| Navbar.Header.HandleSearch | src/components/shared/Navbar.js:30-38 | returns the search target and closes the mobile menu |
| Navbar.Header.SetSearchTerm | src/components/shared/Navbar.js:103 | the search term becomes the typed text |
| Navbar.Header.SetMenuOpen | src/components/shared/Navbar.js:70 | the mobile menu's open flag becomes the sheet's new state |
| Navbar.MenuFor | src/components/shared/Navbar.js:110-137 | the cart and the My Orders entry show exactly when the role is 'buyer'; the Dashboard entry shows exactly when the dashboard renders; never Dashboard with My Orders |
| VerifyQueue.AdminAccess | src/app/admin/verify/page.js:22-31 | waiting while loading; the queue is fetched exactly for an admin; everyone else goes home |
| VerifyQueue.Pending | src/app/admin/verify/page.js:37 | only pending submissions are loaded |
| VerifyQueue.RemoveById | src/app/admin/verify/page.js:78 | removal keeps exactly the entries with another id |
| VerifyQueue.SetStatusSpec | src/app/admin/verify/page.js:74-75 | a status write changes the documents with that id only |
| VerifyQueue.DecisionLeavesQueue | src/app/admin/verify/page.js:75-78 | after a decision the local removal equals a fresh pending query |
| VerifyQueue.RemoveByIdSpec | src/app/admin/verify/page.js:63 | with distinct ids, exactly the decided entry leaves and the others keep their order; an unknown id removes nothing |
| VerifyQueue.Promote | src/app/admin/verify/page.js:52-56 | approval sets role artisan and the verified flag, keeping the admin flag |
| VerifyQueue.QueuePage.FetchSubmissions | src/app/admin/verify/page.js:33-46 | a successful query shows the pending submissions; loading ends |
| VerifyQueue.QueuePage.Approve | src/app/admin/verify/page.js:48-69 | promote, then mark approved, then remove; a failed write stops there and leaves the list; the list stays equal to the pending query; no action is left loading |
| VerifyQueue.QueuePage.Reject | src/app/admin/verify/page.js:71-84 | mark rejected and remove; no profile changes; a failed write leaves the list; no action is left loading |
| VerifyQueue.ApprovedUserIsArtisan | src/app/admin/verify/page.js:52-56 | an approved applicant's next session passes the dashboard guard |
| MediaUpload.Previews | src/components/artisans/AddProductDialog.js:34-38 | one preview per file, in order, carrying its url and MIME type |
| MediaUpload.RemoveKeepsStep | src/components/artisans/AddProductDialog.js:42-45 | removing one index from both lists keeps them in step |
| MediaUpload.ResourceType | src/components/artisans/AddProductDialog.js:55-56 | video exactly when the MIME type starts with "video" |
| MediaUpload.UploadAll | src/components/artisans/AddProductDialog.js:52-89 | all uploads succeed or the whole fails; one media entry per file with the host's url and the file's resource type |
| MediaUpload.ImageUrlsMembers | src/components/artisans/AddProductDialog.js:94 | the image urls are exactly the urls of image entries |
| MediaUpload.ImageUrlsConcat | src/components/artisans/EditProductDialog.js:108 | image urls of a concatenation are the concatenation of image urls |
| MediaUpload.VideosAddNoImages | src/components/artisans/AddProductDialog.js:55-94 | uploads of video files contribute no image url |
| AddProductDialog.AddForm.FileChange | src/components/artisans/AddProductDialog.js:30-40 | a selection replaces files and previews together |
| AddProductDialog.AddForm.SetFields | src/components/artisans/AddProductDialog.js:121-143 | the name, price text, category and description become the entered values |
| AddProductDialog.AddForm.RemoveFile | src/components/artisans/AddProductDialog.js:42-45 | index i leaves both lists, which stay in step |
| AddProductDialog.AddForm.Reset | src/components/artisans/AddProductDialog.js:47-50 | every field, both lists and the error cleared; not loading |
| AddProductDialog.AddForm.OpenChange | src/components/artisans/AddProductDialog.js:111 | closing resets the form; opening changes nothing else |
| AddProductDialog.AddForm.Submit | src/components/artisans/AddProductDialog.js:81-104 | a missing field, file or user sets the error and writes nothing; otherwise the record has the user's uid, isVerified false, the uploaded media and their image urls, then the dialog closes and every field and list is reset; a failed upload or write keeps every field and the previews with an error |
| EditProductDialog.DecimalString | src/components/artisans/EditProductDialog.js:21 | the price text is never empty |
| EditProductDialog.DecimalRoundTrip | src/components/artisans/EditProductDialog.js:21 | the initial price text reads back as the stored price |
| EditProductDialog.UneditedSubmitKeepsPrice | src/components/artisans/EditProductDialog.js:21-103 | opening the dialog on a product and submitting it unedited leaves the stored price unchanged |
| EditProductDialog.MediaOr | src/components/artisans/EditProductDialog.js:24 | missing media is an empty list |
| EditProductDialog.EditForm.constructor | src/components/artisans/EditProductDialog.js:19-31 | the form opens on the product's fields with no new files |
| EditProductDialog.EditForm.SetFields | src/components/artisans/EditProductDialog.js:130-151 | the name, price text, category and description become the entered values |
| EditProductDialog.EditForm.FileChange | src/components/artisans/EditProductDialog.js:33-43 | a selection replaces the new files and their previews together; no selection leaves both |
| EditProductDialog.EditForm.RemoveNewPreview | src/components/artisans/EditProductDialog.js:46-49 | index i leaves both new-file lists, which stay in step |
| EditProductDialog.EditForm.RemoveExistingMedia | src/components/artisans/EditProductDialog.js:52-55 | the existing media is unchanged |
| EditProductDialog.EditForm.Submit | src/components/artisans/EditProductDialog.js:87-118 | a missing field sets the error only; new files are not required; a successful update replaces the fields, appends new media and new image urls if absent, clears the error and closes; a failure leaves the product and the closed flag as they were |
| EditProductDialog.UpdateKeepsMedia | src/components/artisans/EditProductDialog.js:95-108 | stored media and urls are kept as a prefix, only new values are added, and with no new files nothing changes |
| AnalyzeProduct.Counters | src/app/api/ai/analyze-product/route.ts:31 | falsy sales or views are shown as 0 |
| AnalyzeProduct.SpanBounds | src/app/api/ai/analyze-product/route.ts:56 | the match runs from the first '{' to the last '}' and exists exactly when some '{' is followed by a '}' |
| AnalyzeProduct.JsonSpan | src/app/api/ai/analyze-product/route.ts:56-62 | the span starts with '{' and ends with '}' |
| AnalyzeProduct.JsonSpanIdempotent | src/app/api/ai/analyze-product/route.ts:56-62 | extracting from the span gives the span back |
| AnalyzeProduct.Analyze | src/app/api/ai/analyze-product/route.ts:4-74 | missing key gives 500 first; a falsy name, description or price gives 400; an analysis exactly when a span is found and parses; the original's 500 text is fixed; a thrown model call, a missing span or a parse error gives 500 with the revision's message built from that error (route.js:65-69) |
| AnalyzeProduct.FailureMessage | src/app/api/ai/analyze-product/route.js:65-71 | the revision's 500 text carries the error's message, or the unknown-error text |
| AnalyzeProduct.ZeroPriceRejected | src/app/api/ai/analyze-product/route.ts:14-19 | a price of 0 is falsy and is rejected with 400 |
| AnalyzeProduct.VersionsAgree | src/app/api/ai/analyze-product/route.js:5-63 | the two versions agree on analyses and on every status, differing only in the 500 text |

## Left out

- Hosted services are not modelled. This covers document-store queries,
  writes, transactions and snapshot listeners, media-host signing and
  uploads, and language-model calls. Their results are parameters. Only
  `arrayUnion`'s documented append-if-absent behaviour is modelled.
- `JSON.parse`, `request.json()` and the prompt texts are not modelled. The
  parse is a parameter. A body that is not JSON fails before the route's
  checks and is outside the model.
- Floating point is not modelled: `parseFloat(price)`, `toFixed` and the
  revenue products are absent. Prices are integers.
  - EditProductDialog.EditForm.Submit: reads the price text through a
    `parsePrice` parameter instead of `parseFloat`.
  - AddProductDialog.AddForm.Submit: records the price text as entered.
    The source's `parseFloat` conversion is not modelled.
  - Js.Truthy: NaN and -0 are not represented.
- Concurrency, React batching and effect scheduling are not modelled. Each
  handler runs to completion.
  - The two dashboard listeners are modelled as events in either order
    (`SellerDashboard.ListenersAgree`), not interleaved within a handler.
  - The transaction's atomicity is taken as given: the writes happen all
    together or not at all.
- ProductListing.SortProducts: does not state stability. The source relies
  on `Array.prototype.sort`, which is stable, and this insertion sort is
  stable too, but only sortedness and permutation are proved.
- Text.Lower: lowercases ASCII letters only. `toLowerCase` maps the whole
  of Unicode.
- Text.Trim: uses a fixed whitespace set: space, tab, line feed, carriage
  return, vertical tab, form feed, no-break space and byte-order mark.
- Navbar.SearchTarget: `encodeURIComponent` is a parameter, not percent
  encoding.
- `URL.createObjectURL` is modelled as a url carried by each selected file.
  Timestamps (`serverTimestamp`, the upload signature's time) are not
  modelled.
- AssistantRoute.Post: the model's answers are inputs. The chat session's
  own history bookkeeping is not modelled.
- The cart context (src/context/CartContext) is not part of this model.
  The checkout takes its lines and `totalPrice` as given.
- The pagination controls, the filter sidebar, the image carousel, the
  product view tracker, the track-view route and the admin SDK set-up are
  not part of this model. They are presentational or thin service
  wrappers.
- Rendering and styling are not modelled.
