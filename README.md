# Artisan Connect, modelled in Dafny

Artisan Connect is a marketplace where artisans list handmade products, buyers send them
commission requests, and admins curate learning resources and moderate users. It consists of an
Express server over MongoDB and a React client. This project models the server's request,
product, resource, artisan-directory and admin handlers, their Mongoose schemas, and the client
pages that build the bodies those handlers receive. It proves what each handler returns and how
it changes the stored collections.

Layout, one module per source file plus four shared modules:

- `Common`: ids, `Option`, the handler outcomes (`Ok`, `Unauthenticated`, `Forbidden`,
  `NotFound`, `Invalid`), roles and callers. It also holds JavaScript truthiness of a query
  parameter (`Given`) and counting over lists.
- `Text`: `trim`, `split`, `join`, JavaScript string length in UTF-16 code units, and the
  comma-separated list parsing of the product forms.
- `Ordering`: sort orders as total preorders. It also holds `SelectSorted`, the query loop that
  picks the matching documents of a collection in sort order.
- `Forms`: React form state as a map of named values, and the shared `handleChange` that writes
  `name` or `parent.child`.
- Schemas: `RequestModel`, `ProductModel` and `ResourceModel` cover the enum validators,
  required fields, trim setters, defaults and update validators. `Users` holds the user record
  the handlers read.
- Server handlers: `RequestRoutes`, `ProductRoutes`, `ProductController`, `ResourceRoutes`,
  `ArtisanRoutes` and `AdminRoutes`. Each collection is a class with a `map<Id, Record>` field.
  Handlers that change it are methods with `modifies`, tied to pure functions of the old state.
- Client pages: `MyRequests`, `ArtisanProfile`, `Profile`, `AddProduct`, `EditProduct`,
  `BuyerDashboard` and `ArtisanDashboard`.

Stand-ins for things outside Dafny:

- Timestamps are a `clock` counter in each store; each created record takes the clock's value.
- Regular-expression and `$text` search is a `textMatch` parameter.
- Uploaded files are the names the upload middleware gave them.
- The order of `Object.keys` is a `keys` parameter.

Two things the request handlers do not check, which the model proves:

- Nothing on the server stops a user from addressing a request to themselves;
  `RequestRoutes.SelfAddressedRequest` stores one. Only the profile page hides its send button on
  one's own profile (`ArtisanProfile.OnlyThePageStopsSelfRequests`).
- The update handler sets whatever status the body names, from any status
  (`RequestRoutes.AnyTransitionAllowed`).

## Model

| member | source | states |
|---|---|---|
| Common.ParseRole | server/routes/request.js:9-18 | a stored role string denotes the role whose name it is; a name other than the three known ones is kept as an unknown role |
| Common.RoleNameRoundTrip | server/routes/request.js:9-18 | every role has exactly one name, which reads back as that role |
| Ordering.SelectSorted | server/routes/request.js:20-24 | the query loop returns exactly the documents the filter accepts, each once, each the stored document under its id, sorted by the order |
| Ordering.Newest | server/routes/admin.js:105-107 | `sort().limit(n)` returns min(n, size) elements drawn from the input with their multiplicity, in order, and no element left out precedes any element kept |
| Text.JsLength | server/models/Request.js:28-32 | the `length` a `maxlength` validator compares counts UTF-16 code units: between the character count and twice it |
| Text.JsLengthBmp | server/models/Request.js:28-32 | for text inside the Basic Multilingual Plane that length is the character count |
| Text.ParseListClean | client/src/pages/AddProduct.js:79-81 | every entry parsed from comma-separated text is non-empty, comma-free and trimmed |
| Text.ParseJoin | client/src/pages/EditProduct.js:56-61 | parsing clean entries joined with ", " gives the same entries back |
| Text.ParseIdempotent | client/src/pages/EditProduct.js:107-109 | join-then-parse leaves any parsed list unchanged |
| RequestModel.ParseType | server/models/Request.js:18-22 | the type validator accepts exactly commission, inquiry and quote |
| RequestModel.ParseStatus | server/models/Request.js:44-48 | the status validator accepts exactly the six status names |
| RequestModel.NamesRoundTrip | server/models/Request.js:18-48 | every type and status name reads back as the value it names |
| RequestModel.BudgetOf | server/models/Request.js:33-40 | a given budget keeps its min, max and currency; a missing currency gets USD; no budget gives no bounds and USD |
| RequestModel.CreateDocument | server/models/Request.js:3-72 | creation yields a valid document under the given id, or Invalid |
| RequestModel.StoredThread | server/models/Request.js:53-63 | one stored entry per payload entry, in order, with its sender and message, and the creation time where it has no timestamp |
| RequestModel.CreateDocumentSpec | server/models/Request.js:4-63 | creation succeeds if and only if the validators accept the payload; the document keeps buyer, artisan, description, product, deadline and quotation, stores the budget through BudgetOf, trims the title and stores the payload's message thread in order, timestamps defaulted to the creation time, and an empty thread when the payload has none |
| RequestModel.CreateDefaults | server/models/Request.js:18-48 | status defaults to pending, type to inquiry and currency to USD; a supplied status or type is kept |
| RequestModel.CreateRejectsUnknownEnum | server/models/Request.js:18-48 | a status or type outside its enumeration makes creation fail |
| RequestModel.CreateRequiresFields | server/models/Request.js:4-32 | a missing buyer, artisan, title or description, a blank title or an over-long description makes creation fail |
| RequestRoutes.ListQuery | server/routes/request.js:9-18 | a buyer's query names the buyer, an artisan's names the artisan, and any other role's is empty |
| RequestRoutes.ListVisibility | server/routes/request.js:9-18 | a buyer lists exactly its own requests; an artisan lists exactly those addressed to it; an admin or an unknown role lists all |
| RequestRoutes.ArtisanMayNotDelete | server/routes/request.js:130-133 | the addressed artisan may read and update a request but not delete it |
| RequestRoutes.DeleteImpliesAccess | server/routes/request.js:130-133 | whoever may delete a request may also read it |
| RequestRoutes.SelfAddressedRequest | server/routes/request.js:62-67 | an accepted payload addressed to its own sender is stored with buyer equal to artisan |
| RequestRoutes.CreateKeepsClientStatus | server/routes/request.js:62-65 | a status in the creation payload survives into the stored request |
| RequestRoutes.CreateKeepsClientThread | server/routes/request.js:62-65 | a message thread in the creation payload survives into the stored request, entry by entry, senders included |
| RequestRoutes.RequestedStatus | server/routes/request.js:99 | an absent or empty status asks for no change, a status name asks for that status, and any other text is Invalid |
| RequestRoutes.Thread | server/routes/request.js:101-106 | a non-empty message is appended with its sender and time; otherwise the thread is unchanged |
| RequestRoutes.UpdatedFields | server/routes/request.js:99-106 | an update replaces status and quotation only when given, keeps earlier messages in order, appends at most one, and changes nothing else |
| RequestRoutes.AnyTransitionAllowed | server/routes/request.js:99 | a participant can set any status from any status |
| RequestRoutes.UpdatedValid | server/routes/request.js:108 | an update keeps the schema's guarantees |
| RequestRoutes.RequestStore.List | server/routes/request.js:7-30 | the listing holds exactly the stored requests matching the caller's query, each once, newest first |
| RequestRoutes.RequestStore.Get | server/routes/request.js:33-57 | NotFound for a missing id; Forbidden unless buyer, artisan or admin; otherwise the stored request |
| RequestRoutes.RequestStore.Create | server/routes/request.js:60-78 | stores the payload with the caller as buyer under a fresh id, or changes nothing when it is invalid |
| RequestRoutes.RequestStore.Update | server/routes/request.js:81-119 | NotFound, then Forbidden, then Invalid for an unknown status; otherwise the updated request replaces the stored one |
| RequestRoutes.RequestStore.Delete | server/routes/request.js:122-140 | NotFound, then Forbidden unless buyer or admin; otherwise that request alone is removed |
| ProductModel.ParseCategory | server/models/Product.js:19-26 | an accepted category name names that category |
| ProductModel.ParseAvailability | server/models/Product.js:52-56 | an accepted availability name names that availability |
| ProductModel.ProductEnumsExact | server/models/Product.js:19-56 | the validators accept exactly the listed names, and each name reads back as its value |
| ProductModel.TrimmedTags | server/models/Product.js:61-64 | tags keep their number and are each trimmed |
| ProductModel.CreateDocument | server/models/Product.js:3-75 | creation yields a valid product under the given id, or Invalid |
| ProductModel.CreateDocumentSpec | server/models/Product.js:4-72 | creation succeeds if and only if the validators accept; every supplied field is stored (name and tags trimmed, category and availability named by the payload), and omitted fields default to in-stock, USD, not negotiable, Immediate, no images, 0 views and active |
| ProductModel.CreateRejectsBadPrice | server/models/Product.js:19-41 | a missing or negative amount, or an unknown category, makes creation fail |
| ProductModel.ApplyPatchSpec | server/controllers/productController.js:87-91 | an accepted update keeps the schema's guarantees, id and creation time, and an empty body changes nothing |
| ProductModel.ApplyPatchFields | server/controllers/productController.js:87-91 | for each of the twelve fields: given, it takes the body's value (name and tags trimmed, category and availability named by the body); omitted, it keeps the stored value |
| ProductRoutes.Admit | server/routes/product.js:17-19 | `protect` refuses exactly the calls without a user; `authorize` refuses exactly the users of another role |
| ProductRoutes.AdmitCall | server/routes/product.js:17 | more than five uploaded files fail an otherwise admitted creation; a refused call keeps the middleware's answer |
| ProductRoutes.ProductAccess | server/routes/product.js:14-19 | the listings are public; create (at most five files) and update need the artisan role; delete needs a signed-in user |
| ProductRoutes.AdminMayDeleteNotUpdate | server/routes/product.js:18-19 | an admin is refused on update and admitted on delete |
| ProductController.ArtisanListingIsCatalogueFilter | server/controllers/productController.js:123-126 | an artisan's listing selects what the catalogue selects with only that artisan as filter |
| ProductController.CatalogueOnlyActive | server/controllers/productController.js:7-18 | the catalogue never lists an inactive product, and with no filters lists every active one |
| ProductController.UploadedImages | server/controllers/productController.js:59-64 | one image per uploaded file, in order, with url `/uploads/<file>` and an empty caption |
| ProductController.CreationData | server/controllers/productController.js:53-64 | the body with the caller as artisan; uploaded files replace the images when there are any; nothing else changes |
| ProductController.UpdateOutcome | server/controllers/productController.js:83-91 | Forbidden if and only if the caller is not the owner; Invalid if and only if the owner sends an invalid body; otherwise the patched, still valid, product |
| ProductController.AdminNotExemptFromUpdate | server/controllers/productController.js:83-85 | an admin who does not own a product may not update it but may delete it |
| ProductController.ProductStore.GetProducts | server/controllers/productController.js:4-28 | exactly the stored products matching the query, each once, newest first |
| ProductController.ProductStore.GetArtisanProducts | server/controllers/productController.js:121-132 | exactly that artisan's active products, each once, newest first |
| ProductController.ProductStore.GetProductById | server/controllers/productController.js:31-48 | NotFound for a missing id; otherwise the product with one more view, which is also stored |
| ProductController.ProductStore.CreateProduct | server/controllers/productController.js:51-71 | the product built from the creation data is stored under a fresh id, or nothing changes |
| ProductController.ProductStore.UpdateProduct | server/controllers/productController.js:74-97 | NotFound, then the update outcome; only a successful update changes the store |
| ProductController.ProductStore.DeleteProduct | server/controllers/productController.js:100-118 | NotFound, then Forbidden unless owner or admin; otherwise that product alone is removed |
| ResourceModel.ParseResourceCategory | server/models/Resource.js:14-18 | an accepted category name names that category |
| ResourceModel.ParseResourceType | server/models/Resource.js:19-23 | an accepted type name names that type |
| ResourceModel.ParseLevel | server/models/Resource.js:35-39 | an accepted level name names that level |
| ResourceModel.ResourceEnumsExact | server/models/Resource.js:14-39 | the three validators accept exactly the listed names, which read back as their values |
| ResourceModel.TrimOpt | server/models/Resource.js:44-47 | a given author is trimmed; a missing one stays missing |
| ResourceModel.CreateDocument | server/models/Resource.js:3-62 | creation yields a valid resource under the given id, or Invalid |
| ResourceModel.CreateDocumentSpec | server/models/Resource.js:4-59 | creation succeeds if and only if the validators accept; every supplied field is stored (title, author and tags trimmed, category, type and level named by the payload), and level defaults to beginner, thumbnail to '', views to 0, isActive to true |
| ResourceModel.ApplyPatchSpec | server/routes/resource.js:71-79 | an accepted update keeps the schema's guarantees, id and creation time, and an empty body changes nothing |
| ResourceModel.ApplyPatchFields | server/routes/resource.js:71-79 | for each of the thirteen fields: given, it takes the body's value (title, author and tags trimmed, category, type and level named by the body); omitted, it keeps the stored value |
| ResourceRoutes.SearchOnly | server/routes/resource.js:15-21 | a search lists an active resource if and only if its title, description or one of its tags matches |
| ResourceRoutes.FiltersNarrow | server/routes/resource.js:10-14 | every listed resource is active and of the requested category, type and level |
| ResourceRoutes.ResourceStore.List | server/routes/resource.js:7-31 | exactly the stored resources matching the query, each once, newest first |
| ResourceRoutes.ResourceStore.Get | server/routes/resource.js:34-51 | NotFound for a missing id; otherwise the resource with one more view, which is also stored |
| ResourceRoutes.ResourceStore.Create | server/routes/resource.js:54-66 | Forbidden unless admin; otherwise the body with the caller as `addedBy` is stored under a fresh id, or nothing changes |
| ResourceRoutes.ResourceStore.Update | server/routes/resource.js:69-85 | Forbidden unless admin, then Invalid for a bad body, then NotFound; otherwise the patched resource is stored |
| ResourceRoutes.ResourceStore.Delete | server/routes/resource.js:88-101 | Forbidden unless admin, then NotFound; otherwise that resource alone is removed |
| ArtisanRoutes.BuildQuery | server/routes/artisan.js:9-34 | the query built step by step equals the declarative query for the parameters |
| ArtisanRoutes.SearchOverridesLocation | server/routes/artisan.js:16-34 | a search term makes the location irrelevant; only the literal "true" restricts to verified artisans |
| ArtisanRoutes.DirectoryListsActiveArtisans | server/routes/artisan.js:10-14 | every listed user is an active artisan, with a matching skill when one is asked for, and verified when asked |
| ArtisanRoutes.DirectoryOrderIsTotalPreorder | server/routes/artisan.js:36-38 | the three-key sort is a total preorder |
| ArtisanRoutes.DirectoryOrderMeaning | server/routes/artisan.js:36-38 | in a sorted listing verified users come first, then higher ratings, then newer accounts |
| ArtisanRoutes.ListArtisans | server/routes/artisan.js:7-44 | exactly the matching users, each once, in directory order |
| ArtisanRoutes.GetArtisan | server/routes/artisan.js:47-59 | Ok if and only if the user exists and is an artisan, and then that user; else NotFound |
| ArtisanRoutes.ApplyUserPatchSpec | server/routes/artisan.js:68-72 | id and creation time are kept; every field the body gives, email, role and isVerified included, replaces the stored one and every other field is kept; an empty body changes nothing |
| ArtisanRoutes.SelfVerification | server/routes/artisan.js:64-72 | a user may make itself a verified admin through its own profile update |
| ArtisanRoutes.UpdateArtisan | server/routes/artisan.js:62-82 | Forbidden unless self or admin, then NotFound; otherwise the patched user is stored |
| AdminRoutes.FlagFilter | server/routes/admin.js:12-17 | any present flag value other than "true" selects users whose flag is off; no parameters select everyone |
| AdminRoutes.NewestFirstOrders | server/routes/admin.js:19 | the createdAt orders are total preorders |
| AdminRoutes.ListUsers | server/routes/admin.js:10-24 | Forbidden if and only if not admin; otherwise exactly the matching users, each once, newest first |
| AdminRoutes.GetUser | server/routes/admin.js:27-37 | Forbidden unless admin, then NotFound; otherwise the user |
| AdminRoutes.SetVerified | server/routes/admin.js:40-55 | Forbidden unless admin, then NotFound; otherwise only isVerified changes |
| AdminRoutes.SetActive | server/routes/admin.js:58-73 | Forbidden unless admin, then NotFound; otherwise only isActive changes |
| AdminRoutes.DeleteUser | server/routes/admin.js:76-89 | Forbidden unless admin, then NotFound; otherwise that user alone is removed |
| AdminRoutes.Stats | server/routes/admin.js:94-102 | the user and request totals are the collection sizes; verified artisans are at most the artisans; artisans and buyers together at most the users; pending and completed together at most the requests |
| AdminRoutes.StatsEmpty | server/routes/admin.js:94-102 | empty collections give all nine figures zero |
| AdminRoutes.StatsTallyUser | server/routes/admin.js:94-97 | one more user adds one user, and one artisan, buyer or verified artisan exactly when its role and flag match; no other figure changes |
| AdminRoutes.StatsTallyProduct | server/routes/admin.js:98 | one more product adds one to the product figure exactly when it is active; no other figure changes |
| AdminRoutes.StatsTallyRequest | server/routes/admin.js:99-101 | one more request adds one request, and one pending or completed request exactly when it has that status; no other figure changes |
| AdminRoutes.StatsTallyResource | server/routes/admin.js:102 | one more resource adds one to the resource figure exactly when it is active; no other figure changes |
| AdminRoutes.Recent | server/routes/admin.js:105-107 | five of each collection, or all when fewer, newest first, drawn from it with multiplicity; none left out is newer than one kept |
| AdminRoutes.StatsRoute | server/routes/admin.js:92-130 | Ok if and only if admin, with the statistics and the recent activity |
| AdminRoutes.ListAllRequests | server/routes/admin.js:133-145 | Forbidden if and only if not admin; otherwise every stored request, each once, newest first |
| Forms.SetFieldSpec | client/src/pages/Profile.js:42-57 | a plain name replaces that field; a dotted name replaces the one child in its parent group and leaves everything else |
| Forms.DottedName | client/src/pages/ArtisanProfile.js:48-59 | `parent.child` with dot-free parts writes exactly that child |
| Forms.ControlValue | client/src/pages/AddProduct.js:36-51 | a checkbox contributes its checked flag, any other control its text |
| MyRequests.StatusColor | client/src/pages/MyRequests.js:263-271 | each of the four named statuses gets its colour, and every other text the neutral one |
| MyRequests.StatusBadges | client/src/pages/MyRequests.js:263-271 | among stored statuses, exactly reviewing and cancelled get the neutral badge |
| MyRequests.PanelUpdatesAccepted | client/src/pages/MyRequests.js:232-234 | every option the panel offers is a status the server accepts, accepted or rejected, and an empty message adds nothing |
| MyRequests.PanelTransitions | client/src/pages/MyRequests.js:222-234 | whatever the panel sends moves the request it shows to accepted or rejected, a status different from its current one |
| MyRequests.MyRequestsPage.ViewDetails | client/src/pages/MyRequests.js:33-36 | opening details selects that request and shows the dialog, keeping the form; the update panel is then on screen exactly for an artisan viewing a pending request |
| MyRequests.MyRequestsPage.CloseModal | client/src/pages/MyRequests.js:164-168 | closing hides the dialog, and with it the update panel, and keeps the selection and the form |
| MyRequests.MyRequestsPage.HandleUpdateStatus | client/src/pages/MyRequests.js:38-58 | nothing is sent without a selected status; the form resets and the dialog closes only after a delivered update, keeping the selection |
| ArtisanProfile.BudgetChange | client/src/pages/ArtisanProfile.js:48-59 | changing `budget.min` touches only that budget field |
| ArtisanProfile.RequestPayload | client/src/pages/ArtisanProfile.js:71-74 | the payload is the form with `artisan` set to the profile's id |
| ArtisanProfile.OnlyThePageStopsSelfRequests | client/src/pages/ArtisanProfile.js:148 | the send button is hidden on one's own profile and for visitors, while the server accepts a self-addressed request |
| ArtisanProfile.ArtisanProfilePage.HandleRequestChange | client/src/pages/ArtisanProfile.js:48-59 | the form becomes the shared field update; the dialog is unchanged |
| ArtisanProfile.ArtisanProfilePage.HandleSubmitRequest | client/src/pages/ArtisanProfile.js:61-88 | nothing is sent without a user; the form resets only after a delivered request |
| Profile.ProfileForm | client/src/pages/Profile.js:28-40 | the form has the seven profile keys with the user's values or the empty defaults |
| Profile.AddSkill | client/src/pages/Profile.js:59-67 | a new trimmed skill is appended and the input cleared; otherwise nothing changes |
| Profile.AddSkillSpec | client/src/pages/Profile.js:59-67 | adding keeps the list duplicate-free and prefix-preserving and clears the input exactly when it adds |
| Profile.RemoveSkill | client/src/pages/Profile.js:69-74 | the result holds exactly the other skills |
| Profile.RemoveSkillOrder | client/src/pages/Profile.js:69-74 | removal works element by element in order: it distributes over concatenation and drops a single skill exactly when it is the one removed |
| Profile.RemoveSkillCount | client/src/pages/Profile.js:69-74 | every other skill keeps its multiplicity and the removed one occurs no more |
| Profile.RemoveUndoesAdd | client/src/pages/Profile.js:59-74 | removing a just-added skill gives the list back |
| Profile.RemoveKeepsNoDup | client/src/pages/Profile.js:69-74 | removing keeps the list duplicate-free |
| AddProduct.ProductData | client/src/pages/AddProduct.js:75-82 | product data exists if and only if tags and materials are text, and has the form's keys |
| AddProduct.ProductDataSpec | client/src/pages/AddProduct.js:75-82 | tags and materials are parsed; every other field is kept as the form holds it |
| AddProduct.ProductDataClean | client/src/pages/AddProduct.js:79-81 | the submitted tags and materials are clean entries |
| AddProduct.ImageParts | client/src/pages/AddProduct.js:70-72 | one `images` file part per selected image, in order |
| AddProduct.FieldParts | client/src/pages/AddProduct.js:85-91 | one part per key, in key order, carrying that key's value |
| AddProduct.FormDataBuffer.AppendImages | client/src/pages/AddProduct.js:70-72 | the loop appends the image parts after the existing parts |
| AddProduct.FormDataBuffer.AppendFields | client/src/pages/AddProduct.js:85-91 | the loop appends the field parts after the existing parts |
| AddProduct.HandleSubmit | client/src/pages/AddProduct.js:62-105 | the body is the image parts followed by the field parts of the product data, or nothing when the data cannot be built |
| AddProduct.ImagesReachServerInOrder | client/src/pages/AddProduct.js:70-72 | the upload carries exactly the selected images in order, for any selection; when there are images, the stored images follow that order |
| EditProduct.LoadProductForm | client/src/pages/EditProduct.js:48-62 | the loaded form is splittable, with tags and materials joined by ", " |
| EditProduct.LoadDefaults | client/src/pages/EditProduct.js:54-61 | empty lists load as '', missing dimensions and weight as '', missing customizable as false |
| EditProduct.SaveUnedited | client/src/pages/EditProduct.js:103-110 | saving an unedited form of a product with clean entries gives its tags and materials back |
| EditProduct.SaveIsStable | client/src/pages/EditProduct.js:107-109 | a list produced by a save survives load-and-save unchanged |
| BuyerDashboard.Stats | client/src/pages/BuyerDashboard.js:28-33 | the total is the list length and bounds the sum of the three status counts |
| BuyerDashboard.StatsTally | client/src/pages/BuyerDashboard.js:28-33 | one more request raises the total by one and exactly its status's count by one |
| BuyerDashboard.RecentRequests | client/src/pages/BuyerDashboard.js:35 | the first min(5, n) requests |
| BuyerDashboard.RecentAreNewest | client/src/pages/BuyerDashboard.js:35 | on the server's newest-first list, the recent requests are the newest |
| ArtisanDashboard.TotalViewsAppend | client/src/pages/ArtisanDashboard.js:36 | the view total splits over concatenation |
| ArtisanDashboard.TotalViewsNonNegative | client/src/pages/ArtisanDashboard.js:36 | the view total is never negative when no count is |
| ArtisanDashboard.Stats | client/src/pages/ArtisanDashboard.js:39-44 | the totals are the list lengths, and pending requests are at most all requests |
| ArtisanDashboard.StatsEmpty | client/src/pages/ArtisanDashboard.js:36-44 | empty lists give all-zero statistics |
| ArtisanDashboard.StatsTally | client/src/pages/ArtisanDashboard.js:36-44 | as two separate steps: one more product adds one product and its views and keeps the request figures; one more request adds one request, and one pending request exactly when it is pending, and keeps the product figures |
| ArtisanDashboard.Recent | client/src/pages/ArtisanDashboard.js:46-47 | the first min(4, n) products and min(5, m) requests |
| ArtisanDashboard.RecentAreNewest | client/src/pages/ArtisanDashboard.js:46-47 | on newest-first lists, the recent products and requests are the newest |

## Left out

- Persistence, `populate` and `select`: collections are in-memory maps; populated fields are not modelled.
- Malformed ids: Mongo's cast error on a malformed id is not modelled; an id is either stored or not.
- RequestRoutes.RequestStore.Get: compares ids directly, where the source compares the `toString` of the populated buyer and artisan.
- Text search: regular expressions and the `$text` index are the `textMatch` parameter, so the model says nothing about what a pattern matches. An invalid regular expression, which throws, is not modelled.
- Time: timestamps are the clock counter, and `updatedAt` is left out.
- Numbers: amounts, prices and ratings are integers, since the model has no floating point. `Number()` of a non-numeric query string, which yields NaN, is not modelled.
- Middleware: `protect` and `authorize` appear only as the route guards of `ProductRoutes`; the other handlers take an authenticated caller.
- The User schema and registration are not part of this model, so user validators are left out.
- HTTP: status codes, response shapes and the 500 error handlers become outcome values.
- Attachments: the attachments of a request are not modelled.
- The multer file-type filter and storage are left out; an uploaded file is its stored name.
- ProductModel.ApplyPatch: a price in the body replaces the whole price, whereas Mongoose would cast nested fields.
- Encoding: multipart and JSON encoding of the product body are abstracted to `Part` values; the server's decoding of those parts is not modelled.
- Forms.SetField: a parent that is not a group spreads no fields; the source spreads a string's characters.
- Client side: local storage, rendering, concurrency, axios, toasts and navigation are not modelled. A page handler's server answer is the `delivered` parameter.
- AdminRoutes.SetVerified: takes a boolean, so a request body without `isVerified` (which stores undefined) is not modelled; AdminRoutes.SetActive likewise.
- ArtisanDashboard.TotalViews: sums stored view counts, which always exist, so the `|| 0` fallback for a missing count never applies.
