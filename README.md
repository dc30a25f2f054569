# Phone-case storefront: a verified model of its core

This project models the engineered core of a phone-case storefront written in
TypeScript (Next.js). A shopper uploads an image, places it over a phone
template, picks a colour, a model, a material and a finish, and checks out.

The model covers six source files:

- **Price catalog** (`src/config/products.ts`). The base price and the material
  and finish surcharges, as tables in integer cents.
- **Option tables** (`src/validators/option-validator.ts`). The colour, model,
  material and finish records, with a lookup sequence per table.
- **Design configurator** (`src/app/configure/design/DesignConfigurator.tsx`).
  - The component state is a class: the selected options, the rendered
    position and the rendered size. Its handlers are methods that replace
    exactly the fields they set.
  - Pure functions cover three things: moving the overlay position from
    container to template coordinates, the displayed price, and the save
    call's arguments.
  - The JavaScript built-ins the component relies on are modelled in
    `JsText`: `split`, `slice` and `parseInt`.
  - `base64ToBlob` is a method that fills an array in a loop, as the source
    does.
- **Store** (`Database`). The ORM client `db` is a class with one map per
  table and a counter that stands for the store's id generator. `Valid` is
  the store invariant. It says that ids still to be issued are unused, that
  there is at most one order per (user, configuration) pair, and that every
  order refers to a stored configuration.
- **Server operations**. There is one module each for checkout
  (`src/app/configure/preview/actions.ts`), upload completion
  (`src/app/api/uploadthing/core.ts`) and the auth callback
  (`src/app/auth-callback/actions.ts`). Each operation is a method that
  changes the `Db` object. Its contract says that the new tables and the
  result are exactly those given by a ghost function of the old tables.
  Lemmas about that function state what the operation promises: the error
  cases, what is added, what stays unchanged, idempotence and preservation
  of `Valid`.

Two things the code does that a reader might not expect:

- When checkout reuses an existing order, it does not update that order's
  amount. If the configuration's finish or material changed after the order
  was created, the stored amount can differ from the amount charged.
  `Checkout.NewOrderAdded` proves that the two agree only for a newly created
  order.
- `getAuthStatus` reads `user.id` before it checks for a missing session user.
  With no signed-in user, the call therefore fails with a type error rather
  than its own "Invalid user data" error. The model keeps these two failures
  apart (`NoSession` and `InvalidUserData`). Either way the store is
  unchanged.

Where the design description and the code disagree, the model follows the
code:

- A width or height of `0` falls back to 500, as an absent value does,
  because the code uses `||`.
- An empty-string `configId` takes the create branch, because the code tests
  `!configId`.

## Model

| member | source | states |
|---|---|---|
| Products.CatalogEntries | src/config/products.ts:1-12 | the surcharge tables hold exactly silicon 0, polycarbonate 500, smooth 0, textured 300 cents; the base price is 1400 cents |
| Products.PriceRange | src/config/products.ts:1-12 | base plus any material and any finish surcharge lies in [1400, 2200]; 2200 is reached by polycarbonate with textured |
| OptionValidator.ColorTable | src/validators/option-validator.ts:10-14 | three colours with distinct value tokens |
| OptionValidator.ModelTable | src/validators/option-validator.ts:20-31 | seven models with distinct value tokens |
| OptionValidator.PricedTables | src/validators/option-validator.ts:33-47 | each material and finish price is the surcharge keyed by its value; values are distinct; the first entry is free and has no description, the others have one; the table names are "material" and "finish" |
| JsText.Split | src/app/configure/design/DesignConfigurator.tsx:129 | `split` yields at least one piece, no piece contains the separator, and there is a single piece exactly when the string has no separator |
| JsText.JoinSplit | src/app/configure/design/DesignConfigurator.tsx:129 | joining the pieces of a split with the separator gives back the original string |
| JsText.SplitAtFirst | src/app/configure/design/DesignConfigurator.tsx:129 | the first separator ends the first piece and the rest is split on its own |
| JsText.Slice | src/app/configure/design/DesignConfigurator.tsx:205-206 | the result is no longer than the string; in-range indices give that substring; `slice(0, -k)` with k at most the length gives the string without its last k characters |
| JsText.SliceDropsSuffix | src/app/configure/design/DesignConfigurator.tsx:205-206 | `slice(0, -k)` removes exactly a k-character suffix |
| JsText.SliceShortIsEmpty | src/app/configure/design/DesignConfigurator.tsx:205-206 | `slice(0, -k)` leaves nothing of a string no longer than k |
| JsText.ParseInt | src/app/configure/design/DesignConfigurator.tsx:205-206 | an empty or all-white-space string gives `NaN`; a negative result needs a leading minus sign after the white space |
| JsText.ParseDecimal | src/app/configure/design/DesignConfigurator.tsx:205-206 | `parseInt` of a decimal numeral followed by a non-digit returns the numeral's number |
| DesignConfigurator.InitialOptions | src/app/configure/design/DesignConfigurator.tsx:54-64 | the initial selection is taken from the tables, with a free material and a free finish |
| DesignConfigurator.Offset | src/app/configure/design/DesignConfigurator.tsx:96-97 | the offset added to the container's corner gives the template's corner |
| DesignConfigurator.TemplatePosition | src/app/configure/design/DesignConfigurator.tsx:96-101 | adding the template's offset in the container back to the result gives the rendered position |
| DesignConfigurator.TemplatePositionIsRelative | src/app/configure/design/DesignConfigurator.tsx:93-101 | the result does not change when template and container move together; offset (10,20) takes (150,205) to (140,185) |
| DesignConfigurator.DataUrlPayload | src/app/configure/design/DesignConfigurator.tsx:129 | there is a payload exactly when the URL holds a comma, and the payload holds no comma |
| DesignConfigurator.PayloadOfDataUrl | src/app/configure/design/DesignConfigurator.tsx:126-129 | for `header,payload` with no further comma, the extracted string is exactly the payload |
| DesignConfigurator.NoPayloadWithoutComma | src/app/configure/design/DesignConfigurator.tsx:129 | a URL without a comma yields no payload (`undefined`) |
| DesignConfigurator.Base64ToBlob | src/app/configure/design/DesignConfigurator.tsx:153-167 | the blob has the given MIME type and one byte per decoded character, each the character's code modulo 256; for a binary string the bytes stand for exactly that string |
| DesignConfigurator.StripUnit | src/app/configure/design/DesignConfigurator.tsx:205-206 | the result followed by the last two characters is the length; a length shorter than two characters gives the empty string |
| DesignConfigurator.PixelLength | src/app/configure/design/DesignConfigurator.tsx:203-207 | a length "Npx" reads back as N |
| DesignConfigurator.FractionalPixelLength | src/app/configure/design/DesignConfigurator.tsx:203-207 | a length "N.fpx" reads back as N |
| DesignConfigurator.DisplayedPrice | src/app/configure/design/DesignConfigurator.tsx:379 | the displayed price is at least the base price; for a selection from the tables it is at most 2200 and a multiple of 100 |
| DesignConfigurator.SaveArgsDetermineOptions | src/app/configure/design/DesignConfigurator.tsx:382-388 | the saved value tokens determine the selected options, so saving loses no choice |
| DesignConfigurator.DisplayedPriceIsCheckoutPrice | src/app/configure/design/DesignConfigurator.tsx:379-388 | for every material and finish from the tables, the displayed price equals the checkout price of the saved tokens; the initial selection shows the base price |
| DesignConfigurator.Configurator.constructor | src/app/configure/design/DesignConfigurator.tsx:54-74 | the state starts with the first entry of each table, position (150,205) and the given size |
| DesignConfigurator.Configurator.SelectColor | src/app/configure/design/DesignConfigurator.tsx:247-254 | only the colour is replaced; the selection stays within the tables |
| DesignConfigurator.Configurator.SelectModel | src/app/configure/design/DesignConfigurator.tsx:294-296 | only the model is replaced; the selection stays within the tables |
| DesignConfigurator.Configurator.SelectMaterial | src/app/configure/design/DesignConfigurator.tsx:310-322 | only the material is replaced; the selection stays within the tables |
| DesignConfigurator.Configurator.SelectFinish | src/app/configure/design/DesignConfigurator.tsx:310-322 | only the finish is replaced; the selection stays within the tables |
| DesignConfigurator.Configurator.ResizeStop | src/app/configure/design/DesignConfigurator.tsx:203-213 | the size becomes the parsed style lengths without their unit, and the position becomes the reported one |
| DesignConfigurator.Configurator.DragStop | src/app/configure/design/DesignConfigurator.tsx:214-220 | only the position changes, to the reported one |
| DesignConfigurator.Configurator.ComposeDrawCall | src/app/configure/design/DesignConfigurator.tsx:93-123 | the canvas has the template's size; the image is drawn at the rendered position minus the template's offset, at the rendered size |
| DesignConfigurator.Configurator.Price | src/app/configure/design/DesignConfigurator.tsx:379 | the displayed price lies in [1400, 2200] and equals the checkout price of the selected tokens |
| DesignConfigurator.Configurator.SaveArguments | src/app/configure/design/DesignConfigurator.tsx:382-388 | the save call carries the configuration id and the value token of each selected option, each an entry of its table |
| Database.FindOrder | src/app/configure/preview/actions.ts:33-38 | an order found belongs to the user and the configuration; none found means no such order exists |
| Database.Db.CreateConfiguration | src/app/api/uploadthing/core.ts:41-47 | the row is stored under the generator's next id, and only that entry is added |
| Database.Db.UpdateCroppedImageUrl | src/app/api/uploadthing/core.ts:51-58 | an existing row gets the new cropped URL and nothing else changes; a missing row is reported and nothing changes |
| Database.Db.FindFirstOrder | src/app/configure/preview/actions.ts:33-38 | the query returns the order `FindOrder` designates |
| Database.Db.CreateOrder | src/app/configure/preview/actions.ts:45-51 | the order is stored under the generator's next id, and only that entry is added |
| Database.Db.CreateUser | src/app/auth-callback/actions.ts:21-26 | the user row is stored under the given id, and only that entry changes |
| Checkout.CheckoutPrice | src/app/configure/preview/actions.ts:25-29 | the price lies in [1400, 2200] and is a multiple of 100; it is 2200 exactly when the finish is textured and the material is polycarbonate |
| Checkout.Checkout | src/app/configure/preview/actions.ts:9-60 | the call fails for an unknown configuration, then for a missing user, and then changes nothing; it never writes configurations or users; on success it charges the configuration's price for an order of that user and configuration |
| Checkout.CreateCheckoutSession | src/app/configure/preview/actions.ts:9-60 | the price is computed by the two conditional increments; the new tables and the result are those of `Checkout`; `Valid` is kept |
| Checkout.CheckoutKeepsValid | src/app/configure/preview/actions.ts:33-52 | checkout keeps the store invariant, so there is never a second order for a pair |
| Checkout.ExistingOrderReused | src/app/configure/preview/actions.ts:33-43 | an existing order for the pair is returned and the tables are unchanged |
| Checkout.NewOrderAdded | src/app/configure/preview/actions.ts:44-52 | without an order for the pair, exactly one order is added under a fresh id, unfulfilled, for that user and configuration, and its amount times 100 is the amount charged |
| Checkout.CheckoutIdempotent | src/app/configure/preview/actions.ts:33-52 | a second identical call returns the same order and changes nothing |
| UploadThing.OrDefault | src/app/api/uploadthing/core.ts:44-45 | the dimension is never 0; a present non-zero value is kept, anything else becomes 500 |
| UploadThing.NewConfiguration | src/app/api/uploadthing/core.ts:41-47 | the new row holds the file URL, no cropped image and no chosen options; its dimensions are never 0 and keep any non-zero value read |
| UploadThing.UploadComplete | src/app/api/uploadthing/core.ts:33-60 | orders and users are untouched; the call fails exactly for a given id with no row, and then changes nothing; an update returns the id it was given; the returned row holds the file URL |
| UploadThing.EmptyIdCreates | src/app/api/uploadthing/core.ts:40 | an empty id takes the create branch exactly as a missing one does, and only those two create |
| UploadThing.OnUploadComplete | src/app/api/uploadthing/core.ts:26-62 | the new tables and the result are those of `UploadComplete`; `Valid` is kept |
| UploadThing.UploadKeepsValid | src/app/api/uploadthing/core.ts:40-61 | both branches keep the store invariant |
| UploadThing.CreateAddsOne | src/app/api/uploadthing/core.ts:40-49 | without an id, exactly one configuration is added under a fresh id, with the file URL, the defaulted dimensions and no cropped image |
| UploadThing.UpdateTouchesOnlyCroppedUrl | src/app/api/uploadthing/core.ts:50-60 | with a stored id, only that row's cropped URL changes, and that id is returned |
| UploadThing.Scenarios | src/app/api/uploadthing/core.ts:40-60 | an 800 by 1600 image keeps its size; a missing or zero dimension becomes 500; id "abc123" is returned unchanged |
| AuthCallback.AuthStatusOf | src/app/auth-callback/actions.ts:6-29 | the call fails exactly when there is no user, or the id or the email is missing or empty; success answers `success: true`; a failed call changes nothing; only the session user's row may be added and no existing row changes |
| AuthCallback.GetAuthStatus | src/app/auth-callback/actions.ts:6-30 | the new tables and the result are those of `AuthStatusOf`; `Valid` is kept |
| AuthCallback.NewUserAdded | src/app/auth-callback/actions.ts:14-27 | a new user is added once, with the session's email |
| AuthCallback.KnownUserUntouched | src/app/auth-callback/actions.ts:20-27 | a known user leaves the store unchanged, even if the session reports a different email |
| AuthCallback.AuthStatusIdempotent | src/app/auth-callback/actions.ts:14-29 | two calls leave the same store and give the same answer as one call |

## Left out

- Payment: the payment-service product and checkout-session calls, and the redirect URLs built for them (src/app/configure/preview/actions.ts:54-77), belong to an external API. `CreateCheckoutSession` returns the data it would pass on (order id, user id, configuration id, image, unit amount) instead of the session URL.
- Authentication: the session lookup is an external service. The session user is a parameter, and `None` means no signed-in user.
- Image metadata: `fetch` and the image-metadata library in the upload callback are I/O. The width and height they produce are optional parameters.
- Base64 decoding: `atob` is a browser built-in. `Base64ToBlob` takes the string that `atob` returns. The base64 alphabet and its decoding are not modelled, so the round trip from bytes through base64 is covered only from the decoded string onward.
- Blob type normalisation: the browser lowercases the `type` given to `new Blob` and drops a non-printable one. `Base64ToBlob` keeps the type as given, which is the same for the only call, with "image/png".
- Canvas work: creating the canvas, loading the image (including its missing error path), `drawImage` rasterisation, `toDataURL`, the `File` wrapper and the upload call are browser APIs and asynchronous I/O. `ComposeDrawCall` gives the canvas size and the draw arguments only.
- Async orchestration: the `Promise.all` join of upload and save, the mutation hook, toasts and navigation are not modelled. Neither is concurrency between requests: each server operation is one atomic step, so two overlapping checkouts for one pair are not covered by `CheckoutKeepsValid`.
- The save action `saveConfig` (./actions of the design page) is not part of this model. Only the arguments it receives are modelled.
- Initial rendered size: `imageDimensions / 4` is non-integer division. The constructor takes the initial rendered width and height as integers.
- Pixel values: the browser reports coordinates and lengths as fractional pixels. The model uses integers.
- `parseInt` returns an unbounded integer, so JavaScript's loss of precision above 2^53 is not modelled. `Infinity` and the other inputs `parseInt` reads only by its string conversion do not arise here.
- Rendering: JSX, Tailwind class strings, `formatPrice`, and the capitalised group label are presentation only.
- Route configuration: the 4 MB size limit, the one-file limit and the input schema are enforced by the upload service before the callback runs.
- Database schema: `isFulfilled` defaults to false in the schema; `CreateCheckoutSession` writes that default explicitly and `NewOrderAdded` relies on it. The other column defaults, `shippingAddress`, and any foreign key from orders to users are not part of this model. Ids come from a counter written in decimal, standing for the store's generated ids.
- Reused orders: a reused order keeps its stored amount. No contract states that this amount equals the price charged (see above).
