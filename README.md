# Media identifiers, pricing and workflow rules of the party backend, in Dafny

This project models the parts of the party backend that carry their own logic
rather than framework wiring.

- **Image identifiers.** A stored image value is unset (empty), a full URL
  (starts with `http`), a Cloudinary versioned id (starts with `v`) or a legacy
  local path. The model covers the leadership serializer's resolver with its
  remote-lookup fallback chain, and the product and news getters that
  hard-code the cloud name.
- **The `migrate_to_cloudinary` command.** A loop over the leadership records
  that uploads each legacy file and writes the returned identifier back. Every
  exception inside one record's pass is caught.
- **Product pricing.** The original price comes from a modifier, and the
  discount is a whole percentage of it.
- **Membership amounts.** The model's `save` defaults the amount from a table.
  The serializer's `create` applies its own table.
- **The gallery validator** and the registration password check.
- **Two view state machines.** The newsletter registry keyed by email
  (subscribe, verify by token, unsubscribe). The shop store: one review per
  user and product, order creation undone by a rejected item, and the two
  payment steps.

The modules are: `AssetIdentifier` (the prefix rules and string helpers shared
by the getters and the command), `Serializers`, `NewsModel`,
`MigrateToCloudinary`, `ShopModel`, `MembershipModel`, `GalleryModel`,
`NewsletterViews`, `ShopViews` and `Common` (Option and Result).

Records the source updates in place are classes whose methods say the whole new
state: `News`, `Product`, `Membership`, the newsletter `Registry` and the shop
`Store`. The command works over an array of records. Pure getters and
calculations are functions.

Outside collaborators are parameters:

- the remote lookup `cloudinary.uploader.explicit`;
- the upload `cloudinary.uploader.upload`;
- `FieldFile.path`, `FieldFile.url` and `os.path.exists`;
- `slugify`;
- the random newsletter token.

Decimal amounts are exact reals. For prices with two decimal places, the
28-digit decimal context never rounds a quotient across a whole percent, so the
truncated discount is the same as with exact arithmetic.

The model follows the code in these places, where the code behaves otherwise
than the names and comments around it suggest:

- When the lookup of a legacy leadership image fails, the resolver returns the
  Cloudinary template over the derived path, not the local media URL.
  `MEDIA_URL + value` is returned only when reading the cloud name from the
  settings raises inside the fallback.
- The migration's guard tests only "set and not starting with `v`". So a full
  URL is treated as a legacy file, and a file missing on disk is reported with
  a warning line. The command keeps no counts.
- The versioned-id test is a single leading `v`, not `v<digits>/`.
- The command rewrites the field without the `v` marker (see Findings).

## Model

| member | source | states |
|---|---|---|
| AssetIdentifier.Classify | party/serializers.py:136-143 | An empty value is unset. A value with prefix `http` is a full URL. A value whose first character is `v` is a versioned id. The four kinds are exclusive and cover every string. |
| AssetIdentifier.LastSegment | party/serializers.py:157 | `split('/')[-1]`: the result contains no `/`. It is a suffix of the input and is either the whole input or preceded by `/`. |
| AssetIdentifier.DeriveRemotePath | party/serializers.py:151-158 | The probed path always lies in `leadership/`. It is the value itself when the value already does. Otherwise it is `leadership/` plus the value's final path segment. |
| AssetIdentifier.DeriveRemotePathIdempotent | party/serializers.py:151-158 | Deriving the path of a derived path changes nothing. |
| AssetIdentifier.VersionedId | party/management/commands/migrate_to_cloudinary.py:38 | Corrected rewrite `v<version>/<public_id>`: it is always classified as a versioned id. |
| AssetIdentifier.VersionedIdInjective | party/management/commands/migrate_to_cloudinary.py:38 | Two corrected identifiers with natural versions are equal only if their versions and public ids are. |
| Serializers.LeadershipImage | party/serializers.py:135-174 | An unset value gives None, and only then. A full URL is returned unchanged. A `v` value gives the template over the configured cloud. A legacy value gives the lookup's `secure_url`; if the lookup fails, the template over the derived path; only if the cloud name is also missing, `MEDIA_URL` + value. The getter raises only for a `v` value with no cloud name. |
| Serializers.ResolvesWithoutLookup | party/serializers.py:136-143 | Unset, full-URL and `v` values resolve the same whatever the remote store answers: no lookup is made for them. |
| Serializers.LookupOnlyAtDerivedPath | party/serializers.py:152-166 | The remote store is consulted only at the derived path. |
| Serializers.ProductImageUrl | party/serializers.py:230-233 | An unset image gives None. A `v` image gives the hard-coded cloud's URL. Any other image, full URLs included, gives the storage URL. |
| Serializers.VersionedUrlsAgree | party/serializers.py:142-143 | With the hard-coded cloud configured, the leadership and product getters agree on unset and `v` values. |
| Serializers.SerializerAmount | party/serializers.py:273-281 | The serializer's table lookup with default 0 is never negative. |
| Serializers.MembershipCreateData | party/serializers.py:267-287 | The amount always comes from the table and agrees with the model's `MEMBERSHIP_AMOUNTS`, whatever the client sent. A mwananchi membership is marked `completed`. An authenticated user is attached. No other key changes and none is added. |
| Serializers.CreatedAmountSurvivesSave | party/models/membership.py:81-85 | The amount `create` writes is kept by the `save` that follows it. |
| Serializers.ValidateRegistration | party/serializers.py:30-33 | Accepts exactly when the two passwords match, and then returns the attributes unchanged. |
| Serializers.RegistrationUserFields | party/serializers.py:35-38 | The fields passed on are the validated ones, minus `password2` and otherwise unchanged. |
| MembershipModel.TableAmount | party/models/membership.py:47-53 | `MEMBERSHIP_AMOUNTS.get(type, 0.00)`: the table's fee for a listed type, 0.00 for any other type, never negative. |
| MembershipModel.AmountAfterSave | party/models/membership.py:81-85 | An unset or zero amount is replaced by the type's table amount. Any other amount is kept. A zero result means the table has nothing for the type. |
| MembershipModel.SaveIdempotent | party/models/membership.py:81-85 | Saving twice gives the same amount as saving once. |
| MembershipModel.SaveKeepsNonNegative | party/models/membership.py:59-85 | An amount the validator accepts (at least 0.00) stays non-negative through `save`. |
| MembershipModel.Membership.constructor | party/models/membership.py:55-64 | A new record has payment status `pending` and amount 0.00. |
| MembershipModel.Membership.Save | party/models/membership.py:81-85 | An unset or zero amount becomes the type's table amount, 0.00 for an unlisted type. Any other amount is kept. The type and the payment status are untouched. |
| NewsModel.News.constructor | party/models/news.py:25-37 | A record with the given title, slug and image fields. |
| NewsModel.News.Save | party/models/news.py:39-42 | An empty slug becomes `slugify(title)`. A non-empty slug is never replaced. Only the slug may change. |
| NewsModel.News.PreviewImageUrl | party/models/news.py:44-47 | None exactly when unset. A `v` value gives the hard-coded cloud's URL. Any other value gives the storage URL. The record is only read. |
| NewsModel.News.ImageUrl | party/models/news.py:49-52 | The same rule over the optional image. |
| ShopModel.Trunc | party/models/shop.py:59 | Python's `int()`: the nearest integer toward zero, within 1 of the argument. |
| ShopModel.OriginalPrice | party/models/shop.py:49-54 | Present exactly for `multiply` or `add` with a modifier above zero. Then it is price × value or price + value. |
| ShopModel.Discount | party/models/shop.py:56-60 | 0 unless the original price is present, non-zero and above the price. Then it is `int()` of (original − price)/original × 100, for any price. It lies in 0..100 for a non-negative price, and is then the whole percentage d with d ≤ (original − price)/original × 100 < d + 1. |
| ShopModel.MultiplyDiscount | party/models/shop.py:49-60 | For a positive price and a multiplying factor f, the discount is `int((f − 1)/f × 100)` if f > 1, else 0. |
| ShopModel.MultiplyDiscountIgnoresPrice | party/models/shop.py:49-60 | With a multiplying modifier, every positive price shows the same discount. |
| ShopModel.SmallFactorNoDiscount | party/models/shop.py:49-60 | A multiplying factor of at most 1 never gives a positive price a discount. |
| ShopModel.Product.constructor | party/models/shop.py:21-42 | A new product has no original price yet. |
| ShopModel.Product.Save | party/models/shop.py:62-66 | The slug is kept if non-empty, else it is `slugify(name)`. The stored original price equals `calculate_original_price()`. |
| GalleryModel.Clean | party/models/gallery.py:36-41 | Image type without an image: ImageRequired, and only then. Video type without a video: VideoRequired, and only then. Every other item passes. |
| GalleryModel.CleanLooksOnlyAtRequiredFile | party/models/gallery.py:36-41 | The other file and the thumbnail never change the verdict. |
| MigrateToCloudinary.RewrittenImage | party/management/commands/migrate_to_cloudinary.py:38 | As written, a string version gives exactly `version + '/' + public_id`, and an int version raises TypeError. Corrected, it always gives `v<str(version)>/<public_id>`, which is classified as a versioned id. |
| MigrateToCloudinary.Process | party/management/commands/migrate_to_cloudinary.py:24-51 | A record is skipped exactly when its image is unset or starts with `v`. For any other record: a raising `.path` is an error; a missing file is a warning naming the path; a raising upload is an error; otherwise the record is migrated to the rewritten value, or the rewrite's TypeError is an error. |
| MigrateToCloudinary.RequestOf | party/management/commands/migrate_to_cloudinary.py:24-35 | An upload is sent for a record the guard lets in exactly when its local path resolves and the file exists. It carries that path, folder `leadership` and resource type `image`. |
| MigrateToCloudinary.Migrate | party/management/commands/migrate_to_cloudinary.py:24-39 | A record changes only when migrated, and then only its image, to the rewritten value. |
| MigrateToCloudinary.Run | party/management/commands/migrate_to_cloudinary.py:23 | A run yields one record per input record. |
| MigrateToCloudinary.Handle | party/management/commands/migrate_to_cloudinary.py:12-51 | Missing settings abort before any record is touched. Otherwise the records, the messages and the uploads are those of the run. |
| MigrateToCloudinary.MigrateRecords | party/management/commands/migrate_to_cloudinary.py:23-51 | The loop leaves every record as its own pass makes it. It writes the run's messages and sends the run's uploads, in query order. |
| MigrateToCloudinary.HandleOne | party/management/commands/migrate_to_cloudinary.py:24-51 | One pass changes the current record only, as `Migrate` says. It writes that record's message and sends at most its one upload. |
| MigrateToCloudinary.RunPointwise | party/management/commands/migrate_to_cloudinary.py:23-51 | Each record's result depends on that record alone. |
| MigrateToCloudinary.OtherRecordsUnaffected | party/management/commands/migrate_to_cloudinary.py:48-51 | Replacing one record, for example by one whose upload raises, changes no other record's result. |
| MigrateToCloudinary.MissingFileWarnsAndKeeps | party/management/commands/migrate_to_cloudinary.py:29-47 | A record whose local file is missing sends no upload, keeps its value and gets a warning line naming the path. |
| MigrateToCloudinary.RaisingPassLogsErrorAndKeeps | party/management/commands/migrate_to_cloudinary.py:25-51 | A record whose `.path` or upload raises keeps its value and gets one error line naming it. |
| MigrateToCloudinary.UploadsTargetLeadership | party/management/commands/migrate_to_cloudinary.py:31-35 | At most one upload per record, each to folder `leadership` as an `image`. |
| MigrateToCloudinary.IntVersionUploadsButKeepsRecord | party/management/commands/migrate_to_cloudinary.py:38 | As written, an int version raises after the upload. The record keeps its legacy value and an error line is written. |
| MigrateToCloudinary.AsWrittenValueNotRecognised | party/management/commands/migrate_to_cloudinary.py:24-38 | As written, a digit-string version yields a value that is classified as a legacy path and that the guard lets in again. |
| MigrateToCloudinary.CanonicalUploadMigrates | party/management/commands/migrate_to_cloudinary.py:38 | Corrected, every successful upload migrates its record to `v<version>/<public_id>`. |
| MigrateToCloudinary.CanonicalRerunSkipsMigrated | party/management/commands/migrate_to_cloudinary.py:24 | Corrected, a record migrated by one run is skipped by every later run: no second upload and no change. |
| MigrateToCloudinary.VersionedRecordsStable | party/management/commands/migrate_to_cloudinary.py:24 | An unset or `v` record is never uploaded or altered, whichever rewrite is used. |
| NewsletterViews.SubscribeOutcome | party/views/newsletter.py:14-42 | A missing email or a known email gives 400 with the rows unchanged. A new email whose mail is sent gets a pending, unverified row holding the drawn token, with 201. A failed mail gives 500; as written the row and its token stay, removed the rows are as before. No other address's row changes. |
| NewsletterViews.FailedMailLocksOutAddress | party/views/newsletter.py:27-37 | As written, after a failed verification mail the address has a pending row with an undelivered token, and every later `subscribe` for it is refused as already subscribed. |
| NewsletterViews.RemoveRowRetrySubscribes | party/views/newsletter.py:34-37 | Removing the row on a failed mail leaves the rows unchanged, so a retry whose mail goes out subscribes the address with the new token. |
| NewsletterViews.Registry.Subscribe | party/views/newsletter.py:14-42 | The new rows and the answer are those of `SubscribeOutcome`, and the consistency invariant is kept. |
| NewsletterViews.Registry.Verify | party/views/newsletter.py:46-88 | No match gives 404 and several matches give 500, both with no change. For the one match: an already verified row gives "already verified" with no change; otherwise the row becomes active and verified, the token is cleared, and the token then matches nothing. The consistency invariant is kept, and under it "already verified" cannot occur. |
| NewsletterViews.Registry.Unsubscribe | party/views/newsletter.py:92-111 | A missing email gives 400 and an unknown email gives 404, both with no change. Otherwise only the row's status changes, to inactive. |
| ShopViews.Strip | party/serializers.py:189-195 | `str.strip()` as the review serializer's character field applies it: a middle part of the input with only whitespace cut on either side, neither starting nor ending with whitespace, and empty exactly when the input is all whitespace. |
| ShopViews.ReviewValid | party/models/shop.py:77-81 | The review serializer accepts exactly a rating among 1..5 and a comment with a non-whitespace character and no null character. |
| ShopViews.ItemValid | party/serializers.py:235-240 | `is_valid()` on an item: with the read-only product exactly the given field validation, whatever the product. With a writable product it also requires an existing product not already stored for the order. |
| ShopViews.StepOf | party/views/shop.py:63-68 | An item is rejected exactly when it is invalid. With the read-only product a valid item's save always raises. With a writable product it is always saved. |
| ShopViews.FirstStopFrom | party/views/shop.py:62-72 | The first item the loop does not save. Every item before it is saved given the items saved before it. With none, every item is saved. |
| ShopViews.CreateOutcomeOf | party/views/shop.py:57-72 | All items saved: the order is kept with all of them and nothing is returned. First item rejected: the order is gone, and the 400 is returned (as written) or raised. First save raising: the order stays with the items before it and the IntegrityError propagates. |
| ShopViews.CreateResponse | party/views/shop.py:67-72 | The client gets 201 exactly when `perform_create` returns with the order still stored, whatever it returned. It gets 500 when it returns after deleting the order, because rendering the deleted order's `items` raises, and 500 for an IntegrityError. It gets 400 exactly for a raised validation error. |
| ShopViews.ReadOnlyProductStoresNoItem | party/serializers.py:236 | As written, no order ever keeps an item. An order whose first item is valid stays stored without items, and the client gets 500. |
| ShopViews.WritableProductStoresDistinctItems | party/models/shop.py:154 | With a writable product, an order keeps all its items exactly when every item is valid, names an existing product, and no two name the same product, so `unique_together` holds for every stored order. |
| ShopViews.RejectedItemAnswered500 | party/views/shop.py:67-72 | As written, a rejected item deletes the order and `perform_create` returns its 400, yet the client gets 500 and never the 400. |
| ShopViews.RaisedRejectionAnswered400 | party/views/shop.py:67-72 | Raising the rejection instead answers the client 400 for the deleted order. |
| ShopViews.Store.AddReview | party/views/shop.py:25-41 | An unknown product gives 404. A second review by the same user gives 400. An invalid review gives 400. These leave the reviews unchanged. Otherwise exactly one review is added, with the stripped comment. |
| ShopViews.Store.PerformCreate | party/views/shop.py:57-72 | The orders, the stored items and how the call ends are those of `CreateOutcomeOf`: the order and the items saved before a raising save stay stored; a rejected item leaves the orders and items as before. Every stored item names an existing product. |
| ShopViews.Store.SaveItems | party/views/shop.py:61-66 | The loop stores the items up to the first one it does not save, and stops there, or at the end. |
| ShopViews.Store.InitiatePayment | party/views/shop.py:75-94 | Someone else's or an unknown order gives 404. No method gives 400. Both leave the orders unchanged. Otherwise only that order's method and status (processing) change. |
| ShopViews.Store.VerifyPayment | party/views/shop.py:98-119 | Someone else's or an unknown order gives 404. No transaction id gives 400. Both leave the orders unchanged. Otherwise only that order's transaction id, its payment status (completed) and its status (processing) change. |

## Findings

| source | as written | input that shows it | evidently intended | confidence | as-written member | corrected member |
|---|---|---|---|---|---|---|
| party/management/commands/migrate_to_cloudinary.py:38 | `result['version'] + '/' + ...` adds a string to the response's numeric version. That raises TypeError after the file was uploaded. The handler at lines 48-51 logs it, so no record is ever rewritten. | an upload answering version 1700000000 (a number) and public id `leadership/john` | the record rewritten to `v1700000000/leadership/john` | not executed; assumes the upload response carries the version as a number | MigrateToCloudinary.IntVersionUploadsButKeepsRecord | MigrateToCloudinary.CanonicalUploadMigrates |
| party/management/commands/migrate_to_cloudinary.py:38 | The rewritten value has no leading `v`. The guard at line 24 therefore treats it as a legacy file again on the next run, and the getters do not recognise it either. | version `1700000000`, public id `leadership/john`: the value `1700000000/leadership/john` passes the guard again | `v1700000000/leadership/john`, which later runs skip | not executed | MigrateToCloudinary.AsWrittenValueNotRecognised | MigrateToCloudinary.CanonicalRerunSkipsMigrated |
| party/views/newsletter.py:27-37 | The row and its token are saved before the verification mail is sent, and a failed send is re-raised, so the client gets 500 with the row kept. | `subscribe` for a new address while the mail backend fails, then `subscribe` again for the same address, assuming no request-wide transaction (`ATOMIC_REQUESTS` off) | A failed send leaves the address free to subscribe again | medium, not executed | NewsletterViews.FailedMailLocksOutAddress | NewsletterViews.RemoveRowRetrySubscribes |
| party/serializers.py:236 | The item serializer declares `product` read-only, so `is_valid()` neither checks nor passes on the product and no uniqueness validator is built. The save then has no product, violates the NOT NULL column of party/models/shop.py:146 and raises IntegrityError. The order created just before stays stored, and the client gets 500. | an order with one item `{product: 1, quantity: 1, price: "10.00"}`, assuming no request-wide transaction | The product is writable, so each item is stored and a repeated product is rejected | medium, not executed | ShopViews.ReadOnlyProductStoresNoItem | ShopViews.WritableProductStoresDistinctItems |
| party/views/shop.py:67-72 | On a rejected item `perform_create` deletes the order and returns a 400 response. The framework's `create()` ignores that value and renders the order. The deletion cleared its primary key, and OrderSerializer's read-only `items` field (party/serializers.py:243) reads the reverse relation, which raises ValueError under Django 5.2, so the client gets 500. | an order with one item `{product: 1, quantity: "x", price: "10.00"}` | The rejection reaches the client as 400 | high, not executed | ShopViews.RejectedItemAnswered500 | ShopViews.RaisedRejectionAnswered400 |

The batch takes the rewrite as a parameter. `AsWritten` is the code on line 38.
`Canonical` is the corrected form, which the idempotence lemmas use.

## Left out

- The Cloudinary SDK (`config`, `uploader.upload`, `uploader.explicit`) is not modelled. It appears only as parameters: a lookup that answers a URL or fails, and an upload that answers a version and public id or fails. The upload is a fixed function of its request within one run. The lemmas hold for every such function, and a later run may use another.
- ORM persistence (`save()`, `delete()`, querysets) is not modelled. Stored rows are maps, and the leadership records are an array. `save()` is assumed not to raise. A failing `leader.save()` would leave the in-memory value changed but not stored.
- `FieldFile.path`, `FieldFile.url` and `os.path.exists` are given functions, and `slugify` is a given function.
- The newsletter token drawn by `secrets.token_urlsafe` is an input of `Subscribe`.
- Email delivery (`EmailService`, the email backend, signals) is not modelled: it is I/O. Whether the verification mail went out is an input of `Subscribe`; a failed send re-raises out of the view. `send_newsletter` is not modelled.
- Debug `print` and `logger` calls are assumed not to raise. A failing print inside `get_image`'s handlers would change which fallback is taken.
- A request value that is absent and one that is empty (`request.data.get(...)` giving None or "") are both modelled as "".
- Serializers.MembershipCreateData: the in-place update of `validated_data` is a function returning the updated dictionary. The dictionary is local to the call, so no aliasing is lost. The record creation that follows is covered by `Membership.Save`.
- Serializers.RegistrationUserFields: `create_user`, password hashing and the field-level validators (including `validate_password`) are not modelled.
- ShopViews.Store.PerformCreate: the item serializer's field validation (quantity and price) is a given predicate. No transaction around the request is assumed; with `ATOMIC_REQUESTS` an IntegrityError would also undo the order. The framework's `create()` is modelled only by the response it gives, in `CreateResponse`. The 500 that `CreateResponse` gives for a deleted order relies on Django 4.1 or later; the migrations were generated by Django 5.2.1.
- Authentication and permission classes, URL routing, admin classes, migrations and `import_locations` are framework wiring or spreadsheet I/O.
- `ProductSerializer.get_average_rating` is not modelled: it computes a float quotient.
- `ProductSerializer.to_representation` only calls the two pricing functions, so it adds nothing beyond them.
- ShopModel.Product.Save: the quantisation of the stored original price to two decimal places by the database column is not modelled.
- Concurrent runs of the migration command are not modelled.
