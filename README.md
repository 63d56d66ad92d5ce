# Storefront admin panel: cache, phone numbers and panel state in Dafny

This project models the logic core of a small storefront for Indonesian mobile
data packages. A browser admin panel lists products by category, lets an admin
log in, add, edit and delete products, and edit the store settings. A purchase
is handed off to WhatsApp. Products and settings live behind a remote
spreadsheet-backed API, and the panel keeps copies of them.

Three parts are modelled:

- **The time-to-live cache** (`Cache` in config.js), module `TtlCache`.
  - Class `Cache` has a field `store: map<string, Entry<T>>` that stands for the browser's durable storage.
  - `Set`, `Get`, `Remove` and `Clear` update that field in place.
  - `Get` deletes an expired entry when it finds one.
  - The clock is a parameter `now` in milliseconds.
  - `Get` and `Set` are proved against the pure functions `Lookup`, `AfterLookup` and `Put`. The lemmas are stated about those functions.
- **The phone-number helpers** (`Utils.cleanPhone`, `Utils.validatePhone` in config.js), module `PhoneUtils`.
  - `CleanPhone` strips non-digits and rewrites a local `08…`/`8…` prefix to `62…`.
  - `ValidatePhone` is the regular expression `^(\+62|62|0)8[1-9][0-9]{6,9}$`, written by hand with one alternative per prefix.
- **The admin panel's state** (`AdminPanel` in admin.js), module `Admin`.
  - The class keeps the fields `isAuthenticated`, `currentProducts` and `currentSettings`.
  - Each remote reply is a parameter: success flag, data, optional message.
  - Each handler returns the `api.get`/`api.post` calls it makes (operation and payload) and the notices it shows, both in order.
  - A handler that reloads after a successful write takes the reload's reply as a further parameter.
- **Constants** (`CONFIG` in config.js), module `Config`: the default WhatsApp number, the remote action names and the messages, and the default cache lifetime from `Cache.set`'s default argument (config.js:237).

Modelling choices:

- The API's category-to-products object is an ordered sequence of `Category` entries, because `editProduct`'s answer depends on iteration order.
- A setting value counts as truthy when the key is present and the value is not empty.
- A reply message that is `undefined` is `None`. `response.message || fallback` treats `None` and `""` alike. A template literal prints `None` as `undefined`.

Three behaviours of the code worth stating:

- A rejected login leaves the flag unchanged, so a logged-in admin stays logged in.
- The settings form sends one write for every field it contains.
- The product and settings handlers do not read `isAuthenticated`.

## Model

| member | source | states |
|---|---|---|
| Config.Action | config.js:45-54 | each operation's action name, as listed in `ENDPOINTS`; every name is non-empty and starts with a lower-case letter |
| Config.ActionInjective | config.js:45-54 | the eight action names are pairwise distinct |
| PhoneUtils.Digits | config.js:221-222 | the non-digit removal yields only decimal digits, is no longer than its input, and leaves an all-digit string unchanged |
| PhoneUtils.DigitsAppend | config.js:222 | removing non-digits distributes over concatenation |
| PhoneUtils.DigitsOfNonDigits | config.js:222 | a string with no digits reduces to the empty string |
| PhoneUtils.DigitsIdempotent | config.js:222 | removing non-digits twice equals removing them once |
| PhoneUtils.CleanPhone | config.js:220-232 | the cleaned number has only digits; it is at most two longer than the digits of the input; with no local prefix it is those digits; with a `08`/`8` prefix it starts with `628` |
| PhoneUtils.CleanPhoneCases | config.js:224-231 | `08…` becomes `62` plus the digits without the `0`; otherwise `8…` becomes `62` plus the digits; anything else is returned as its digits |
| PhoneUtils.CleanPhoneIgnoresFormatting | config.js:221-222 | cleaning the input equals cleaning its digits alone |
| PhoneUtils.CleanPhoneOfSameDigits | config.js:222-231 | two inputs with the same digits clean to the same number |
| PhoneUtils.CleanPhoneSeparatorInsensitive | config.js:221-222 | inserting a run of non-digits anywhere does not change the cleaned number |
| PhoneUtils.CleanPhoneIdempotent | config.js:220-232 | cleaning a cleaned number changes nothing |
| PhoneUtils.CleanPhoneLocalForms | config.js:225-229 | a digit string `8…` and the same string with a leading `0` both clean to `62` plus the string |
| PhoneUtils.CleanPhoneExamples | config.js:225-229 | `081234567890` and `81234567890` both clean to `6281234567890` |
| PhoneUtils.ValidatePhone | config.js:214-217 | the regular expression, one alternative per prefix; an accepted number has 9 to 14 characters and starts with `+`, `6` or `0` |
| PhoneUtils.ValidatePhoneAccepts | config.js:214-217 | each of the prefixes `+62`, `62`, `0` followed by `8`, a digit 1-9 and 6 to 9 digits is accepted |
| PhoneUtils.ValidatePhoneParts | config.js:214-217 | every accepted number splits into one of those prefixes and such a subscriber part |
| PhoneUtils.SubscriberDigits | config.js:215 | the part after the prefix is all digits |
| PhoneUtils.ValidPhoneCleansToInternational | config.js:214-232 | every accepted number cleans to `62` plus what follows its prefix, so it starts with `628` and is itself accepted |
| TtlCache.Lookup | config.js:246-257 | a read returns data exactly when the key is stored and its age is at most its lifetime, and then it returns the stored data |
| TtlCache.AfterLookup | config.js:250-254 | a read keeps the key exactly when it is stored and live; no other key is removed or changed |
| TtlCache.Put | config.js:237-244 | a store adds the key with the data, `now` as its time stamp and the given lifetime, and leaves every other key as it was |
| TtlCache.Cache.constructor | config.js:236 | the cache starts on whatever the storage already holds |
| TtlCache.Cache.Set | config.js:237-244 | the new storage is the old one with `key` mapped to `(data, now, expiry)`; the lifetime defaults to 300000 ms |
| TtlCache.Cache.Get | config.js:246-257 | returns what `Lookup` gives on the old storage and leaves the storage as `AfterLookup` gives it |
| TtlCache.Cache.Remove | config.js:259-261 | the new storage is the old one without `key` |
| TtlCache.Cache.Clear | config.js:263-265 | the storage is empty afterwards |
| TtlCache.SetThenGet | config.js:237-256 | right after storing with a lifetime of at least 0, a read at the same time returns the data and removes nothing |
| TtlCache.ServedUntilExpiry | config.js:251-256 | a stored entry is returned exactly while its age is at most its lifetime (strict `>` for expiry) |
| TtlCache.ExpiredReadPurges | config.js:250-254 | a read that finds the entry expired returns nothing and removes the key, so every later read returns nothing too |
| TtlCache.LookupLeavesOthers | config.js:246-257 | a read never changes what any other key returns |
| TtlCache.PutLeavesOthers | config.js:237-244 | a store never changes what any other key returns |
| TtlCache.LookupIdempotent | config.js:246-257 | a second read at the same time gives the same answer and changes nothing more |
| TtlCache.SetThenGetClient | config.js:237-257 | after a caller stores with the default lifetime, a read of that key at the same time returns the data, a read of another key returns what it returned before the store, and the entry is still there, stamped with `now` and 300000 ms |
| Admin.AuthStep | admin.js:208-209 | one change of the login flag: a logout always clears it; otherwise it is set exactly when it was set already or the login was accepted |
| Admin.AuthAfter | admin.js:5 | the flag after a sequence of logins and logouts, starting from the constructor's `false`; when set, the last event is a login reply |
| Admin.AuthenticatedIffAcceptedSinceLogout | admin.js:199-220 | starting unauthenticated, the flag is set exactly when some login was accepted and no logout followed it |
| Admin.FindProduct | admin.js:379 | the result is absent exactly when no product has the id; otherwise it has the id and is the first such product |
| Admin.Locate | admin.js:373-389 | the search finds nothing exactly when no category holds the id; a found product has the id |
| Admin.LocateIsLastMatch | admin.js:378-384 | the product found is the first match in some category, and no later category has a match |
| Admin.EditForm | admin.js:400-407 | the edit form carries mode `edit`, the found product's id, its category and its name, price and description |
| Admin.ProductRequest | admin.js:483-496 | edit mode sends `updateProduct` with the form's id; any other mode sends `addProduct` with no id; the fields are the form's |
| Admin.SettingWrites | admin.js:537-543 | one `updateSettings` write per form entry, in form order |
| Admin.FirstFailure | admin.js:542-547 | absent exactly when every reply succeeded; otherwise the index of a failed reply with every earlier reply successful |
| Admin.MessageOr | admin.js:65 | the reply's message when it is present and non-empty, otherwise the fallback; never empty when the fallback is not |
| Admin.Interpolated | admin.js:545 | a present message prints as itself, a missing one as `undefined` |
| Admin.SettingFailure | admin.js:545 | the error notice for a failed settings write starts with `Gagal update ` followed by the setting's name, then the message |
| Admin.WhatsAppNumber | admin.js:573 | the configured number when it is set and non-empty, otherwise the default; never empty |
| Admin.AdminPanel.constructor | admin.js:4-9 | a new panel is not authenticated and has no products and no settings |
| Admin.AdminPanel.LoadProducts | admin.js:57-71 | the products are replaced by the reply's data only when it succeeds; a failure shows its message or the fallback |
| Admin.AdminPanel.LoadSettings | admin.js:73-87 | the settings are replaced by the reply's data only when it succeeds; a failure shows its message or the fallback |
| Admin.AdminPanel.LoadInitialData | admin.js:43-55 | products are loaded first, then settings, each under the rule above |
| Admin.AdminPanel.OpenAdminPanel | admin.js:154-160 | the login dialog opens exactly when not authenticated; the admin dialog opens exactly when authenticated |
| Admin.AdminPanel.HandleLogin | admin.js:199-220 | sends the password; only an accepted reply sets the flag and opens the admin dialog; a rejection keeps every field and shows the message or "Password salah!" |
| Admin.AdminPanel.Logout | admin.js:589-593 | the flag is false afterwards, whatever it was; products and settings are kept |
| Admin.AdminPanel.EditProduct | admin.js:373-389 | opens nothing exactly when no category holds the id; otherwise opens the edit form on `Locate`'s product and category, carrying the id |
| Admin.AdminPanel.HandleProductSubmit | admin.js:475-509 | sends `ProductRequest(form)`; only a successful reply shows the add/update message and reloads the products; a failure keeps them |
| Admin.AdminPanel.DeleteProduct | admin.js:511-529 | without confirmation nothing is sent or changed; with it the deletion is sent and the products are reloaded only on success |
| Admin.AdminPanel.HandleSettingsSubmit | admin.js:531-556 | writes the entries in order up to and including the first failed reply; that failure names its setting and stops the run; only an all-successful run reports success and reloads the settings |
| Admin.AdminPanel.BuyProduct | admin.js:572-577 | a purchase goes to `WhatsAppNumber` of the current settings |
| Admin.SettingsStopAtFirstFailure | admin.js:541-555 | when the WhatsApp-number write fails, the store-name entry is never sent and the failure names the WhatsApp number |

## Left out

- `APIHelper.get`/`post` (config.js:70-114): network I/O, URL building, `FormData` and JSON. Their replies are parameters of the handlers.
- The handlers' `sent` lists the `api.get`/`api.post` calls they make. For a write, the `endpoint` of a `Request` is only the argument given to `api.post`: `post` puts the action into a `FormData` that it never sends and sends only the JSON of the payload (config.js:96-101), so the remote API does not receive a write's action.
- Admin.AdminPanel.constructor: the source constructor also calls `init()`, which starts `loadInitialData()` and so sends `getProducts` at once (admin.js:8, 11-14). In the model the constructor sends nothing, and the initial load is the separate `LoadInitialData`.
- TtlCache.Cache.Set: `localStorage.setItem` can throw, for example when the storage quota is full (config.js:243). The exception then reaches the caller and the storage is unchanged. The model's `Set` always succeeds.
- Admin.Interpolated: a reply whose `message` is JSON `null` prints as `null` in a template literal (admin.js:545). `Option<string>` only expresses a missing message, which prints as `undefined`, so a `null` message is not modelled.
- Reply bodies that are not objects, such as a JSON `null`: the handlers' `catch` branches for a `TypeError` are not modelled. Every reply carries a boolean `success`.
- `Utils.formatPrice`, `Utils.formatDate` (config.js:122-138): locale formatting through `Intl`.
- `Utils.generateWhatsAppURL` (config.js:208-211) and `window.open`: URL encoding and opening a window.
- Admin.AdminPanel.BuyProduct: returns only the number chosen. The purchase message and its URL are not built, because they depend on locale price formatting and URL encoding.
- Rendering, modal plumbing, form resets, tabs, the orders placeholder and the injected styles (admin.js:89-152, 162-197, 222-367, 391-473, 558-587, 604-824; config.js:140-205). These are DOM work with no state logic.
- `showAddProductModal` and the add branch of `showProductModal`: the product form is a parameter of `HandleProductSubmit`, and its `mode` is whatever string the form holds.
- `confirm` is a boolean parameter. `Date.now()` is the parameter `now`. `parseInt` is not modelled: the price is an integer input.
- Interleaving of concurrent handlers: each handler runs as one sequential step.
- JSON encoding of cache entries and a `JSON.parse` failure on corrupt storage: entries are records in a map. A stored entry is never the empty string, so `!item` is the same as "absent".
- Product ids are strings compared with `===`. The model does not cover an API that returns numeric ids, which the string comparison would never match.
- That a product is gone from the listing after a successful deletion depends on the remote API, which is not part of this model.
