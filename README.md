# Short-URL repository over a key-value store

This project models the repository layer of a URL-shortening service and proves properties about it. The service keeps two namespaces in one key-value store:

- `url:<code>` holds the mapping record (short code, original URL, status, creation and update times).
- `visits:<code>` holds the visit counter of that code.

The model covers these operations:

- short-code allocation with bounded retry;
- record creation, full-record update and deactivation;
- visit increment, where a missing counter counts as 0;
- deletion of a record together with its counter;
- the listing that joins every record with its count;
- the POST, GET and PATCH handlers of `/api/shorten`, which compose the operations above.

Files:

- `Storage.dfy`: the store (`class KeyValueStore`). It models the observable map semantics of `exists`, `setValue`, `deleteValue` and `getKeys`.
- `ShortUrlModel.dfy`: the repository.
  - The operations that write, and the allocation loop, are methods that take the store.
  - The reads (`GetShortUrl`, `GetShortUrlVisits`, `ExistsShortUrl`, the listing entries) are functions of the store's contents.
- `ShortenRoute.dfy`: the handlers. Each returns the status code with data or an error message.
- `ShortUrlProperties.dfy`: lemmas that relate the store before and after each write, and the listing to the store.
- `JsString.dfy`: JavaScript `trim` and `split(':')[1]`.
- `Wrappers.dfy`: `Option`.

Effects the code depends on are parameters:

- The random codes of `nanoid(6)` are a sequence `draws` of at least five six-character codes over nanoid's URL-safe alphabet.
- The clock (`new Date().toISOString()`) is `now`.
- `NEXT_PUBLIC_BASE_URL` is `baseUrl`.

A stored value is a parsed record (`UrlData`), a parsed counter (`VisitData`), or `Unparsable`. `getValue` yields null for an absent key and for an unparsable one. `exists` is plain key membership, so it also sees unparsable keys.

## Model

| member | source | states |
|---|---|---|
| `JsString.Trim` | src/models/shortUrl.tsx:63 | the result has no whitespace at either end and is the contiguous slice of the input left after removing only whitespace before and after it |
| `JsString.SecondField` | src/models/shortUrl.tsx:180 | `key.split(':')[1]` is the colon-free text between the first and second colon of the key |
| `Storage.KeyValueStore.Exists` | src/lib/storage.ts:156-160 | for a key under a prefix, `exists` agrees with every scan of that prefix: true iff the scan lists the key |
| `Storage.KeyValueStore.SetValue` | src/lib/storage.ts:98-111 | a set overwrites one key and leaves every other key as it was |
| `Storage.KeyValueStore.DeleteValue` | src/lib/storage.ts:140-149 | a delete removes exactly that key and returns true iff the key was present |
| `Storage.KeyValueStore.GetKeys` | src/lib/storage.ts:167-170 | the `prefix*` scan lists every key under the prefix exactly once, and nothing else |
| `Storage.KeyScanSize` | src/lib/storage.ts:167-170 | a scan has as many keys as the store has keys under the prefix |
| `ShortUrlModel.KeysDistinct` | src/models/shortUrl.tsx:107 | `url:` and `visits:` keys never collide, and each key names one code |
| `ShortUrlModel.NanoIdIsPlain` | src/models/shortUrl.tsx:61 | a drawn code is unchanged by `trim` and holds no colon, so the stored `shortCode` is the drawn code |
| `ShortUrlModel.ExistsShortUrl` | src/models/shortUrl.tsx:88-90 | true whenever `getShortUrl` finds a record, and also for a `url:` key whose value does not parse, which `getShortUrl` reads as absent; false otherwise |
| `ShortUrlModel.GetShortUrl` | src/models/shortUrl.tsx:97-99 | returns the record iff `url:<code>` holds a parsable record; otherwise none |
| `ShortUrlModel.GetShortUrlVisits` | src/models/shortUrl.tsx:106-108 | returns the counter iff `visits:<code>` holds a parsable counter; otherwise none |
| `ShortUrlModel.VisitCount` | src/models/shortUrl.tsx:115-119 | the count is the stored counter, and 0 when the counter is missing or does not parse |
| `ShortUrlModel.FirstFree` | src/models/shortUrl.tsx:33-46 | no code iff every draw is taken; otherwise the first draw whose `url:` key is absent, with every earlier draw taken |
| `ShortUrlModel.GenerateUniqueId` | src/models/shortUrl.tsx:33-46 | allocation makes between 1 and 5 existence checks, returns null only after 5, returns an absent code, and does not write |
| `ShortUrlModel.CreateShortUrl` | src/models/shortUrl.tsx:53-70 | allocation failure returns null and writes nothing; a missing url throws after allocation and writes nothing; success writes only `url:<code>` with `status = enabled`, the trimmed url, `createdAt = now` and no `updatedAt`, and returns that record |
| `ShortUrlModel.UpdateShortUrl` | src/models/shortUrl.tsx:78-81 | replaces the whole record under `url:<code>` and returns what it wrote |
| `ShortUrlModel.IncrementUrlVisits` | src/models/shortUrl.tsx:114-121 | writes `visits:<code>` as the old count plus one, a missing or unparsable counter counting as 0, and touches no other key |
| `ShortUrlModel.DeleteShortUrl` | src/models/shortUrl.tsx:129-139 | returns false with no change when `url:<code>` is absent; otherwise removes exactly `url:<code>` and `visits:<code>` and returns true |
| `ShortUrlModel.DeactivateShortUrl` | src/models/shortUrl.tsx:152-166 | returns false with no write when the record is unreadable; otherwise rewrites it with `status = disabled` and `updatedAt = now`, other fields kept |
| `ShortUrlModel.ListEntry` | src/models/shortUrl.tsx:179-189 | the stored record's fields override the default `shortCode` and `shortUrl`; `visits` is the code's counter, 0 when missing or unparsable |
| `ShortUrlModel.GetAllShortUrl` | src/models/shortUrl.tsx:176-194 | one entry per `url:` key, in scan order; the listing has as many entries as there are `url:` keys |
| `ShortenRoute.Post` | src/app/api/shorten/route.ts:21-54 | 500 with the "Could not generate unique shortCode" error exactly when allocation fails; 500 "Failed to create short URL" for an unparsable body or a missing url; otherwise 201 with the stored record; no write unless 201 |
| `ShortenRoute.Get` | src/app/api/shorten/route.ts:60-70 | 200 with exactly the listing of `getAllShortUrl` |
| `ShortenRoute.PlanPatch` | src/app/api/shorten/route.ts:92-119 | 400 iff a field is missing or empty; 404 iff the fields are present but the record is unreadable; otherwise the stored record with the given status, the trimmed url and `updatedAt = now`, every other field kept |
| `ShortenRoute.Patch` | src/app/api/shorten/route.ts:88-140 | 500 on an unparsable body, and 400 or 404 as planned, each with no write; otherwise writes the merged record under `url:<shortCode>` and returns 200 with exactly that record |
| `ShortUrlProperties.RecordWriteReadsBack` | src/models/shortUrl.tsx:78-81 | after a record write, `getShortUrl` reads that record back; the code's counter and every other code are unchanged |
| `ShortUrlProperties.CreateRoundTrip` | src/models/shortUrl.tsx:60-68 | after a create of drawn code c, `getShortUrl(c)` returns the created record, whose `shortCode` is `c.trim()` and so `c`; other codes are unchanged |
| `ShortUrlProperties.IncrementAddsOne` | src/models/shortUrl.tsx:114-121 | after an increment, the count is one more than before; records and other codes' counts are unchanged |
| `ShortUrlProperties.ThreeVisitsCountThree` | src/models/shortUrl.tsx:114-121 | three sequential increments from no counter leave a count of 3 |
| `ShortUrlProperties.DeleteLeavesNothing` | src/models/shortUrl.tsx:135-138 | after a delete, the code has no record, no `url:` key, no counter and a count of 0; other codes read as before |
| `ShortUrlProperties.DeletePreservesNoOrphans` | src/models/shortUrl.tsx:135-138 | deleting keeps every remaining counter paired with a `url:` key |
| `ShortUrlProperties.RecordWritePreservesNoOrphans` | src/models/shortUrl.tsx:78-81 | a record write (create, update or deactivate) keeps every counter paired |
| `ShortUrlProperties.IncrementOrphans` | src/models/shortUrl.tsx:114-121 | an increment keeps counters paired iff the code has a `url:` key; it checks for no record itself |
| `ShortUrlProperties.CreatedListsWithZeroVisits` | src/models/shortUrl.tsx:182 | when counters are paired, a freshly created record has count 0 |
| `ShortUrlProperties.ListingShowsEachRecord` | src/models/shortUrl.tsx:176-194 | each readable record of a colon-free code appears exactly once in the listing, with the record's `shortCode`, `originalUrl`, `status`, `createdAt`, `updatedAt` and `shortUrl`, and the code's count |
| `ShortUrlProperties.CodeOfUrlKey` | src/models/shortUrl.tsx:180 | the listing reads code c back out of `url:<c>` when c has no colon |
| `ShortUrlProperties.ListingMatchesKeys` | src/models/shortUrl.tsx:177-191 | every listing entry comes from a distinct `url:` key, and there are as many entries as `url:` keys |
| `ShortUrlProperties.UnreadableRecordListsDefaults` | src/models/shortUrl.tsx:181-189 | an unparsable `url:` value is still listed, with the default `shortCode` and `shortUrl`, its count and no other fields |
| `ShortUrlProperties.PatchAcceptsAnyStatus` | src/app/api/shorten/route.ts:114-119 | PATCH writes a status of "invalid-status" instead of refusing it |
| `ShortUrlProperties.PatchValidationReadsNothing` | src/app/api/shorten/route.ts:92-100 | whether PATCH answers 400 depends only on the body, not on the store |
| `ShortUrlProperties.PatchWriteReadsBack` | src/app/api/shorten/route.ts:114-121 | a successful PATCH keeps `shortCode` and `createdAt`; the written record reads back; other codes are unchanged |
| `ShortUrlProperties.DeactivateReadsBack` | src/models/shortUrl.tsx:159-165 | deactivation reads back as disabled with `updatedAt = now`; every other field is kept, and other codes are unchanged |

## Differences between the code and its tests

This model follows the code. These are the places where the code differs from what the tests expect, and one behaviour of the listing worth knowing:

- **Invalid status.** The tests expect PATCH with status `"invalid-status"` to return 400 (src/__tests__/api.test.ts:89-97). The handler checks only that `status` is non-empty and stores it as given. `PatchAcceptsAnyStatus` states this. The record's type declares the status as enabled or disabled, but the handler does not enforce it.
- **Invalid URL.** The tests expect POST with `url: 'invalid-url'` to return 400 (src/__tests__/api.test.ts:41-47). `createShortUrl` never validates the URL. `ShortenRoute.Post` answers 201 for any present url once a code is free.
- **Missing URL.** The tests expect POST with no url to return 400 (src/__tests__/api.test.ts:49-53). The code first allocates a code. `url.trim()` then throws, and the handler answers 500 "Failed to create short URL". If allocation fails, the answer is 500 with the allocation error instead. `ShortenRoute.Post` states both cases.
- **Unreadable records in the listing.** The listing does not skip a `url:` key whose value does not parse. It lists it with the default `shortCode`, the default `shortUrl` and a visit count. `UnreadableRecordListsDefaults` states this.

## Left out

- Redis connection handling, configuration checks, JSON (de)serialisation and the optional expiry of `setValue` (src/lib/storage.ts). The store is an in-memory map. The repository never passes an expiry.
- Store I/O failures. The model's store never fails. Because of this:
  - the catch branches of the handlers are modelled only for exceptions that arise in the handler code itself: a body that is not JSON, and `trim` on a missing url;
  - the 500 branch of GET cannot happen in the model;
  - the rethrows in `deleteShortUrl` and `deactivateShortUrl` are not modelled.
- `ShortUrlModel.GetShortUrl`: a value of the wrong shape under a `url:` key reads as absent. JavaScript would instead return the object cast to a record. The same holds for `visits:` keys in `GetShortUrlVisits`.
- IncrementAddsOne: visit counters are unbounded integers here. In the program a counter is a JavaScript number, and `data.visits + 1` stops growing at 2^53. So "one more than before" holds in the program only for counts below 2^53. The same holds for `IncrementUrlVisits` and `ThreeVisitsCountThree`.
- Request body fields other than strings (numbers, booleans, objects, JSON null). A field is either missing or a string.
- `ShortUrlModel.GenerateUniqueId`: the random draws are a parameter of at least five codes, because `nanoid` is randomness in a library outside this model. The `if (!shortCode)` guard in `createShortUrl` is modelled as written. It never fires for a six-character draw.
- The parallelism of `Promise.all` in `deleteShortUrl` and `getAllShortUrl`. Their steps touch independent keys and are taken in sequence. The lost-update race of the read-then-write increment is a concurrency concern and is not modelled.
- `getKeys` is modelled only for the pattern `url:*`, as a prefix filter. General glob patterns are not modelled.
- URL validation (src/lib/validator.ts and the form's `validateUrl`). The repository and the handlers never call it. It depends on the WHATWG URL parser.
- The redirect page (src/app/[shortCode]/page.tsx) and the DELETE handler (src/app/api/shorten/[shortCode]/route.ts) are not part of this model. The operations they call (`getShortUrl`, `incrementUrlVisits`, `existsShortUrl`, `deleteShortUrl`) are modelled.
- The UI components, the fetch wrappers (src/lib/api.ts, src/services/urlService.ts) and the HTTP response objects. A response is modelled as its status, data and error.
