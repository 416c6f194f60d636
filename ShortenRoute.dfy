/**
 * The `/api/shorten` handlers: POST creates a short URL, GET lists them all,
 * PATCH rewrites a record's status and original URL.  A response is its
 * status code with either data or an error message; the HTTP objects
 * themselves are not modelled.
 */
module ShortenRoute {
  import opened Wrappers
  import opened JsString
  import opened Storage
  import opened ShortUrlModel

  /** The JSON body every handler answers with. */
  datatype ApiResponse<T> = ApiResponse(status: int, data: Option<T>, error: Option<string>)

  const NoCodeError: string := "Could not generate unique shortCode. Please try again."
  const CreateFailedError: string := "Failed to create short URL"
  const MissingFieldsError: string := "shortCode, status and originalUrl are required"
  const NotFoundError: string := "URL not found"
  const UpdateFailedError: string := "Failed to update URL"

  /**
   * A parsed request body; a field is `None` when the JSON object lacks it.
   * A body that is not JSON is passed as `None` in place of the whole body.
   */
  datatype PostBody = PostBody(url: Option<string>)
  datatype PatchBody = PatchBody(shortCode: Option<string>, originalUrl: Option<string>, status: Option<string>)

  /** JavaScript truthiness of an optional string field. */
  predicate Truthy(field: Option<string>) {
    field.Some? && field.value != ""
  }

  function Failure<T>(status: int, error: string): ApiResponse<T> {
    ApiResponse(status, None, Some(error))
  }

  /**
   * POST: creates a record for `body.url`.  An unparsable body, or a missing
   * `url` once a code was found, is an exception and answers 500 "Failed to
   * create short URL"; allocation failure answers 500 with its own message;
   * success answers 201 with the created record.
   */
  method Post(kv: KeyValueStore<Stored>, body: Option<PostBody>, draws: seq<string>,
              now: string, baseUrl: string)
    returns (resp: ApiResponse<ShortUrl>)
    requires ValidDraws(draws)
    modifies kv
    ensures var free := FirstFree(old(kv.entries), draws[..MaxRetriesId]);
      && (resp == Failure(500, NoCodeError) <==> body.Some? && free.None?)
      && (resp == Failure(500, CreateFailedError) <==> body.None? || (free.Some? && body.value.url.None?))
      && (resp.status == 201 <==> body.Some? && body.value.url.Some? && free.Some?)
      && (resp.status != 201 ==> kv.entries == old(kv.entries))
      && (resp.status == 201 ==>
            && resp.data.Some? && resp.error.None?
            && resp.data.value.shortCode == free.value
            && resp.data.value.status == Enabled
            && resp.data.value.originalUrl == Trim(body.value.url.value)
            && UrlKey(free.value) !in old(kv.entries)
            && kv.entries == old(kv.entries)[UrlKey(free.value) := UrlData(resp.data.value)])
  {
    if body.None? {
      return Failure(500, CreateFailedError);
    }
    var shortUrl := CreateShortUrl(kv, body.value.url, draws, now, baseUrl);
    match shortUrl
    case Exhausted =>
      resp := Failure(500, NoCodeError);
    case Threw =>
      resp := Failure(500, CreateFailedError);
    case Created(data) =>
      resp := ApiResponse(201, Some(data), None);
  }

  /** GET: answers 200 with the listing of every stored short URL. */
  method Get(kv: KeyValueStore<Stored>, baseUrl: string)
    returns (resp: ApiResponse<seq<Listing>>, ghost keys: seq<string>)
    ensures IsKeyScan(kv.entries, UrlPrefix, keys)
    ensures resp.status == 200 && resp.error.None?
    ensures resp.data == Some(ListEntries(kv.entries, keys, baseUrl))
    ensures |resp.data.value| == |KeysWithPrefix(kv.entries, UrlPrefix)|
  {
    var urls;
    urls, keys := GetAllShortUrl(kv, baseUrl);
    resp := ApiResponse(200, Some(urls), None);
  }

  /** What PATCH does with a parsed body, before it touches the store. */
  datatype PatchPlan = BadRequest | NotFound | Write(code: string, data: ShortUrl)

  /**
   * The decision part of PATCH: every field must be present and non-empty,
   * the record must be readable, and then the stored record is kept except
   * for the given status, the trimmed URL and a new `updatedAt`.
   */
  function PlanPatch(entries: Entries, body: PatchBody, now: string): (p: PatchPlan)
    ensures p.BadRequest? <==> !Truthy(body.shortCode) || !Truthy(body.originalUrl) || !Truthy(body.status)
    ensures p.NotFound? <==> !p.BadRequest? && GetShortUrl(entries, body.shortCode.value).None?
    ensures p.Write? ==>
      var stored := GetShortUrl(entries, p.code);
      && p.code == body.shortCode.value
      && stored.Some?
      && p.data.shortCode == stored.value.shortCode
      && p.data.createdAt == stored.value.createdAt
      && p.data.shortUrl == stored.value.shortUrl
      && p.data.visits == stored.value.visits
      && p.data.status == body.status.value
      && p.data.originalUrl == Trim(body.originalUrl.value)
      && p.data.updatedAt == Some(now)
  {
    if !Truthy(body.shortCode) || !Truthy(body.originalUrl) || !Truthy(body.status) then
      BadRequest
    else
      match GetShortUrl(entries, body.shortCode.value)
      case None => NotFound
      case Some(urlData) =>
        Write(body.shortCode.value,
              urlData.(status := body.status.value,
                       originalUrl := Trim(body.originalUrl.value),
                       updatedAt := Some(now)))
  }

  /**
   * PATCH: 500 for an unparsable body, 400 for a missing field, 404 for an
   * unreadable record (no write in any of these), otherwise writes the
   * merged record and answers 200 with exactly what it wrote.
   */
  method Patch(kv: KeyValueStore<Stored>, body: Option<PatchBody>, now: string)
    returns (resp: ApiResponse<ShortUrl>)
    modifies kv
    ensures body.None? ==> resp == Failure(500, UpdateFailedError) && kv.entries == old(kv.entries)
    ensures body.Some? ==>
      match PlanPatch(old(kv.entries), body.value, now)
      case BadRequest => resp == Failure(400, MissingFieldsError) && kv.entries == old(kv.entries)
      case NotFound => resp == Failure(404, NotFoundError) && kv.entries == old(kv.entries)
      case Write(code, data) =>
        && resp == ApiResponse(200, Some(data), None)
        && kv.entries == old(kv.entries)[UrlKey(code) := UrlData(data)]
  {
    if body.None? {
      return Failure(500, UpdateFailedError);
    }
    match PlanPatch(kv.entries, body.value, now)
    case BadRequest =>
      resp := Failure(400, MissingFieldsError);
    case NotFound =>
      resp := Failure(404, NotFoundError);
    case Write(code, data) =>
      var updated := UpdateShortUrl(kv, code, data);
      resp := ApiResponse(200, Some(updated), None);
  }
}
