/**
 * The short-URL repository: short-code allocation with bounded retry, the
 * mapping records under `url:<code>`, the visit counters under
 * `visits:<code>`, and the listing that joins the two.
 *
 * Operations that write (or that loop against the store) are methods taking
 * the store; the reads are functions of the store's contents.  The random
 * draws of `nanoid(6)`, the clock and the base URL are parameters.
 */
module ShortUrlModel {
  import opened Wrappers
  import opened JsString
  import opened Storage

  /** Maximum number of codes drawn before allocation gives up. */
  const MaxRetriesId: nat := 5

  const Enabled: string := "enabled"
  const Disabled: string := "disabled"

  const UrlPrefix: string := "url:"
  const VisitsPrefix: string := "visits:"

  /**
   * A mapping record.  `None` stands for a field absent from the stored
   * JSON object.  `status` is a string because the update handler stores
   * whatever non-empty status it is given.
   */
  datatype ShortUrl = ShortUrl(
    shortCode: string,
    originalUrl: string,
    shortUrl: Option<string>,
    status: string,
    visits: Option<int>,
    createdAt: string,
    updatedAt: Option<string>)

  /** A visit counter record. */
  datatype Visit = Visit(visits: int)

  /** What a key of the store holds once parsed. */
  datatype Stored = UrlData(url: ShortUrl) | VisitData(visit: Visit) | Unparsable

  type Entries = map<string, Stored>

  /** One element of the listing: the defaults, overridden by the stored record, then the count. */
  datatype Listing = Listing(
    shortCode: string,
    shortUrl: string,
    originalUrl: Option<string>,
    status: Option<string>,
    createdAt: Option<string>,
    updatedAt: Option<string>,
    visits: int)

  /** Result of `createShortUrl`: no free code, an exception, or the stored record. */
  datatype CreateOutcome = Exhausted | Threw | Created(data: ShortUrl)

  function UrlKey(code: string): string { UrlPrefix + code }

  function VisitsKey(code: string): string { VisitsPrefix + code }

  /** The two namespaces never share a key, and each key names one code. */
  lemma KeysDistinct(c: string, d: string)
    ensures UrlKey(c) != VisitsKey(d)
    ensures UrlKey(c) == UrlKey(d) <==> c == d
    ensures VisitsKey(c) == VisitsKey(d) <==> c == d
  {
    assert UrlKey(c)[0] != VisitsKey(d)[0];
    if UrlKey(c) == UrlKey(d) {
      assert c == UrlKey(c)[|UrlPrefix|..];
    }
    if VisitsKey(c) == VisitsKey(d) {
      assert c == VisitsKey(c)[|VisitsPrefix|..];
    }
  }

  /** The characters `nanoid` draws from (its URL-safe alphabet). */
  predicate IsUrlAlphabet(c: char) {
    ('A' <= c <= 'Z') || ('a' <= c <= 'z') || ('0' <= c <= '9') || c == '_' || c == '-'
  }

  /** A value `nanoid(6)` can return. */
  predicate IsNanoId(s: string) {
    |s| == 6 && forall i :: 0 <= i < |s| ==> IsUrlAlphabet(s[i])
  }

  /** Enough `nanoid(6)` draws for every attempt allocation may make. */
  predicate ValidDraws(draws: seq<string>) {
    |draws| >= MaxRetriesId && forall i :: 0 <= i < |draws| ==> IsNanoId(draws[i])
  }

  /** A drawn code is unchanged by `trim` and holds no colon. */
  lemma NanoIdIsPlain(s: string)
    requires IsNanoId(s)
    ensures Trim(s) == s
    ensures ':' !in s
  {
    TrimNoEdgeWhitespace(s);
  }

  // ---------------------------------------------------------------------
  // Reads

  /**
   * `existsShortUrl`: whether `url:<code>` is present, parsable or not.  It
   * holds whenever `getShortUrl` finds a record, and also for a key whose
   * value does not parse, which `getShortUrl` reads as absent.
   */
  function ExistsShortUrl(entries: Entries, code: string): (b: bool)
    ensures GetShortUrl(entries, code).Some? ==> b
    ensures b <==> GetShortUrl(entries, code).Some?
                   || (UrlKey(code) in entries && !entries[UrlKey(code)].UrlData?)
  {
    UrlKey(code) in entries
  }

  /** `getShortUrl`: the record under `url:<code>`; none when absent or unparsable. */
  function GetShortUrl(entries: Entries, code: string): (r: Option<ShortUrl>)
    ensures r.Some? <==> UrlKey(code) in entries && entries[UrlKey(code)].UrlData?
    ensures r.Some? ==> entries[UrlKey(code)] == UrlData(r.value)
  {
    var key := UrlKey(code);
    if key in entries && entries[key].UrlData? then Some(entries[key].url) else None
  }

  /** `getShortUrlVisits`: the counter under `visits:<code>`; none when absent or unparsable. */
  function GetShortUrlVisits(entries: Entries, code: string): (r: Option<Visit>)
    ensures r.Some? <==> VisitsKey(code) in entries && entries[VisitsKey(code)].VisitData?
    ensures r.Some? ==> entries[VisitsKey(code)] == VisitData(r.value)
  {
    var key := VisitsKey(code);
    if key in entries && entries[key].VisitData? then Some(entries[key].visit) else None
  }

  /** The visit count of `code`: a missing or unparsable counter counts as 0. */
  function VisitCount(entries: Entries, code: string): (n: int)
    ensures GetShortUrlVisits(entries, code).None? ==> n == 0
    ensures GetShortUrlVisits(entries, code).Some? ==> n == GetShortUrlVisits(entries, code).value.visits
  {
    match GetShortUrlVisits(entries, code)
    case Some(v) => v.visits
    case None => 0
  }

  /** No counter outlives its mapping record. */
  ghost predicate NoOrphanCounters(entries: Entries) {
    forall c :: VisitsKey(c) in entries ==> UrlKey(c) in entries
  }

  // ---------------------------------------------------------------------
  // Allocation

  /** Every code in `codes` already has a `url:` key. */
  ghost predicate AllTaken(entries: Entries, codes: seq<string>) {
    forall i :: 0 <= i < |codes| ==> UrlKey(codes[i]) in entries
  }

  /**
   * The first draw whose `url:` key is absent.  It is the specification of
   * the allocation loop: none exactly when every draw is taken.
   */
  function FirstFree(entries: Entries, draws: seq<string>): (r: Option<string>)
    ensures r.None? <==> AllTaken(entries, draws)
    ensures r.Some? ==> exists i :: 0 <= i < |draws| && draws[i] == r.value && AllTaken(entries, draws[..i])
    ensures r.Some? ==> UrlKey(r.value) !in entries
  {
    if draws == [] then None
    else if UrlKey(draws[0]) !in entries then Some(draws[0])
    else
      var r := FirstFree(entries, draws[1..]);
      assert r.Some? ==> exists i :: 0 <= i < |draws| && draws[i] == r.value && AllTaken(entries, draws[..i]) by {
        if r.Some? {
          var i :| 0 <= i < |draws| - 1 && draws[1..][i] == r.value && AllTaken(entries, draws[1..][..i]);
          assert draws[..i + 1] == [draws[0]] + draws[1..][..i];
          assert draws[i + 1] == r.value;
        }
      }
      r
  }

  /**
   * `generateUniqueId`: draws a code, checks whether `url:<code>` exists,
   * and gives up after `MaxRetriesId` attempts.  It only reads the store.
   * `checks` counts the existence checks made.
   */
  method GenerateUniqueId(kv: KeyValueStore<Stored>, draws: seq<string>)
    returns (code: Option<string>, ghost checks: nat)
    requires |draws| >= MaxRetriesId
    ensures code == FirstFree(kv.entries, draws[..MaxRetriesId])
    ensures 1 <= checks <= MaxRetriesId
    ensures code.None? ==> checks == MaxRetriesId
    ensures code.Some? ==> code.value == draws[checks - 1] && UrlKey(code.value) !in kv.entries
  {
    var attempts := 0;
    checks := 0;
    while attempts < MaxRetriesId
      invariant 0 <= attempts <= MaxRetriesId
      invariant checks == attempts
      invariant FirstFree(kv.entries, draws[..MaxRetriesId])
             == FirstFree(kv.entries, draws[attempts..MaxRetriesId])
    {
      var shortCode := draws[attempts];
      var hasId := kv.Exists(UrlKey(shortCode));
      checks := checks + 1;
      if !hasId {
        return Some(shortCode), checks;
      }
      assert draws[attempts..MaxRetriesId][1..] == draws[attempts + 1..MaxRetriesId];
      attempts := attempts + 1;
    }
    return None, checks;
  }

  // ---------------------------------------------------------------------
  // Writes

  /**
   * `createShortUrl(url)`: allocates a code and stores a fresh enabled
   * record under `url:<code>`.  `url` is `None` when the caller passed no
   * URL; `url.trim()` then throws after allocation, before any write.
   */
  method CreateShortUrl(kv: KeyValueStore<Stored>, url: Option<string>, draws: seq<string>,
                        now: string, baseUrl: string)
    returns (outcome: CreateOutcome)
    requires ValidDraws(draws)
    modifies kv
    ensures var free := FirstFree(old(kv.entries), draws[..MaxRetriesId]);
      && (outcome.Exhausted? <==> free.None?)
      && (outcome.Threw? <==> free.Some? && url.None?)
      && (!outcome.Created? ==> kv.entries == old(kv.entries))
      && (outcome.Created? ==>
            && url.Some?
            && free.Some?
            && UrlKey(free.value) !in old(kv.entries)
            && outcome.data == ShortUrl(free.value, Trim(url.value), Some(baseUrl + "/" + free.value),
                                        Enabled, None, now, None)
            && kv.entries == old(kv.entries)[UrlKey(free.value) := UrlData(outcome.data)])
  {
    var shortCode, _ := GenerateUniqueId(kv, draws);
    if shortCode.None? || shortCode.value == "" {
      return Exhausted;
    }
    if url.None? {
      return Threw;
    }
    var code := shortCode.value;
    NanoIdIsPlain(code);
    var urlData := ShortUrl(Trim(code), Trim(url.value), Some(baseUrl + "/" + code),
                            Enabled, None, now, None);
    kv.SetValue(UrlKey(code), UrlData(urlData));
    return Created(urlData);
  }

  /** `updateShortUrl`: replaces the whole record under `url:<code>`. */
  method UpdateShortUrl(kv: KeyValueStore<Stored>, code: string, data: ShortUrl)
    returns (r: ShortUrl)
    modifies kv
    ensures r == data
    ensures kv.entries == old(kv.entries)[UrlKey(code) := UrlData(data)]
  {
    kv.SetValue(UrlKey(code), UrlData(data));
    return data;
  }

  /** `incrementUrlVisits`: read the counter (0 when missing), write it back plus one. */
  method IncrementUrlVisits(kv: KeyValueStore<Stored>, code: string)
    modifies kv
    ensures kv.entries == old(kv.entries)[VisitsKey(code) := VisitData(Visit(VisitCount(old(kv.entries), code) + 1))]
  {
    var data := GetShortUrlVisits(kv.entries, code);
    if data.Some? {
      kv.SetValue(VisitsKey(code), VisitData(Visit(data.value.visits + 1)));
    } else {
      kv.SetValue(VisitsKey(code), VisitData(Visit(1)));
    }
  }

  /** `deleteShortUrl`: when `url:<code>` exists, removes it and `visits:<code>`. */
  method DeleteShortUrl(kv: KeyValueStore<Stored>, code: string) returns (deleted: bool)
    modifies kv
    ensures deleted == (UrlKey(code) in old(kv.entries))
    ensures kv.entries == if deleted then old(kv.entries) - {UrlKey(code), VisitsKey(code)}
                          else old(kv.entries)
  {
    var urlExists := kv.Exists(UrlKey(code));
    if !urlExists {
      return false;
    }
    var _ := kv.DeleteValue(UrlKey(code));
    var _ := kv.DeleteValue(VisitsKey(code));
    return true;
  }

  /** `deactivateShortUrl`: marks an existing record disabled and stamps `updatedAt`. */
  method DeactivateShortUrl(kv: KeyValueStore<Stored>, code: string, now: string) returns (done: bool)
    modifies kv
    ensures done == GetShortUrl(old(kv.entries), code).Some?
    ensures !done ==> kv.entries == old(kv.entries)
    ensures done ==> kv.entries == old(kv.entries)[UrlKey(code) :=
      UrlData(GetShortUrl(old(kv.entries), code).value.(status := Disabled, updatedAt := Some(now)))]
  {
    var urlData := GetShortUrl(kv.entries, code);
    if urlData.None? {
      return false;
    }
    var updatedData := urlData.value.(status := Disabled, updatedAt := Some(now));
    kv.SetValue(UrlKey(code), UrlData(updatedData));
    return true;
  }

  // ---------------------------------------------------------------------
  // Listing

  /**
   * The listing entry for one scanned key: the code is `key.split(':')[1]`,
   * the default `shortCode` and `shortUrl` are overridden by the fields the
   * stored record holds, and `visits` is the counter (0 when missing).
   */
  function ListEntry(entries: Entries, key: string, baseUrl: string): (e: Listing)
    requires UrlPrefix <= key
    ensures e.visits == VisitCount(entries, SecondField(key, "url"))
    ensures key in entries && entries[key].UrlData? ==>
      var r := entries[key].url;
      && e.shortCode == r.shortCode
      && e.originalUrl == Some(r.originalUrl)
      && e.status == Some(r.status)
      && e.createdAt == Some(r.createdAt)
      && e.updatedAt == r.updatedAt
      && (r.shortUrl.Some? ==> e.shortUrl == r.shortUrl.value)
      && (r.shortUrl.None? ==> e.shortUrl == baseUrl + "/" + SecondField(key, "url"))
    ensures !(key in entries && entries[key].UrlData?) ==>
      e == Listing(SecondField(key, "url"), baseUrl + "/" + SecondField(key, "url"),
                   None, None, None, None, VisitCount(entries, SecondField(key, "url")))
  {
    var shortCode := SecondField(key, "url");
    var defaultUrl := baseUrl + "/" + shortCode;
    var visits := VisitCount(entries, shortCode);
    if key in entries && entries[key].UrlData? then
      var r := entries[key].url;
      Listing(r.shortCode, r.shortUrl.GetOr(defaultUrl), Some(r.originalUrl), Some(r.status),
              Some(r.createdAt), r.updatedAt, visits)
    else
      Listing(shortCode, defaultUrl, None, None, None, None, visits)
  }

  /** `keys.map(...)`: one entry per scanned key, in scan order. */
  function ListEntries(entries: Entries, keys: seq<string>, baseUrl: string): (r: seq<Listing>)
    requires forall i :: 0 <= i < |keys| ==> UrlPrefix <= keys[i]
  {
    seq(|keys|, i requires 0 <= i < |keys| => ListEntry(entries, keys[i], baseUrl))
  }

  /** `getAllShortUrl`: scans the `url:` keys and lists each one with its visit count. */
  method GetAllShortUrl(kv: KeyValueStore<Stored>, baseUrl: string)
    returns (urls: seq<Listing>, ghost keys: seq<string>)
    ensures IsKeyScan(kv.entries, UrlPrefix, keys)
    ensures urls == ListEntries(kv.entries, keys, baseUrl)
    ensures |urls| == |KeysWithPrefix(kv.entries, UrlPrefix)|
  {
    var scanned := kv.GetKeys(UrlPrefix);
    KeyScanSize(kv.entries, UrlPrefix, scanned);
    urls := ListEntries(kv.entries, scanned, baseUrl);
    keys := scanned;
  }
}
