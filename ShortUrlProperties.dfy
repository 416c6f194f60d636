/**
 * Properties that relate the store before and after the repository's
 * writes, and the listing to the records and counters it joins.  Each
 * write is stated on the store contents its method leaves behind.
 */
module ShortUrlProperties {
  import opened Wrappers
  import opened JsString
  import opened Storage
  import opened ShortUrlModel
  import opened ShortenRoute

  /** No read of another code sees a write to `key` when `key` belongs to `c`. */
  ghost predicate OthersUnchanged(before: Entries, after: Entries, c: string) {
    forall d :: d != c ==>
      && GetShortUrl(after, d) == GetShortUrl(before, d)
      && VisitCount(after, d) == VisitCount(before, d)
      && ExistsShortUrl(after, d) == ExistsShortUrl(before, d)
  }

  /**
   * Writing a record for `c` (create, update, deactivate): reading `c` back
   * yields that record, its counter is untouched, and no other code changes.
   */
  lemma {:induction false} RecordWriteReadsBack(e: Entries, c: string, r: ShortUrl)
    ensures GetShortUrl(e[UrlKey(c) := UrlData(r)], c) == Some(r)
    ensures VisitCount(e[UrlKey(c) := UrlData(r)], c) == VisitCount(e, c)
    ensures OthersUnchanged(e, e[UrlKey(c) := UrlData(r)], c)
  {
    var after := e[UrlKey(c) := UrlData(r)];
    KeysDistinct(c, c);
    forall d | d != c
      ensures GetShortUrl(after, d) == GetShortUrl(e, d)
      ensures VisitCount(after, d) == VisitCount(e, d)
      ensures ExistsShortUrl(after, d) == ExistsShortUrl(e, d)
    {
      KeysDistinct(c, d);
      KeysDistinct(d, c);
    }
  }

  /**
   * A successful create of code `c` is read back by `getShortUrl(c)`, and
   * its shortCode is `c` itself when `c` is a drawn code.
   */
  lemma CreateRoundTrip(e: Entries, c: string, url: string, now: string, baseUrl: string)
    requires IsNanoId(c)
    ensures var r := ShortUrl(Trim(c), Trim(url), Some(baseUrl + "/" + c), Enabled, None, now, None);
      && GetShortUrl(e[UrlKey(c) := UrlData(r)], c) == Some(r)
      && GetShortUrl(e[UrlKey(c) := UrlData(r)], c).value.shortCode == c
      && OthersUnchanged(e, e[UrlKey(c) := UrlData(r)], c)
  {
    NanoIdIsPlain(c);
    RecordWriteReadsBack(e, c, ShortUrl(Trim(c), Trim(url), Some(baseUrl + "/" + c), Enabled, None, now, None));
  }

  /**
   * After `incrementUrlVisits(c)` the count of `c` is one more than before
   * (a missing counter counting as 0); records and other counts are unchanged.
   */
  lemma {:induction false} IncrementAddsOne(e: Entries, c: string)
    ensures var after := e[VisitsKey(c) := VisitData(Visit(VisitCount(e, c) + 1))];
      && VisitCount(after, c) == VisitCount(e, c) + 1
      && GetShortUrl(after, c) == GetShortUrl(e, c)
      && OthersUnchanged(e, after, c)
  {
    var after := e[VisitsKey(c) := VisitData(Visit(VisitCount(e, c) + 1))];
    KeysDistinct(c, c);
    forall d | d != c
      ensures GetShortUrl(after, d) == GetShortUrl(e, d)
      ensures VisitCount(after, d) == VisitCount(e, d)
      ensures ExistsShortUrl(after, d) == ExistsShortUrl(e, d)
    {
      KeysDistinct(c, d);
      KeysDistinct(d, c);
    }
  }

  /** Three sequential visits to a code with no counter leave its count at 3. */
  lemma ThreeVisitsCountThree(e: Entries, c: string)
    requires VisitsKey(c) !in e
    ensures var e1 := e[VisitsKey(c) := VisitData(Visit(VisitCount(e, c) + 1))];
      var e2 := e1[VisitsKey(c) := VisitData(Visit(VisitCount(e1, c) + 1))];
      var e3 := e2[VisitsKey(c) := VisitData(Visit(VisitCount(e2, c) + 1))];
      VisitCount(e3, c) == 3
  {
    var e1 := e[VisitsKey(c) := VisitData(Visit(VisitCount(e, c) + 1))];
    var e2 := e1[VisitsKey(c) := VisitData(Visit(VisitCount(e1, c) + 1))];
    IncrementAddsOne(e, c);
    IncrementAddsOne(e1, c);
    IncrementAddsOne(e2, c);
  }

  /**
   * After `deleteShortUrl(c)` removed `c`, nothing of `c` is left: no record,
   * no key, a count of 0; every other code reads as before.
   */
  lemma {:induction false} DeleteLeavesNothing(e: Entries, c: string)
    ensures var after := e - {UrlKey(c), VisitsKey(c)};
      && GetShortUrl(after, c).None?
      && !ExistsShortUrl(after, c)
      && VisitsKey(c) !in after
      && VisitCount(after, c) == 0
      && OthersUnchanged(e, after, c)
  {
    var after := e - {UrlKey(c), VisitsKey(c)};
    forall d | d != c
      ensures GetShortUrl(after, d) == GetShortUrl(e, d)
      ensures VisitCount(after, d) == VisitCount(e, d)
      ensures ExistsShortUrl(after, d) == ExistsShortUrl(e, d)
    {
      KeysDistinct(c, d);
      KeysDistinct(d, c);
    }
  }

  /** Deleting keeps every remaining counter paired with its record. */
  lemma {:induction false} DeletePreservesNoOrphans(e: Entries, c: string)
    requires NoOrphanCounters(e)
    ensures NoOrphanCounters(e - {UrlKey(c), VisitsKey(c)})
  {
    var after := e - {UrlKey(c), VisitsKey(c)};
    forall d | VisitsKey(d) in after ensures UrlKey(d) in after {
      KeysDistinct(d, c);
      KeysDistinct(c, d);
    }
  }

  /** Writing a record (create, update, deactivate) keeps counters paired. */
  lemma {:induction false} RecordWritePreservesNoOrphans(e: Entries, c: string, r: ShortUrl)
    requires NoOrphanCounters(e)
    ensures NoOrphanCounters(e[UrlKey(c) := UrlData(r)])
  {
    var after := e[UrlKey(c) := UrlData(r)];
    forall d | VisitsKey(d) in after ensures UrlKey(d) in after {
      KeysDistinct(c, d);
    }
  }

  /**
   * Incrementing keeps counters paired exactly when the code has a record;
   * on a code without one it leaves an orphaned counter.
   */
  lemma {:induction false} IncrementOrphans(e: Entries, c: string)
    requires NoOrphanCounters(e)
    ensures NoOrphanCounters(e[VisitsKey(c) := VisitData(Visit(VisitCount(e, c) + 1))])
        <==> UrlKey(c) in e
  {
    var after := e[VisitsKey(c) := VisitData(Visit(VisitCount(e, c) + 1))];
    KeysDistinct(c, c);
    if UrlKey(c) in e {
      forall d | VisitsKey(d) in after ensures UrlKey(d) in after {
        KeysDistinct(c, d);
      }
    } else {
      assert VisitsKey(c) in after && UrlKey(c) !in after;
    }
  }

  /**
   * A fresh code has no counter when counters are paired, so the record
   * just created lists with 0 visits.
   */
  lemma {:induction false} CreatedListsWithZeroVisits(e: Entries, c: string, r: ShortUrl)
    requires NoOrphanCounters(e)
    requires UrlKey(c) !in e
    ensures VisitCount(e[UrlKey(c) := UrlData(r)], c) == 0
  {
    RecordWriteReadsBack(e, c, r);
    assert VisitsKey(c) !in e;
  }

  /**
   * Every record under `url:<c>`, for a colon-free code `c`, appears exactly
   * once in the listing, with `c`'s visit count and the record's own fields.
   */
  lemma {:induction false} ListingShowsEachRecord(e: Entries, keys: seq<string>, baseUrl: string, c: string)
    requires IsKeyScan(e, UrlPrefix, keys)
    requires ':' !in c
    requires GetShortUrl(e, c).Some?
    ensures exists i :: 0 <= i < |keys| && keys[i] == UrlKey(c)
    ensures forall i, j :: 0 <= i < j < |keys| && keys[i] == UrlKey(c) ==> keys[j] != UrlKey(c)
    ensures forall i :: 0 <= i < |keys| && keys[i] == UrlKey(c) ==>
      var entry := ListEntries(e, keys, baseUrl)[i];
      var r := GetShortUrl(e, c).value;
      && entry.visits == VisitCount(e, c)
      && entry.shortCode == r.shortCode
      && entry.originalUrl == Some(r.originalUrl)
      && entry.status == Some(r.status)
      && entry.createdAt == Some(r.createdAt)
      && entry.updatedAt == r.updatedAt
      && entry.shortUrl == r.shortUrl.GetOr(baseUrl + "/" + c)
  {
    assert UrlPrefix <= UrlKey(c);
    var i :| 0 <= i < |keys| && keys[i] == UrlKey(c);
    forall i | 0 <= i < |keys| && keys[i] == UrlKey(c)
      ensures ListEntries(e, keys, baseUrl)[i].visits == VisitCount(e, c)
      ensures ListEntries(e, keys, baseUrl)[i].shortUrl == GetShortUrl(e, c).value.shortUrl.GetOr(baseUrl + "/" + c)
    {
      CodeOfUrlKey(c);
    }
  }

  /** The code a listing reads out of `url:<c>` is `c` when `c` has no colon. */
  lemma CodeOfUrlKey(c: string)
    requires ':' !in c
    ensures SecondField(UrlKey(c), "url") == c
  {
    assert UrlKey(c)[|"url"| + 1..] == c;
    UntilColonOfColonFree(c);
  }

  /** Every listing entry comes from one `url:` key, and the listing has one entry per such key. */
  lemma {:induction false} ListingMatchesKeys(e: Entries, keys: seq<string>, baseUrl: string)
    requires IsKeyScan(e, UrlPrefix, keys)
    ensures |ListEntries(e, keys, baseUrl)| == |KeysWithPrefix(e, UrlPrefix)|
    ensures forall i :: 0 <= i < |keys| ==>
      keys[i] in KeysWithPrefix(e, UrlPrefix) && ListEntries(e, keys, baseUrl)[i] == ListEntry(e, keys[i], baseUrl)
  {
    KeyScanSize(e, UrlPrefix, keys);
  }

  /** A key under `url:` whose value is unreadable still lists, with defaults and its count. */
  lemma UnreadableRecordListsDefaults(e: Entries, c: string, baseUrl: string)
    requires ':' !in c
    requires UrlKey(c) in e && e[UrlKey(c)] == Unparsable
    ensures ListEntry(e, UrlKey(c), baseUrl)
         == Listing(c, baseUrl + "/" + c, None, None, None, None, VisitCount(e, c))
  {
    CodeOfUrlKey(c);
  }

  /**
   * PATCH stores any non-empty status it is given: "invalid-status" on an
   * existing record is written, not refused with 400.
   */
  lemma PatchAcceptsAnyStatus(e: Entries, c: string, url: string, now: string)
    requires c != "" && url != ""
    requires GetShortUrl(e, c).Some?
    ensures var p := PlanPatch(e, PatchBody(Some(c), Some(url), Some("invalid-status")), now);
      p.Write? && p.data.status == "invalid-status"
  {
  }

  /** The 400 decision of PATCH depends on the body alone, never on the store. */
  lemma PatchValidationReadsNothing(e1: Entries, e2: Entries, body: PatchBody, now: string)
    ensures PlanPatch(e1, body, now).BadRequest? == PlanPatch(e2, body, now).BadRequest?
  {
  }

  /** A successful PATCH keeps the short code and creation time and reads back as written. */
  lemma {:induction false} PatchWriteReadsBack(e: Entries, body: PatchBody, now: string)
    requires PlanPatch(e, body, now).Write?
    ensures var p := PlanPatch(e, body, now);
      var after := e[UrlKey(p.code) := UrlData(p.data)];
      && GetShortUrl(after, p.code) == Some(p.data)
      && p.data.shortCode == GetShortUrl(e, p.code).value.shortCode
      && p.data.createdAt == GetShortUrl(e, p.code).value.createdAt
      && OthersUnchanged(e, after, p.code)
  {
    var p := PlanPatch(e, body, now);
    RecordWriteReadsBack(e, p.code, p.data);
  }

  /** Deactivating an existing record disables it and keeps everything but `updatedAt`. */
  lemma {:induction false} DeactivateReadsBack(e: Entries, c: string, now: string)
    requires GetShortUrl(e, c).Some?
    ensures var r := GetShortUrl(e, c).value;
      var after := e[UrlKey(c) := UrlData(r.(status := Disabled, updatedAt := Some(now)))];
      && GetShortUrl(after, c).value.status == Disabled
      && GetShortUrl(after, c).value.updatedAt == Some(now)
      && GetShortUrl(after, c).value.(status := r.status, updatedAt := r.updatedAt) == r
      && OthersUnchanged(e, after, c)
  {
    var r := GetShortUrl(e, c).value;
    RecordWriteReadsBack(e, c, r.(status := Disabled, updatedAt := Some(now)));
  }
}
