/** The single-slot daily cache of bestseller results that both
    `fetchKyoboBestsellers` functions keep in browser storage
    (services/geminiService.ts, besselchu/services/openaiService.ts). */
module DailyCache {
  import opened Wrappers
  import opened Types

  /** What reading the stored text gives: unusable when `JSON.parse` throws or yields
      `null` (reading `cached.date` then throws; both are caught and the slot cleared), or
      a record whose `date` and `data` may each be missing (a number or `{}` is a record
      with neither). */
  datatype StoredRecord = Unparseable | Parsed(date: Option<string>, data: Option<SearchResult>)

  const FetchFailedMessage := "Failed to fetch bestseller data."

  /** The stored result that may be reused today: the record parses, is dated today
      and has data. */
  function CachedData(record: Option<StoredRecord>, today: string): (r: Option<SearchResult>)
    ensures r.Some? <==> (record.Some? && record.value.Parsed? && record.value.date == Some(today)
                          && record.value.data.Some?)
    ensures r.Some? ==> r == record.value.data
  {
    match record
    case Some(Parsed(Some(d), Some(data))) => if d == today then Some(data) else None
    case _ => None
  }

  /** The slot after the lookup: an unparseable record is removed, anything else stays. */
  function AfterLookup(record: Option<StoredRecord>): (r: Option<StoredRecord>)
    ensures r != Some(Unparseable)
    ensures record != Some(Unparseable) ==> r == record
  {
    if record == Some(Unparseable) then None else record
  }

  /** One call of a cache-wrapped fetch: the slot afterwards, what the caller gets, and
      whether the underlying fetch was made. */
  datatype CacheRun = CacheRun(record: Option<StoredRecord>, result: Result<SearchResult, string>, fetched: bool)

  /** The cache-wrapped fetch on day `today`; `fetch` is what the underlying fetch would
      give if it were made (None: it failed). */
  function Run(record: Option<StoredRecord>, today: string, fetch: Option<SearchResult>): CacheRun {
    match CachedData(record, today)
    case Some(data) => CacheRun(record, Success(data), false)
    case None =>
      match fetch
      case None => CacheRun(AfterLookup(record), Failure(FetchFailedMessage), true)
      case Some(result) => CacheRun(Some(Parsed(Some(today), Some(result))), Success(result), true)
  }

  /** A usable record dated today is returned as it is, with no fetch and the slot untouched. */
  lemma HitSkipsFetch(record: Option<StoredRecord>, today: string, fetch: Option<SearchResult>, data: SearchResult)
    requires record == Some(Parsed(Some(today), Some(data)))
    ensures Run(record, today, fetch) == CacheRun(record, Success(data), false)
  {
  }

  /** Anything else is a miss and the underlying fetch is made. */
  lemma MissFetches(record: Option<StoredRecord>, today: string, fetch: Option<SearchResult>)
    requires CachedData(record, today).None?
    ensures Run(record, today, fetch).fetched
  {
  }

  /** A corrupt record is a miss; it is discarded, and replaced by a fresh one when the
      fetch succeeds. */
  lemma CorruptRecordDiscarded(today: string, fetch: Option<SearchResult>)
    ensures Run(Some(Unparseable), today, fetch).fetched
    ensures fetch.None? ==> Run(Some(Unparseable), today, fetch).record == None
    ensures fetch.Some? ==> Run(Some(Unparseable), today, fetch).record == Some(Parsed(Some(today), fetch))
  {
  }

  /** A successful fetch overwrites the slot wholesale with today's record and returns it. */
  lemma SuccessOverwrites(record: Option<StoredRecord>, today: string, result: SearchResult)
    requires CachedData(record, today).None?
    ensures Run(record, today, Some(result)) == CacheRun(Some(Parsed(Some(today), Some(result))), Success(result), true)
  {
  }

  /** A failed fetch surfaces the one error message and leaves any parseable record in place. */
  lemma FailureKeepsParseableRecord(record: Option<StoredRecord>, today: string)
    requires CachedData(record, today).None?
    requires record != Some(Unparseable)
    ensures Run(record, today, None) == CacheRun(record, Failure(FetchFailedMessage), true)
  {
  }

  /** Twice on the same day: once the first call has succeeded, the second makes no fetch
      and returns the same result. */
  lemma SameDayFetchesOnce(record: Option<StoredRecord>, today: string, f1: Option<SearchResult>, f2: Option<SearchResult>)
    requires Run(record, today, f1).result.Success?
    ensures !Run(Run(record, today, f1).record, today, f2).fetched
    ensures Run(Run(record, today, f1).record, today, f2).result == Run(record, today, f1).result
  {
  }

  /** On a later (different) day the slot written on the first day is stale and the
      underlying fetch is made again. */
  lemma NewDayRefetches(record: Option<StoredRecord>, d1: string, d2: string, f1: Option<SearchResult>, f2: Option<SearchResult>)
    requires d1 != d2
    requires Run(record, d1, f1).result.Success?
    ensures Run(Run(record, d1, f1).record, d2, f2).fetched
  {
  }

  /** The storage slot under one cache key. */
  class CacheSlot {
    var record: Option<StoredRecord>

    constructor (initial: Option<StoredRecord>)
      ensures record == initial
    {
      record := initial;
    }

    /** Reads the slot (`getItem` then `JSON.parse`), removing a record that does not parse. */
    method Lookup(today: string) returns (hit: Option<SearchResult>)
      modifies this
      ensures hit == CachedData(old(record), today)
      ensures record == AfterLookup(old(record))
    {
      hit := None;
      match record {
        case None =>
        case Some(Unparseable) =>
          record := None;
        case Some(Parsed(date, data)) =>
          if date == Some(today) && data.Some? {
            hit := data;
          }
      }
    }

    /** `setItem` of `{date: today, data}`, replacing whatever was there. */
    method Store(today: string, data: SearchResult)
      modifies this
      ensures record == Some(Parsed(Some(today), Some(data)))
    {
      record := Some(Parsed(Some(today), Some(data)));
    }
  }
}
