/** `FileCache`: fetched pages kept per URL with the time they were written, served again only
    while younger than the maximum age. Files on disk become a map from URL to what its file
    holds; the clock is a parameter, in microseconds (the stored ISO timestamps keep microseconds). */
module Cache {
  import opened Wrappers

  /** One hour in microseconds. */
  const HourMicros: int := 3_600_000_000

  /** The age limit the scrapers' caches use, `max_age_hours=4`. */
  const DefaultMaxAgeHours: int := 4

  /** What the cache file of a URL holds: a timestamp and the page, or JSON that does not parse
      or lacks a key. */
  datatype CacheFile = Written(timestamp: int, html: string) | Corrupt

  /** `FileCache.get(url)` at time `now`: the stored page exactly when the URL's file was written
      and is strictly younger than `maxAge`; a missing, expired or corrupt file is a miss. */
  function Lookup(files: map<string, CacheFile>, url: string, now: int, maxAge: int): (r: Option<string>)
    ensures r.Some? <==> url in files && files[url].Written? && now - files[url].timestamp < maxAge
    ensures r.Some? ==> r.value == files[url].html
  {
    if url in files && files[url].Written? && now - files[url].timestamp < maxAge then Some(files[url].html)
    else None
  }

  /** A URL never written is a miss. */
  lemma LookupUnset(files: map<string, CacheFile>, url: string, now: int, maxAge: int)
    requires url !in files
    ensures Lookup(files, url, now, maxAge) == None
  {
  }

  /** Writing a page and reading it back before it expires gives exactly that page, whatever
      was stored for the URL before. */
  lemma SetThenGet(files: map<string, CacheFile>, url: string, html: string, written: int, now: int, maxAge: int)
    requires now - written < maxAge
    ensures Lookup(files[url := Written(written, html)], url, now, maxAge) == Some(html)
  {
  }

  /** Once `maxAge` has passed since the write, the page is no longer served. */
  lemma SetThenExpire(files: map<string, CacheFile>, url: string, html: string, written: int, now: int, maxAge: int)
    requires now - written >= maxAge
    ensures Lookup(files[url := Written(written, html)], url, now, maxAge) == None
  {
  }

  /** Writing one URL leaves what every other URL reads unchanged. */
  lemma SetOther(files: map<string, CacheFile>, url: string, html: string, written: int, other: string, now: int, maxAge: int)
    requires other != url
    ensures Lookup(files[url := Written(written, html)], other, now, maxAge) == Lookup(files, other, now, maxAge)
  {
  }

  /** A corrupt file reads as a miss rather than an error. */
  lemma CorruptMiss(files: map<string, CacheFile>, url: string, now: int, maxAge: int)
    requires url in files && files[url].Corrupt?
    ensures Lookup(files, url, now, maxAge) == None
  {
  }

  class FileCache {
    /** `timedelta(hours=max_age_hours)`. */
    const maxAge: int
    /** The cache directory: one file per URL. */
    var files: map<string, CacheFile>

    /** `FileCache(max_age_hours=...)` over a directory that already holds `stored`. */
    constructor (maxAgeHours: int, stored: map<string, CacheFile>)
      ensures maxAge == maxAgeHours * HourMicros
      ensures files == stored
    {
      maxAge := maxAgeHours * HourMicros;
      files := stored;
    }

    /** `get(url)` at time `now`. */
    method Get(url: string, now: int) returns (html: Option<string>)
      ensures html == Lookup(files, url, now, maxAge)
      ensures html.Some? ==> url in files && files[url] == Written(files[url].timestamp, html.value)
    {
      if url in files {
        match files[url]
        case Written(t, h) =>
          if now - t < maxAge {
            return Some(h);
          }
        case Corrupt =>
      }
      return None;
    }

    /** `set(url, html)` at time `now`: the URL's file is overwritten, the others are untouched. */
    method Set(url: string, html: string, now: int)
      modifies this
      ensures files == old(files)[url := Written(now, html)]
    {
      files := files[url := Written(now, html)];
    }
  }
}
