/**
 * The background article cache: one stored record under the key
 * `article_cache`, mapping a page URL to the article scraped from it,
 * stamped with the time it was cached. Storage is the class's field; a
 * storage call that throws is the caller-supplied `Fault`, the clock the
 * parameter `now`.
 */
module ArticleCache {
  import opened Wrappers
  import opened Js
  import opened Article

  const CacheFailed := "缓存文章失败"
  const NotFoundMessage := "未找到缓存的文章"
  const GetFailed := "获取缓存文章失败"
  const CacheError := "CACHE_ERROR"
  const CacheNotFound := "CACHE_NOT_FOUND"

  /** `{ ...data, timestamp }` */
  datatype CachedArticle = CachedArticle(data: ArticleData, timestamp: string)

  /** The reply `{ success, data, error? }`. */
  datatype CacheReply =
    | CacheSuccess(data: Option<CachedArticle>)
    | CacheFailure(message: string, code: string)

  /** Which storage call throws, and what. */
  datatype Fault = NoFault | GetThrows(getError: Value) | SetThrows(setError: Value)

  /** `error instanceof Error ? error.message : fallback` */
  function FailureMessage(error: Value, fallback: string): string
  {
    if error.JError? then error.message else fallback
  }

  /** `await storage.get('article_cache') || {}` */
  function Records(stored: Option<map<string, CachedArticle>>): map<string, CachedArticle>
  {
    if stored.Some? then stored.value else map[]
  }

  /** The `cacheArticle` handler: the new stored record and the reply. */
  function Put(stored: Option<map<string, CachedArticle>>, url: string, data: ArticleData, now: string, fault: Fault)
    : (Option<map<string, CachedArticle>>, CacheReply)
  {
    match fault
    case GetThrows(e) => (stored, CacheFailure(FailureMessage(e, CacheFailed), CacheError))
    case SetThrows(e) => (stored, CacheFailure(FailureMessage(e, CacheFailed), CacheError))
    case NoFault => (Some(Records(stored)[url := CachedArticle(data, now)]), CacheSuccess(None))
  }

  /** The `get-cached-article` handler's reply; a stored article is an object
    * and so always truthy. */
  function Get(stored: Option<map<string, CachedArticle>>, url: string, getError: Option<Value>): CacheReply
  {
    if getError.Some? then CacheFailure(FailureMessage(getError.value, GetFailed), CacheError)
    else if url in Records(stored) then CacheSuccess(Some(Records(stored)[url]))
    else CacheFailure(NotFoundMessage, CacheNotFound)
  }

  /** Caching then reading the same URL gives back the article with the
    * time it was cached. */
  lemma PutThenGet(stored: Option<map<string, CachedArticle>>, url: string, data: ArticleData, now: string)
    ensures Get(Put(stored, url, data, now, NoFault).0, url, None) == CacheSuccess(Some(CachedArticle(data, now)))
  {
  }

  /** Caching one URL leaves what every other URL reads unchanged. */
  lemma PutKeepsOthers(stored: Option<map<string, CachedArticle>>, url: string, other: string, data: ArticleData,
                       now: string, fault: Fault, getError: Option<Value>)
    requires other != url
    ensures Get(Put(stored, url, data, now, fault).0, other, getError) == Get(stored, other, getError)
  {
  }

  /** A failed caching leaves the store as it was. */
  lemma FailedPutUnchanged(stored: Option<map<string, CachedArticle>>, url: string, data: ArticleData, now: string, fault: Fault)
    ensures Put(stored, url, data, now, fault).1.CacheFailure? <==> !fault.NoFault?
    ensures Put(stored, url, data, now, fault).1.CacheFailure? ==> Put(stored, url, data, now, fault).0 == stored
  {
  }

  /** Nothing is found before anything is cached. */
  lemma EmptyStoreNotFound(url: string)
    ensures Get(None, url, None) == CacheFailure(NotFoundMessage, CacheNotFound)
  {
  }

  /** The extension's storage area, as far as the cache uses it. */
  class CacheStorage {
    var stored: Option<map<string, CachedArticle>>

    constructor()
      ensures stored == None
    {
      stored := None;
    }

    /** The `cacheArticle` handler. */
    method CacheArticle(url: string, data: ArticleData, now: string, fault: Fault) returns (reply: CacheReply)
      modifies this
      ensures (stored, reply) == Put(old(stored), url, data, now, fault)
    {
      if fault.GetThrows? {
        return CacheFailure(FailureMessage(fault.getError, CacheFailed), CacheError);
      }
      var cachedArticles := if stored.Some? then stored.value else map[];
      cachedArticles := cachedArticles[url := CachedArticle(data, now)];
      if fault.SetThrows? {
        return CacheFailure(FailureMessage(fault.setError, CacheFailed), CacheError);
      }
      stored := Some(cachedArticles);
      reply := CacheSuccess(None);
    }

    /** The `get-cached-article` handler; it only reads. */
    method GetCachedArticle(url: string, getError: Option<Value>) returns (reply: CacheReply)
      ensures reply == Get(stored, url, getError)
      ensures reply.CacheSuccess? ==> reply.data.Some? && url in Records(stored)
    {
      if getError.Some? {
        return CacheFailure(FailureMessage(getError.value, GetFailed), CacheError);
      }
      var cachedArticles := if stored.Some? then stored.value else map[];
      if url in cachedArticles {
        reply := CacheSuccess(Some(cachedArticles[url]));
      } else {
        reply := CacheFailure(NotFoundMessage, CacheNotFound);
      }
    }
  }
}
