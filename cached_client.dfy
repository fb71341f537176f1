/**
 * The API-client lab's caching client (starter/cached_client.py): a query
 * is answered from the cache file for its key when caching is on and the
 * file exists, and otherwise from the retrying client, whose result is then
 * written to the cache. The cache directory is a map from key to the JSON
 * value its file holds. The key is the canonical (sorted-key) form of
 * `{"model": ..., "messages": ...}`; the SHA-256 digest of its text is
 * treated as injective, so the canonical value itself serves as the key.
 */
module CachedClient {
  import opened Wrappers
  import opened Dict
  import opened Json
  import ApiClient
  import Strings

  lemma MessagesSortsBeforeModel(ms: string, m: string)
    requires ms == "messages" && m == "model"
    ensures Strings.StrLt(ms, m)
  {
    assert ms[0] == m[0] && ms[1..][0] == 'e' && m[1..][0] == 'o';
  }

  /** Sorting two entries whose keys are out of order swaps them. */
  lemma SortTwo(a: (string, Json), b: (string, Json))
    requires Strings.StrLt(b.0, a.0)
    ensures SortByKey([a, b]) == [b, a]
  {
    var s := [a, b];
    assert s[1..] == [b] && s[1..][1..] == [];
    assert SortByKey(s[1..]) == [b];
    assert InsertByKey(a, [b]) == [b] + InsertByKey(a, []);
  }

  /**
   * `_cache_key(model_id, messages)`: the request with its two entries in
   * sorted order and every message in canonical form.
   */
  function CacheKey(modelId: string, messages: seq<Json>): (k: Json)
    ensures k == Obj([("messages", Canon(Arr(messages))), ("model", Str(modelId))])
  {
    var a := ("model", Str(modelId));
    var b := ("messages", Arr(messages));
    MessagesSortsBeforeModel(b.0, a.0);
    SortTwo(a, b);
    var sorted := SortByKey([a, b]);
    var canon := seq(|sorted|, i requires 0 <= i < |sorted| => (sorted[i].0, Canon(sorted[i].1)));
    assert canon == [(b.0, Canon(b.1)), (a.0, Canon(a.1))];
    Canon(Obj([a, b]))
  }

  /** Requests whose messages agree up to the order of their keys share a key. */
  lemma CacheKeyIgnoresKeyOrder(modelId: string, m1: seq<Json>, m2: seq<Json>)
    requires |m1| == |m2|
    requires forall i :: 0 <= i < |m1| ==> Canon(m1[i]) == Canon(m2[i])
    ensures CacheKey(modelId, m1) == CacheKey(modelId, m2)
  {
    assert Canon(Arr(m1)).items == Canon(Arr(m2)).items;
  }

  /** Requests to different models never share a key. */
  lemma CacheKeySeparatesModels(a: string, b: string, m1: seq<Json>, m2: seq<Json>)
    requires a != b
    ensures CacheKey(a, m1) != CacheKey(b, m2)
  {
    assert CacheKey(a, m1).fields[1].1 != CacheKey(b, m2).fields[1].1;
  }

  /** `{"response": result}`, the value written to a cache file. */
  function Entry(response: Option<string>): Json {
    Obj([("response", match response case Some(s) => Str(s) case None => Null)])
  }

  /** `json.loads(...)["response"]` as the query's result; `None` when that raises or is not a text (or null). */
  function ResponseOf(entry: Json): Option<Option<string>> {
    match Index(entry, "response")
    case Some(Str(s)) => Some(Some(s))
    case Some(Null) => Some(None)
    case _ => None
  }

  /** What a cache file holds reads back as the response that was written. */
  lemma EntryRoundTrip(response: Option<string>)
    ensures ResponseOf(Entry(response)) == Some(response)
  {
  }

  /** What `query` raises: the retrying client's error, or the KeyError of a cache file without a response. */
  datatype CachedError = ApiError(error: ApiClient.QueryError) | UnreadableEntry

  /** The result, the cache afterwards, and what the retrying client did (nothing on a hit). */
  datatype Served = Served(result: Result<Option<string>, CachedError>, cache: map<Json, Json>, attempts: Option<ApiClient.Attempts>)

  /** `query(model_id, messages, use_cache)` on a cache, the client's attempts given. */
  function Queried(cache: map<Json, Json>, modelId: string, messages: seq<Json>, useCache: bool,
                   attempts: ApiClient.Attempts): (s: Served)
    ensures useCache && CacheKey(modelId, messages) in cache ==> s.cache == cache && s.attempts.None?
    ensures !(useCache && CacheKey(modelId, messages) in cache) ==> s.attempts == Some(attempts)
    ensures s.attempts.Some? && attempts.result.Success? ==>
              s.result == Success(attempts.result.value)
              && s.cache == cache[CacheKey(modelId, messages) := Entry(attempts.result.value)]
    ensures s.attempts.Some? && attempts.result.Failure? ==> s.result == Failure(ApiError(attempts.result.error)) && s.cache == cache
  {
    var key := CacheKey(modelId, messages);
    if useCache && key in cache then
      match ResponseOf(cache[key])
      case Some(r) => Served(Success(r), cache, None)
      case None => Served(Failure(UnreadableEntry), cache, None)
    else
      match attempts.result
      case Success(r) => Served(Success(r), cache[key := Entry(r)], Some(attempts))
      case Failure(e) => Served(Failure(ApiError(e)), cache, Some(attempts))
  }

  /** A hit returns the stored response without calling the client. */
  lemma HitReturnsStored(cache: map<Json, Json>, modelId: string, messages: seq<Json>, r: Option<string>, attempts: ApiClient.Attempts)
    requires CacheKey(modelId, messages) in cache && cache[CacheKey(modelId, messages)] == Entry(r)
    ensures Queried(cache, modelId, messages, true, attempts) == Served(Success(r), cache, None)
  {
    EntryRoundTrip(r);
  }

  /** After a successful miss, the same request hits and gets the same answer, whatever the client would do. */
  lemma SecondQueryHits(cache: map<Json, Json>, modelId: string, messages: seq<Json>, useCache: bool,
                        first: ApiClient.Attempts, second: ApiClient.Attempts)
    requires first.result.Success?
    requires !(useCache && CacheKey(modelId, messages) in cache)
    ensures var s1 := Queried(cache, modelId, messages, useCache, first);
            Queried(s1.cache, modelId, messages, true, second) == Served(s1.result, s1.cache, None)
  {
    EntryRoundTrip(first.result.value);
  }

  /** With caching off the client is always asked, and a success is still written. */
  lemma CacheOffStillWrites(cache: map<Json, Json>, modelId: string, messages: seq<Json>, attempts: ApiClient.Attempts)
    requires attempts.result.Success?
    ensures var s := Queried(cache, modelId, messages, false, attempts);
            && s.attempts == Some(attempts)
            && CacheKey(modelId, messages) in s.cache
            && ResponseOf(s.cache[CacheKey(modelId, messages)]) == Some(attempts.result.value)
  {
    EntryRoundTrip(attempts.result.value);
  }

  /** A request whose messages differ from a cached one only in key order is a hit. */
  lemma ReorderedRequestHits(cache: map<Json, Json>, modelId: string, m1: seq<Json>, m2: seq<Json>, r: Option<string>,
                             attempts: ApiClient.Attempts)
    requires |m1| == |m2| && forall i :: 0 <= i < |m1| ==> Canon(m1[i]) == Canon(m2[i])
    requires CacheKey(modelId, m1) in cache && cache[CacheKey(modelId, m1)] == Entry(r)
    ensures Queried(cache, modelId, m2, true, attempts) == Served(Success(r), cache, None)
  {
    CacheKeyIgnoresKeyOrder(modelId, m1, m2);
    HitReturnsStored(cache, modelId, m2, r, attempts);
  }

  /** `CachedLiteLLMClient(cache_dir)`: the retrying client with its defaults, over a cache directory. */
  class CachedLiteLLMClient {
    const client: ApiClient.LiteLLMClient
    var cache: map<Json, Json>

    /** The directory is given by its current files. */
    constructor(files: map<Json, Json>)
      ensures fresh(client) && client.maxRetries == 3 && client.retryDelay == 5.0
      ensures cache == files
    {
      client := new ApiClient.LiteLLMClient(3, 5.0);
      cache := files;
    }

    /** `query(model_id, messages, use_cache, **kwargs)`; `outcome` is what each attempt of the completion call does. */
    method Query(modelId: string, messages: seq<Json>, useCache: bool, outcome: nat -> ApiClient.Outcome)
      returns (result: Result<Option<string>, CachedError>)
      modifies this
      ensures var s := Queried(old(cache), modelId, messages, useCache,
                               ApiClient.Tries(outcome, 0, client.maxRetries, client.retryDelay));
              result == s.result && cache == s.cache
    {
      var key := CacheKey(modelId, messages);
      if useCache && key in cache {
        match ResponseOf(cache[key]) {
          case Some(r) => return Success(r);
          case None => return Failure(UnreadableEntry);
        }
      }
      var r, waits, calls := client.Query(outcome);
      match r {
        case Failure(e) =>
          return Failure(ApiError(e));
        case Success(response) =>
          cache := cache[key := Entry(response)];
          result := Success(response);
      }
    }
  }
}
