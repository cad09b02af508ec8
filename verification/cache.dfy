/** The in-memory generation caches of the roadmap and micro-skill routes
    (backend/routes/roadmap.js, backend/routes/microSkills.js): a map from a
    normalised key to the payload served for it, threaded through requests as
    a value. */
module GenerationCache {
  import opened Wrappers

  /** What one request leaves behind: the payload served and the cache after it. */
  datatype Served<P> = Served(payload: P, cache: map<string, P>)

  /** Serving `key`: a cached payload is returned as it is; otherwise a freshly
      produced payload is stored and returned, and when production failed the
      fallback is returned and nothing is stored. */
  function Serve<P>(cache: map<string, P>, key: string, produced: Option<P>, fallback: P): (r: Served<P>)
    ensures key in cache ==> r.payload == cache[key]
    ensures key !in cache && produced.Some? ==> r.payload == produced.value
    ensures key !in cache && produced.None? ==> r.payload == fallback
    ensures r.cache.Keys == cache.Keys + (if key !in cache && produced.Some? then {key} else {})
    ensures forall k | k in cache :: k in r.cache && r.cache[k] == cache[k]
    ensures key in r.cache ==> r.cache[key] == r.payload
  {
    if key in cache then Served(cache[key], cache)
    else match produced
      case Some(p) => Served(p, cache[key := p])
      case None => Served(fallback, cache)
  }

  /** On a hit neither the producer nor the fallback is consulted. */
  lemma HitIgnoresProducer<P>(cache: map<string, P>, key: string, p1: Option<P>, p2: Option<P>, f1: P, f2: P)
    requires key in cache
    ensures Serve(cache, key, p1, f1) == Serve(cache, key, p2, f2)
  {
  }

  /** Once a key is stored, every later request for it is a hit that returns
      the same payload and leaves the cache as it is. */
  lemma StoredKeyHits<P>(cache: map<string, P>, key: string, produced: Option<P>, fallback: P,
                         later: Option<P>, laterFallback: P)
    requires key in Serve(cache, key, produced, fallback).cache
    ensures var r := Serve(cache, key, produced, fallback);
            Serve(r.cache, key, later, laterFallback) == Served(r.payload, r.cache)
  {
  }

  /** A property every stored payload has for its key is kept when the
      produced payload has it too. */
  lemma ServeKeepsInvariant<P>(inv: (string, P) -> bool, cache: map<string, P>, key: string,
                               produced: Option<P>, fallback: P)
    requires forall k | k in cache :: inv(k, cache[k])
    requires produced.Some? ==> inv(key, produced.value)
    ensures var r := Serve(cache, key, produced, fallback);
            forall k | k in r.cache :: inv(k, r.cache[k])
  {
  }
}
