/** The Redis result cache of `cache_get` / `cache_set` (main.py:122-128):
    entries keyed by `"google:" + q.lower()`, written with a 24-hour TTL.
    Redis expiry is modelled by an expiry instant on each entry and an
    abstract clock `now`. */
module ResultCache {
  import opened Wrappers
  import opened Text
  import opened Search

  const KEY_PREFIX := "google:"

  /** `24 * 3600` seconds. */
  const TTL := 24 * 3600

  /** A stored list and the instant at which Redis drops it. */
  datatype Entry = Entry(items: seq<Record>, expiry: int)

  /** The Redis key for a query. */
  function CacheKey(q: string): string
  {
    KEY_PREFIX + Lower(q)
  }

  /** `cache_get`: the list stored under the query's key while it has not
      expired, else None. */
  function Lookup(cache: map<string, Entry>, q: string, now: int): Option<seq<Record>>
  {
    var k := CacheKey(q);
    if k in cache && now < cache[k].expiry then Some(cache[k].items) else None
  }

  /** The cache after `cache_set(q, items)` at instant `now`: one key overwritten. */
  function Put(cache: map<string, Entry>, q: string, items: seq<Record>, now: int): map<string, Entry>
  {
    cache[CacheKey(q) := Entry(items, now + TTL)]
  }

  /** Two queries address the same entry exactly when they lower-case alike. */
  lemma {:induction false} SameKeyIffSameLower(a: string, b: string)
    ensures CacheKey(a) == CacheKey(b) <==> Lower(a) == Lower(b)
  {
    if CacheKey(a) == CacheKey(b) {
      assert Lower(a) == CacheKey(a)[|KEY_PREFIX|..];
      assert Lower(b) == CacheKey(b)[|KEY_PREFIX|..];
    }
  }

  /** Since the resolver strips the query first, queries that differ only in
      surrounding whitespace and letter case (" Cats " and "cats") share an entry. */
  lemma StrippedQueriesShareEntry(before: string, q: string, after: string, q2: string)
    requires forall i | 0 <= i < |before| :: IsSpace(before[i])
    requires forall i | 0 <= i < |after| :: IsSpace(after[i])
    requires Lower(q) == Lower(q2)
    ensures CacheKey(Strip(before + q + after)) == CacheKey(Strip(q2))
  {
    StripIgnoresPadding(before, q, after);
    LowerStripCommute(q);
    LowerStripCommute(q2);
  }

  /** Writing some letters of a query in small case instead (Cyrillic
      "Пицца" as "пицца", Latin "Café" as "café") keeps its Redis key. */
  lemma {:induction false} CaseVariantsShareKey(q: string, q2: string)
    requires |q2| == |q|
    requires forall i | 0 <= i < |q| :: q2[i] == q[i] || q2[i] == LowerChar(q[i])
    ensures CacheKey(q2) == CacheKey(q)
  {
    forall i | 0 <= i < |q|
      ensures Lower(q2)[i] == Lower(q)[i]
    {
      if IsCapital(q[i]) {
        LowerCharOfCapital(q[i]);
      }
    }
    assert Lower(q2) == Lower(q);
  }

  /** A write is read back, from any query that lower-cases alike, until its
      TTL runs out; every other query reads what it read before. */
  lemma {:induction false} LookupAfterPut(cache: map<string, Entry>, q: string, items: seq<Record>, now: int, q2: string, later: int)
    ensures Lower(q2) == Lower(q) ==>
              Lookup(Put(cache, q, items, now), q2, later) == (if later < now + TTL then Some(items) else None)
    ensures Lower(q2) != Lower(q) ==>
              Lookup(Put(cache, q, items, now), q2, later) == Lookup(cache, q2, later)
  {
    SameKeyIffSameLower(q, q2);
  }

  /** A write changes only the entry under its own key. */
  lemma PutTouchesOneKey(cache: map<string, Entry>, q: string, items: seq<Record>, now: int)
    ensures Put(cache, q, items, now).Keys == cache.Keys + {CacheKey(q)}
    ensures forall k | k in cache && k != CacheKey(q) :: Put(cache, q, items, now)[k] == cache[k]
    ensures Put(cache, q, items, now)[CacheKey(q)] == Entry(items, now + 86400)
  {
  }
}
