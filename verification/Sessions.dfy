/** The in-memory session store: cached session data keyed by workspace and session, in front
    of the rows that the database holds. */
module Sessions {
  import opened Messages
  import opened Sequences
  import opened Strings

  datatype SessionData = SessionData(
    messages: seq<Message>,
    summary: string,
    inputTokens: int,
    outputTokens: int,
    compactionCount: nat,
    lastPromptTokens: int,
    lastMessageCount: nat,
    memoryFlushAt: nat)

  const FRESH: SessionData := SessionData([], "", 0, 0, 0, 0, 0, 0)

  /** The composite key of the cache. */
  function CacheKey(workspaceId: string, key: string): string {
    workspaceId + ['\0'] + key
  }

  /** Two sessions never share a cache entry, as long as workspace ids hold no NUL. */
  lemma CacheKeyInjective(w1: string, k1: string, w2: string, k2: string)
    requires '\0' !in w1 && '\0' !in w2
    ensures CacheKey(w1, k1) == CacheKey(w2, k2) <==> w1 == w2 && k1 == k2
  {
    if CacheKey(w1, k1) == CacheKey(w2, k2) {
      SeparatedUnique(w1, k1, w2, k2, '\0');
    }
  }

  /** What TruncateHistory leaves of a message list. */
  function KeepLast(ms: seq<Message>, keepLast: int): (r: seq<Message>)
    ensures IsSuffix(r, ms)
    ensures |r| == if keepLast <= 0 then 0 else if keepLast < |ms| then keepLast else |ms|
  {
    if keepLast <= 0 then [] else if |ms| > keepLast then ms[|ms| - keepLast..] else ms
  }

  /** The two caches agree on every other session. */
  ghost predicate SameElsewhere(a: map<string, SessionData>, b: map<string, SessionData>, key: string) {
    forall k :: k != key ==> (k in a <==> k in b) && (k in a ==> a[k] == b[k])
  }

  class SessionStore {
    /** What reading a session from the database answers; nothing for a session without a row. */
    const stored: map<string, SessionData>
    var cache: map<string, SessionData>

    constructor (stored: map<string, SessionData>)
      ensures this.stored == stored && cache == map[]
    {
      this.stored, cache := stored, map[];
    }

    /** The data of a session: cached, or else stored, or else fresh. */
    function At(key: string): SessionData
      reads this
    {
      if key in cache then cache[key] else if key in stored then stored[key] else FRESH
    }

    predicate Known(key: string)
      reads this
    {
      key in cache || key in stored
    }

    method AddMessage(key: string, msg: Message)
      modifies this
      ensures cache == old(cache)[key := old(At(key)).(messages := old(At(key)).messages + [msg])]
    {
      var data := At(key);
      cache := cache[key := data.(messages := data.messages + [msg])];
    }

    /** Loads a session that is not cached. */
    method GetHistory(key: string) returns (msgs: seq<Message>)
      modifies this
      ensures msgs == old(At(key)).messages
      ensures cache == if old(Known(key)) then old(cache)[key := old(At(key))] else old(cache)
    {
      if key in cache {
        return cache[key].messages;
      }
      if key !in stored {
        return [];
      }
      cache := cache[key := stored[key]];
      return cache[key].messages;
    }

    /** Answers only for a cached session. */
    method GetSummary(key: string) returns (summary: string)
      ensures summary == if key in cache then cache[key].summary else ""
    {
      if key in cache {
        return cache[key].summary;
      }
      return "";
    }

    method SetSummary(key: string, summary: string)
      modifies this
      ensures cache == if key in old(cache) then old(cache)[key := old(cache)[key].(summary := summary)] else old(cache)
    {
      if key in cache {
        cache := cache[key := cache[key].(summary := summary)];
      }
    }

    method TruncateHistory(key: string, keepLast: int)
      modifies this
      ensures cache == if key in old(cache) then
        old(cache)[key := old(cache)[key].(messages := KeepLast(old(cache)[key].messages, keepLast))] else old(cache)
    {
      if key in cache {
        var data := cache[key];
        if keepLast <= 0 {
          data := data.(messages := []);
        } else if |data.messages| > keepLast {
          data := data.(messages := data.messages[|data.messages| - keepLast..]);
        }
        cache := cache[key := data];
      }
    }

    method IncrementCompaction(key: string)
      modifies this
      ensures cache == if key in old(cache) then
        old(cache)[key := old(cache)[key].(compactionCount := old(cache)[key].compactionCount + 1)] else old(cache)
    {
      if key in cache {
        cache := cache[key := cache[key].(compactionCount := cache[key].compactionCount + 1)];
      }
    }

    method SetMemoryFlushAt(key: string, compactionCount: nat)
      modifies this
      ensures cache == if key in old(cache) then
        old(cache)[key := old(cache)[key].(memoryFlushAt := compactionCount)] else old(cache)
    {
      if key in cache {
        cache := cache[key := cache[key].(memoryFlushAt := compactionCount)];
      }
    }

    method SetLastPromptTokens(key: string, tokens: int, msgCount: nat)
      modifies this
      ensures cache == if key in old(cache) then
        old(cache)[key := old(cache)[key].(lastPromptTokens := tokens, lastMessageCount := msgCount)] else old(cache)
    {
      if key in cache {
        cache := cache[key := cache[key].(lastPromptTokens := tokens, lastMessageCount := msgCount)];
      }
    }

    method AccumulateTokens(key: string, input: int, output: int)
      modifies this
      ensures cache == if key in old(cache) then
        old(cache)[key := old(cache)[key].(inputTokens := old(cache)[key].inputTokens + input,
                                           outputTokens := old(cache)[key].outputTokens + output)] else old(cache)
    {
      if key in cache {
        var data := cache[key];
        cache := cache[key := data.(inputTokens := data.inputTokens + input, outputTokens := data.outputTokens + output)];
      }
    }
  }
}
