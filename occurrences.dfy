/**
 * The occurrence cache as a pure function of the keys reported to it: each
 * report is tagged as a first occurrence exactly when its key was not seen
 * before, and the key is then remembered for the rest of the session.
 */
module Occurrences {

  /** The `uv` flags a session of reports with the keys `keys` receives, starting from `cache`. */
  function Tags(cache: set<string>, keys: seq<string>): (tags: seq<bool>)
    ensures |tags| == |keys|
    decreases keys
  {
    if keys == [] then [] else [keys[0] !in cache] + Tags(cache + {keys[0]}, keys[1..])
  }

  /** The cache after a session of reports with the keys `keys`. */
  function CacheAfter(cache: set<string>, keys: seq<string>): set<string>
    decreases keys
  {
    if keys == [] then cache else CacheAfter(cache + {keys[0]}, keys[1..])
  }

  /** The cache only grows, and by exactly the keys reported. */
  lemma {:induction false} CacheAfterGrows(cache: set<string>, keys: seq<string>)
    ensures CacheAfter(cache, keys) == cache + set k | k in keys
    decreases keys
  {
    if keys != [] {
      CacheAfterGrows(cache + {keys[0]}, keys[1..]);
      assert (set k | k in keys) == {keys[0]} + set k | k in keys[1..];
    }
  }

  /**
   * A report is tagged exactly when its key is neither in the starting
   * cache nor the key of an earlier report of the session.
   */
  lemma {:induction false} TagsMarkFirstOccurrences(cache: set<string>, keys: seq<string>, i: nat)
    requires i < |keys|
    ensures Tags(cache, keys)[i] <==> keys[i] !in cache && forall j :: 0 <= j < i ==> keys[j] != keys[i]
    decreases i
  {
    if i > 0 {
      TagsMarkFirstOccurrences(cache + {keys[0]}, keys[1..], i - 1);
      assert forall j :: 0 < j < i ==> keys[j] == keys[1..][j - 1];
    }
  }

  /** Of the reports that share a key, at most one is tagged: the first. */
  lemma AtMostOneFirstOccurrence(cache: set<string>, keys: seq<string>, i: nat, j: nat)
    requires i < j < |keys| && keys[i] == keys[j]
    ensures !Tags(cache, keys)[j]
  {
    TagsMarkFirstOccurrences(cache, keys, j);
  }

  /**
   * One more report extends the session by one step: it is tagged exactly
   * when its key is not in the cache the session has built so far, and the
   * key is then cached.
   */
  lemma {:induction false} SessionSnoc(cache: set<string>, keys: seq<string>, key: string)
    ensures Tags(cache, keys + [key]) == Tags(cache, keys) + [key !in CacheAfter(cache, keys)]
    ensures CacheAfter(cache, keys + [key]) == CacheAfter(cache, keys) + {key}
    decreases keys
  {
    if keys != [] {
      assert (keys + [key])[1..] == keys[1..] + [key];
      SessionSnoc(cache + {keys[0]}, keys[1..], key);
    }
  }
}
