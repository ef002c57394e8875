/**
 * The lost-resource tracker as a pure function of the calls made to it:
 * an ordered log of URIs in which each URI is kept once, at the place of its
 * first report.
 */
module LostResources {

  predicate NoDuplicates(s: seq<string>)
  {
    forall i, j :: 0 <= i < j < |s| ==> s[i] != s[j]
  }

  function Elements(s: seq<string>): set<string>
  {
    set x | x in s
  }

  /** The log after one report of `uri`: unchanged if `uri` is already in it, else `uri` appended. */
  function Track(log: seq<string>, uri: string): seq<string>
  {
    if uri in log then log else log + [uri]
  }

  /** The log after reporting each of `uris` in turn. */
  function TrackAll(log: seq<string>, uris: seq<string>): seq<string>
    decreases uris
  {
    if uris == [] then log else TrackAll(Track(log, uris[0]), uris[1..])
  }

  /**
   * After any sequence of reports the log still holds no URI twice, holds
   * exactly the URIs seen before or reported now, and keeps the earlier log
   * as its prefix.
   */
  lemma {:induction false} TrackAllDistinct(log: seq<string>, uris: seq<string>)
    requires NoDuplicates(log)
    ensures NoDuplicates(TrackAll(log, uris))
    ensures Elements(TrackAll(log, uris)) == Elements(log) + Elements(uris)
    ensures log <= TrackAll(log, uris)
    decreases uris
  {
    if uris != [] {
      var next := Track(log, uris[0]);
      TrackAllDistinct(next, uris[1..]);
      assert Elements(uris) == {uris[0]} + Elements(uris[1..]);
      assert Elements(next) == Elements(log) + {uris[0]};
    }
  }

  /** Reporting URIs that are all in the log already changes nothing. */
  lemma {:induction false} TrackAllSeen(log: seq<string>, uris: seq<string>)
    requires forall i :: 0 <= i < |uris| ==> uris[i] in log
    ensures TrackAll(log, uris) == log
    decreases uris
  {
    if uris != [] {
      TrackAllSeen(log, uris[1..]);
    }
  }

  /** Reporting the same URIs a second time leaves the log as the first time left it. */
  lemma TrackAllIdempotent(log: seq<string>, uris: seq<string>)
    requires NoDuplicates(log)
    ensures TrackAll(TrackAll(log, uris), uris) == TrackAll(log, uris)
  {
    TrackAllDistinct(log, uris);
    var after := TrackAll(log, uris);
    forall i | 0 <= i < |uris|
      ensures uris[i] in after
    {
      assert uris[i] in Elements(uris);
    }
    TrackAllSeen(after, uris);
  }
}
