/**
 * `isEventExcluded`: the exclusion test every producer runs before anything
 * else, which also counts the blocked event.
 */
module EventFilter {
  import opened EventStats

  /** The statistics after `isEventExcluded(t)` has run. */
  function AfterExclusion(s: Stats, excluded: seq<string>, t: string): (r: Stats)
    ensures t in excluded ==> Count(r, Blocked, t) == Count(s, Blocked, t) + 1
    ensures forall c, e :: (t !in excluded || c != Blocked || e != t) ==> Count(r, c, e) == Count(s, c, e)
    ensures t !in excluded ==> r == s
  {
    if t in excluded then Track(s, Blocked, t) else s
  }

  /**
   * `isEventExcluded(t)`: true exactly when `t` is one of the configured
   * excluded types, in which case `blocked[t]` goes up by one. The dedup map
   * is outside its frame.
   */
  method IsEventExcluded(stats: Table, excluded: seq<string>, t: string) returns (b: bool)
    modifies stats
    ensures b <==> t in excluded
    ensures stats.Snapshot() == AfterExclusion(old(stats.Snapshot()), excluded, t)
  {
    if t in excluded {
      stats.TrackEvent(Blocked, t);
      return true;
    }
    return false;
  }
}
