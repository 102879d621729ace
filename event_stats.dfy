/**
 * The module-level `eventStats` record: four dictionaries from an event type
 * to the number of times something happened to it, and `trackEvent`, the only
 * operation that writes them.
 */
module EventStats {

  /** The four keys of `eventStats`. */
  datatype Category = Received | Sent | Blocked | Errors

  /** One of the four dictionaries; a missing key reads as 0 (`x || 0`). */
  type Counts = map<string, nat>

  function CountIn(m: Counts, e: string): nat
  {
    if e in m then m[e] else 0
  }

  /** A snapshot of `eventStats`. */
  datatype Stats = Stats(received: Counts, sent: Counts, blocked: Counts, errors: Counts)

  function Of(s: Stats, c: Category): Counts
  {
    match c
    case Received => s.received
    case Sent => s.sent
    case Blocked => s.blocked
    case Errors => s.errors
  }

  /** `eventStats[c][e] || 0`. */
  function Count(s: Stats, c: Category, e: string): nat
  {
    CountIn(Of(s, c), e)
  }

  /** The record as the module creates it: four empty dictionaries. */
  function Initial(): (r: Stats)
    ensures forall c: Category :: Of(r, c) == map[]
    ensures forall c: Category, e: string :: Count(r, c, e) == 0
  {
    Stats(map[], map[], map[], map[])
  }

  function Bump(m: Counts, e: string): (r: Counts)
    ensures r.Keys == m.Keys + {e}
    ensures CountIn(r, e) == CountIn(m, e) + 1
    ensures forall e' :: e' != e ==> CountIn(r, e') == CountIn(m, e')
  {
    m[e := CountIn(m, e) + 1]
  }

  /**
   * `trackEvent(c, e)`: the `(c, e)` counter goes up by one from its old value
   * (0 when absent); every other counter of every category keeps its value.
   */
  function Track(s: Stats, c: Category, e: string): (r: Stats)
    ensures Count(r, c, e) == Count(s, c, e) + 1
    ensures forall c', e' :: (c' != c || e' != e) ==> Count(r, c', e') == Count(s, c', e')
    ensures forall c' :: c' != c ==> Of(r, c') == Of(s, c')
    ensures Of(r, c).Keys == Of(s, c).Keys + {e}
  {
    match c
    case Received => s.(received := Bump(s.received, e))
    case Sent => s.(sent := Bump(s.sent, e))
    case Blocked => s.(blocked := Bump(s.blocked, e))
    case Errors => s.(errors := Bump(s.errors, e))
  }

  /** No counter of `s` is above the same counter of `t`. */
  ghost predicate NoneDecreased(s: Stats, t: Stats)
  {
    forall c: Category, e: string :: Count(s, c, e) <= Count(t, c, e)
  }

  /** Counters never go down: `trackEvent` is the only writer and it only adds. */
  lemma TrackNeverDecreases(s: Stats, c: Category, e: string)
    ensures NoneDecreased(s, Track(s, c, e))
    ensures !NoneDecreased(Track(s, c, e), s)
  {
  }

  lemma NoneDecreasedTransitive(s: Stats, t: Stats, u: Stats)
    requires NoneDecreased(s, t) && NoneDecreased(t, u)
    ensures NoneDecreased(s, u)
  {
    forall c: Category, e: string ensures Count(s, c, e) <= Count(u, c, e) {
      assert Count(s, c, e) <= Count(t, c, e) <= Count(u, c, e);
    }
  }

  /** The dictionary `c'` after `trackEvent(c, e)`. */
  lemma OfTrack(s: Stats, c: Category, e: string, c': Category)
    ensures Of(Track(s, c, e), c') == if c' == c then Bump(Of(s, c), e) else Of(s, c')
  {
  }

  lemma BumpCommutes(m: Counts, e1: string, e2: string)
    ensures Bump(Bump(m, e1), e2) == Bump(Bump(m, e2), e1)
  {
    if e1 != e2 {
      var a, b := Bump(Bump(m, e1), e2), Bump(Bump(m, e2), e1);
      assert a.Keys == b.Keys;
      forall e | e in a ensures a[e] == b[e] {
        assert CountIn(a, e) == CountIn(b, e);
      }
    }
  }

  lemma StatsEqual(a: Stats, b: Stats)
    requires forall c: Category :: Of(a, c) == Of(b, c)
    ensures a == b
  {
    assert Of(a, Received) == Of(b, Received) && Of(a, Sent) == Of(b, Sent);
    assert Of(a, Blocked) == Of(b, Blocked) && Of(a, Errors) == Of(b, Errors);
  }

  /** Updates to different counters commute. */
  lemma TrackCommutes(s: Stats, c1: Category, e1: string, c2: Category, e2: string)
    ensures Track(Track(s, c1, e1), c2, e2) == Track(Track(s, c2, e2), c1, e1)
  {
    var s1, s2 := Track(s, c1, e1), Track(s, c2, e2);
    var a, b := Track(s1, c2, e2), Track(s2, c1, e1);
    forall c: Category ensures Of(a, c) == Of(b, c) {
      OfTrack(s, c1, e1, c);
      OfTrack(s, c2, e2, c);
      OfTrack(s1, c2, e2, c);
      OfTrack(s2, c1, e1, c);
      if c == c1 && c == c2 {
        OfTrack(s, c1, e1, c2);
        OfTrack(s, c2, e2, c1);
        BumpCommutes(Of(s, c), e1, e2);
      }
    }
    StatsEqual(a, b);
  }

  /** The shared `eventStats` object, updated in place. */
  class Table {
    var received: Counts
    var sent: Counts
    var blocked: Counts
    var errors: Counts

    function Snapshot(): Stats
      reads this
    {
      Stats(received, sent, blocked, errors)
    }

    constructor ()
      ensures Snapshot() == Initial()
    {
      received, sent, blocked, errors := map[], map[], map[], map[];
    }

    /** `trackEvent(c, e)`. */
    method TrackEvent(c: Category, e: string)
      modifies this
      ensures Snapshot() == Track(old(Snapshot()), c, e)
    {
      match c
      case Received => received := received[e := CountIn(received, e) + 1];
      case Sent => sent := sent[e := CountIn(sent, e) + 1];
      case Blocked => blocked := blocked[e := CountIn(blocked, e) + 1];
      case Errors => errors := errors[e := CountIn(errors, e) + 1];
    }
  }
}
