/** Probe results and the bookkeeping of a scan. */
module Models {
  import opened Paths
  import opened Trees

  datatype AudioTrack = AudioTrack(index: int, language: string, codec: string, title: Option<string>,
                                   channels: Option<int>)

  datatype VideoTrack = VideoTrack(index: int, codec: string, width: Option<int>, height: Option<int>)

  datatype Tracks = Tracks(audio: seq<AudioTrack>, video: seq<VideoTrack>)

  datatype MediaInfo = MediaInfo(filePath: Path, size: nat, mtime: int, tracks: Tracks)

  const MAX_RECORDED_CHANGES: nat := 500

  datatype Change = Created(path: Path, target: Path) | Removed(path: Path)

  /** The counters of a scan. */
  datatype Tally = Tally(
    created: nat, removed: nat, unaltered: nat, probed: nat, skipped: nat, filtered: nat, errors: nat, blocked: nat,
    links: map<Path, nat>, changedOutputs: set<Path>, changes: seq<Change>)

  const EMPTY_TALLY := Tally(0, 0, 0, 0, 0, 0, 0, 0, map[], {}, [])

  /** The changes kept of a longer list: the first MAX_RECORDED_CHANGES. */
  function Capped(changes: seq<Change>): (r: seq<Change>)
    ensures |r| <= MAX_RECORDED_CHANGES && r <= changes
  {
    if |changes| <= MAX_RECORDED_CHANGES then changes else changes[..MAX_RECORDED_CHANGES]
  }

  function Merged(a: Tally, b: Tally): Tally {
    Tally(
      a.created + b.created, a.removed + b.removed, a.unaltered + b.unaltered, a.probed + b.probed,
      a.skipped + b.skipped, a.filtered + b.filtered, a.errors + b.errors, a.blocked + b.blocked,
      a.links + b.links, a.changedOutputs + b.changedOutputs, Capped(a.changes + b.changes))
  }

  /** Every counter is a sum; later numbers of links replace earlier ones; the first 500 changes are remembered. */
  ghost predicate IsSum(a: Tally, b: Tally, sum: Tally) {
    && sum.created == a.created + b.created && sum.removed == a.removed + b.removed
    && sum.unaltered == a.unaltered + b.unaltered && sum.probed == a.probed + b.probed
    && sum.skipped == a.skipped + b.skipped && sum.filtered == a.filtered + b.filtered
    && sum.errors == a.errors + b.errors && sum.blocked == a.blocked + b.blocked
    && (forall o :: o in sum.links <==> o in a.links || o in b.links)
    && (forall o :: o in sum.links ==> sum.links[o] == if o in b.links then b.links[o] else a.links[o])
    && sum.changedOutputs == a.changedOutputs + b.changedOutputs
    && sum.changes <= a.changes + b.changes
    && |sum.changes| == if |a.changes| + |b.changes| <= 500 then |a.changes| + |b.changes| else 500
  }

  /** Merging results of libraries can be grouped at will. */
  lemma MergeAssociative(a: Tally, b: Tally, c: Tally)
    requires |a.changes| <= MAX_RECORDED_CHANGES && |c.changes| <= MAX_RECORDED_CHANGES
    ensures Merged(Merged(a, b), c) == Merged(a, Merged(b, c))
  {
    assert a.changes + b.changes + c.changes == a.changes + (b.changes + c.changes);
    CappedTwice(a.changes + b.changes, c.changes);
    CappedTail(a.changes, b.changes + c.changes);
  }

  lemma NothingMerged(a: Tally)
    requires |a.changes| <= MAX_RECORDED_CHANGES
    ensures Merged(a, EMPTY_TALLY) == a == Merged(EMPTY_TALLY, a)
  {
    assert a.changes + [] == a.changes == [] + a.changes;
  }

  lemma CappedTwice(x: seq<Change>, y: seq<Change>)
    ensures Capped(Capped(x) + y) == Capped(x + y)
  {
    if |x| > MAX_RECORDED_CHANGES {
      assert (Capped(x) + y)[..MAX_RECORDED_CHANGES] == (x + y)[..MAX_RECORDED_CHANGES];
    }
  }

  lemma CappedTail(x: seq<Change>, y: seq<Change>)
    ensures Capped(x + Capped(y)) == Capped(x + y)
  {
    if |y| > MAX_RECORDED_CHANGES {
      assert (x + Capped(y))[..MAX_RECORDED_CHANGES] == (x + y)[..MAX_RECORDED_CHANGES];
    }
  }

  class ScanResult {
    var tally: Tally

    constructor ()
      ensures tally == EMPTY_TALLY
    {
      tally := EMPTY_TALLY;
    }

    /** Remembers an individual change, up to the cap. */
    method RecordChange(change: Change)
      requires |tally.changes| <= MAX_RECORDED_CHANGES
      modifies this
      ensures tally == old(tally).(changes := Capped(old(tally).changes + [change]))
      ensures tally.changes == if |old(tally).changes| < 500 then old(tally).changes + [change] else old(tally).changes
    {
      if |tally.changes| >= MAX_RECORDED_CHANGES {
        assert (tally.changes + [change])[..MAX_RECORDED_CHANGES] == tally.changes;
        return;
      }
      tally := tally.(changes := tally.changes + [change]);
    }

    method Merge(other: ScanResult)
      requires |tally.changes| <= MAX_RECORDED_CHANGES
      modifies this
      ensures tally == Merged(old(tally), old(other.tally)) && IsSum(old(tally), old(other.tally), tally)
    {
      var room := MAX_RECORDED_CHANGES - |tally.changes|;
      var more := other.tally.changes[..if room < |other.tally.changes| then room else |other.tally.changes|];
      assert tally.changes + more == Capped(tally.changes + other.tally.changes);
      tally := Merged(tally, other.tally).(changes := tally.changes + more);
    }
  }
}
