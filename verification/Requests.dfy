/** Scan requests, and how a batch of them is merged into the one scan that will run. */
module Requests {

  datatype ScanEvent = ScanEvent(source: string, timestamp: real, dryRun: bool, force: bool)

  function Real(events: seq<ScanEvent>): seq<ScanEvent> {
    if events == [] then []
    else Real(events[..|events| - 1]) + if events[|events| - 1].dryRun then [] else [events[|events| - 1]]
  }

  /** The requests that count: the real ones, or all if none is real. */
  function Chosen(events: seq<ScanEvent>): seq<ScanEvent> {
    if Real(events) != [] then Real(events) else events
  }

  function SourcesOf(events: seq<ScanEvent>): seq<string> {
    seq(|events|, i requires 0 <= i < |events| => events[i].source)
  }

  /** The first occurrence of every element (`dict.fromkeys`). */
  function Dedup<T(==)>(s: seq<T>): seq<T> {
    if s == [] then []
    else
      var front, last := s[..|s| - 1], s[|s| - 1];
      Dedup(front) + if last in front then [] else [last]
  }

  function JoinSources(sources: seq<string>): string {
    if sources == [] then ""
    else if |sources| == 1 then sources[0]
    else sources[0] + ", " + JoinSources(sources[1..])
  }

  /** The text names the sources one after the other, with a comma and a space in between. */
  lemma {:induction false} SourcesJoined(a: seq<string>, b: seq<string>)
    requires a != [] && b != []
    ensures JoinSources(a + b) == JoinSources(a) + ", " + JoinSources(b)
    ensures |a| == 1 ==> JoinSources(a) == a[0]
    decreases |a|
  {
    assert (a + b)[1..] == a[1..] + b;
    if |a| > 1 {
      SourcesJoined(a[1..], b);
    } else {
      assert a + b == [a[0]] + b;
    }
  }

  predicate AnyForce(events: seq<ScanEvent>) {
    exists e :: e in events && e.force
  }

  /** A merged request, before its sources are joined to one text. */
  datatype Merged = Merged(sources: seq<string>, timestamp: real, dryRun: bool, force: bool)

  function Merge(events: seq<ScanEvent>): Merged
    requires events != []
  {
    var chosen := Chosen(events);
    Merged(Dedup(SourcesOf(chosen)), chosen[0].timestamp, Real(events) == [], AnyForce(chosen))
  }

  function MergeEvents(events: seq<ScanEvent>): ScanEvent
    requires events != []
  {
    var m := Merge(events);
    ScanEvent(JoinSources(m.sources), m.timestamp, m.dryRun, m.force)
  }

  // ---------------------------------------------------------------- what a merge keeps

  lemma {:induction false} RealMembers(events: seq<ScanEvent>)
    ensures forall e :: e in Real(events) <==> e in events && !e.dryRun
  {
    if events != [] {
      var front, last := events[..|events| - 1], events[|events| - 1];
      RealMembers(front);
      assert events == front + [last];
    }
  }

  lemma ChosenMembers(events: seq<ScanEvent>)
    ensures forall e :: e in Chosen(events) <==> e in events && e.dryRun == (Real(events) == [])
    ensures Real(events) == [] <==> forall e :: e in events ==> e.dryRun
  {
    RealMembers(events);
    if Real(events) != [] {
      assert Real(events)[0] in Real(events);
    }
  }

  lemma {:induction false} DedupMembers<T>(s: seq<T>)
    ensures forall x :: x in Dedup(s) <==> x in s
    ensures forall i, j :: 0 <= i < j < |Dedup(s)| ==> Dedup(s)[i] != Dedup(s)[j]
  {
    if s != [] {
      var front, last := s[..|s| - 1], s[|s| - 1];
      DedupMembers(front);
      assert s == front + [last];
    }
  }

  lemma DedupMember<T>(s: seq<T>, x: T)
    ensures x in Dedup(s) <==> x in s
  {
    DedupMembers(s);
  }

  lemma {:induction false} DedupInOrder<T>(s: seq<T>, a: nat, b: nat) returns (i: nat)
    requires a < b < |Dedup(s)|
    ensures i < |s| && s[i] == Dedup(s)[a] && Dedup(s)[b] !in s[..i + 1]
  {
    var front, last := s[..|s| - 1], s[|s| - 1];
    if b < |Dedup(front)| {
      i := DedupInOrder(front, a, b);
      assert s[..i + 1] == front[..i + 1];
    } else {
      var x := Dedup(front)[a];
      DedupMember(front, x);
      assert Dedup(s)[b] == last && Dedup(s)[a] == x && x in Dedup(front);
      i :| 0 <= i < |front| && front[i] == x;
      assert s[..i + 1] == front[..i + 1];
    }
  }

  /** The real requests are in the order of the batch. */
  lemma {:induction false} RealInOrder(events: seq<ScanEvent>, i: nat) returns (k: nat)
    requires i < |Real(events)|
    ensures k < |events| && events[k] == Real(events)[i]
    ensures forall e :: e in events[..k + 1] && !e.dryRun ==> e in Real(events)[..i + 1]
  {
    var front, last := events[..|events| - 1], events[|events| - 1];
    if i < |Real(front)| {
      k := RealInOrder(front, i);
      assert events[..k + 1] == front[..k + 1] && Real(events)[..i + 1] == Real(front)[..i + 1];
    } else {
      k := |events| - 1;
      RealMembers(events);
      assert events[..k + 1] == events && Real(events)[..i + 1] == Real(events);
    }
  }

  /** The chosen requests are in the order of the batch. */
  lemma ChosenInOrder(events: seq<ScanEvent>, i: nat) returns (k: nat)
    requires i < |Chosen(events)|
    ensures k < |events| && events[k] == Chosen(events)[i]
    ensures forall e :: e in events[..k + 1] && e.dryRun == (Real(events) == []) ==> e in Chosen(events)[..i + 1]
  {
    if Real(events) != [] {
      k := RealInOrder(events, i);
    } else {
      k := i;
    }
  }

  /** The k-th request of the batch is the first of its kind. */
  ghost predicate FirstOfKind(events: seq<ScanEvent>, k: int, dryRun: bool) {
    0 <= k < |events| && events[k].dryRun == dryRun && forall j :: 0 <= j < k ==> events[j].dryRun != dryRun
  }

  /** Among the requests of a kind, source x is named before source y. */
  ghost predicate NamedBefore(events: seq<ScanEvent>, dryRun: bool, x: string, y: string) {
    exists k :: 0 <= k < |events| && events[k].dryRun == dryRun && events[k].source == x
                && forall e :: e in events[..k + 1] && e.dryRun == dryRun ==> e.source != y
  }

  lemma SourcesInOrder(events: seq<ScanEvent>, a: nat, b: nat)
    requires events != [] && a < b < |Merge(events).sources|
    ensures NamedBefore(events, Merge(events).dryRun, Merge(events).sources[a], Merge(events).sources[b])
  {
    var m, chosen := Merge(events), Chosen(events);
    ChosenMembers(events);
    var i := DedupInOrder(SourcesOf(chosen), a, b);
    var k := ChosenInOrder(events, i);
    assert events[k] in chosen;
    forall e | e in events[..k + 1] && e.dryRun == m.dryRun ensures e.source != m.sources[b] {
      var j :| 0 <= j < i + 1 && chosen[j] == e;
      assert SourcesOf(chosen)[..i + 1][j] == e.source;
    }
  }

  lemma FirstIsChosen(events: seq<ScanEvent>) returns (k: nat)
    requires events != []
    ensures FirstOfKind(events, k, Merge(events).dryRun) && events[k].timestamp == Merge(events).timestamp
  {
    var dry := Merge(events).dryRun;
    ChosenMembers(events);
    var i := ChosenInOrder(events, 0);
    assert Chosen(events)[0] in Chosen(events);
    k := i;
    while exists j :: 0 <= j < k && events[j].dryRun == dry
      invariant k < |events| && events[k].dryRun == dry && events[k].timestamp == Merge(events).timestamp && k <= i
      decreases k
    {
      var j :| 0 <= j < k && events[j].dryRun == dry;
      assert events[j] in events[..i + 1];
      k := j;
    }
  }

  /** A merged scan is real exactly if some request was, is forced exactly if a request of the chosen kind was, names
      each source of that kind once, in the order of first requests, and bears the time of the first request of that
      kind. */
  lemma MergeKeeps(events: seq<ScanEvent>)
    requires events != []
    ensures var m := Merge(events);
            && (m.dryRun <==> forall e :: e in events ==> e.dryRun)
            && (m.force <==> exists e :: e in events && e.dryRun == m.dryRun && e.force)
            && (forall s :: s in m.sources <==> exists e :: e in events && e.dryRun == m.dryRun && e.source == s)
            && (forall a, b :: 0 <= a < b < |m.sources| ==>
                  m.sources[a] != m.sources[b] && NamedBefore(events, m.dryRun, m.sources[a], m.sources[b]))
            && (exists k :: FirstOfKind(events, k, m.dryRun) && events[k].timestamp == m.timestamp)
  {
    var m, chosen := Merge(events), Chosen(events);
    ChosenMembers(events);
    DedupMembers(SourcesOf(chosen));
    forall s ensures s in SourcesOf(chosen) <==> exists e :: e in chosen && e.source == s { SourcesMembers(chosen, s); }
    forall a, b | 0 <= a < b < |m.sources| ensures NamedBefore(events, m.dryRun, m.sources[a], m.sources[b]) {
      SourcesInOrder(events, a, b);
    }
    var k := FirstIsChosen(events);
  }

  lemma SourcesMembers(events: seq<ScanEvent>, s: string)
    ensures s in SourcesOf(events) <==> exists e :: e in events && e.source == s
  {
    if s in SourcesOf(events) {
      var i :| 0 <= i < |events| && SourcesOf(events)[i] == s;
      assert events[i] in events;
    }
    if e :| e in events && e.source == s {
      var i :| 0 <= i < |events| && events[i] == e;
      assert SourcesOf(events)[i] == s;
    }
  }

  /** The force of some request is lost exactly if all forced requests are dry and one that is not forced is real. */
  lemma ForceIsKept(events: seq<ScanEvent>)
    requires events != []
    ensures Merge(events).force == AnyForce(events) <==>
            ((exists e :: e in events && !e.dryRun) && AnyForce(events) ==>
             exists e :: e in events && !e.dryRun && e.force)
  {
    ChosenMembers(events);
  }

  lemma ForceCanBeLost()
    ensures var events := [ScanEvent("api", 0.0, true, true), ScanEvent("timer", 1.0, false, false)];
            AnyForce(events) && !Merge(events).force
  {
    var events := [ScanEvent("api", 0.0, true, true), ScanEvent("timer", 1.0, false, false)];
    assert events[0] in events && events[1] in events;
    ChosenMembers(events);
  }

  // ---------------------------------------------------------------- merging is a homomorphism

  /** Two merged requests as one: a real one outdoes a dry one. */
  function Combine(a: Merged, b: Merged): Merged {
    if a.dryRun && !b.dryRun then b
    else if !a.dryRun && b.dryRun then a
    else Merged(Dedup(a.sources + b.sources), a.timestamp, a.dryRun, a.force || b.force)
  }

  lemma {:induction false} RealOfConcat(a: seq<ScanEvent>, b: seq<ScanEvent>)
    ensures Real(a + b) == Real(a) + Real(b)
    decreases |b|
  {
    if b == [] {
      assert a + b == a;
    } else {
      assert (a + b)[..|a + b| - 1] == a + b[..|b| - 1];
      RealOfConcat(a, b[..|b| - 1]);
    }
  }

  lemma DedupAppend<T>(s: seq<T>, x: T)
    ensures Dedup(s + [x]) == if x in s then Dedup(s) else Dedup(s) + [x]
  {
    assert (s + [x])[..|s|] == s;
    assert Dedup(s) + [] == Dedup(s);
  }

  lemma MemberOfBoth<T>(a: seq<T>, b: seq<T>, x: T)
    ensures x in Dedup(a) + Dedup(b) <==> x in a + b
  {
    DedupMembers(a);
    DedupMembers(b);
  }

  lemma Associative<T>(x: seq<T>, y: seq<T>, z: seq<T>)
    ensures x + (y + z) == x + y + z
  {}

  lemma DedupOfConcatStep<T>(a: seq<T>, front: seq<T>, last: T)
    requires Dedup(a + front) == Dedup(Dedup(a) + Dedup(front))
    ensures Dedup(a + (front + [last])) == Dedup(Dedup(a) + Dedup(front + [last]))
  {
    Associative(a, front, [last]);
    DedupAppend(a + front, last);
    DedupAppend(front, last);
    if last !in front {
      var both := Dedup(a) + Dedup(front);
      MemberOfBoth(a, front, last);
      DedupAppend(both, last);
      Associative(Dedup(a), Dedup(front), [last]);
    }
  }

  lemma {:induction false} DedupOfConcat<T>(a: seq<T>, b: seq<T>)
    ensures Dedup(a + b) == Dedup(Dedup(a) + Dedup(b))
    decreases |b|
  {
    if b == [] {
      assert a + b == a && Dedup(a) + Dedup(b) == Dedup(a);
      DedupTwice(a);
    } else {
      var front, last := b[..|b| - 1], b[|b| - 1];
      DedupOfConcat(a, front);
      DedupOfConcatStep(a, front, last);
      assert b == front + [last];
    }
  }

  lemma {:induction false} DedupTwice<T>(s: seq<T>)
    ensures Dedup(Dedup(s)) == Dedup(s)
  {
    if s != [] {
      var front, last := s[..|s| - 1], s[|s| - 1];
      DedupTwice(front);
      DedupMembers(front);
      var d := Dedup(s);
      if last in front {
        assert d == Dedup(front) + [] == Dedup(front);
      } else {
        assert d == Dedup(front) + [last] && d[..|d| - 1] == Dedup(front) && d[|d| - 1] == last;
        assert Dedup(d) == Dedup(Dedup(front)) + [last];
      }
    }
  }

  /** How a batch came together does not matter: merging its parts and then the results is merging the whole. */
  lemma MergeOfConcat(a: seq<ScanEvent>, b: seq<ScanEvent>)
    requires a != [] && b != []
    ensures Merge(a + b) == Combine(Merge(a), Merge(b))
  {
    RealOfConcat(a, b);
    if Real(a) == [] == Real(b) {
      SameKind(a, b);
    } else if Real(a) != [] && Real(b) != [] {
      SameKind(Real(a), Real(b));
    } else if Real(a) == [] {
      assert Real(a) + Real(b) == Real(b);
    } else {
      assert Real(a) + Real(b) == Real(a);
    }
  }

  lemma SameKind(a: seq<ScanEvent>, b: seq<ScanEvent>)
    requires a != [] && b != []
    ensures Dedup(SourcesOf(a + b)) == Dedup(Dedup(SourcesOf(a)) + Dedup(SourcesOf(b)))
    ensures (a + b)[0].timestamp == a[0].timestamp && (AnyForce(a + b) <==> AnyForce(a) || AnyForce(b))
  {
    assert SourcesOf(a + b) == SourcesOf(a) + SourcesOf(b);
    DedupOfConcat(SourcesOf(a), SourcesOf(b));
  }
}
