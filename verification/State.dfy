/** The probe cache and the scan history, kept in memory or in a database. */
module State {
  import opened Paths
  import opened Trees
  import opened Models

  // ---------------------------------------------------------------- documents

  datatype Json =
    | JNull
    | JInt(n: int)
    | JStr(s: string)
    | JArr(items: seq<Json>)
    | JObj(fields: map<string, Json>)

  type Record = map<string, Json>

  function EncodeInt(v: Option<int>): Json {
    if v.Some? then JInt(v.value) else JNull
  }

  function EncodeStr(v: Option<string>): Json {
    if v.Some? then JStr(v.value) else JNull
  }

  function EncodeAudio(a: AudioTrack): Json {
    JArr([JInt(a.index), JStr(a.language), JStr(a.codec), EncodeStr(a.title), EncodeInt(a.channels)])
  }

  function EncodeVideo(v: VideoTrack): Json {
    JArr([JInt(v.index), JStr(v.codec), EncodeInt(v.width), EncodeInt(v.height)])
  }

  /** The text of the tracks column, as a document. */
  function EncodeTracks(tracks: Tracks): Json {
    JObj(map[
      "a" := JArr(seq(|tracks.audio|, i requires 0 <= i < |tracks.audio| => EncodeAudio(tracks.audio[i]))),
      "v" := JArr(seq(|tracks.video|, i requires 0 <= i < |tracks.video| => EncodeVideo(tracks.video[i])))])
  }

  function DecodeInt(j: Json): Option<Option<int>> {
    match j
    case JNull => Some(None)
    case JInt(n) => Some(Some(n))
    case _ => None
  }

  function DecodeStr(j: Json): Option<Option<string>> {
    match j
    case JNull => Some(None)
    case JStr(s) => Some(Some(s))
    case _ => None
  }

  /** An entry may lack the channels, as older versions wrote it. */
  function DecodeAudio(j: Json): Option<AudioTrack> {
    if j.JArr? && |j.items| >= 4 && j.items[0].JInt? && j.items[1].JStr? && j.items[2].JStr? then
      var title := DecodeStr(j.items[3]);
      var channels := if |j.items| > 4 then DecodeInt(j.items[4]) else Some(None);
      if title.Some? && channels.Some? then
        Some(AudioTrack(j.items[0].n, j.items[1].s, j.items[2].s, title.value, channels.value))
      else None
    else None
  }

  function DecodeVideo(j: Json): Option<VideoTrack> {
    if j.JArr? && |j.items| == 4 && j.items[0].JInt? && j.items[1].JStr? then
      var width, height := DecodeInt(j.items[2]), DecodeInt(j.items[3]);
      if width.Some? && height.Some? then Some(VideoTrack(j.items[0].n, j.items[1].s, width.value, height.value))
        else None
    else None
  }

  function DecodeAudios(items: seq<Json>): Option<seq<AudioTrack>> {
    if items == [] then Some([])
    else
      var first, rest := DecodeAudio(items[0]), DecodeAudios(items[1..]);
      if first.Some? && rest.Some? then Some([first.value] + rest.value) else None
  }

  function DecodeVideos(items: seq<Json>): Option<seq<VideoTrack>> {
    if items == [] then Some([])
    else
      var first, rest := DecodeVideo(items[0]), DecodeVideos(items[1..]);
      if first.Some? && rest.Some? then Some([first.value] + rest.value) else None
  }

  function Items(fields: Record, key: string): Option<seq<Json>> {
    if key !in fields then Some([])
    else if fields[key].JArr? then Some(fields[key].items)
    else None
  }

  /** None: the entry is unreadable. */
  function DecodeTracks(raw: Json): Option<Tracks> {
    if !raw.JObj? then None
    else
      var a, v := Items(raw.fields, "a"), Items(raw.fields, "v");
      if a.None? || v.None? then None
      else
        var audio, video := DecodeAudios(a.value), DecodeVideos(v.value);
        if audio.Some? && video.Some? then Some(Tracks(audio.value, video.value)) else None
  }

  lemma {:induction false} AudiosRoundTrip(audio: seq<AudioTrack>, items: seq<Json>)
    requires |items| == |audio| && forall i :: 0 <= i < |audio| ==> items[i] == EncodeAudio(audio[i])
    ensures DecodeAudios(items) == Some(audio)
  {
    if audio != [] {
      assert items[0] == EncodeAudio(audio[0]) && DecodeAudio(items[0]) == Some(audio[0]);
      assert [audio[0]] + audio[1..] == audio;
      AudiosRoundTrip(audio[1..], items[1..]);
    }
  }

  lemma {:induction false} VideosRoundTrip(video: seq<VideoTrack>, items: seq<Json>)
    requires |items| == |video| && forall i :: 0 <= i < |video| ==> items[i] == EncodeVideo(video[i])
    ensures DecodeVideos(items) == Some(video)
  {
    if video != [] {
      assert items[0] == EncodeVideo(video[0]) && DecodeVideo(items[0]) == Some(video[0]);
      assert [video[0]] + video[1..] == video;
      VideosRoundTrip(video[1..], items[1..]);
    }
  }

  /** Nothing is lost in the database column. */
  lemma TracksRoundTrip(tracks: Tracks)
    ensures DecodeTracks(EncodeTracks(tracks)) == Some(tracks)
  {
    var fields := EncodeTracks(tracks).fields;
    AudiosRoundTrip(tracks.audio, fields["a"].items);
    VideosRoundTrip(tracks.video, fields["v"].items);
  }

  // ---------------------------------------------------------------- scan records

  function Length(j: Json): nat {
    match j
    case JArr(items) => |items|
    case JObj(fields) => |fields|
    case JStr(s) => |s|
    case _ => 0
  }

  /** The record without its change and issue lists, but with their lengths. */
  function Summarize(record: Record): Record {
    var slim := record - {"issues"};
    var counted := if "issues" in record then slim["issues_count" := JInt(Length(record["issues"]))] else slim;
    if "result" in record && record["result"].JObj? && "changes" in record["result"].fields then
      var result := record["result"].fields;
      counted["result" := JObj((result - {"changes"})["changes_count" := JInt(Length(result["changes"]))])]
    else counted
  }

  /** A summary has the numbers of issues and changes instead of the lists, and all else as it was. */
  lemma SummaryTells(record: Record)
    ensures var s := Summarize(record);
            && "issues" !in s
            && (forall k :: k !in {"issues", "issues_count", "result"} ==> SameField(record, s, k))
            && (forall items :: "issues" in record && record["issues"] == JArr(items) ==>
                  "issues_count" in s && s["issues_count"] == JInt(|items|))
            && ("issues" !in record ==> SameField(record, s, "issues_count"))
    ensures forall fields, items ::
              HoldsResult(record, fields) && "changes" in fields && fields["changes"] == JArr(items) ==>
                exists slim :: HoldsResult(Summarize(record), slim) && IsSlim(fields, slim, |items|)
    ensures (forall fields :: HoldsResult(record, fields) ==> "changes" !in fields) ==>
              SameField(record, Summarize(record), "result")
  {
    forall fields, items | HoldsResult(record, fields) && "changes" in fields && fields["changes"] == JArr(items)
      ensures exists slim :: HoldsResult(Summarize(record), slim) && IsSlim(fields, slim, |items|)
    {
      assert HoldsResult(Summarize(record), (fields - {"changes"})["changes_count" := JInt(|items|)]);
    }
    if "result" in record && record["result"].JObj? {
      assert HoldsResult(record, record["result"].fields);
    }
  }

  /** The changes have been replaced with their number. */
  ghost predicate IsSlim(fields: map<string, Json>, slim: map<string, Json>, n: nat) {
    && "changes" !in slim && "changes_count" in slim && slim["changes_count"] == JInt(n)
    && forall k :: k !in {"changes", "changes_count"} ==> SameField(fields, slim, k)
  }

  predicate HoldsResult(record: Record, fields: map<string, Json>) {
    "result" in record && record["result"] == JObj(fields)
  }

  predicate SameField(a: map<string, Json>, b: map<string, Json>, k: string) {
    if k in a then k in b && a[k] == b[k] else k !in b
  }

  /** The entry of a track as it was written before channels were recorded. */
  function WithoutChannels(a: AudioTrack): Json {
    JArr([JInt(a.index), JStr(a.language), JStr(a.codec), EncodeStr(a.title)])
  }

  lemma {:induction false} OlderAudiosRead(audio: seq<AudioTrack>, items: seq<Json>)
    requires |items| == |audio|
    requires forall i :: 0 <= i < |audio| ==> audio[i].channels.None? && items[i] == WithoutChannels(audio[i])
    ensures DecodeAudios(items) == Some(audio)
  {
    if audio != [] {
      assert items[0] == WithoutChannels(audio[0]) && DecodeAudio(items[0]) == Some(audio[0]);
      assert [audio[0]] + audio[1..] == audio;
      OlderAudiosRead(audio[1..], items[1..]);
    }
  }

  /** What older versions wrote can still be read: audio tracks without channels, and documents without a list. */
  lemma OlderTracksRead(audio: seq<AudioTrack>, items: seq<Json>, video: seq<VideoTrack>)
    requires |items| == |audio|
    requires forall i :: 0 <= i < |audio| ==> audio[i].channels.None? && items[i] == WithoutChannels(audio[i])
    ensures DecodeTracks(JObj(map["a" := JArr(items)])) == Some(Tracks(audio, []))
    ensures DecodeTracks(JObj(EncodeTracks(Tracks([], video)).fields - {"a"})) == Some(Tracks([], video))
    ensures DecodeTracks(JObj(map[])) == Some(Tracks([], []))
  {
    OlderAudiosRead(audio, items);
    VideosRoundTrip(video, EncodeTracks(Tracks([], video)).fields["v"].items);
  }

  // ---------------------------------------------------------------- what a store promises

  const SCAN_HISTORY_LIMIT: nat := 500

  /** A store, seen from outside. The history is oldest first. */
  datatype Memory = Memory(entries: map<Path, MediaInfo>, hits: nat, misses: nat, scans: seq<Record>, nextId: nat)

  const EMPTY_MEMORY := Memory(map[], 0, 0, [], 1)

  function Found(m: Memory, file: Path, size: nat, mtime: int): Option<MediaInfo> {
    if file in m.entries && m.entries[file].size == size && m.entries[file].mtime == mtime then Some(m.entries[file])
      else None
  }

  /** Looking a file up counts, and forgets an entry for another size or time. */
  function AfterGet(m: Memory, file: Path, size: nat, mtime: int): Memory {
    if Found(m, file, size, mtime).Some? then m.(hits := m.hits + 1)
    else m.(entries := m.entries - {file}, misses := m.misses + 1)
  }

  function AfterPut(m: Memory, info: MediaInfo): Memory {
    m.(entries := m.entries[info.filePath := info])
  }

  function Stale(m: Memory, root: Path, keep: set<Path>): set<Path> {
    set p | p in m.entries && Within(p, root) && p !in keep
  }

  function AfterPrune(m: Memory, root: Path, keep: set<Path>): Memory {
    m.(entries := m.entries - Stale(m, root, keep))
  }

  /** The newest n of a list that is oldest first. */
  function Newest<T>(s: seq<T>, n: nat): seq<T> {
    if |s| <= n then s else s[|s| - n..]
  }

  function AfterAddScan(m: Memory, record: Record): Memory {
    m.(scans := Newest(m.scans + [record["id" := JInt(m.nextId)]], SCAN_HISTORY_LIMIT), nextId := m.nextId + 1)
  }

  /** `list(reversed(s))[offset : offset + limit]`. */
  function PageOf<T>(s: seq<T>, limit: nat, offset: nat): seq<T> {
    var start := if offset < |s| then offset else |s|;
    var len := if limit < |s| - start then limit else |s| - start;
    seq(len, i requires 0 <= i < len => s[|s| - 1 - start - i])
  }

  function SummarizeAll(records: seq<Record>): seq<Record> {
    seq(|records|, i requires 0 <= i < |records| => Summarize(records[i]))
  }

  /** A page of the history, newest first. */
  function Page(m: Memory, limit: nat, offset: nat): seq<Record> {
    SummarizeAll(PageOf(m.scans, limit, offset))
  }

  function ScanById(m: Memory, id: int): Option<Record> {
    var first := m.nextId - |m.scans|;
    if first <= id < m.nextId then Some(m.scans[id - first]) else None
  }

  /** The history holds consecutive ids up to the newest one, at most SCAN_HISTORY_LIMIT of them. */
  ghost predicate Consecutive(m: Memory) {
    && 1 <= m.nextId
    && |m.scans| == (if m.nextId - 1 <= SCAN_HISTORY_LIMIT then m.nextId - 1 else SCAN_HISTORY_LIMIT)
    && forall i :: 0 <= i < |m.scans| ==> "id" in m.scans[i] && m.scans[i]["id"] == JInt(m.nextId - |m.scans| + i)
  }

  // ---------------------------------------------------------------- runs of operations

  datatype Op =
    | Get(file: Path, size: nat, mtime: int)
    | Put(info: MediaInfo)
    | Remove(file: Path)
    | Prune(root: Path, keep: set<Path>)
    | AddScan(record: Record)

  function Apply(m: Memory, op: Op): Memory {
    match op
    case Get(file, size, mtime) => AfterGet(m, file, size, mtime)
    case Put(info) => AfterPut(m, info)
    case Remove(file) => m.(entries := m.entries - {file})
    case Prune(root, keep) => AfterPrune(m, root, keep)
    case AddScan(record) => AfterAddScan(m, record)
  }

  function Run(m: Memory, ops: seq<Op>): Memory
    decreases |ops|
  {
    if ops == [] then m else Run(Apply(m, ops[0]), ops[1..])
  }

  /** The records added by a run, oldest first, each with its id. */
  function Added(ops: seq<Op>, firstId: nat): seq<Record>
    decreases |ops|
  {
    if ops == [] then []
    else if ops[0].AddScan? then [ops[0].record["id" := JInt(firstId)]] + Added(ops[1..], firstId + 1)
    else Added(ops[1..], firstId)
  }

  lemma NewestTells<T>(s: seq<T>)
    ensures var newest := Newest(s, SCAN_HISTORY_LIMIT);
            && |newest| == (if |s| <= 500 then |s| else 500)
            && forall i :: 0 <= i < |newest| ==> newest[i] == s[|s| - |newest| + i]
  {}

  lemma NewestOfMore<T>(s: seq<T>, x: T, n: nat)
    ensures Newest(Newest(s, n) + [x], n) == Newest(s + [x], n)
  {}

  lemma AddKeepsConsecutive(m: Memory, record: Record)
    requires Consecutive(m)
    ensures Consecutive(AfterAddScan(m, record))
  {
    var next := AfterAddScan(m, record);
    forall i | 0 <= i < |next.scans|
      ensures "id" in next.scans[i] && next.scans[i]["id"] == JInt(next.nextId - |next.scans| + i)
    {
      var k := i + (|m.scans| + 1 - |next.scans|);
      assert next.scans[i] == (m.scans + [record["id" := JInt(m.nextId)]])[k];
    }
  }

  /** The history holds the newest of the scans added so far. */
  ghost predicate HoldsNewest(m: Memory, added: seq<Record>) {
    m.scans == Newest(added, SCAN_HISTORY_LIMIT) && m.nextId == |added| + 1 && Consecutive(m)
  }

  lemma StepKeepsNewest(m: Memory, added: seq<Record>, op: Op)
    requires HoldsNewest(m, added)
    ensures HoldsNewest(Apply(m, op), if op.AddScan? then added + [op.record["id" := JInt(1 + |added|)]] else added)
  {
    if op.AddScan? {
      AddKeepsConsecutive(m, op.record);
      NewestOfMore(added, op.record["id" := JInt(m.nextId)], SCAN_HISTORY_LIMIT);
    }
  }

  lemma {:induction false} RunKeepsNewest(m: Memory, added: seq<Record>, ops: seq<Op>)
    requires HoldsNewest(m, added)
    ensures HoldsNewest(Run(m, ops), added + Added(ops, |added| + 1))
    decreases |ops|
  {
    if ops == [] {
      assert added + [] == added;
    } else {
      StepKeepsNewest(m, added, ops[0]);
      if ops[0].AddScan? {
        var entry := [ops[0].record["id" := JInt(1 + |added|)]];
        RunKeepsNewest(Apply(m, ops[0]), added + entry, ops[1..]);
        assert added + entry + Added(ops[1..], |added| + 2) == added + (entry + Added(ops[1..], |added| + 2));
      } else {
        RunKeepsNewest(Apply(m, ops[0]), added, ops[1..]);
      }
    }
  }

  /** After any run the history is exactly the newest SCAN_HISTORY_LIMIT of all scans ever added, with consecutive
      ids. */
  lemma HistoryIsNewest(ops: seq<Op>)
    ensures HoldsNewest(Run(EMPTY_MEMORY, ops), Added(ops, 1))
    ensures var scans, added := Run(EMPTY_MEMORY, ops).scans, Added(ops, 1);
            && |scans| == (if |added| <= 500 then |added| else 500)
            && forall i :: 0 <= i < |scans| ==> scans[i] == added[|added| - |scans| + i]
  {
    RunKeepsNewest(EMPTY_MEMORY, [], ops);
    assert [] + Added(ops, 1) == Added(ops, 1);
    NewestTells(Added(ops, 1));
  }

  /** The whole history as it is listed. */
  function NewestFirst(m: Memory): seq<Record> {
    seq(|m.scans|, i requires 0 <= i < |m.scans| => Summarize(m.scans[|m.scans| - 1 - i]))
  }

  /** All pages of n scans from the given offset on. */
  function AllPages(m: Memory, n: nat, from: nat): seq<Record>
    requires n > 0
    decreases |m.scans| - from
  {
    if from >= |m.scans| then [] else Page(m, n, from) + AllPages(m, n, from + n)
  }

  lemma PageAt(m: Memory, n: nat, from: nat)
    requires from <= |m.scans|
    ensures var to := if from + n <= |m.scans| then from + n else |m.scans|;
            Page(m, n, from) == NewestFirst(m)[from..to]
  {}

  lemma CutInTwo<T>(s: seq<T>, from: nat, to: nat)
    requires from <= to <= |s|
    ensures s[from..] == s[from..to] + s[to..] && s[|s|..] == []
  {}

  lemma {:induction false} PagesFrom(m: Memory, n: nat, from: nat)
    requires n > 0 && from <= |m.scans|
    ensures AllPages(m, n, from) == NewestFirst(m)[from..]
    decreases |m.scans| - from
  {
    if from < |m.scans| {
      PageAt(m, n, from);
      if from + n <= |m.scans| {
        PagesFrom(m, n, from + n);
        CutInTwo(NewestFirst(m), from, from + n);
      } else {
        CutInTwo(NewestFirst(m), from, |m.scans|);
      }
    }
  }

  /** Whatever the size of the pages, put together they are the whole history, newest first, without gaps or
      repetitions. */
  lemma PagesPartition(m: Memory, n: nat)
    requires n > 0
    ensures AllPages(m, n, 0) == NewestFirst(m)
  {
    PagesFrom(m, n, 0);
    assert NewestFirst(m)[0..] == NewestFirst(m);
  }

  /** A scan is found under its id exactly while it is among the newest. */
  lemma ScanFound(m: Memory, id: int)
    requires Consecutive(m)
    ensures ScanById(m, id).Some? <==> 1 <= id < m.nextId && m.nextId - id <= SCAN_HISTORY_LIMIT
    ensures ScanById(m, id).Some? ==> "id" in ScanById(m, id).value && ScanById(m, id).value["id"] == JInt(id)
  {}

  // ---------------------------------------------------------------- the store in memory

  class InMemoryStateStore {
    var entries: map<Path, MediaInfo>
    var scans: seq<Record>
    var nextScanId: nat
    var hits: nat
    var misses: nat

    function View(): Memory
      reads this
    {
      Memory(entries, hits, misses, scans, nextScanId)
    }

    constructor ()
      ensures View() == EMPTY_MEMORY
    {
      entries, scans, nextScanId, hits, misses := map[], [], 1, 0, 0;
    }

    method Get(file: Path, size: nat, mtime: int) returns (info: Option<MediaInfo>)
      modifies this
      ensures info == Found(old(View()), file, size, mtime)
      ensures View() == AfterGet(old(View()), file, size, mtime)
      ensures if info.Some? then hits == old(hits) + 1 && misses == old(misses)
              else hits == old(hits) && misses == old(misses) + 1
    {
      if file !in entries {
        assert entries - {file} == entries;
        misses := misses + 1;
        return None;
      }
      var entry := entries[file];
      if entry.size == size && entry.mtime == mtime {
        hits := hits + 1;
        return Some(entry);
      }
      entries := entries - {file};
      misses := misses + 1;
      return None;
    }

    method Put(info: MediaInfo)
      modifies this
      ensures View() == AfterPut(old(View()), info)
    {
      entries := entries[info.filePath := info];
    }

    method Remove(file: Path)
      modifies this
      ensures View() == Apply(old(View()), Op.Remove(file))
      ensures entries == old(entries) - {file}
    {
      entries := entries - {file};
    }

    method Prune(root: Path, keep: set<Path>) returns (pruned: nat)
      modifies this
      ensures pruned == |Stale(old(View()), root, keep)|
      ensures View() == AfterPrune(old(View()), root, keep)
      ensures forall p :: p in entries <==> p in old(entries) && (!Within(p, root) || p in keep)
      ensures (forall p :: p in entries ==> entries[p] == old(entries)[p]) && pruned + |entries| == |old(entries)|
    {
      SplitSize(entries, Stale(View(), root, keep));
      var stale := set p | p in entries && Within(p, root) && p !in keep;
      assert stale == Stale(View(), root, keep);
      pruned := |stale|;
      Forget(stale);
    }

    /** Deletes the entries one by one. */
    method Forget(stale: set<Path>)
      modifies `entries
      ensures entries == old(entries) - stale
    {
      ghost var before := entries;
      var todo := stale;
      while todo != {}
        invariant todo <= stale && entries == before - (stale - todo)
        decreases todo
      {
        var key :| key in todo;
        assert (before - (stale - todo)) - {key} == before - (stale - (todo - {key}));
        entries := entries - {key};
        todo := todo - {key};
      }
      assert stale - {} == stale;
    }

    method AddScan(record: Record) returns (id: nat)
      modifies this
      ensures id == old(View()).nextId && View() == AfterAddScan(old(View()), record)
    {
      id := nextScanId;
      nextScanId := nextScanId + 1;
      scans := scans + [record["id" := JInt(id)]];
      if |scans| > SCAN_HISTORY_LIMIT {
        scans := scans[|scans| - SCAN_HISTORY_LIMIT..];
      }
    }

    method ListScans(limit: nat, offset: nat) returns (page: seq<Record>, total: nat)
      ensures page == Page(View(), limit, offset) && total == |View().scans|
    {
      var newest := [];
      for i := 0 to |scans|
        invariant |newest| == i && forall k :: 0 <= k < i ==> newest[k] == scans[|scans| - 1 - k]
      {
        newest := newest + [scans[|scans| - 1 - i]];
      }
      total, page := |newest|, [];
      for i := 0 to limit
        invariant |page| == if offset >= total then 0 else if offset + i <= total then i else total - offset
        invariant forall k :: 0 <= k < |page| ==> page[k] == Summarize(newest[offset + k])
      {
        if offset + i < total {
          page := page + [Summarize(newest[offset + i])];
        }
      }
    }

    method GetScan(id: nat) returns (record: Option<Record>)
      requires Consecutive(View())
      ensures record == ScanById(View(), id)
    {
      var i := 0;
      while i < |scans|
        invariant 0 <= i <= |scans|
        invariant !(nextScanId - |scans| <= id < nextScanId - |scans| + i)
      {
        if scans[i]["id"] == JInt(id) {
          return Some(scans[i]);
        }
        i := i + 1;
      }
      return None;
    }

    method Count() returns (n: nat)
      ensures n == |View().entries|
    {
      n := |entries|;
    }
  }

  // ---------------------------------------------------------------- the store in a database

  datatype Row = Row(mtime: int, size: nat, tracks: Json)

  function Readable(rows: map<Path, Row>): set<Path> {
    set p | p in rows && DecodeTracks(rows[p].tracks).Some?
  }

  function StaleRows(rows: map<Path, Row>, root: Path, keep: set<Path>): set<Path> {
    set p | p in rows && p !in keep && Within(p, root)
  }

  lemma SubsetSize<T>(a: set<T>, b: set<T>)
    requires a <= b
    ensures |a| == |b| <==> b <= a
  {
    assert b == a + (b - a);
  }

  lemma SplitSize<K, V>(whole: map<K, V>, gone: set<K>)
    requires gone <= whole.Keys
    ensures |whole - gone| + |gone| == |whole|
  {
    assert whole.Keys == (whole - gone).Keys + gone;
    assert |whole.Keys| == |(whole - gone).Keys| + |gone|;
  }

  /** What the rows say; unreadable rows say nothing. */
  function EntriesOf(rows: map<Path, Row>): map<Path, MediaInfo> {
    map p | p in Readable(rows) :: MediaInfo(p, rows[p].size, rows[p].mtime, DecodeTracks(rows[p].tracks).value)
  }

  lemma StaleFacts(rows: map<Path, Row>, m: Memory, root: Path, keep: set<Path>)
    requires m.entries == EntriesOf(rows)
    ensures var rest := rows - StaleRows(rows, root, keep);
            EntriesOf(rest) == m.entries - Stale(m, root, keep) && |StaleRows(rows, root, keep)| + |rest| == |rows|
    ensures |StaleRows(rows, root, keep)| == |Stale(m, root, keep)| <==> StaleRows(rows, root, keep) <= Readable(rows)
  {
    var stale := StaleRows(rows, root, keep);
    SplitSize(rows, stale);
    ReadableStale(rows, m, root, keep);
    SubsetSize(stale * Readable(rows), stale);
    WithoutRow(rows, stale);
  }

  lemma ReadableStale(rows: map<Path, Row>, m: Memory, root: Path, keep: set<Path>)
    requires m.entries == EntriesOf(rows)
    ensures Stale(m, root, keep) == StaleRows(rows, root, keep) * Readable(rows)
    ensures EntriesOf(rows) - StaleRows(rows, root, keep) == m.entries - Stale(m, root, keep)
  {}

  /** The ids up to lastId that are still kept. */
  predicate Kept(id: int, lastId: nat) {
    0 < id <= lastId && lastId - id < SCAN_HISTORY_LIMIT
  }

  function WithId(record: Record, id: int): Record {
    record["id" := JInt(id)]
  }

  class SQLiteStateStore {
    var rows: map<Path, Row>
    var history: map<int, Record>
    var lastId: nat
    var hits: nat
    var misses: nat

    ghost predicate Valid()
      reads this
    {
      forall id :: id in history <==> Kept(id, lastId)
    }

    ghost function View(): Memory
      requires Valid()
      reads this
    {
      Memory(EntriesOf(rows), hits, misses, HistoryOf(history, lastId), lastId + 1)
    }

    constructor ()
      ensures Valid() && View() == EMPTY_MEMORY && rows == map[]
    {
      rows, history, lastId, hits, misses := map[], map[], 0, 0, 0;
    }

    method Get(file: Path, size: nat, mtime: int) returns (info: Option<MediaInfo>)
      requires Valid()
      modifies this
      ensures Valid() && info == Found(old(View()), file, size, mtime)
      ensures View() == AfterGet(old(View()), file, size, mtime)
      ensures if info.Some? then hits == old(hits) + 1 && misses == old(misses)
              else hits == old(hits) && misses == old(misses) + 1
    {
      if file !in rows {
        assert EntriesOf(rows) - {file} == EntriesOf(rows);
        misses := misses + 1;
        return None;
      }
      var row := rows[file];
      if row.mtime == mtime && row.size == size {
        var tracks := DecodeTracks(row.tracks);
        if tracks.Some? {
          hits := hits + 1;
          return Some(MediaInfo(file, size, mtime, tracks.value));
        }
      }
      WithoutRow(rows, {file});
      rows := rows - {file};
      misses := misses + 1;
      return None;
    }

    method Put(info: MediaInfo)
      requires Valid()
      modifies this
      ensures Valid() && View() == AfterPut(old(View()), info)
      ensures Readable(old(rows)) == old(rows).Keys ==> Readable(rows) == rows.Keys
    {
      TracksRoundTrip(info.tracks);
      WithRow(rows, info);
      rows := rows[info.filePath := Row(info.mtime, info.size, EncodeTracks(info.tracks))];
    }

    method Remove(file: Path)
      requires Valid()
      modifies this
      ensures Valid() && View() == Apply(old(View()), Op.Remove(file))
      ensures rows == old(rows) - {file}
    {
      WithoutRow(rows, {file});
      rows := rows - {file};
    }

    /** Counts unreadable rows as well: the answer is that of the store in memory exactly if all stale rows are
        readable. */
    method Prune(root: Path, keep: set<Path>) returns (pruned: nat)
      requires Valid()
      modifies this
      ensures Valid() && View() == AfterPrune(old(View()), root, keep)
      ensures pruned == |StaleRows(old(rows), root, keep)|
      ensures pruned == |Stale(old(View()), root, keep)| <==> StaleRows(old(rows), root, keep) <= Readable(old(rows))
      ensures forall p :: p in rows <==> p in old(rows) && (!Within(p, root) || p in keep)
      ensures (forall p :: p in rows ==> rows[p] == old(rows)[p]) && pruned + |rows| == |old(rows)|
    {
      StaleFacts(rows, View(), root, keep);
      var stale := set p | p in rows && p !in keep && Within(p, root);
      assert stale == StaleRows(rows, root, keep);
      pruned := |stale|;
      rows := rows - stale;
    }

    method AddScan(record: Record) returns (id: nat)
      requires Valid()
      modifies this
      ensures Valid() && id == old(View()).nextId && View() == AfterAddScan(old(View()), record)
    {
      id := lastId + 1;
      ghost var before, last := history, lastId;
      history := history[id := record];
      lastId := id;
      history := map i | i in history && !(i <= id - SCAN_HISTORY_LIMIT) :: history[i];
      HistoryGrows(before, last, record, history);
    }

    method ListScans(limit: nat, offset: nat) returns (page: seq<Record>, total: nat)
      requires Valid()
      ensures page == Page(View(), limit, offset) && total == |View().scans|
    {
      var n := if lastId <= SCAN_HISTORY_LIMIT then lastId else SCAN_HISTORY_LIMIT;
      ghost var newest := PageOf(HistoryOf(history, lastId), limit, offset);
      var records: seq<Record> := [];
      // ORDER BY id DESC LIMIT limit OFFSET offset
      while |records| < limit && offset + |records| < n
        invariant |records| <= |newest| && records == newest[..|records|]
        decreases n - |records|
      {
        var id := lastId - offset - |records|;
        assert Kept(id, lastId);
        records := records + [WithId(history[id], id)];
      }
      assert records == newest;
      return SummarizeAll(records), n;
    }

    method GetScan(id: int) returns (record: Option<Record>)
      requires Valid()
      ensures record == ScanById(View(), id)
    {
      return if id in history then Some(WithId(history[id], id)) else None;
    }

    method Count() returns (n: nat)
      requires Valid()
      ensures n == |rows| && (n == |View().entries| <==> rows.Keys <= Readable(rows))
    {
      assert EntriesOf(rows).Keys == Readable(rows);
      SubsetSize(Readable(rows), rows.Keys);
      n := |rows.Keys|;
    }
  }

  lemma WithoutRow(rows: map<Path, Row>, gone: set<Path>)
    ensures EntriesOf(rows - gone) == EntriesOf(rows) - gone
  {}

  lemma WithRow(rows: map<Path, Row>, info: MediaInfo)
    requires DecodeTracks(EncodeTracks(info.tracks)) == Some(info.tracks)
    ensures var row := Row(info.mtime, info.size, EncodeTracks(info.tracks));
            EntriesOf(rows[info.filePath := row]) == EntriesOf(rows)[info.filePath := info]
  {}

  /** The history, oldest first, each record with its id. */
  function HistoryOf(history: map<int, Record>, lastId: nat): seq<Record>
    requires forall id :: id in history <==> Kept(id, lastId)
  {
    var n := if lastId <= SCAN_HISTORY_LIMIT then lastId else SCAN_HISTORY_LIMIT;
    seq(n, i requires 0 <= i < n =>
      assert Kept(lastId - n + 1 + i, lastId);
      WithId(history[lastId - n + 1 + i], lastId - n + 1 + i))
  }

  lemma HistoryGrows(before: map<int, Record>, lastId: nat, record: Record, after: map<int, Record>)
    requires forall id :: id in before <==> Kept(id, lastId)
    requires forall id :: id in after <==> Kept(id, lastId + 1)
    requires forall id :: id in after && id <= lastId ==> id in before && after[id] == before[id]
    requires lastId + 1 in after && after[lastId + 1] == record
    ensures HistoryOf(after, lastId + 1) ==
            Newest(HistoryOf(before, lastId) + [WithId(record, lastId + 1)], SCAN_HISTORY_LIMIT)
  {
    var grown, all := HistoryOf(after, lastId + 1), HistoryOf(before, lastId) + [WithId(record, lastId + 1)];
    forall i | 0 <= i < |grown|
      ensures grown[i] == Newest(all, SCAN_HISTORY_LIMIT)[i]
    {
      var id := lastId + 1 - |grown| + 1 + i;
      assert Kept(id, lastId + 1) && grown[i] == WithId(after[id], id);
      if id <= lastId {
        assert Kept(id, lastId);
      }
    }
  }
}
