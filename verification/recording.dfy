/** One recording (mediamtx_recording.go): the manifest and how it moves, and the
    segments that the native recorder left behind. Times are integers. */
module Recordings {
  import opened Basics

  datatype State = WaitingKeyframe | Active | Stopping | Completed | Failed

  datatype Reason =
    | NoReason
    | Requested(text: nat)          // what the caller of requestStop gives
    | DisableFailed
    | ScanFailed
    | NeverFinalized
    | NoSegment
    | PersistFailed

  datatype EndReason = SegmentDuration | RecordingStopped

  datatype Segment = Segment(index: nat, name: int, startedAt: int, endedAt: int, bytes: nat, endReason: EndReason)

  datatype Manifest = Manifest(state: State, createdAt: int, reason: Reason, segments: seq<Segment>, bytes: nat)

  /** A directory entry; `video` is whether it is a regular `.mp4` file that can be
      inspected. Names are numbers in their lexical order. */
  datatype Entry = Entry(name: int, video: bool, modified: int, size: nat)

  // ----- what a scan yields

  predicate SortedByName(files: seq<Entry>) {
    forall i, j :: 0 <= i < j < |files| ==> files[i].name <= files[j].name
  }

  function KeepVideo(e: Entry): seq<Entry> {
    if e.video then [e] else []
  }

  function Videos(entries: seq<Entry>): seq<Entry> {
    if entries == [] then [] else Videos(entries[..|entries| - 1]) + KeepVideo(entries[|entries| - 1])
  }

  function StartOf(segments: seq<Segment>, createdAt: int, i: nat): int
    requires i <= |segments|
  {
    if i == 0 then createdAt else segments[i - 1].endedAt
  }

  ghost predicate InPlace(segments: seq<Segment>, createdAt: int, i: nat)
    requires i < |segments|
  {
    segments[i].index == i + 1 && segments[i].startedAt == StartOf(segments, createdAt, i)
  }

  /** The segments are numbered from 1, each begins where the one before ended and the
      first at the creation; only the last ended because the recording stopped. */
  ghost predicate Contiguous(segments: seq<Segment>, createdAt: int) {
    && (forall i :: 0 <= i < |segments| ==> InPlace(segments, createdAt, i))
    && forall i :: 0 <= i < |segments| ==> (segments[i].endReason.RecordingStopped? <==> i == |segments| - 1)
  }

  predicate Describes(s: Segment, e: Entry) {
    s.name == e.name && s.endedAt == e.modified && s.bytes == e.size
  }

  /** The videos are the entries that are, as often as they occur. */
  lemma {:induction false} VideosExactly(entries: seq<Entry>, e: Entry)
    ensures multiset(Videos(entries))[e] == if e.video then multiset(entries)[e] else 0
  {
    if entries != [] {
      var last := |entries| - 1;
      VideosExactly(entries[..last], e);
      assert entries == entries[..last] + [entries[last]];
    }
  }

  /** The segments are exactly the video files, in the order of their names. */
  ghost predicate Lists(segments: seq<Segment>, entries: seq<Entry>) {
    exists files :: SortedFiles(files, entries) && Describe(segments, files)
  }

  ghost predicate SortedFiles(files: seq<Entry>, entries: seq<Entry>) {
    SortedByName(files) && forall e :: multiset(files)[e] == if e.video then multiset(entries)[e] else 0
  }

  ghost predicate Describe(segments: seq<Segment>, files: seq<Entry>) {
    |segments| == |files| && forall i :: 0 <= i < |files| ==> Describes(segments[i], files[i])
  }

  function Bytes(segments: seq<Segment>): nat {
    if segments == [] then 0 else Bytes(segments[..|segments| - 1]) + segments[|segments| - 1].bytes
  }

  function Duration(segments: seq<Segment>): int {
    if segments == [] then 0
    else Duration(segments[..|segments| - 1]) + segments[|segments| - 1].endedAt - segments[|segments| - 1].startedAt
  }

  /** The size of a recording is that of its segments, however they are put together. */
  lemma {:induction false} BytesAddUp(a: seq<Segment>, b: seq<Segment>)
    ensures Bytes(a + b) == Bytes(a) + Bytes(b)
    ensures |a| == 1 ==> Bytes(a) == a[0].bytes
  {
    if |a| == 1 {
      assert a[..0] == [];
    }
    if b == [] {
      assert a + b == a;
    } else {
      BytesAddUp(a, b[..|b| - 1]);
      assert (a + b)[..|a + b| - 1] == a + b[..|b| - 1];
    }
  }

  lemma {:induction false} ContiguousPrefix(segments: seq<Segment>, createdAt: int, n: nat)
    requires n <= |segments|
    requires forall i :: 0 <= i < |segments| ==> InPlace(segments, createdAt, i)
    ensures Duration(segments[..n]) == StartOf(segments, createdAt, n) - createdAt
  {
    if n == 0 {
      assert segments[..n] == [];
    } else {
      ContiguousPrefix(segments, createdAt, n - 1);
      assert InPlace(segments, createdAt, n - 1);
      assert segments[..n][..n - 1] == segments[..n - 1];
    }
  }

  /** Together the segments last from the creation to the end of the last one. */
  lemma DurationsAddUp(segments: seq<Segment>, createdAt: int)
    requires Contiguous(segments, createdAt) && segments != []
    ensures Duration(segments) == segments[|segments| - 1].endedAt - createdAt
  {
    ContiguousPrefix(segments, createdAt, |segments|);
    assert segments[..|segments|] == segments;
  }

  method SortByName(files: seq<Entry>) returns (sorted: seq<Entry>)
    ensures SortedByName(sorted) && multiset(sorted) == multiset(files)
  {
    sorted := [];
    for i := 0 to |files|
      invariant SortedByName(sorted) && multiset(sorted) == multiset(files[..i])
    {
      assert files[..i + 1] == files[..i] + [files[i]];
      sorted := Insert(sorted, files[i]);
    }
    assert files[..|files|] == files;
  }

  method Insert(files: seq<Entry>, e: Entry) returns (r: seq<Entry>)
    requires SortedByName(files)
    ensures SortedByName(r) && multiset(r) == multiset(files) + multiset{e}
  {
    var at := |files|;
    while at > 0 && files[at - 1].name > e.name
      invariant 0 <= at <= |files|
      invariant forall k :: at <= k < |files| ==> files[k].name > e.name
    {
      at := at - 1;
    }
    r := files[..at] + [e] + files[at..];
    InsertedElements(files, at, e);
  }

  lemma InsertedElements(files: seq<Entry>, at: nat, e: Entry)
    requires at <= |files|
    ensures multiset(files[..at] + [e] + files[at..]) == multiset(files) + multiset{e}
  {
    assert files == files[..at] + files[at..];
  }

  /** Lists the segments of a directory. */
  method ScanSegments(directory: Result<seq<Entry>, Reason>, createdAt: int) returns (r: Result<seq<Segment>, Reason>)
    ensures directory.Err? ==> r == Err(ScanFailed)
    ensures directory.Ok? ==> r.Ok? && Contiguous(r.value, createdAt) && Lists(r.value, directory.value)
  {
    if directory.Err? {
      return Err(ScanFailed);
    }
    var entries := directory.value;
    var files: seq<Entry> := [];
    for i := 0 to |entries|
      invariant files == Videos(entries[..i])
    {
      assert entries[..i + 1][..i] == entries[..i];
      if entries[i].video {
        files := files + [entries[i]];
      }
    }
    assert entries[..|entries|] == entries;
    files := SortByName(files);
    forall e ensures multiset(files)[e] == if e.video then multiset(entries)[e] else 0 {
      VideosExactly(entries, e);
    }
    var segments := Number(files, createdAt);
    assert SortedFiles(files, entries) && Describe(segments, files);
    return Ok(segments);
  }

  method Number(files: seq<Entry>, createdAt: int) returns (segments: seq<Segment>)
    ensures Contiguous(segments, createdAt) && Describe(segments, files)
  {
    segments := [];
    var started := createdAt;
    for i := 0 to |files|
      invariant |segments| == i && started == StartOf(segments, createdAt, i)
      invariant forall k :: 0 <= k < i ==> InPlace(segments, createdAt, k)
      invariant forall k :: 0 <= k < i ==> segments[k].endReason.SegmentDuration? && Describes(segments[k], files[k])
    {
      ghost var before := segments;
      segments := segments + [Segment(i + 1, files[i].name, started, files[i].modified, files[i].size, SegmentDuration)];
      started := files[i].modified;
      StillInPlace(before, segments, createdAt, i);
    }
    if |segments| > 0 {
      var last := |segments| - 1;
      ghost var before := segments;
      segments := segments[last := segments[last].(endReason := RecordingStopped)];
      StillInPlace(before, segments, createdAt, |segments|);
    }
  }

  predicate SameTimes(a: Segment, b: Segment) {
    a.index == b.index && a.startedAt == b.startedAt && a.endedAt == b.endedAt
  }

  lemma StillInPlace(before: seq<Segment>, after: seq<Segment>, createdAt: int, n: nat)
    requires n <= |before| && n <= |after|
    requires forall k :: 0 <= k < n ==> SameTimes(before[k], after[k])
    requires forall k :: 0 <= k < n ==> InPlace(before, createdAt, k)
    ensures forall k :: 0 <= k < n ==> InPlace(after, createdAt, k)
    ensures StartOf(after, createdAt, n) == StartOf(before, createdAt, n)
  {
    forall k | 0 <= k < n ensures InPlace(after, createdAt, k) {
      assert InPlace(before, createdAt, k);
      if k > 0 {
        assert SameTimes(before[k - 1], after[k - 1]);
      }
    }
    if n > 0 {
      assert SameTimes(before[n - 1], after[n - 1]);
    }
  }

  // ----- waiting for the files to settle

  type Scan = Result<seq<Segment>, Reason>

  /** The third observation of the same segments in a row. */
  ghost predicate Settled(observe: nat -> Scan, i: nat) {
    i >= 2 && observe(i).Ok? && observe(i).value != [] && observe(i - 1) == observe(i) && observe(i - 2) == observe(i)
  }

  /** Waiting ends with observation i. */
  ghost predicate Ends(observe: nat -> Scan, i: nat, deadline: nat) {
    observe(i).Err? || Settled(observe, i) || i == deadline
  }

  /** How many observations in a row, up to i, are those segments. */
  function InARow(observe: nat -> Scan, i: nat): nat {
    if i > 0 && observe(i).Ok? && observe(i).value != [] && observe(i - 1) == observe(i) then InARow(observe, i - 1) + 1 else 1
  }

  lemma InARowSettles(observe: nat -> Scan, i: nat)
    ensures InARow(observe, i) >= 3 <==> Settled(observe, i)
  {
    if i > 0 {
      assert InARow(observe, i - 1) >= 1;
    }
  }

  /** Observes until nothing changes any more, or until the deadline passes after the
      observation with that number. */
  method WaitForFinalizedSegments(observe: nat -> Scan, deadline: nat) returns (r: Scan, ghost last: nat)
    ensures last <= deadline && Ends(observe, last, deadline)
    ensures forall i :: 0 <= i < last ==> !Ends(observe, i, deadline)
    ensures observe(last).Err? ==> r == observe(last)
    ensures observe(last).Ok? && observe(last).value != [] ==> r == observe(last)
    ensures observe(last) == Ok([]) ==> r == Err(NeverFinalized)
    ensures r.Ok? ==> r.value != []
  {
    var i, stable := 0, 0;
    var previous: seq<Segment> := [];
    while true
      invariant i <= deadline
      invariant forall k :: 0 <= k < i ==> !Ends(observe, k, deadline)
      invariant i == 0 ==> previous == []
      invariant i > 0 ==> observe(i - 1) == Ok(previous) && stable == InARow(observe, i - 1)
      decreases deadline - i
    {
      var scan := observe(i);
      if scan.Err? {
        return scan, i;
      }
      if scan.value != [] && scan.value == previous {
        stable := stable + 1;
      } else {
        previous := scan.value;
        stable := 1;
      }
      InARowSettles(observe, i);
      if stable >= 3 {
        return scan, i;
      }
      if i == deadline {
        return if scan.value != [] then scan else Err(NeverFinalized), i;
      }
      i := i + 1;
    }
  }

  // ----- the manifest

  /** How far a state is; it only ever grows. */
  function Rank(s: State): nat {
    match s
    case WaitingKeyframe => 0
    case Active => 1
    case Stopping => 2
    case Completed => 3
    case Failed => 4
  }

  function New(createdAt: int): Manifest {
    Manifest(WaitingKeyframe, createdAt, NoReason, [], 0)
  }

  function Note(m: Manifest, reason: Reason): Manifest {
    if m.reason.NoReason? then m.(reason := reason) else m
  }

  function MarkedActive(m: Manifest): Manifest {
    if m.state.WaitingKeyframe? then m.(state := Active) else m
  }

  function Stopped(m: Manifest): Manifest {
    m.(state := Stopping)
  }

  function AfterDisable(m: Manifest, ok: bool): Manifest {
    if ok then m else m.(reason := DisableFailed)
  }

  function AfterScan(m: Manifest, scan: Scan): Manifest {
    if scan.Err? then Note(m, scan.error) else m
  }

  function SegmentsOf(scan: Scan): seq<Segment> {
    if scan.Ok? then scan.value else []
  }

  function Finished(m: Manifest, scan: Scan): Manifest {
    var segments := SegmentsOf(scan);
    var reason := if segments == [] && m.reason.NoReason? then NoSegment else m.reason;
    m.(segments := segments, bytes := Bytes(segments), reason := reason,
       state := if reason.NoReason? then Completed else Failed)
  }

  function AfterPersist(m: Manifest, ok: bool): Manifest {
    if ok then m else Note(m.(state := Failed), PersistFailed)
  }

  /** What a completed recording promises. */
  ghost predicate Complete(m: Manifest) {
    && m.segments != []
    && Contiguous(m.segments, m.createdAt)
    && m.bytes == Bytes(m.segments)
  }

  ghost predicate ScanOk(scan: Scan, createdAt: int) {
    scan.Ok? ==> Contiguous(scan.value, createdAt)
  }

  /** The manifest with its fields updated in place. */
  class Recording {
    const createdAt: int
    var state: State
    var reason: Reason
    var segments: seq<Segment>
    var bytes: nat
    var stopRequested: bool

    function View(): Manifest
      reads this
    {
      Manifest(state, createdAt, reason, segments, bytes)
    }

    constructor (createdAt: int)
      ensures View() == New(createdAt) && !stopRequested
    {
      this.createdAt := createdAt;
      state, reason, segments, bytes, stopRequested := WaitingKeyframe, NoReason, [], 0, false;
    }

    /** Whether this request is the one that begins finalization. */
    method RequestStop(failure: Reason) returns (begins: bool)
      requires failure.NoReason? || failure.Requested?
      modifies this`reason, this`stopRequested
      ensures View() == if failure.NoReason? then old(View()) else Note(old(View()), failure)
      ensures begins == !old(stopRequested) && stopRequested
    {
      if failure != NoReason {
        if reason == NoReason {
          reason := failure;
        }
      }
      begins := !stopRequested;
      stopRequested := true;
    }

    method MarkActive()
      modifies this`state
      ensures View() == MarkedActive(old(View()))
      ensures state == if old(state).WaitingKeyframe? then Active else old(state)
    {
      if state == WaitingKeyframe {
        state := Active;
      }
    }

    method Stop()
      modifies this`state
      ensures View() == Stopped(old(View()))
    {
      state := Stopping;
    }

    method TakeDisableReply(ok: bool)
      modifies this`reason
      ensures View() == AfterDisable(old(View()), ok)
    {
      if !ok {
        reason := DisableFailed;
      }
    }

    method TakeScan(scan: Scan)
      modifies this`reason
      ensures View() == AfterScan(old(View()), scan)
    {
      if scan.Err? && reason == NoReason {
        reason := scan.error;
      }
    }

    method Finish(scan: Scan)
      modifies this`segments, this`bytes, this`reason, this`state
      ensures View() == Finished(old(View()), scan)
    {
      segments := SegmentsOf(scan);
      bytes := 0;
      for i := 0 to |segments|
        invariant segments == SegmentsOf(scan)
        invariant bytes == Bytes(segments[..i])
        invariant reason == old(reason)
      {
        assert segments[..i + 1][..i] == segments[..i];
        bytes := bytes + segments[i].bytes;
      }
      assert segments[..|segments|] == segments;
      if segments == [] && reason == NoReason {
        reason := NoSegment;
      }
      state := if reason == NoReason then Completed else Failed;
    }

    method TakePersistReply(ok: bool)
      modifies this`state, this`reason
      ensures View() == AfterPersist(old(View()), ok)
    {
      if !ok {
        state := Failed;
        if reason == NoReason {
          reason := PersistFailed;
        }
      }
    }

    // ----- the whole finalization

    /** finalize. A recording completes exactly when no failure was noted before, its
        disable call succeeded, its files were found and its manifest was written; what it
        promises then is in `Complete`. In every other case it fails with a reason. */
    method Finalize(disableOk: bool, scan: Scan, persistOk: bool)
      requires ScanOk(scan, createdAt) && (scan.Err? ==> scan.error != NoReason)
      modifies this
      ensures state.Completed? <==> old(reason).NoReason? && disableOk && scan.Ok? && scan.value != [] && persistOk
      ensures state.Completed? ==> Complete(View()) && reason.NoReason?
      ensures !state.Completed? ==> state.Failed? && !reason.NoReason?
      ensures segments == SegmentsOf(scan) && bytes == Bytes(segments)
      ensures reason == if !disableOk then DisableFailed
                        else if !old(reason).NoReason? then old(reason)
                        else if scan.Err? then scan.error
                        else if scan.value == [] then NoSegment
                        else if !persistOk then PersistFailed
                        else NoReason
    {
      Stop();
      TakeDisableReply(disableOk);
      TakeScan(scan);
      Finish(scan);
      TakePersistReply(persistOk);
    }
  }
}
