/**
 Serving a byte range of a Telegram file: the plan of `upload.getFile` requests that covers the range, and
 the sequential stream that carries it out.
 */
module ChunkPlan {
  import opened Collections

  type Byte = bv8

  const ALIGNMENT := 1024
  const WINDOW := 1024 * 1024

  datatype Job = Job(index: nat, offset: int, limit: int, skip: int, take: int) {
    /** The first and the last file position that the job delivers. */
    function First(): int { offset + skip }
    function Last(): int { offset + skip + take - 1 }
  }

  function AlignDown(value: int, alignment: int): int {
    if alignment <= 0 then value else value - value % alignment
  }

  function AlignUp(value: int, alignment: int): int {
    if alignment <= 0 || value % alignment == 0 then value else value + alignment - value % alignment
  }

  /** The k-th job in closed form: the part of [start, end] inside the k-th window that it touches. */
  ghost predicate IsJob(start: int, end: int, k: nat, job: Job) {
    && Spans(start, end, k, job)
    && job.index == k
    && job.skip == job.First() % ALIGNMENT
    && job.limit == AlignUp(job.skip + job.take, ALIGNMENT)
  }

  ghost predicate Spans(start: int, end: int, k: nat, job: Job) {
    var w := start / WINDOW + k;
    && job.First() == (if k == 0 then start else w * WINDOW)
    && job.Last() == (if w == end / WINDOW then end else w * WINDOW + WINDOW - 1)
  }

  ghost predicate Planned(start: int, end: int, jobs: seq<Job>) {
    && |jobs| == end / WINDOW - start / WINDOW + 1
    && forall k :: 0 <= k < |jobs| ==> IsJob(start, end, k, jobs[k])
  }

  /** What `upload.getFile` demands of a precise request, and what the slicing of its answer relies on. */
  ghost predicate Admissible(job: Job) {
    && job.offset >= 0 && job.offset % ALIGNMENT == 0
    && 0 < job.limit <= WINDOW && job.limit % ALIGNMENT == 0
    && job.offset / WINDOW == (job.offset + job.limit - 1) / WINDOW
    && 0 <= job.skip < ALIGNMENT && 0 < job.take && job.skip + job.take <= job.limit
    && job.limit < job.skip + job.take + ALIGNMENT
  }

  lemma WindowOf(x: int, w: int)
    requires w * WINDOW <= x < w * WINDOW + WINDOW
    ensures x / WINDOW == w
  {
  }

  lemma AlignedNeighbours(x: int)
    ensures AlignDown(x, ALIGNMENT) == ALIGNMENT * (x / ALIGNMENT) <= x
    ensures x < AlignUp(x + 1, ALIGNMENT) == ALIGNMENT * (x / ALIGNMENT) + ALIGNMENT
  {
  }

  lemma AlignedInside(x: int, w: int)
    requires w * WINDOW <= x < w * WINDOW + WINDOW
    ensures w * WINDOW <= AlignDown(x, ALIGNMENT) <= x
    ensures x < AlignUp(x + 1, ALIGNMENT) <= w * WINDOW + WINDOW
    ensures AlignDown(x, ALIGNMENT) % ALIGNMENT == 0 == AlignUp(x + 1, ALIGNMENT) % ALIGNMENT
  {
    AlignedNeighbours(x);
    hide AlignDown, AlignUp;
    var q := x / ALIGNMENT;
    assert w * WINDOW == ALIGNMENT * (ALIGNMENT * w);
    assert ALIGNMENT * w <= q < ALIGNMENT * w + ALIGNMENT;
  }

  function Min(a: int, b: int): int {
    if a < b then a else b
  }

  /** Where the k-th job begins. */
  ghost function Begins(start: int, k: nat): int {
    if k == 0 then start else (start / WINDOW + k) * WINDOW
  }

  /** Before the k-th round of the planning loop, and once the range is exhausted. */
  ghost predicate Reached(start: int, end: int, k: nat, next: int) {
    var last := end / WINDOW - start / WINDOW;
    if k <= last then next == Begins(start, k) <= end else k == last + 1 && next == end + 1
  }

  lemma WindowsReached(start: int, end: int, k: nat, next: int)
    requires 0 <= start <= end && Reached(start, end, k, next)
    ensures next <= end <==> k <= end / WINDOW - start / WINDOW
    ensures next <= end ==> next / WINDOW == start / WINDOW + k
    ensures next <= end && k + 1 <= end / WINDOW - start / WINDOW ==> (start / WINDOW + k + 1) * WINDOW <= end
  {
  }

  /** What one round of the loop computes. */
  ghost predicate Round(end: int, k: nat, next: int, job: Job, reqEnd: int) {
    var fragmentStart := next / WINDOW * WINDOW;
    var needEnd := Min(end, fragmentStart + WINDOW - 1);
    && reqEnd == Min(AlignUp(needEnd + 1, ALIGNMENT), fragmentStart + WINDOW)
    && job == Job(k, AlignDown(next, ALIGNMENT), reqEnd - AlignDown(next, ALIGNMENT),
                  next - AlignDown(next, ALIGNMENT), needEnd - next + 1)
  }

  lemma RoundShape(end: int, k: nat, next: int, job: Job, reqEnd: int)
    requires Round(end, k, next, job, reqEnd) && next <= end
    ensures job.limit == reqEnd - job.offset && job.index == k && job.Last() <= end
  {
  }

  lemma LaterWindow(w: int, end: int)
    ensures w < end / WINDOW ==> w * WINDOW + WINDOW <= end
    ensures w == end / WINDOW ==> w * WINDOW <= end < w * WINDOW + WINDOW
  {
  }

  lemma RoundStaysInWindow(start: int, end: int, k: nat, next: int, job: Job, reqEnd: int)
    requires 0 <= start <= end && Reached(start, end, k, next) && next <= end && Round(end, k, next, job, reqEnd)
    ensures var w := start / WINDOW + k;
            && w * WINDOW <= next == job.First() <= job.Last() < w * WINDOW + WINDOW
            && job.Last() == (if w == end / WINDOW then end else w * WINDOW + WINDOW - 1)
            && reqEnd == AlignUp(job.Last() + 1, ALIGNMENT) <= w * WINDOW + WINDOW
            && next < reqEnd && w * WINDOW <= job.offset && 0 <= job.skip < ALIGNMENT
            && job.offset % ALIGNMENT == 0 == reqEnd % ALIGNMENT
  {
    WindowsReached(start, end, k, next);
    hide AlignUp, AlignDown;
    var w := start / WINDOW + k;
    WindowOf(next, w);
    LaterWindow(w, end);
    AlignedInside(next, w);
    AlignedInside(job.Last(), w);
  }

  /** One round: the job is the planned one and meets the server's demands, and every number stays near `end`. */
  lemma JobStep(start: int, end: int, k: nat, next: int, job: Job, reqEnd: int)
    requires 0 <= start <= end && Reached(start, end, k, next) && next <= end && Round(end, k, next, job, reqEnd)
    ensures IsJob(start, end, k, job) && Admissible(job)
    ensures Reached(start, end, k + 1, job.Last() + 1)
    ensures reqEnd <= end + ALIGNMENT
  {
    hide Round, Reached, Admissible, IsJob, AlignUp;
    RoundStaysInWindow(start, end, k, next, job, reqEnd);
    RoundShape(end, k, next, job, reqEnd);
    ShiftedAlign(job.offset, job.skip + job.take);
    ShiftedAlign(0, job.Last() + 1);
    JobIsAdmissible(start / WINDOW + k, job);
    JobIsPlanned(start, end, k, next, job);
  }

  lemma JobIsAdmissible(w: int, job: Job)
    requires 0 <= w * WINDOW <= job.offset && job.offset % ALIGNMENT == 0 && 0 <= job.skip < ALIGNMENT && 0 < job.take
    requires job.limit == AlignUp(job.skip + job.take, ALIGNMENT) && job.offset + job.limit <= w * WINDOW + WINDOW
    ensures Admissible(job)
  {
    ShiftedAlign(job.offset, job.skip + job.take);
    hide AlignUp;
    WindowOf(job.offset, w);
    WindowOf(job.offset + job.limit - 1, w);
  }

  lemma JobIsPlanned(start: int, end: int, k: nat, next: int, job: Job)
    requires 0 <= start <= end && Reached(start, end, k, next) && next <= end
    requires job.index == k && job.First() == next && 0 <= job.skip < ALIGNMENT && job.offset % ALIGNMENT == 0
    requires var w := start / WINDOW + k; job.Last() == (if w == end / WINDOW then end else w * WINDOW + WINDOW - 1)
    requires job.limit == AlignUp(job.skip + job.take, ALIGNMENT)
    ensures IsJob(start, end, k, job) && Reached(start, end, k + 1, job.Last() + 1)
  {
    hide AlignUp;
    assert job.First() % ALIGNMENT == job.skip;
    ReachedNext(start, end, k, next);
  }

  lemma ReachedNext(start: int, end: int, k: nat, next: int)
    requires 0 <= start <= end && Reached(start, end, k, next) && next <= end
    ensures var w := start / WINDOW + k;
            Reached(start, end, k + 1, (if w == end / WINDOW then end else w * WINDOW + WINDOW - 1) + 1)
  {
    WindowsReached(start, end, k, next);
  }

  lemma ShiftedAlign(offset: int, n: int)
    requires offset % ALIGNMENT == 0
    ensures AlignUp(offset + n, ALIGNMENT) - offset == AlignUp(n, ALIGNMENT)
    ensures AlignUp(n, ALIGNMENT) % ALIGNMENT == 0 && n <= AlignUp(n, ALIGNMENT) < n + ALIGNMENT
  {
    var q := offset / ALIGNMENT;
    assert offset == ALIGNMENT * q;
    assert (ALIGNMENT * q + n) % ALIGNMENT == n % ALIGNMENT;
  }

  /**
   `buildDownloadChunkJobs`: one job for each window the range touches. Any number the code computes on the way
   is at most `end` plus one window, so no int64 overflow happens below that distance from the maximum.
   */
  method BuildJobs(start: int, end: int) returns (jobs: seq<Job>)
    requires 0 <= start || end < start
    ensures end < start ==> jobs == []
    ensures start <= end ==> Planned(start, end, jobs)
    ensures forall k :: 0 <= k < |jobs| ==> Admissible(jobs[k])
  {
    jobs := [];
    if end < start {
      return;
    }
    var next, index := start, 0;
    while next <= end
      invariant 0 <= start <= next && index == |jobs| && Reached(start, end, index, next)
      invariant forall k :: 0 <= k < index ==> IsJob(start, end, k, jobs[k]) && Admissible(jobs[k])
      decreases end - next
    {
      hide IsJob, Admissible, Reached;
      var fragmentStart := next / WINDOW * WINDOW;
      var fragmentEnd := fragmentStart + WINDOW - 1;
      var needStart := next;
      var needEnd := Min(end, fragmentEnd);
      var reqOffset := AlignDown(needStart, ALIGNMENT);
      var reqEnd := AlignUp(needEnd + 1, ALIGNMENT);
      var fragmentLimit := fragmentStart + WINDOW;
      if reqEnd > fragmentLimit {
        reqEnd := fragmentLimit;
      }
      var job := Job(index, reqOffset, reqEnd - reqOffset, needStart - reqOffset, needEnd - needStart + 1);
      JobStep(start, end, index, next, job, reqEnd);
      jobs := jobs + [job];
      next := needEnd + 1;
      index := index + 1;
    }
    WindowsReached(start, end, index, next);
  }

  /** The plan covers the range from its first to its last byte, each job resuming where the one before it ended. */
  lemma PlanIsContiguous(start: int, end: int, jobs: seq<Job>, k: nat)
    requires 0 <= start <= end && Planned(start, end, jobs) && k < |jobs|
    ensures jobs[0].First() == start && jobs[|jobs| - 1].Last() == end
    ensures k + 1 < |jobs| ==> jobs[k + 1].First() == jobs[k].Last() + 1
    ensures start <= jobs[k].First() <= jobs[k].Last() <= end
  {
    var last := |jobs| - 1;
    assert IsJob(start, end, 0, jobs[0]) && IsJob(start, end, last, jobs[last]) && IsJob(start, end, k, jobs[k]);
    assert k < last ==> IsJob(start, end, k + 1, jobs[k + 1]);
    SpanBounds(start, end, k, jobs[k]);
    if k < last {
      SpansMeet(start, end, k, jobs[k], jobs[k + 1]);
    }
  }

  lemma SpansMeet(start: int, end: int, k: nat, job: Job, next: Job)
    requires k + 1 <= end / WINDOW - start / WINDOW && Spans(start, end, k, job) && Spans(start, end, k + 1, next)
    ensures next.First() == job.Last() + 1
  {
  }

  lemma SpanBounds(start: int, end: int, k: nat, job: Job)
    requires 0 <= start <= end && k <= end / WINDOW - start / WINDOW && Spans(start, end, k, job)
    ensures start <= job.First() <= job.Last() <= end
  {
  }

  // ---- carrying the plan out ----

  /** What a file answers to a request: the bytes from `offset`, at most `limit` of them. */
  function Served(file: seq<Byte>, offset: nat, limit: nat): seq<Byte> {
    if offset >= |file| then [] else if offset + limit > |file| then file[offset..] else file[offset..offset + limit]
  }

  /** `n` bytes of the file from `start` on. */
  function Piece(file: seq<Byte>, start: int, n: nat): seq<Byte>
    requires n == 0 || 0 <= start <= start + n <= |file|
  {
    if n == 0 then [] else file[start..start + n]
  }

  datatype Fetched = Data(bytes: seq<Byte>) | FetchFailed

  /** Telegram's side. An answer may be cut short; the bytes it does hold are those of the file. */
  class Server {
    const file: seq<Byte>
    ghost var trouble: bool  // a request has failed, or its answer was cut short

    constructor (file: seq<Byte>)
      ensures this.file == file && !trouble
    {
      this.file, trouble := file, false;
    }

    method FetchChunk(offset: nat, limit: nat) returns (r: Fetched)
      modifies this`trouble
      ensures r.Data? ==> r.bytes <= Served(file, offset, limit)
      ensures trouble == (old(trouble) || r != Data(Served(file, offset, limit)))
    {
      var ok: bool := *;
      var all := Served(file, offset, limit);
      var n: nat :| n <= |all|;
      r := if ok then Data(all[..n]) else FetchFailed;
      trouble := trouble || r != Data(all);
    }
  }

  /** The consumer of the stream: each call takes some prefix of what it is offered. */
  class Sink {
    ghost var received: seq<Byte>
    ghost var trouble: bool  // a call has failed, or has taken nothing

    method Write(p: seq<Byte>) returns (n: nat, failed: bool)
      modifies this
      ensures n <= |p| && received == old(received) + p[..n]
      ensures trouble == (old(trouble) || failed || n == 0)
    {
      n :| n <= |p|;
      failed := *;
      received := received + p[..n];
      trouble := trouble || failed || n == 0;
    }

    method Flush() returns (failed: bool)
      modifies this`trouble
      ensures trouble == (old(trouble) || failed)
    {
      failed := *;
      trouble := trouble || failed;
    }
  }

  datatype WriteError = Complete | WriterFailed | ShortWrite

  /** `writeFull`: everything is taken, or an error says that it was not; an error comes only from a call that went wrong. */
  method WriteFull(w: Sink, data: seq<Byte>) returns (written: nat, err: WriteError)
    modifies w
    ensures written <= |data| && w.received == old(w.received) + data[..written]
    ensures err.Complete? ==> written == |data|
    ensures err.ShortWrite? ==> written < |data|
    ensures w.trouble == (old(w.trouble) || !err.Complete?)
  {
    written := 0;
    while written < |data|
      invariant written <= |data| && w.received == old(w.received) + data[..written] && w.trouble == old(w.trouble)
      decreases |data| - written
    {
      var n, failed := w.Write(data[written..]);
      assert data[..written] + data[written..][..n] == data[..written + n];
      written := written + n;
      if failed {
        return written, WriterFailed;
      }
      if n == 0 {
        return written, ShortWrite;
      }
    }
    return written, Complete;
  }

  datatype Sliced = Chunk(bytes: seq<Byte>) | InvalidSlice | UnexpectedEnd

  function SliceChunk(data: seq<Byte>, skip: int, take: int): Sliced {
    if skip < 0 || take < 0 then InvalidSlice
    else if skip + take > |data| then UnexpectedEnd
    else Chunk(data[skip..skip + take])
  }

  /** Whatever a planned request is answered with, slicing it yields the planned bytes of the file or nothing. */
  lemma SliceIsPlanned(file: seq<Byte>, job: Job, raw: seq<Byte>)
    requires Admissible(job) && raw <= Served(file, job.offset, job.limit)
    ensures var r := SliceChunk(raw, job.skip, job.take);
            && (r.Chunk? <==> job.skip + job.take <= |raw|)
            && (r.Chunk? ==> job.Last() < |file| && r.bytes == file[job.First()..job.Last() + 1])
            && (job.Last() < |file| && raw == Served(file, job.offset, job.limit) ==> r.Chunk?)
  {
    assert job.offset >= 0 && job.skip >= 0 && 0 < job.take && job.skip + job.take <= job.limit;
    hide Admissible;
    if job.skip + job.take <= |raw| {
      hide Served;
      PrefixSlice(file, job.offset, job.limit, raw, job.skip, job.take);
    }
  }

  lemma PrefixSlice(file: seq<Byte>, offset: nat, limit: nat, raw: seq<Byte>, skip: nat, take: nat)
    requires raw <= Served(file, offset, limit) && skip + take <= |raw|
    ensures offset + skip + take <= |file| || take == 0
    ensures 0 < take ==> raw[skip..skip + take] == file[offset + skip..offset + skip + take]
  {
    if 0 < take {
      assert forall i :: skip <= i < skip + take ==> raw[i] == Served(file, offset, limit)[i] == file[offset + i];
    }
  }

  datatype StreamError = Streamed | InvalidRange | FetchError | SliceError | WriteFailed | FlushFailed

  /**
   `streamTelegramMedia`: on success exactly bytes start..end of the file reach the consumer, although answers
   may be cut short; on any error a prefix of them does. With a faithful server and a sink that takes what it is
   offered, the stream succeeds for every range inside the file.
   */
  method StreamSequentially(server: Server, w: Sink, start: int, end: int) returns (err: StreamError, ghost n: nat)
    requires 0 <= start || end < start
    modifies w, server`trouble
    ensures err.InvalidRange? <==> end < start
    ensures n == 0 || (0 <= start && start + n <= end + 1 && start + n <= |server.file|)
    ensures w.received == old(w.received) + Piece(server.file, start, n)
    ensures err.Streamed? ==> n == end - start + 1
    ensures start <= end < |server.file| && !err.Streamed? ==> w.trouble || server.trouble
  {
    n := 0;
    if end < start {
      return InvalidRange, n;
    }
    var jobs := BuildJobs(start, end);
    assert jobs != [];
    for k := 0 to |jobs|
      invariant n == (if k == 0 then 0 else jobs[k - 1].Last() + 1 - start)
      invariant n == 0 || start + n <= |server.file|
      invariant w.received == old(w.received) + Piece(server.file, start, n)
    {
      hide Admissible, Planned, Piece;
      JobResumes(start, end, jobs, k);
      err, n := StreamJob(server, w, jobs[k], start, n, old(w.received));
      if !err.Streamed? {
        return;
      }
    }
    PlanIsContiguous(start, end, jobs, |jobs| - 1);
    return Streamed, n;
  }

  lemma JobResumes(start: int, end: int, jobs: seq<Job>, k: nat)
    requires 0 <= start <= end && Planned(start, end, jobs) && k < |jobs|
    ensures jobs[k].First() == (if k == 0 then start else jobs[k - 1].Last() + 1) && start <= jobs[k].First() <= jobs[k].Last() <= end
  {
    PlanIsContiguous(start, end, jobs, k);
    if k > 0 {
      PlanIsContiguous(start, end, jobs, k - 1);
    }
  }

  /** One job of the sequential stream. */
  method StreamJob(server: Server, w: Sink, job: Job, start: nat, ghost n0: nat, ghost before: seq<Byte>)
    returns (err: StreamError, ghost n: nat)
    requires Admissible(job) && job.First() == start + n0 && (n0 == 0 || start + n0 <= |server.file|)
    requires w.received == before + Piece(server.file, start, n0)
    modifies w, server`trouble
    ensures !err.InvalidRange? && n0 <= n && start + n <= job.Last() + 1
    ensures n == 0 || start + n <= |server.file|
    ensures w.received == before + Piece(server.file, start, n)
    ensures err.Streamed? ==> start + n == job.Last() + 1
    ensures job.Last() < |server.file| && !err.Streamed? ==> w.trouble || server.trouble
  {
    n := n0;
    assert job.First() <= job.Last();
    var raw := FetchJob(server, job);
    hide Admissible, Served, SliceChunk, Piece;
    if raw.FetchFailed? {
      return FetchError, n;
    }
    SliceIsPlanned(server.file, job, raw.bytes);
    var data := SliceChunk(raw.bytes, job.skip, job.take);
    if !data.Chunk? {
      return SliceError, n;
    }
    var written, failure := WriteFull(w, data.bytes);
    PieceGrows(server.file, start, n, job, data.bytes, written);
    ConcatAssociates(before, Piece(server.file, start, n), data.bytes[..written]);
    n := n + written;
    if !failure.Complete? {
      return WriteFailed, n;
    }
    var unflushed := w.Flush();
    err := if unflushed then FlushFailed else Streamed;
  }

  method FetchJob(server: Server, job: Job) returns (r: Fetched)
    requires Admissible(job)
    modifies server`trouble
    ensures r.Data? ==> r.bytes <= Served(server.file, job.offset, job.limit)
    ensures server.trouble == (old(server.trouble) || r != Data(Served(server.file, job.offset, job.limit)))
  {
    r := server.FetchChunk(job.offset, job.limit);
  }

  lemma PieceGrows(file: seq<Byte>, start: nat, n: nat, job: Job, data: seq<Byte>, written: nat)
    requires job.First() == start + n && job.Last() < |file| && job.First() <= job.Last()
    requires data == file[job.First()..job.Last() + 1] && written <= |data|
    ensures Piece(file, start, n) + data[..written] == Piece(file, start, n + written)
    ensures |data| == job.Last() + 1 - job.First()
  {
    var end := start + n + written;
    assert data[..written] == file[start + n..end];
    if 0 < n + written && 0 <= start {
      assert (if n == 0 then [] else file[start..start + n]) + file[start + n..end] == file[start..end];
    }
  }
}
