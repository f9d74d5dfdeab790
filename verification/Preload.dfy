/** The preload executor (`preload.rs`): chunked readahead and saturating accounting.
    Lengths and offsets are 64-bit. */
module Preload {
  import opened Basics
  import Quotients

  datatype PreloadMethod = Readahead | MmapMadvise | MmapMadviseTouch | ChunkedReadahead

  datatype Limits = Limits(
    mmapMadviseMax: Option<nat>, mmapTouchMax: Option<nat>, assetMax: Option<nat>, chunkBytes: nat)

  datatype Target = Target(path: string, how: PreloadMethod, len: nat)

  /** One call to the kernel. */
  datatype Call = Call(offset: nat, size: nat)

  /** How the kernel treats one target: whether it opens, and which calls succeed. */
  datatype Kernel = Kernel(opens: bool, accepts: Call -> bool)

  function Cap(how: PreloadMethod, limits: Limits): Option<nat> {
    match how
    case Readahead => None
    case MmapMadvise => limits.mmapMadviseMax
    case MmapMadviseTouch => limits.mmapTouchMax
    case ChunkedReadahead => limits.assetMax
  }

  function CappedLen(target: Target, limits: Limits): nat {
    match Cap(target.how, limits)
    case None => target.len
    case Some(cap) => if target.len <= cap then target.len else cap
  }

  /** Which limit cuts the length, method by method. */
  lemma LengthByMethod(target: Target, limits: Limits)
    ensures target.how.Readahead? ==> CappedLen(target, limits) == target.len
    ensures target.how.MmapMadvise? ==> CappedLen(target, limits) == CutAt(target.len, limits.mmapMadviseMax)
    ensures target.how.MmapMadviseTouch? ==> CappedLen(target, limits) == CutAt(target.len, limits.mmapTouchMax)
    ensures target.how.ChunkedReadahead? ==> CappedLen(target, limits) == CutAt(target.len, limits.assetMax)
  {
  }

  function CutAt(len: nat, limit: Option<nat>): (n: nat)
    ensures n <= len && (limit.Some? ==> n <= limit.value)
    ensures n == len || (limit.Some? && n == limit.value)
  {
    if limit.Some? then Min(len, limit.value) else len
  }

  // ----- Covering a range by chunks -----

  /** Consecutive nonempty pieces of at most `chunk` bytes from `from` to `to`. */
  ghost predicate Covers(calls: seq<Call>, from: nat, to: nat, chunk: nat) {
    if calls == [] then from == to
    else
      && calls[0].offset == from && 0 < calls[0].size <= chunk
      && from + calls[0].size <= to
      && Covers(calls[1..], from + calls[0].size, to, chunk)
  }

  lemma {:induction false} CoversWithin(calls: seq<Call>, from: nat, to: nat, chunk: nat)
    requires Covers(calls, from, to, chunk)
    ensures from <= to
    decreases |calls|
  {
  }

  ghost predicate Contains(c: Call, byte: nat) {
    c.offset <= byte < c.offset + c.size
  }

  /** Every byte of a covered range lies in exactly one call, and no call reaches outside. */
  lemma {:induction false} EachByteOnce(calls: seq<Call>, from: nat, to: nat, chunk: nat, byte: nat)
    requires Covers(calls, from, to, chunk)
    ensures from <= byte < to <==> exists i :: 0 <= i < |calls| && Contains(calls[i], byte)
    ensures forall i, j | 0 <= i < j < |calls| :: !(Contains(calls[i], byte) && Contains(calls[j], byte))
    decreases |calls|
  {
    if calls == [] {
    } else {
      var rest := calls[1..];
      EachByteOnce(rest, from + calls[0].size, to, chunk, byte);
      CoversWithin(rest, from + calls[0].size, to, chunk);
      assert forall i | 1 <= i < |calls| :: calls[i] == rest[i - 1];
      if i :| 0 <= i < |rest| && Contains(rest[i], byte) {
        assert Contains(calls[i + 1], byte);
      }
    }
  }

  function CeilDiv(n: nat, d: nat): nat
    requires d > 0
  {
    n / d + (if n % d == 0 then 0 else 1)
  }

  /** The calls the chunk loop makes when none is refused. */
  function ChunkCalls(from: nat, to: nat, chunk: nat): seq<Call>
    requires chunk > 0 && from <= to
    decreases if from <= to then to - from else 0
  {
    if from == to then []
    else
      var part := Min(to - from, chunk);
      [Call(from, part)] + ChunkCalls(from + part, to, chunk)
  }

  /** The calls cover the range in the least possible number of chunks. */
  lemma {:induction false} ChunksCover(from: nat, to: nat, chunk: nat)
    requires chunk > 0 && from <= to
    ensures Covers(ChunkCalls(from, to, chunk), from, to, chunk)
    ensures |ChunkCalls(from, to, chunk)| == CeilDiv(to - from, chunk)
    decreases if from <= to then to - from else 0
  {
    if from == to {
      Quotients.DivUnique(0, chunk, 0, 0);
    } else {
      var part := Min(to - from, chunk);
      ChunksCover(from + part, to, chunk);
      var rest := ChunkCalls(from + part, to, chunk);
      assert ([Call(from, part)] + rest)[1..] == rest;
      if part == chunk {
        AddOneChunk(to - from - chunk, chunk);
      } else {
        Quotients.DivUnique(to - from, chunk, 0, to - from);
        Quotients.DivUnique(0, chunk, 0, 0);
      }
    }
  }

  /** Chunk by chunk: where each starts and how long it is. */
  lemma {:induction false} ChunkAt(from: nat, to: nat, chunk: nat, i: nat)
    requires chunk > 0 && from <= to && i < |ChunkCalls(from, to, chunk)|
    ensures from + i * chunk <= to
    ensures ChunkCalls(from, to, chunk)[i] == Call(from + i * chunk, Min(chunk, to - (from + i * chunk)))
    decreases i
  {
    if i > 0 {
      var part := Min(to - from, chunk);
      ChunkAt(from + part, to, chunk, i - 1);
      assert i * chunk == chunk + (i - 1) * chunk;
    }
  }

  lemma AddOneChunk(n: nat, chunk: nat)
    requires chunk > 0
    ensures CeilDiv(n + chunk, chunk) == CeilDiv(n, chunk) + 1
  {
    var q, r := n / chunk, n % chunk;
    assert n == q * chunk + r;
    assert n + chunk == (q + 1) * chunk + r;
    Quotients.DivUnique(n + chunk, chunk, q + 1, r);
  }

  predicate Accepted(kernel: Kernel, calls: seq<Call>) {
    forall c | c in calls :: kernel.accepts(c)
  }

  /** The chunk loop. It stops at the first refused call; otherwise it makes all of them. */
  method ChunkLoop(len: nat, chunkBytes: nat, kernel: Kernel) returns (ok: bool, calls: seq<Call>)
    requires len <= U64_MAX
    ensures var all := ChunkCalls(0, len, Max(chunkBytes, 1));
            && (ok <==> Accepted(kernel, all))
            && calls <= all && (ok ==> calls == all)
            && (!ok ==> calls != [] && Accepted(kernel, calls[..|calls| - 1]) && !kernel.accepts(calls[|calls| - 1]))
  {
    var chunk := Max(chunkBytes, 1);
    ghost var all := ChunkCalls(0, len, chunk);
    var offset := 0;
    calls := [];
    while offset < len
      invariant 0 <= offset <= len
      invariant calls + ChunkCalls(offset, len, chunk) == all
      invariant Accepted(kernel, calls)
    {
      var part := Min(len - offset, chunk);
      assert offset + part <= U64_MAX;
      var call := Call(offset, part);
      ghost var before := calls;
      calls := calls + [call];
      assert calls[..|calls| - 1] == before;
      assert calls + ChunkCalls(offset + part, len, chunk) == all;
      if !kernel.accepts(call) {
        assert call in all;
        return false, calls;
      }
      offset := offset + part;
    }
    assert calls == all;
    ok := true;
  }

  // ----- The plan -----

  /** Does this target preload? A chunked target must have every chunk accepted. */
  predicate Succeeds(target: Target, limits: Limits, kernel: Kernel) {
    var len := CappedLen(target, limits);
    && kernel.opens
    && if target.how.ChunkedReadahead? then Accepted(kernel, ChunkCalls(0, len, Max(limits.chunkBytes, 1)))
       else kernel.accepts(Call(0, len))
  }

  /** When a target preloads: it opens, and the kernel accepts one call for all of it, or for a
      chunked one every chunk from its start to its end. A chunk length of zero counts as one. */
  lemma SucceedsByMethod(target: Target, limits: Limits, kernel: Kernel)
    ensures var len, chunk := CappedLen(target, limits), if limits.chunkBytes == 0 then 1 else limits.chunkBytes;
            Succeeds(target, limits, kernel) <==>
            && kernel.opens
            && (!target.how.ChunkedReadahead? ==> kernel.accepts(Call(0, len)))
            && (target.how.ChunkedReadahead? ==>
                  forall i: nat | i < CeilDiv(len, chunk) ::
                    i * chunk <= len && kernel.accepts(Call(i * chunk, Min(chunk, len - i * chunk))))
  {
    var len, chunk := CappedLen(target, limits), Max(limits.chunkBytes, 1);
    var calls := ChunkCalls(0, len, chunk);
    ChunksCover(0, len, chunk);
    forall i: nat | i < |calls|
      ensures i * chunk <= len && calls[i] == Call(i * chunk, Min(chunk, len - i * chunk))
    {
      ChunkAt(0, len, chunk, i);
    }
    assert Accepted(kernel, calls) <==> forall i: nat | i < |calls| :: kernel.accepts(calls[i]);
  }

  /** Preloading one target answers with its capped length exactly when it succeeds. */
  method PreloadOne(target: Target, limits: Limits, kernel: Kernel) returns (r: Result<nat, EngineError>)
    requires target.len <= U64_MAX
    ensures r.Ok? <==> Succeeds(target, limits, kernel)
    ensures r.Ok? ==> r.value == CappedLen(target, limits)
  {
    if !kernel.opens {
      return Err(NotFound);
    }
    var len := CappedLen(target, limits);
    var ok := true;
    if target.how.ChunkedReadahead? {
      var calls: seq<Call>;
      ok, calls := ChunkLoop(len, limits.chunkBytes, kernel);
    } else {
      ok := kernel.accepts(Call(0, len));
    }
    r := if ok then Ok(len) else Err(Failed);
  }

  datatype Job = Job(target: Target, kernel: Kernel)

  datatype Report = Report(attempted: nat, preloaded: nat, bytes: nat, skipped: seq<string>)

  /** Exact number of bytes of the jobs that succeed, without any saturation. */
  function ExactBytes(jobs: seq<Job>, limits: Limits): nat {
    if jobs == [] then 0
    else
      var job := jobs[|jobs| - 1];
      ExactBytes(jobs[..|jobs| - 1], limits)
      + (if Succeeds(job.target, limits, job.kernel) then CappedLen(job.target, limits) else 0)
  }

  /** Paths of the jobs that fail, in plan order. */
  function FailedPaths(jobs: seq<Job>, limits: Limits): seq<string> {
    if jobs == [] then []
    else
      var job := jobs[|jobs| - 1];
      FailedPaths(jobs[..|jobs| - 1], limits)
      + (if Succeeds(job.target, limits, job.kernel) then [] else [job.target.path])
  }

  /** Every target is attempted and either preloaded or skipped, and the byte total is the
      exact sum cut off at the largest 64-bit number. */
  method ExecutePreloadPlan(jobs: seq<Job>, limits: Limits) returns (report: Report)
    requires forall j | j in jobs :: j.target.len <= U64_MAX
    ensures report.attempted == |jobs| == report.preloaded + |report.skipped|
    ensures report.skipped == FailedPaths(jobs, limits)
    ensures report.bytes == Min(U64_MAX, ExactBytes(jobs, limits))
  {
    report := Report(0, 0, 0, []);
    var i := 0;
    while i < |jobs|
      invariant 0 <= i <= |jobs|
      invariant report.attempted == i == report.preloaded + |report.skipped|
      invariant report.skipped == FailedPaths(jobs[..i], limits)
      invariant report.bytes == Min(U64_MAX, ExactBytes(jobs[..i], limits))
    {
      var job := jobs[i];
      assert jobs[..i + 1][..i] == jobs[..i] && jobs[..i + 1][i] == job;
      report := report.(attempted := report.attempted + 1);
      var r := PreloadOne(job.target, limits, job.kernel);
      match r {
        case Ok(bytes) =>
          report := report.(preloaded := report.preloaded + 1, bytes := SaturatingAdd(report.bytes, bytes));
        case Err(_) =>
          report := report.(skipped := report.skipped + [job.target.path]);
      }
      i := i + 1;
    }
    assert jobs[..i] == jobs;
  }
}
