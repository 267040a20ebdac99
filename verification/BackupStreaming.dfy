/** Streaming a backup into a multipart upload, and back. */
module BackupStreaming {
  import opened Wrappers

  newtype Byte = b: int | 0 <= b < 256

  type Bytes = seq<Byte>

  const PART_SIZE: nat := 8 * 1024 * 1024
  const CHUNK_SIZE: nat := 65536

  // ----- the two ends

  /** What `recv` gives: a chunk, empty at the end of the stream, or an exception. */
  datatype Received = Chunk(data: Bytes) | Broken

  class Socket {
    const script: seq<Received>
    var position: nat
    const sendLimit: nat         // the send that fails
    var sends: nat
    var sent: Bytes

    constructor (script: seq<Received>, sendLimit: nat)
      ensures this.script == script && this.sendLimit == sendLimit && position == 0 && sends == 0 && sent == []
    {
      this.script, this.sendLimit := script, sendLimit;
      position, sends, sent := 0, 0, [];
    }

    method Recv() returns (r: Received)
      modifies `position
      ensures r == if old(position) < |script| then script[old(position)] else Chunk([])
      ensures position == old(position) + 1
    {
      r := if position < |script| then script[position] else Chunk([]);
      position := position + 1;
    }

    method SendAll(data: Bytes) returns (ok: bool)
      modifies `sends, `sent
      ensures ok == (old(sends) < sendLimit) && sends == old(sends) + 1
      ensures sent == if ok then old(sent) + data else old(sent)
    {
      ok := sends < sendLimit;
      sends := sends + 1;
      if ok { sent := sent + data; }
    }
  }

  /** A failing call: whether it raises botocore's ClientError, and whether it took effect anyway. */
  datatype Fault = Fault(client: bool, applied: bool)

  function FaultAt(plan: seq<Option<Fault>>, call: nat): Option<Fault> {
    if call < |plan| then plan[call] else None
  }

  class ObjectStore {
    const plan: seq<Option<Fault>>   // what becomes of each call
    var calls: nat
    var objects: map<nat, Bytes>
    var staged: map<nat, Bytes>      // the parts of the upload under way
    var listed: seq<nat>             // the part numbers of the last completion
    var aborts: nat

    constructor (plan: seq<Option<Fault>>, objects: map<nat, Bytes>)
      ensures this.plan == plan && this.objects == objects && calls == 0 && aborts == 0
    {
      this.plan, this.objects := plan, objects;
      calls, staged, listed, aborts := 0, map[], [], 0;
    }

    method CreateMultipartUpload() returns (fault: Option<Fault>)
      modifies `calls, `staged
      ensures fault == FaultAt(plan, old(calls)) && calls == old(calls) + 1 && staged == map[]
    {
      fault := FaultAt(plan, calls);
      calls, staged := calls + 1, map[];
    }

    method UploadPart(number: nat, body: Bytes) returns (fault: Option<Fault>)
      modifies `calls, `staged
      ensures fault == FaultAt(plan, old(calls)) && calls == old(calls) + 1
      ensures fault.None? ==> staged == old(staged)[number := body]
    {
      fault := FaultAt(plan, calls);
      calls := calls + 1;
      if fault.None? || fault.value.applied { staged := staged[number := body]; }
    }

    /** The object is the listed parts, one after another. */
    method CompleteMultipartUpload(key: nat, parts: seq<nat>) returns (fault: Option<Fault>)
      requires forall i :: 0 <= i < |parts| ==> parts[i] in staged
      modifies `calls, `objects, `listed
      ensures fault == FaultAt(plan, old(calls)) && calls == old(calls) + 1 && listed == parts
      ensures objects == if fault.None? || fault.value.applied then old(objects)[key := Assembled(staged,
        parts)] else old(objects)
    {
      fault := FaultAt(plan, calls);
      calls, listed := calls + 1, parts;
      if fault.None? || fault.value.applied { objects := objects[key := Assembled(staged, parts)]; }
    }

    /** Whether it fails is of no consequence. */
    method AbortMultipartUpload()
      modifies `calls, `staged, `aborts
      ensures calls == old(calls) + 1 && aborts == old(aborts) + 1
    {
      calls, staged, aborts := calls + 1, map[], aborts + 1;
    }
  }

  function Assembled(staged: map<nat, Bytes>, parts: seq<nat>): Bytes
    requires forall i :: 0 <= i < |parts| ==> parts[i] in staged
  {
    if parts == [] then [] else staged[parts[0]] + Assembled(staged, parts[1..])
  }

  // ----- what the loops compute

  function Flatten(chunks: seq<Bytes>): Bytes {
    if chunks == [] then [] else chunks[0] + Flatten(chunks[1..])
  }

  lemma {:induction false} FlattenAppend(chunks: seq<Bytes>, last: Bytes)
    ensures Flatten(chunks + [last]) == Flatten(chunks) + last
  {
    if chunks == [] {
      assert [] + [last] == [last];
    } else {
      assert (chunks + [last])[1..] == chunks[1..] + [last];
      FlattenAppend(chunks[1..], last);
    }
  }

  /** The chunks up to the end of the stream or to the exception that breaks it. */
  function Arrived(script: seq<Received>): seq<Bytes> {
    if script == [] || script[0].Broken? || script[0].data == [] then []
    else [script[0].data] + Arrived(script[1..])
  }

  predicate Breaks(script: seq<Received>) {
    script != [] && (script[0].Broken? || (script[0].data != [] && Breaks(script[1..])))
  }

  /** The full parts cut from the chunks behind a buffer, and what the buffer holds in the end. */
  function Cut(chunks: seq<Bytes>, buffer: Bytes): (seq<Bytes>, Bytes) {
    if chunks == [] then ([], buffer)
    else
      var filled := buffer + chunks[0];
      if |filled| >= PART_SIZE then
        var (parts, rest) := Cut(chunks[1..], []);
        ([filled] + parts, rest)
      else Cut(chunks[1..], filled)
  }

  /** All parts of a stream: a remainder is a last part, and an empty stream is one empty part. */
  function Parts(chunks: seq<Bytes>): seq<Bytes> {
    var (parts, rest) := Cut(chunks, []);
    if rest != [] || parts == [] then parts + [rest] else parts
  }

  // ----- the properties of the cut

  lemma {:induction false} CutKeepsBytes(chunks: seq<Bytes>, buffer: Bytes)
    ensures var (parts, rest) := Cut(chunks, buffer); Flatten(parts) + rest == buffer + Flatten(chunks)
  {
    if chunks != [] {
      var filled := buffer + chunks[0];
      if |filled| >= PART_SIZE {
        CutKeepsBytes(chunks[1..], []);
        var (parts, rest) := Cut(chunks[1..], []);
        assert ([filled] + parts)[1..] == parts;
        assert filled + Flatten(parts) + rest == filled + (Flatten(parts) + rest);
        assert buffer + Flatten(chunks) == filled + Flatten(chunks[1..]);
      } else {
        CutKeepsBytes(chunks[1..], filled);
        assert buffer + Flatten(chunks) == filled + Flatten(chunks[1..]);
      }
    }
  }

  lemma {:induction false} CutSizes(chunks: seq<Bytes>, buffer: Bytes)
    requires |buffer| < PART_SIZE && forall i :: 0 <= i < |chunks| ==> |chunks[i]| <= CHUNK_SIZE
    ensures var (parts, rest) := Cut(chunks, buffer);
      && |rest| < PART_SIZE
      && forall i :: 0 <= i < |parts| ==> PART_SIZE <= |parts[i]| <= PART_SIZE + CHUNK_SIZE - 1
  {
    if chunks != [] {
      var filled := buffer + chunks[0];
      CutSizes(chunks[1..], if |filled| >= PART_SIZE then [] else filled);
    }
  }

  lemma {:induction false} FullPartsWeigh(parts: seq<Bytes>)
    requires forall i :: 0 <= i < |parts| ==> PART_SIZE <= |parts[i]|
    ensures |parts| * PART_SIZE <= |Flatten(parts)|
  {
    if parts != [] {
      FullPartsWeigh(parts[1..]);
    }
  }

  lemma PartsKeepBytes(chunks: seq<Bytes>)
    ensures Flatten(Parts(chunks)) == Flatten(chunks)
  {
    var (parts, rest) := Cut(chunks, []);
    CutKeepsBytes(chunks, []);
    FlattenAppend(parts, rest);
    assert [] + Flatten(chunks) == Flatten(chunks);
    assert rest == [] ==> Flatten(parts) + rest == Flatten(parts);
  }

  /** For any stream in chunks of at most 65536 bytes: there is at least one part, the parts put
      together are the stream, every part but the last holds between 8 MiB and 8 MiB + 65535 bytes,
      the last one is empty only in an empty stream, and a stream below 10000 times 8 MiB needs no more
      than the 10000 parts an upload may have. */
  lemma PartsAreSound(chunks: seq<Bytes>)
    requires forall i :: 0 <= i < |chunks| ==> |chunks[i]| <= 65536
    ensures var parts := Parts(chunks);
      && |parts| >= 1
      && Flatten(parts) == Flatten(chunks)
      && (forall i :: 0 <= i < |parts| - 1 ==> 8388608 <= |parts[i]| <= 8388608 + 65535)
      && |parts[|parts| - 1]| <= 8388608 + 65535
      && (parts[|parts| - 1] == [] <==> Flatten(chunks) == [])
      && (|parts| - 1) * 8388608 <= |Flatten(chunks)|
      && (|Flatten(chunks)| < 10000 * 8388608 ==> |parts| <= 10000)
  {
    hide Cut, Flatten;
    PartsKeepBytes(chunks);
    CutSizes(chunks, []);
    CutKeepsBytes(chunks, []);
    FullPartsWeigh(Cut(chunks, []).0);
    NoBytes(Parts(chunks));
  }

  lemma LastOf(parts: seq<Bytes>)
    requires parts != []
    ensures Flatten(parts) == Flatten(parts[..|parts| - 1]) + parts[|parts| - 1]
  {
    hide Flatten;
    FlattenAppend(parts[..|parts| - 1], parts[|parts| - 1]);
    assert parts == parts[..|parts| - 1] + [parts[|parts| - 1]];
  }

  lemma NoBytes(parts: seq<Bytes>)
    requires parts != []
    ensures Flatten(parts) == [] ==> parts[|parts| - 1] == []
    ensures |parts| == 1 ==> Flatten(parts) == parts[0]
  {
    LastOf(parts);
    NoParts(parts[..|parts| - 1]);
    hide Flatten;
    assert |parts[|parts| - 1]| <= |Flatten(parts)|;
  }

  lemma NoParts(parts: seq<Bytes>)
    ensures parts == [] ==> Flatten(parts) == []
  {
  }

  // ----- the upload

  /** How a call leaves: `ClientError` becomes `S3Unavailable`, anything else is raised again. */
  datatype Raised = S3Unavailable | Reraised

  function Raise(fault: Fault): Raised {
    if fault.client then S3Unavailable else Reraised
  }

  function FirstFault(plan: seq<Option<Fault>>, lo: nat, hi: nat): Option<Fault>
    decreases hi - lo
  {
    if lo >= hi then None
    else if FaultAt(plan, lo).Some? then FaultAt(plan, lo)
    else FirstFault(plan, lo + 1, hi)
  }

  lemma {:induction false} FirstFaultSplit(plan: seq<Option<Fault>>, lo: nat, middle: nat, hi: nat)
    requires lo <= middle <= hi
    ensures FirstFault(plan, lo, hi) ==
      if FirstFault(plan, lo, middle).Some? then FirstFault(plan, lo, middle) else FirstFault(plan, middle, hi)
    decreases middle - lo
  {
    if lo < middle {
      FirstFaultSplit(plan, lo + 1, middle, hi);
    }
  }

  /** The calls before the one that completes: creating the upload, then one for each part that is
      cut before the stream ends or breaks. */
  function CallsBefore(script: seq<Received>): nat {
    1 + if Breaks(script) then |Cut(Arrived(script), []).0| else |Parts(Arrived(script))|
  }

  /** The result of an upload and whether it published, from what the two ends do. */
  function Expected(script: seq<Received>, plan: seq<Option<Fault>>, first: nat): (Result<nat, Raised>, bool) {
    var calls := first + CallsBefore(script);
    var fault := FirstFault(plan, first, calls);
    if fault.Some? then (Err(Raise(fault.value)), false)
    else if Breaks(script) then (Err(Reraised), false)
    else
      var last := FaultAt(plan, calls);
      if last.Some? then (Err(Raise(last.value)), last.value.applied)
      else (Ok(|Flatten(Arrived(script))|), true)
  }

  /** 1, 2, ..., n */
  function Numbers(n: nat): seq<nat> {
    seq(n, i requires 0 <= i < n => i + 1)
  }

  /** The parts so far, under their numbers. */
  predicate StagedAs(staged: map<nat, Bytes>, parts: seq<Bytes>) {
    forall n :: 1 <= n <= |parts| ==> n in staged && staged[n] == parts[n - 1]
  }

  lemma StagedNext(staged: map<nat, Bytes>, parts: seq<Bytes>, body: Bytes)
    requires StagedAs(staged, parts)
    ensures StagedAs(staged[|parts| + 1 := body], parts + [body])
  {
  }

  lemma {:induction false} AssembledFrom(staged: map<nat, Bytes>, parts: seq<Bytes>, done: nat)
    requires StagedAs(staged, parts) && done <= |parts|
    ensures forall i :: 0 <= i < |parts| - done ==> Numbers(|parts|)[done..][i] in staged
    ensures Assembled(staged, Numbers(|parts|)[done..]) == Flatten(parts[done..])
    decreases |parts| - done
  {
    if done < |parts| {
      AssembledFrom(staged, parts, done + 1);
      assert Numbers(|parts|)[done..][1..] == Numbers(|parts|)[done + 1..];
      assert parts[done..][1..] == parts[done + 1..];
    }
  }

  lemma {:induction false} ScriptStep(script: seq<Received>, n: nat)
    requires n < |script| && Live(script, n)
    ensures script[n].Chunk? && script[n].data != [] ==>
      Live(script, n + 1) && n < |Arrived(script)| && Arrived(script)[n] == script[n].data
    ensures script[n].Broken? ==> Breaks(script) && |Arrived(script)| == n
    ensures script[n].Chunk? && script[n].data == [] ==> !Breaks(script) && |Arrived(script)| == n
    decreases n
  {
    if n > 0 {
      ScriptStep(script[1..], n - 1);
    }
  }

  /** The first n receives were chunks with data. */
  predicate Live(script: seq<Received>, n: nat)
    requires n <= |script|
  {
    forall i :: 0 <= i < n ==> script[i].Chunk? && script[i].data != []
  }

  lemma {:induction false} ScriptEnd(script: seq<Received>)
    requires Live(script, |script|)
    ensures !Breaks(script) && |Arrived(script)| == |script|
  {
    if script != [] {
      ScriptEnd(script[1..]);
    }
  }

  /** Where the loop stands: `bodies` are uploaded, `buffer` is not, and cutting what is still to
      come behind the buffer completes the cut of the whole stream. */
  ghost predicate Midway(chunks: seq<Bytes>, n: nat, bodies: seq<Bytes>, buffer: Bytes) {
    && n <= |chunks|
    && Cut(chunks, []) == (bodies + Cut(chunks[n..], buffer).0, Cut(chunks[n..], buffer).1)
  }

  lemma MidwayStep(chunks: seq<Bytes>, n: nat, bodies: seq<Bytes>, buffer: Bytes)
    requires n < |chunks| && Midway(chunks, n, bodies, buffer)
    ensures var filled := buffer + chunks[n];
      if |filled| >= PART_SIZE
      then Midway(chunks, n + 1, bodies + [filled], []) && |Cut(chunks, []).0| > |bodies|
      else Midway(chunks, n + 1, bodies, filled)
  {
    assert chunks[n..][1..] == chunks[n + 1..];
    var filled := buffer + chunks[n];
    var (parts, rest) := Cut(chunks[n + 1..], []);
    if |filled| >= PART_SIZE {
      assert Cut(chunks[n..], buffer) == ([filled] + parts, rest);
      assert bodies + ([filled] + parts) == (bodies + [filled]) + parts;
    }
  }

  lemma MidwayEnd(chunks: seq<Bytes>, bodies: seq<Bytes>, buffer: Bytes)
    requires Midway(chunks, |chunks|, bodies, buffer)
    ensures Cut(chunks, []) == (bodies, buffer)
    ensures Parts(chunks) == if buffer != [] || bodies == [] then bodies + [buffer] else bodies
  {
    assert bodies + [] == bodies;
  }

  /** The fault of the call that is next decides, if no earlier call failed. */
  lemma FaultNow(plan: seq<Option<Fault>>, first: nat, now: nat, hi: nat)
    requires first <= now < hi && FirstFault(plan, first, now).None?
    ensures FaultAt(plan, now).Some? ==> FirstFault(plan, first, hi) == FaultAt(plan, now)
    ensures FaultAt(plan, now).None? ==> FirstFault(plan, first, now + 1).None?
  {
    FirstFaultSplit(plan, first, now, hi);
    FirstFaultSplit(plan, first, now, now + 1);
  }

  /** One transfer: published exactly when every receive and every call went well, or when only the
      completion reported a failure after it had taken effect; the object is then the whole stream. */
  method Upload(socket: Socket, s3: ObjectStore, key: nat) returns (r: Result<nat, Raised>)
    requires socket.position == 0
    modifies socket`position, s3`calls, s3`staged, s3`objects, s3`listed, s3`aborts
    ensures r == Expected(socket.script, s3.plan, old(s3.calls)).0
    // an upload that was created and not finished is aborted, once
    ensures s3.aborts == old(s3.aborts) + if r.Err? && FaultAt(s3.plan, old(s3.calls)).None? then 1 else 0
    ensures s3.objects == if Expected(socket.script, s3.plan, old(s3.calls)).1
      then old(s3.objects)[key := Flatten(Arrived(socket.script))] else old(s3.objects)
    ensures r.Ok? ==> s3.listed == Numbers(|Parts(Arrived(socket.script))|)
    ensures r.Ok? ==> StagedAs(s3.staged, Parts(Arrived(socket.script)))
    ensures r.Ok? ==>
      var parts := Parts(Arrived(socket.script));
      |s3.listed| == |parts| && forall i :: 0 <= i < |parts| ==>
        s3.listed[i] == i + 1 && i + 1 in s3.staged && s3.staged[i + 1] == parts[i]
  {
    ghost var first, script, plan := s3.calls, socket.script, s3.plan;
    ghost var chunks := Arrived(script);
    var fault := s3.CreateMultipartUpload();
    FaultNow(plan, first, first, first + CallsBefore(script));
    if fault.Some? { return Err(Raise(fault.value)); }
    r := Transfer(socket, s3, key, first);
    if r.Err? { s3.AbortMultipartUpload(); }
  }

  /** The body of the inner `try`. */
  method Transfer(socket: Socket, s3: ObjectStore, key: nat, ghost first: nat) returns (r: Result<nat, Raised>)
    requires socket.position == 0 && s3.calls == first + 1 && FirstFault(s3.plan, first, first + 1).None?
    modifies socket`position, s3`calls, s3`staged, s3`objects, s3`listed
    ensures r == Expected(socket.script, s3.plan, first).0
    ensures s3.objects == if Expected(socket.script, s3.plan, first).1
      then old(s3.objects)[key := Flatten(Arrived(socket.script))] else old(s3.objects)
    ensures r.Ok? ==> s3.listed == Numbers(|Parts(Arrived(socket.script))|)
    ensures r.Ok? ==> StagedAs(s3.staged, Parts(Arrived(socket.script)))
  {
    hide Cut, Flatten, Parts, Midway, FirstFault, Assembled, Arrived, Breaks, StagedAs, Live, Numbers, Expected,
      CallsBefore;
    ghost var script, plan := socket.script, s3.plan;
    ghost var chunks, before := Arrived(script), first + CallsBefore(script);
    ghost var bodies: seq<Bytes> := [];
    var parts: seq<nat> := [];
    var partNumber := 1;
    var buf: Bytes := [];
    var total := 0;
    Beginning(script, chunks, s3.staged);
    while true
      invariant socket.position <= |script| && Live(script, socket.position)
      invariant Midway(chunks, socket.position, bodies, buf)
      invariant parts == Numbers(|bodies|) && partNumber == |bodies| + 1 && total == |Flatten(bodies)|
      invariant StagedAs(s3.staged, bodies) && s3.objects == old(s3.objects)
      invariant s3.calls == first + 1 + |bodies| && FirstFault(plan, first, s3.calls).None?
      decreases |script| - socket.position
    {
      ghost var n := socket.position;
      if n < |script| { ScriptStep(script, n); } else { ScriptEnd(script); }
      var received := socket.Recv();
      if received.Broken? {
        MidwayEnd(chunks, bodies, buf);
        WhenBroken(script, plan, first, |bodies|);
        return Err(Reraised);
      }
      var chunk := received.data;
      if chunk == [] { break; }
      MidwayStep(chunks, n, bodies, buf);
      buf := buf + chunk;
      if |buf| >= PART_SIZE {
        CallsAtLeast(script, bodies);
        FaultNow(plan, first, s3.calls, before);
        ghost var staged := s3.staged;
        var fault := s3.UploadPart(partNumber, buf);
        if fault.Some? {
          WhenFaulty(script, plan, first, fault.value);
          return Err(Raise(fault.value));
        }
        StagedNext(staged, bodies, buf);
        NumbersNext(|bodies|);
        FlattenAppend(bodies, buf);
        bodies := bodies + [buf];
        parts := parts + [partNumber];
        total := total + |buf|;
        partNumber := partNumber + 1;
        buf := [];
      }
    }
    MidwayEnd(chunks, bodies, buf);
    r := Flush(s3, key, buf, parts, partNumber, total, script, first, bodies);
  }

  /** Behind the loop: the remainder, or one empty part, and the completion. */
  method Flush(s3: ObjectStore, key: nat, buf: Bytes, uploaded: seq<nat>, partNumber: nat, counted: nat,
               ghost script: seq<Received>, ghost first: nat, ghost bodies: seq<Bytes>)
    returns (r: Result<nat, Raised>)
    requires !Breaks(script)
    requires Parts(Arrived(script)) == if buf != [] || bodies == [] then bodies + [buf] else bodies
    requires uploaded == Numbers(|bodies|) && partNumber == |bodies| + 1 && counted == |Flatten(bodies)|
    requires StagedAs(s3.staged, bodies)
    requires s3.calls == first + 1 + |bodies| && FirstFault(s3.plan, first, s3.calls).None?
    modifies s3`calls, s3`staged, s3`objects, s3`listed
    ensures r == Expected(script, s3.plan, first).0
    ensures s3.objects == if Expected(script, s3.plan, first).1
      then old(s3.objects)[key := Flatten(Arrived(script))] else old(s3.objects)
    ensures r.Ok? ==> s3.listed == Numbers(|Parts(Arrived(script))|) && StagedAs(s3.staged, Parts(Arrived(script)))
  {
    hide Cut, Flatten, Parts, FirstFault, Assembled, Arrived, Breaks, StagedAs, Numbers, Expected, CallsBefore;
    ghost var plan, before, all := s3.plan, first + CallsBefore(script), bodies;
    var parts, total := uploaded, counted;
    CallsAtEnd(script);
    NumbersSize(|bodies|);
    if buf != [] || parts == [] {
      FaultNow(plan, first, s3.calls, before);
      ghost var staged := s3.staged;
      var fault := s3.UploadPart(partNumber, buf);
      if fault.Some? {
        WhenFaulty(script, plan, first, fault.value);
        return Err(Raise(fault.value));
      }
      StagedNext(staged, bodies, buf);
      NumbersNext(|bodies|);
      FlattenAppend(bodies, buf);
      all := bodies + [buf];
      parts := parts + [partNumber];
      total := total + |buf|;
    }
    PartsKeepBytes(Arrived(script));
    AssembledFrom(s3.staged, all, 0);
    assert Numbers(|all|)[0..] == parts && all[0..] == all;
    WhenComplete(script, plan, first);
    var fault := s3.CompleteMultipartUpload(key, parts);
    if fault.Some? { return Err(Raise(fault.value)); }
    return Ok(total);
  }

  lemma Beginning(script: seq<Received>, chunks: seq<Bytes>, staged: map<nat, Bytes>)
    ensures Live(script, 0) && Midway(chunks, 0, [], []) && Numbers(0) == [] && Flatten([]) == []
      && StagedAs(staged, [])
  {
    assert chunks[0..] == chunks && [] + Cut(chunks, []).0 == Cut(chunks, []).0;
  }

  lemma NumbersNext(n: nat)
    ensures Numbers(n + 1) == Numbers(n) + [n + 1]
  {
  }

  lemma NumbersSize(n: nat)
    ensures |Numbers(n)| == n
  {
  }

  lemma WhenBroken(script: seq<Received>, plan: seq<Option<Fault>>, first: nat, done: nat)
    requires Breaks(script) && |Cut(Arrived(script), []).0| == done && FirstFault(plan, first, first + 1 + done).None?
    ensures Expected(script, plan, first) == (Err(Reraised), false)
  {
  }

  lemma WhenFaulty(script: seq<Received>, plan: seq<Option<Fault>>, first: nat, fault: Fault)
    requires FirstFault(plan, first, first + CallsBefore(script)) == Some(fault)
    ensures Expected(script, plan, first) == (Err(Raise(fault)), false)
  {
  }

  lemma WhenComplete(script: seq<Received>, plan: seq<Option<Fault>>, first: nat)
    requires !Breaks(script) && FirstFault(plan, first, first + CallsBefore(script)).None?
    ensures var last := FaultAt(plan, first + CallsBefore(script));
      Expected(script, plan, first) == if last.Some? then (Err(Raise(last.value)), last.value.applied)
        else (Ok(|Flatten(Arrived(script))|), true)
  {
  }

  lemma CallsAtEnd(script: seq<Received>)
    requires !Breaks(script)
    ensures CallsBefore(script) == 1 + |Parts(Arrived(script))|
  {
  }

  lemma CallsAtLeast(script: seq<Received>, bodies: seq<Bytes>)
    requires |Cut(Arrived(script), []).0| > |bodies|
    ensures CallsBefore(script) > 1 + |bodies|
  {
  }

  // ----- what an upload guarantees

  /** `recv(65536)` gives no more. */
  predicate Sized(script: seq<Received>) {
    forall i :: 0 <= i < |script| && script[i].Chunk? ==> |script[i].data| <= CHUNK_SIZE
  }

  lemma {:induction false} ArrivedSized(script: seq<Received>)
    requires Sized(script)
    ensures forall i :: 0 <= i < |Arrived(script)| ==> |Arrived(script)[i]| <= CHUNK_SIZE
  {
    if script != [] {
      ArrivedSized(script[1..]);
    }
  }

  /** If a receive or any call before the completion fails, nothing is published and the failure is
      raised; whatever happens, the object is left alone or is the whole stream; and without any
      failure the upload returns the length of the stream it published. */
  lemma UploadIsAllOrNothing(script: seq<Received>, plan: seq<Option<Fault>>, first: nat)
    ensures var (r, published) := Expected(script, plan, first);
      var calls := first + CallsBefore(script);
      && (Breaks(script) || FirstFault(plan, first, calls).Some? ==> r.Err? && !published)
      && (r.Ok? ==> published && r.value == |Flatten(Parts(Arrived(script)))|)
      && (r.Ok? <==> !Breaks(script) && (forall c :: first <= c <= calls ==> FaultAt(plan, c).None?))
      && (published && r.Err? <==>
            !Breaks(script) && (forall c :: first <= c < calls ==> FaultAt(plan, c).None?)
            && FaultAt(plan, calls).Some? && FaultAt(plan, calls).value.applied)
  {
    PartsKeepBytes(Arrived(script));
    NoFault(plan, first, first + CallsBefore(script));
  }

  lemma {:induction false} NoFault(plan: seq<Option<Fault>>, lo: nat, hi: nat)
    requires lo <= hi
    ensures FirstFault(plan, lo, hi).None? <==> forall c :: lo <= c < hi ==> FaultAt(plan, c).None?
    decreases hi - lo
  {
    if lo < hi {
      NoFault(plan, lo + 1, hi);
    }
  }

  /** The stream in full: the data of the receives before the first that breaks or brings nothing. */
  lemma {:induction false} ArrivedInFull(script: seq<Received>) returns (n: nat)
    ensures n <= |script| && |Arrived(script)| == n
    ensures forall i :: 0 <= i < n ==> script[i].Chunk? && script[i].data != [] && Arrived(script)[i] == script[i].data
    ensures n < |script| ==> script[n] == Broken || script[n] == Chunk([])
    ensures Breaks(script) <==> n < |script| && script[n] == Broken
  {
    if script == [] || script[0].Broken? || script[0].data == [] {
      n := 0;
    } else {
      n := ArrivedInFull(script[1..]);
      n := n + 1;
    }
  }

  lemma {:induction false} FirstFaultAt(plan: seq<Option<Fault>>, lo: nat, hi: nat) returns (c: nat)
    requires FirstFault(plan, lo, hi).Some?
    ensures lo <= c < hi && c < |plan| && plan[c] == FirstFault(plan, lo, hi)
    ensures forall b :: lo <= b < c ==> plan[b].None?
    decreases hi - lo
  {
    if FaultAt(plan, lo).Some? {
      c := lo;
    } else {
      c := FirstFaultAt(plan, lo + 1, hi);
    }
  }

  /** Which error an upload raises: that of the first of its calls that fails, a ClientError as
      S3Unavailable and any other as it is; if none fails, the error that broke the stream. */
  lemma UploadErrors(script: seq<Received>, plan: seq<Option<Fault>>, first: nat)
    returns (c: Option<nat>)
    ensures var r := Expected(script, plan, first).0;
      var calls := first + CallsBefore(script);
      && (c.None? ==> (r == Err(Reraised) && Breaks(script)) || r.Ok?)
      && (c.Some? ==>
            && first <= c.value < |plan| && plan[c.value].Some?
            && (c.value < calls || (c.value == calls && !Breaks(script)))
            && (forall b :: first <= b < c.value ==> plan[b].None?)
            && r == Err(if plan[c.value].value.client then S3Unavailable else Reraised))
  {
    var calls := first + CallsBefore(script);
    c := None;
    if FirstFault(plan, first, calls).Some? {
      var at := FirstFaultAt(plan, first, calls);
      c := Some(at);
    } else if !Breaks(script) && FaultAt(plan, calls).Some? {
      NoFault(plan, first, calls);
      c := Some(calls);
      forall b | first <= b < calls ensures plan[b].None? {
        assert FaultAt(plan, b).None?;
      }
    }
  }

  // ----- the download

  datatype Body = Body(chunks: seq<Bytes>, cut: bool)   // `cut` when reading on raises

  /** What the stream of an object's body gives: all of it in some chunking, or a beginning. */
  predicate BodyOf(body: Body, content: Bytes) {
    if body.cut then Flatten(body.chunks) <= content else Flatten(body.chunks) == content
  }

  predicate EnoughSends(socket: Socket, sends: nat, body: Body) {
    Filled(body.chunks) == 0 || sends + Filled(body.chunks) <= socket.sendLimit
  }

  /** Sends on what is stored; returns the bytes sent when all of them were. */
  method Download(socket: Socket, s3: ObjectStore, key: nat, body: Body) returns (r: Result<nat, Raised>)
    requires key in s3.objects ==> BodyOf(body, s3.objects[key])
    modifies s3`calls, socket`sends, socket`sent
    ensures key !in s3.objects ==> r == Err(S3Unavailable)
    ensures key in s3.objects && r.Ok? ==>
      socket.sent == old(socket.sent) + s3.objects[key] && r.value == |s3.objects[key]|
    ensures key in s3.objects ==> old(socket.sent) <= socket.sent <= old(socket.sent) + s3.objects[key]
    ensures r == Err(S3Unavailable) <==>
      key !in s3.objects ||
      (old(s3.calls) < |s3.plan| && s3.plan[old(s3.calls)].Some? && s3.plan[old(s3.calls)].value.client)
    ensures r.Ok? <==>
      && key in s3.objects && FaultAt(s3.plan, old(s3.calls)).None?
      && !body.cut && EnoughSends(socket, old(socket.sends), body)
  {
    var fault := FaultAt(s3.plan, s3.calls);
    s3.calls := s3.calls + 1;
    if key !in s3.objects { return Err(S3Unavailable); }
    if fault.Some? { return Err(Raise(fault.value)); }
    var total := 0;
    var i := 0;
    assert body.chunks[0..] == body.chunks;
    assert old(socket.sent) + Flatten(body.chunks) <= old(socket.sent) + s3.objects[key];
    while i < |body.chunks|
      invariant i <= |body.chunks|
      invariant socket.sent + Flatten(body.chunks[i..]) == old(socket.sent) + Flatten(body.chunks)
      invariant total + |Flatten(body.chunks[i..])| == |Flatten(body.chunks)|
      invariant socket.sends + Filled(body.chunks[i..]) == old(socket.sends) + Filled(body.chunks)
      invariant socket.sends == old(socket.sends) || old(socket.sends) < socket.sends <= socket.sendLimit
      invariant old(socket.sent) <= socket.sent
    {
      var chunk := body.chunks[i];
      assert body.chunks[i..][1..] == body.chunks[i + 1..];
      i := i + 1;
      if chunk != [] {
        var ok := socket.SendAll(chunk);
        if !ok { return Err(Reraised); }
        total := total + |chunk|;
      }
    }
    if body.cut { return Err(Reraised); }
    return Ok(total);
  }

  /** How many chunks have data. */
  function Filled(chunks: seq<Bytes>): nat {
    if chunks == [] then 0 else (if chunks[0] != [] then 1 else 0) + Filled(chunks[1..])
  }

  /** A backup that succeeded, restored by any chunking without a failure: the bytes sent are the
      bytes received, and both calls return the same count. */
  method RoundTrip(source: Socket, sink: Socket, s3: ObjectStore, key: nat, body: Body)
    returns (up: Result<nat, Raised>, down: Result<nat, Raised>)
    requires source.position == 0 && source != sink && sink.sent == []
    requires BodyOf(body, Flatten(Arrived(source.script)))
    modifies source, sink, s3
    ensures up.Ok? && down.Ok? ==>
      sink.sent == Flatten(Arrived(source.script)) && up.value == down.value == |sink.sent|
  {
    up := Upload(source, s3, key);
    down := Err(Reraised);
    UploadIsAllOrNothing(source.script, s3.plan, old(s3.calls));
    if up.Ok? {
      down := Download(sink, s3, key, body);
    }
  }

  /** The cut of one chunking, joined, is what any other chunking of the published object sends. */
  lemma RoundTripBytes(received: seq<Bytes>, sent: Body)
    requires !sent.cut && BodyOf(sent, Flatten(Parts(received)))
    ensures Flatten(sent.chunks) == Flatten(received)
    ensures |Flatten(sent.chunks)| == |Flatten(Parts(received))|
  {
    PartsKeepBytes(received);
  }
}
