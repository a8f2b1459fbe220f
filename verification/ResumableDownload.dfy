/**
 One download attempt over a part file, and what any sequence of attempts leaves behind.

 The server is a parameter: each attempt is given the reply it receives and the moment at which a
 cancellation is first seen.
 */
module ResumableDownload {
  import opened Common

  newtype byte = x: int | 0 <= x < 256
  type Bytes = seq<byte>

  datatype Status = Queued | Running | Completed | Failed | Cancelled

  /** How the body ends: at its end, with an exception, or with the process and its unflushed tail. */
  datatype End = Finished | Dropped | Killed(lost: nat)

  datatype Response = Response(status: nat, contentLength: nat, body: seq<Bytes>, end: End)

  /** The fields of a task and the two files it owns. */
  datatype Download = Download(part: Option<Bytes>, final: Option<Bytes>, status: Status, bytesDone: nat, bytesTotal: nat)

  const FRESH := Download(None, None, Queued, 0, 0)

  function Concat(chunks: seq<Bytes>): Bytes
    decreases |chunks|
  {
    if chunks == [] then [] else Concat(chunks[..|chunks| - 1]) + chunks[|chunks| - 1]
  }

  function PartOf(d: Download): Bytes {
    d.part.GetOr([])
  }

  predicate RaisesForStatus(status: nat) {
    400 <= status < 600
  }

  /** Only 206 appends; every other accepted status starts the file again. */
  function Base(d: Download, r: Response): Bytes {
    if r.status == 206 then PartOf(d) else []
  }

  /** The counter the loop starts from; it is reset for a 200 reply to a range request only. */
  function StartOffset(d: Download, r: Response): nat {
    if r.status == 200 then 0 else |PartOf(d)|
  }

  /** How many chunks are read before check number `cancelAt` sees the cancellation; check 0 precedes the request. */
  function ChunksRead(r: Response, cancelAt: Option<nat>): nat {
    if cancelAt.Some? && 0 < cancelAt.value <= |r.body| then cancelAt.value - 1 else |r.body|
  }

  /** The task while bytes arrive: `n` chunks of the reply are in the part file. */
  function Receiving(d: Download, r: Response, n: nat): Download
    requires n <= |r.body|
  {
    var got := Concat(r.body[..n]);
    d.(part := Some(Base(d, r) + got),
       status := Running,
       bytesDone := if got == [] then |PartOf(d)| else StartOffset(d, r) + |got|,
       bytesTotal := if r.contentLength > 0 then r.contentLength + StartOffset(d, r) else d.bytesTotal)
  }

  /** The end of an attempt that read its whole body. */
  function Ended(d: Download, r: Response, cancelAt: Option<nat>): Download {
    var q := Receiving(d, r, |r.body|);
    var got := Concat(r.body[..|r.body|]);
    match r.end
    case Dropped => q.(status := Failed)
    case Killed(lost) => q.(part := Some(Base(d, r) + got[..if lost <= |got| then |got| - lost else 0]))
    case Finished =>
      if cancelAt == Some(|r.body| + 1) then q.(status := Cancelled)
      else
        var done := StartOffset(d, r) + |got|;
        q.(part := None, final := q.part, status := Completed, bytesDone := done,
           bytesTotal := if q.bytesTotal == 0 then done else q.bytesTotal)
  }

  /** One whole attempt. */
  function Attempt(d: Download, reply: Option<Response>, cancelAt: Option<nat>): Download {
    var begun := d.(status := Running, bytesDone := |PartOf(d)|);
    if cancelAt == Some(0) then begun.(status := Cancelled)
    else if reply.None? || RaisesForStatus(reply.value.status) then begun.(status := Failed)
    else
      var r := reply.value;
      var n := ChunksRead(r, cancelAt);
      if n < |r.body| then Receiving(d, r, n).(status := Cancelled) else Ended(d, r, cancelAt)
  }

  /** What one more chunk changes. */
  lemma ReceiveChunk(d: Download, r: Response, k: nat)
    requires k < |r.body|
    ensures var q, chunk := Receiving(d, r, k), r.body[k];
            var got := Concat(r.body[..k]);
            && Concat(r.body[..k + 1]) == got + chunk
            && Receiving(d, r, k + 1)
               == if chunk == [] then q
                  else q.(part := Some(q.part.value + chunk), bytesDone := StartOffset(d, r) + |got| + |chunk|)
  {
    var got, chunk := Concat(r.body[..k]), r.body[k];
    assert r.body[..k + 1][..k] == r.body[..k];
    assert Base(d, r) + (got + chunk) == (Base(d, r) + got) + chunk;
    if chunk == [] {
      assert got + chunk == got;
    }
  }

  // ---------------------------------------------------------------- the method

  class Task {
    var part: Option<Bytes>
    var final: Option<Bytes>
    var status: Status
    var bytesDone: nat
    var bytesTotal: nat

    ghost function View(): Download
      reads this
    {
      Download(part, final, status, bytesDone, bytesTotal)
    }

    constructor ()
      ensures View() == FRESH
    {
      part, final, status, bytesDone, bytesTotal := None, None, Queued, 0, 0;
    }

    /** The chunk loop; `done` says that the body was read to its last chunk without a cancellation. */
    method ReceiveBody(r: Response, cancelAt: Option<nat>, start: nat, ghost d: Download) returns (offset: nat, done: bool)
      requires View() == Receiving(d, r, 0) && start == StartOffset(d, r) && cancelAt != Some(0)
      modifies this
      ensures done <==> ChunksRead(r, cancelAt) == |r.body|
      ensures offset == start + |Concat(r.body[..ChunksRead(r, cancelAt)])|
      ensures View() == Receiving(d, r, ChunksRead(r, cancelAt)).(status := if done then Running else Cancelled)
    {
      offset := start;
      var k := 0;
      while k < |r.body|
        invariant 0 <= k <= ChunksRead(r, cancelAt)
        invariant offset == start + |Concat(r.body[..k])|
        invariant View() == Receiving(d, r, k)
      {
        if cancelAt == Some(k + 1) {
          status := Cancelled;
          return offset, false;
        }
        var chunk := r.body[k];
        ReceiveChunk(d, r, k);
        if chunk != [] {
          part := Some(part.value + chunk);
          offset := offset + |chunk|;
          bytesDone := offset;
        }
        k := k + 1;
      }
      assert r.body[..|r.body|] == r.body;
      done := true;
    }

    /** What follows the loop: a drop, a crash, a late cancellation, or the rename that completes the task. */
    method EndBody(r: Response, cancelAt: Option<nat>, base: Bytes, offset: nat, ghost d: Download)
      requires View() == Receiving(d, r, |r.body|) && base == Base(d, r)
      requires offset == StartOffset(d, r) + |Concat(r.body[..|r.body|])|
      modifies this
      ensures View() == Ended(d, r, cancelAt)
    {
      match r.end {
        case Dropped =>
          status := Failed;
        case Killed(lost) =>
          var size := |part.value| - |base|;
          var kept := if lost <= size then size - lost else 0;
          ghost var got := Concat(r.body[..|r.body|]);
          assert (base + got)[..|base| + kept] == base + got[..kept];
          part := Some(part.value[..|base| + kept]);
        case Finished =>
          if cancelAt == Some(|r.body| + 1) {
            status := Cancelled;
            return;
          }
          final, part := part, None;
          bytesDone := offset;
          if bytesTotal == 0 {
            bytesTotal := offset;
          }
          status := Completed;
      }
    }

    /** One worker run over this task. */
    method Run(reply: Option<Response>, cancelAt: Option<nat>)
      modifies this
      ensures View() == Attempt(old(View()), reply, cancelAt)
    {
      ghost var d := View();
      var offset := if part.Some? then |part.value| else 0;
      status, bytesDone := Running, offset;
      if cancelAt == Some(0) {
        status := Cancelled;
        return;
      }
      if reply.None? || 400 <= reply.value.status < 600 {
        status := Failed;
        return;
      }
      var r := reply.value;
      if offset > 0 && r.status == 200 {
        offset := 0;
      }
      if r.contentLength > 0 {
        bytesTotal := r.contentLength + offset;
      }
      part := Some(if r.status == 206 && part.Some? then part.value else []);
      var base := part.value;
      assert base + [] == base;
      var done;
      offset, done := ReceiveBody(r, cancelAt, offset, d);
      if done {
        EndBody(r, cancelAt, base, offset, d);
      }
    }
  }

  // ---------------------------------------------------------------- an honest server

  /** A 206 body is the resource from the offset, a 200 body the whole of it, as far as it got; all else is an error. */
  predicate Honest(resource: Bytes, offset: nat, reply: Option<Response>) {
    reply.Some? ==>
      var r := reply.value;
      match r.status
      case 206 => offset <= |resource| && Concat(r.body) <= resource[offset..]
      case 200 => Concat(r.body) <= resource
      case _ => RaisesForStatus(r.status)
  }

  /** The body is everything it should be; nothing in the code compares it with the announced length. */
  predicate Full(resource: Bytes, offset: nat, r: Response) {
    match r.status
    case 206 => offset <= |resource| && Concat(r.body) == resource[offset..]
    case _ => Concat(r.body) == resource
  }

  lemma {:induction false} ConcatPrefix(chunks: seq<Bytes>, n: nat)
    requires n <= |chunks|
    ensures Concat(chunks[..n]) <= Concat(chunks)
  {
    if n < |chunks| {
      var front := chunks[..|chunks| - 1];
      ConcatPrefix(front, n);
      assert front[..n] == chunks[..n];
    } else {
      assert chunks[..n] == chunks;
    }
  }

  /** Whatever happens in an attempt, the part file stays a prefix of the resource. */
  lemma AttemptKeepsPrefix(resource: Bytes, d: Download, reply: Option<Response>, cancelAt: Option<nat>)
    requires PartOf(d) <= resource && Honest(resource, |PartOf(d)|, reply)
    ensures PartOf(Attempt(d, reply, cancelAt)) <= resource
  {
    if reply.Some? && !RaisesForStatus(reply.value.status) {
      var r := reply.value;
      var n := ChunksRead(r, cancelAt);
      ConcatPrefix(r.body, n);
      assert r.body[..|r.body|] == r.body;
      assert Base(d, r) + Concat(r.body) <= resource by {
        if r.status == 206 {
          assert resource == PartOf(d) + resource[|PartOf(d)|..];
        }
      }
    }
  }

  /** What a completed attempt delivers, and exactly when that is the resource. */
  lemma CompletionIsExact(resource: Bytes, d: Download, reply: Option<Response>, cancelAt: Option<nat>)
    requires PartOf(d) <= resource && Honest(resource, |PartOf(d)|, reply)
    requires Attempt(d, reply, cancelAt).status == Completed
    ensures var q := Attempt(d, reply, cancelAt);
            && q.part.None? && q.final.Some? && q.final.value <= resource
            && q.bytesDone == |q.final.value|
            && (q.final == Some(resource) <==> Full(resource, |PartOf(d)|, reply.value))
  {
    var r := reply.value;
    assert r.body[..|r.body|] == r.body;
    var c := Concat(r.body);
    if r.status == 206 {
      var rest := resource[|PartOf(d)|..];
      assert resource == PartOf(d) + rest;
      assert c == rest[..|c|];
      assert c != rest ==> |PartOf(d) + c| < |resource|;
    } else {
      assert [] + c == c;
    }
  }

  /** Nothing notices a body that stops short: the task completes with what came. */
  lemma TruncationCompletes(resource: Bytes, d: Download, r: Response)
    requires PartOf(d) <= resource && Honest(resource, |PartOf(d)|, Some(r)) && !Full(resource, |PartOf(d)|, r)
    requires r.status in {200, 206} && r.end == Finished
    ensures var q := Attempt(d, Some(r), None);
            q.status == Completed && q.final.Some? && q.final.value <= resource && q.final.value != resource && q.bytesDone == |q.final.value|
  {
    CompletionIsExact(resource, d, Some(r), None);
  }

  // ---------------------------------------------------------------- how an attempt ends

  /** Joining is what puts one chunk where it is and two bodies one after the other. */
  lemma {:induction false} ConcatJoins(a: seq<Bytes>, b: seq<Bytes>)
    ensures Concat(a + b) == Concat(a) + Concat(b) && Concat([]) == [] && forall chunk: Bytes :: Concat([chunk]) == chunk
    decreases |b|
  {
    forall chunk: Bytes
      ensures Concat([chunk]) == chunk
    {
      assert [chunk][..0] == [];
    }
    if b == [] {
      assert a + b == a;
    } else {
      var n := |b| - 1;
      ConcatJoins(a, b[..n]);
      assert (a + b)[..|a + b| - 1] == a + b[..n] && (a + b)[|a + b| - 1] == b[n];
    }
  }

  /** What is in the part file when the reply starts: an appended one goes on, any other starts again. */
  lemma RepliesStartWhereTheySay(d: Download, r: Response)
    ensures r.status == 206 ==> Base(d, r) == PartOf(d)
    ensures r.status != 206 ==> Base(d, r) == []
  {
  }

  /** A cancellation that stands before the request leaves both files alone. */
  lemma CancelBeforeTheRequest(d: Download, reply: Option<Response>)
    ensures var q := Attempt(d, reply, Some(0));
            q.status == Cancelled && q.part == d.part && q.final == d.final && q.bytesDone == |PartOf(d)|
  {
  }

  /** A cancellation seen before a chunk is written leaves exactly the chunks before it, however the body would have gone on. */
  lemma CancelBetweenChunks(d: Download, r: Response, k: nat)
    requires !(400 <= r.status < 600) && 0 < k <= |r.body|
    ensures var q := Attempt(d, Some(r), Some(k));
            && q.status == Cancelled && q.final == d.final
            && q.part == Some((if r.status == 206 then PartOf(d) else []) + Concat(r.body[..k - 1]))
  {
  }

  /** A request that fails, or is answered with an error, leaves both files alone. */
  lemma FailedRequestTouchesNothing(d: Download, reply: Option<Response>, cancelAt: Option<nat>)
    requires cancelAt != Some(0) && (reply.Some? ==> 400 <= reply.value.status < 600)
    ensures var q := Attempt(d, reply, cancelAt);
            q.status == Failed && q.part == d.part && q.final == d.final && q.bytesDone == |PartOf(d)|
  {
  }

  /** A connection that drops keeps everything that came; a process that dies keeps all but an unflushed tail. */
  lemma BrokenBodyKeepsWhatCame(d: Download, r: Response)
    requires !(400 <= r.status < 600) && r.end != Finished
    ensures var q, all := Attempt(d, Some(r), None), (if r.status == 206 then PartOf(d) else []) + Concat(r.body);
            && q.final == d.final && q.part.Some? && q.part.value <= all && (if r.status == 206 then PartOf(d) else []) <= q.part.value
            && (r.end == Dropped ==> q.status == Failed && q.part.value == all)
            && (r.end.Killed? ==> q.status == Running && |all| - |q.part.value| <= r.end.lost)
  {
    assert r.body[..|r.body|] == r.body;
  }

  /** A body that is read to its end without a cancellation becomes the final file, whatever status it came with. */
  lemma FinishedBodyCompletes(d: Download, r: Response, cancelAt: Option<nat>)
    requires !(400 <= r.status < 600) && r.end == Finished && (cancelAt.Some? ==> cancelAt.value > |r.body| + 1)
    ensures var q := Attempt(d, Some(r), cancelAt);
            && q.status == Completed && q.part == None
            && q.final == Some((if r.status == 206 then PartOf(d) else []) + Concat(r.body))
            && (r.contentLength > 0 ==> q.bytesTotal == r.contentLength + (if r.status == 200 then 0 else |PartOf(d)|))
            && (r.contentLength == 0 ==> q.bytesTotal == if d.bytesTotal > 0 then d.bytesTotal else q.bytesDone)
  {
    assert r.body[..|r.body|] == r.body;
  }

  /** While bytes arrive the task counts what the part file holds, for the two statuses a download expects. */
  lemma ProgressCountsThePartFile(d: Download, r: Response, n: nat)
    requires r.status in {200, 206} && n <= |r.body| && Concat(r.body[..n]) != []
    ensures var q := Receiving(d, r, n);
            && q.part.Some? && q.bytesDone == |q.part.value|
            && (r.contentLength > 0 ==> q.bytesTotal == r.contentLength + |Base(d, r)|)
  {
  }

  // ---------------------------------------------------------------- the counter

  /** Whatever the server answers, a completed task counts the bytes of its file exactly when the status was 200 or 206 or nothing was there before. */
  lemma CountIsRightExactly(d: Download, reply: Option<Response>, cancelAt: Option<nat>)
    requires Attempt(d, reply, cancelAt).status == Completed
    ensures var q := Attempt(d, reply, cancelAt);
            && reply.Some? && q.final.Some?
            && (q.bytesDone == |q.final.value| <==> reply.value.status in {200, 206} || PartOf(d) == [])
            && (reply.value.status !in {200, 206} ==> q.bytesDone == |PartOf(d)| + |q.final.value|)
  {
    var r := reply.value;
    assert r.body[..|r.body|] == r.body;
  }

  // ---------------------------------------------------------------- any number of attempts

  datatype Try = Try(reply: Option<Response>, cancelAt: Option<nat>)

  /** After a restart or an ended attempt the next one starts from the files as they are. */
  function AfterTries(d: Download, tries: seq<Try>): Download
    decreases |tries|
  {
    if tries == [] then d else AfterTries(Attempt(d, tries[0].reply, tries[0].cancelAt), tries[1..])
  }

  /** Every reply is honest about the offset its attempt asked for. */
  predicate AllHonest(resource: Bytes, d: Download, tries: seq<Try>)
    decreases |tries|
  {
    tries == []
    || (Honest(resource, |PartOf(d)|, tries[0].reply)
        && AllHonest(resource, Attempt(d, tries[0].reply, tries[0].cancelAt), tries[1..]))
  }

  /** A body that reaches its end without an error is the whole body. */
  predicate NoSilentTruncation(resource: Bytes, d: Download, tries: seq<Try>)
    decreases |tries|
  {
    tries == []
    || ((tries[0].reply.Some? && tries[0].reply.value.end == Finished && !RaisesForStatus(tries[0].reply.value.status)
         ==> Full(resource, |PartOf(d)|, tries[0].reply.value))
        && NoSilentTruncation(resource, Attempt(d, tries[0].reply, tries[0].cancelAt), tries[1..]))
  }

  /** Failures, cancellations, crashes and retries at any chunk: the part file is always a prefix of the resource. */
  lemma {:induction false} PartIsAlwaysAPrefix(resource: Bytes, d: Download, tries: seq<Try>)
    requires PartOf(d) <= resource && AllHonest(resource, d, tries)
    ensures PartOf(AfterTries(d, tries)) <= resource
    decreases |tries|
  {
    if tries != [] {
      AttemptKeepsPrefix(resource, d, tries[0].reply, tries[0].cancelAt);
      PartIsAlwaysAPrefix(resource, Attempt(d, tries[0].reply, tries[0].cancelAt), tries[1..]);
    }
  }

  /** A finished file is never anything but the resource, provided no body is silently cut short. */
  lemma {:induction false} FinalIsTheResource(resource: Bytes, d: Download, tries: seq<Try>)
    requires PartOf(d) <= resource && AllHonest(resource, d, tries) && NoSilentTruncation(resource, d, tries)
    requires d.final.Some? ==> d.final.value == resource
    requires d.status == Completed ==> d.final == Some(resource) && d.bytesDone == |resource|
    ensures var q := AfterTries(d, tries);
            && (q.final.Some? ==> q.final.value == resource)
            && (q.status == Completed ==> q.final == Some(resource) && q.bytesDone == |resource|)
    decreases |tries|
  {
    if tries != [] {
      var t := tries[0];
      var q := Attempt(d, t.reply, t.cancelAt);
      AttemptKeepsPrefix(resource, d, t.reply, t.cancelAt);
      if q.status == Completed {
        CompletionIsExact(resource, d, t.reply, t.cancelAt);
      }
      FinalIsTheResource(resource, q, tries[1..]);
    }
  }

  // ---------------------------------------------------------------- retrying against a range server

  /** A server that supports ranges, in whatever chunks it sends: it answers 416 when nothing is left to send. */
  predicate AnswersRange(resource: Bytes, offset: nat, r: Response) {
    if offset == 0 then r.status == 200 && Concat(r.body) == resource && r.end == Finished
    else if offset < |resource| then r.status == 206 && Concat(r.body) == resource[offset..] && r.end == Finished
    else r.status == 416
  }

  /** An undisturbed retry finishes the download exactly when some of a started file is still missing. */
  lemma UndisturbedRetry(resource: Bytes, d: Download, r: Response)
    requires PartOf(d) <= resource && AnswersRange(resource, |PartOf(d)|, r)
    ensures var q := Attempt(d, Some(r), None);
            && (q.status == Completed <==> PartOf(d) == [] || PartOf(d) != resource)
            && (q.status == Completed ==> q.final == Some(resource) && q.bytesDone == |resource|)
            && (q.status != Completed ==> q == d.(status := Failed, bytesDone := |resource|))
  {
    var offset := |PartOf(d)|;
    assert r.body[..|r.body|] == r.body;
    if 0 < offset < |resource| {
      assert PartOf(d) + resource[offset..] == resource;
    } else if offset == 0 {
      assert [] + resource == resource;
    }
  }

  /**
   A cancellation first seen after the last chunk leaves the whole resource in the part file, and from
   then on every undisturbed retry fails: the range request has nothing left to ask for.
   */
  lemma LateCancelIsFinal(resource: Bytes, d: Download, r: Response, retry: Response)
    requires resource != [] && PartOf(d) <= resource && PartOf(d) != resource
    requires AnswersRange(resource, |PartOf(d)|, r) && AnswersRange(resource, |resource|, retry)
    ensures var q := Attempt(d, Some(r), Some(|r.body| + 1));
            && q.status == Cancelled && q.part == Some(resource)
            && Attempt(q, Some(retry), None) == q.(status := Failed, bytesDone := |resource|)
  {
    var offset := |PartOf(d)|;
    assert r.body[..|r.body|] == r.body;
    if offset > 0 {
      assert PartOf(d) + resource[offset..] == resource;
    } else {
      assert [] + resource == resource;
    }
  }

  /** A success status other than 200 and 206 overwrites a started part file but keeps counting from the old offset. */
  lemma UnexpectedStatusMiscounts(d: Download, r: Response)
    requires PartOf(d) != [] && r.status !in {200, 206} && !RaisesForStatus(r.status) && r.end == Finished
    ensures var q := Attempt(d, Some(r), None);
            q.status == Completed && q.final == Some(Concat(r.body)) && q.bytesDone == |PartOf(d)| + |Concat(r.body)|
  {
    assert r.body[..|r.body|] == r.body;
    assert [] + Concat(r.body) == Concat(r.body);
    CountIsRightExactly(d, Some(r), None);
  }
}
