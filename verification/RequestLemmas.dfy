/** How a request body is cut into DATA frames and handed to its stream. */
module RequestLemmas {
  import opened Wrappers
  import opened Frames
  import opened StreamState
  import opened StreamSpec
  import opened StreamLemmas
  import opened ConnectionSpec

  const UINT32 := 0x1_0000_0000

  /**
   The chunk size divides time into chunks that uint32 offsets can count: checked before sending, nothing can go wrong.
   */
  predicate Cuttable(length: nat, chunkSize: u32) {
    && length < UINT32
    && 0 < chunkSize
    && ((length + chunkSize - 1) / chunkSize) * chunkSize < UINT32
  }

  /** `fs` is `data` cut into frames of stream `id`, in order, END_STREAM on the last one only. */
  ghost predicate IsCutOf(fs: seq<DataFrame>, id: StreamId, data: seq<byte>) {
    && fs != []
    && Payload(fs) == data
    && EndsOnlyLast(fs)
    && Ended(fs)
    && AllFor(id, fs)
  }

  /** A turn of the loop that ends well, its offsets and its frame named. */
  lemma ChunksUnfold(id: StreamId, data: seq<byte>, chunkSize: u32, sent: u32)
      returns (next: u32, end: nat, rest: seq<DataFrame>)
    requires Chunks(id, data, chunkSize, sent).Ok? && ToUint32(sent * chunkSize) < ToUint32(|data|)
    ensures ToUint32(sent * chunkSize) < ToUint32(next * chunkSize)
    ensures next == ToUint32(sent + 1) && Chunks(id, data, chunkSize, next) == Ok(rest)
    ensures ToUint32(sent * chunkSize) <= end <= ToUint32(|data|) <= |data|
    ensures end == if ToUint32(next * chunkSize) < ToUint32(|data|) then ToUint32(next * chunkSize)
            else ToUint32(|data|)
    ensures Chunks(id, data, chunkSize, sent).value ==
            [DataFrame(id, data[ToUint32(sent * chunkSize)..end],
                ToUint32(next * chunkSize) >= ToUint32(|data|))] + rest
  {
    ChunkAdvances(sent, chunkSize, ToUint32(|data|));
    next := ToUint32(sent + 1);
    rest := Chunks(id, data, chunkSize, next).value;
    var to := ToUint32(next * chunkSize);
    end := if to < ToUint32(|data|) then to else ToUint32(|data|);
  }

  /** Whenever the loop ends, it has cut exactly the bytes its uint32 `total` covers. */
  lemma {:induction false} ChunksCut(id: StreamId, data: seq<byte>, chunkSize: u32, sent: u32)
    requires Chunks(id, data, chunkSize, sent).Ok?
    ensures ToUint32(|data|) <= |data|
    ensures var from, total := ToUint32(sent * chunkSize), ToUint32(|data|);
            var fs := Chunks(id, data, chunkSize, sent).value;
            if from < total then IsCutOf(fs, id, data[from..total]) else fs == []
    decreases ToUint32(|data|) - ToUint32(sent * chunkSize)
  {
    var from, total := ToUint32(sent * chunkSize), ToUint32(|data|);
    if from < total {
      var next, end, rest := ChunksUnfold(id, data, chunkSize, sent);
      hide ToUint32, Chunks;
      ChunksCut(id, data, chunkSize, next);
      CutJoins(DataFrame(id, data[from..end], end == total), rest, data, from, end, total);
    }
  }

  lemma CutJoins(d: DataFrame, rest: seq<DataFrame>, data: seq<byte>, from: nat, end: nat, total: nat)
    requires from <= end <= total <= |data| && d.data == data[from..end] && (d.endStream <==> end == total)
    requires if end < total then IsCutOf(rest, d.streamId, data[end..total]) else rest == []
    ensures IsCutOf([d] + rest, d.streamId, data[from..total])
  {
    BytesConcat([d], rest);
    assert Payload([d]) == Payload([]) + d.data;
    assert data[from..end] + data[end..total] == data[from..total];
  }

  /** Every frame is full but the last, which is not empty. */
  ghost predicate Sized(fs: seq<DataFrame>, chunkSize: nat) {
    && (forall k :: 0 <= k < |fs| - 1 ==> |fs[k].data| == chunkSize)
    && (fs != [] ==> 0 < |fs[|fs| - 1].data| <= chunkSize)
  }

  lemma StepSize(a: int, step: u32)
    requires ToUint32(a) < ToUint32(a + step)
    ensures ToUint32(a + step) == ToUint32(a) + step
  {
  }

  /** The offset of the next chunk, wherever the count of chunks stands. */
  lemma NextOffset(chunkSize: u32, sent: u32)
    requires ToUint32(sent * chunkSize) < ToUint32(ToUint32(sent + 1) * chunkSize)
    ensures ToUint32(ToUint32(sent + 1) * chunkSize) == ToUint32(sent * chunkSize) + chunkSize
  {
    NotTheLastCount(chunkSize, sent);
    Wraps(sent + 1);
    MulStep(sent, chunkSize);
    hide ToUint32;
    assert (sent + 1) * chunkSize == sent * chunkSize + chunkSize;
    StepSize(sent * chunkSize, chunkSize);
  }

  lemma NotTheLastCount(chunkSize: u32, sent: u32)
    requires ToUint32(sent * chunkSize) < ToUint32(ToUint32(sent + 1) * chunkSize)
    ensures sent + 1 < UINT32
  {
    assert sent + 1 == UINT32 ==> ToUint32(sent + 1) == 0;
    assert ToUint32(0 * chunkSize) == 0;
  }

  /** Whatever the loop cuts, it cuts into full chunks and a last one that is not empty. */
  lemma {:induction false} ChunksSized(id: StreamId, data: seq<byte>, chunkSize: u32, sent: u32)
    requires Chunks(id, data, chunkSize, sent).Ok?
    ensures Sized(Chunks(id, data, chunkSize, sent).value, chunkSize)
    ensures ToUint32(sent * chunkSize) < ToUint32(|data|) ==> Chunks(id, data, chunkSize, sent).value != []
    decreases ToUint32(|data|) - ToUint32(sent * chunkSize)
  {
    var from, total := ToUint32(sent * chunkSize), ToUint32(|data|);
    if from < total {
      var next, end, rest := ChunksUnfold(id, data, chunkSize, sent);
      NextOffset(chunkSize, sent);
      var to := ToUint32(next * chunkSize);
      assert to >= total ==> rest == [];
      hide ToUint32, Chunks;
      ChunksSized(id, data, chunkSize, next);
      assert |data[from..end]| == end - from;
    }
  }

  lemma MulMonotone(a: int, b: int, c: nat)
    requires a <= b
    ensures a * c <= b * c
  {
  }

  lemma MulStep(a: int, c: int)
    ensures (a + 1) * c == a * c + c
  {
  }

  /** The number of chunks, and where the last one ends. */
  lemma LastChunk(total: int, chunkSize: int, sent: int)
    requires chunkSize > 0 && 0 <= sent && sent * chunkSize < total
    ensures var n := (total + chunkSize - 1) / chunkSize;
            && n * chunkSize >= sent * chunkSize + chunkSize
            && (sent * chunkSize + chunkSize >= total ==> n == sent + 1)
  {
    var n := (total + chunkSize - 1) / chunkSize;
    assert n * chunkSize <= total + chunkSize - 1 < n * chunkSize + chunkSize;
    MulStep(sent, chunkSize);
    if n <= sent {
      MulMonotone(n, sent, chunkSize);
    } else {
      MulMonotone(sent + 1, n, chunkSize);
      if n > sent + 1 {
        MulMonotone(sent + 2, n, chunkSize);
        MulStep(sent + 1, chunkSize);
      }
    }
  }

  lemma Wraps(n: int)
    ensures 0 <= n < UINT32 ==> ToUint32(n) == n
    ensures UINT32 <= n < 2 * UINT32 ==> ToUint32(n) == n - UINT32
  {
  }

  /** One turn of the loop, with its offsets named. */
  lemma ChunksTurn(id: StreamId, data: seq<byte>, chunkSize: u32, sent: u32, from: int, to: int)
    requires sent + 1 < UINT32 && chunkSize > 0
    requires from == sent * chunkSize && to == from + chunkSize && from < ToUint32(|data|)
    ensures Chunks(id, data, chunkSize, sent).Ok? <==>
              to < UINT32 && (to < ToUint32(|data|) ==> Chunks(id, data, chunkSize, sent + 1).Ok?)
    ensures Chunks(id, data, chunkSize, sent).Crash? ==>
              Chunks(id, data, chunkSize, sent).kind ==
                if to < UINT32 then Chunks(id, data, chunkSize, sent + 1).kind else SliceOutOfRange
  {
    MulMonotone(0, sent, chunkSize);
    MulStep(sent, chunkSize);
    hide ToUint32;
    Wraps(from);
    Wraps(sent + 1);
    Wraps(to);
    assert (sent + 1) * chunkSize == to;
    if ToUint32(|data|) <= to < UINT32 {
      assert Chunks(id, data, chunkSize, sent + 1) == Ok([]);
    }
  }

  /** While the offsets have not wrapped, the loop goes through exactly when the end of its last chunk does not wrap. */
  lemma {:induction false} ChunksGoThrough(id: StreamId, data: seq<byte>, chunkSize: u32, sent: u32, from: int)
    requires chunkSize > 0 && from == sent * chunkSize && from < ToUint32(|data|)
    ensures Chunks(id, data, chunkSize, sent).Ok? <==> Cuttable(ToUint32(|data|), chunkSize)
    ensures Chunks(id, data, chunkSize, sent).Crash? ==> Chunks(id, data, chunkSize, sent).kind == SliceOutOfRange
    decreases ToUint32(|data|) - from
  {
    hide Chunks;
    var total := ToUint32(|data|);
    LastChunk(total, chunkSize, sent);
    MulMonotone(1, chunkSize, sent);
    MulStep(sent, chunkSize);
    var to := from + chunkSize;
    ChunksTurn(id, data, chunkSize, sent, from, to);
    if to < total {
      ChunksGoThrough(id, data, chunkSize, sent + 1, to);
    }
  }

  lemma ChunksNeverTouchTheStream(id: StreamId, data: seq<byte>, chunkSize: u32, sent: u32)
    ensures Chunks(id, data, chunkSize, sent) != Crash(IllegalStreamState)
    decreases ToUint32(|data|) - ToUint32(sent * chunkSize)
  {
    var total := ToUint32(|data|);
    if ToUint32(sent * chunkSize) < total && chunkSize != 0 {
      var to := ToUint32(ToUint32(sent + 1) * chunkSize);
      if ToUint32(sent * chunkSize) <= to {
        ChunkAdvances(sent, chunkSize, total);
        ChunksNeverTouchTheStream(id, data, chunkSize, ToUint32(sent + 1));
      }
    }
  }

  /** sendDataFrames loses nothing exactly when the body fits 32 bits and its last chunk ends before offset 2^32. */
  lemma CuttingIsExact(id: StreamId, data: seq<byte>, chunkSize: u32)
    requires data != []
    ensures Chunks(id, data, chunkSize, 0).Ok? && IsCutOf(Chunks(id, data, chunkSize, 0).value, id, data)
            <==> Cuttable(|data|, chunkSize)
    ensures |data| < UINT32 && Chunks(id, data, chunkSize, 0).Ok? ==>
            IsCutOf(Chunks(id, data, chunkSize, 0).value, id, data)
    ensures |data| < UINT32 && !Cuttable(|data|, chunkSize) ==>
              Chunks(id, data, chunkSize, 0) == Crash(if chunkSize == 0 then EndlessLoop else SliceOutOfRange)
  {
    var total := ToUint32(|data|);
    Wraps(0);
    Wraps(|data|);
    assert total < UINT32;
    assert 0 * chunkSize == 0;
    assert chunkSize == 0 && 0 < total ==> Chunks(id, data, chunkSize, 0) == Crash(EndlessLoop);
    hide Chunks, ToUint32;
    if Chunks(id, data, chunkSize, 0).Ok? {
      ChunksCut(id, data, chunkSize, 0);
    }
    if |data| < UINT32 {
      assert data[0..total] == data;
      if chunkSize > 0 {
        ChunksGoThrough(id, data, chunkSize, 0, 0);
      }
    } else if total > 0 && Chunks(id, data, chunkSize, 0).Ok? {
      assert |data[0..total]| == total < |data|;
    }
  }

  /** With a chunk size of 0 the guard of the loop is true for ever. */
  lemma ZeroChunksNeverEnd(total: u32, sent: u32)
    ensures ToUint32(sent * 0) < total <==> 0 < total
  {
  }

  // ---------------------------------------------------------------- the request as a whole

  lemma EvolvesTransitive(a: View, b: View, c: View)
    requires Evolves(a, b) && Evolves(b, c)
    ensures Evolves(a, c)
  {
    hide Bytes;
  }

  ghost predicate ReadyToSend(v: View) {
    Valid(v.s) && !Stranded(v.s) && Settled(v.s, v.w.sendWindow)
  }

  lemma SendAllStep(v: View, fs: seq<DataFrame>)
    requires fs != [] && v.s.state == Open
    ensures SendAll(v, fs) == SendAll(AfterData(v, fs[0]), fs[1..])
  {
    AfterDataIsSendFrame(v, fs[0]);
    hide AfterData, SendFrame;
  }

  ghost predicate MaySend(v: View, fs: seq<DataFrame>) {
    && ReadyToSend(v) && v.s.state == Open && !Ended(v.s.hist.submitted)
    && EndsOnlyLast(fs) && AllFor(v.s.id, fs)
  }

  /** All of `fs` was accepted, in order. */
  ghost predicate SentAll(v: View, fs: seq<DataFrame>, v': View) {
    && ReadyToSend(v') && Evolves(v, v')
    && v'.s.hist.submitted == v.s.hist.submitted + fs
    && v'.s.state in {Open, HalfClosedLocal}
    && v'.w.completions == v.w.completions
  }

  lemma HeadAndTail(id: StreamId, fs: seq<DataFrame>)
    requires fs != [] && EndsOnlyLast(fs) && AllFor(id, fs)
    ensures fs[0].streamId == id && EndsOnlyLast(fs[1..]) && AllFor(id, fs[1..])
    ensures |fs| > 1 ==> !fs[0].endStream
    ensures |fs| == 1 ==> fs == [fs[0]]
  {
  }

  lemma SentOne(v: View, fs: seq<DataFrame>)
    requires MaySend(v, fs) && fs != []
    ensures Accepts(v, fs[0], AfterData(v, fs[0]))
    ensures |fs| == 1 ==> SentAll(v, fs, AfterData(v, fs[0]))
    ensures |fs| > 1 ==> MaySend(AfterData(v, fs[0]), fs[1..])
  {
    hide AfterData, Valid, Conserves, Stranded, Settled, EndsOnlyLast, AllFor;
    HeadAndTail(v.s.id, fs);
    AfterDataKeeps(v, fs[0]);
    var v1 := AfterData(v, fs[0]);
    assert v1.s.id == v.s.id by { EvolvesId(v, v1); }
    hide Evolves;
  }

  lemma EvolvesId(v: View, v': View)
    requires Evolves(v, v')
    ensures v'.s.id == v.s.id
  {
  }

  lemma SentMore(v: View, fs: seq<DataFrame>, v1: View, v': View)
    requires fs != [] && Accepts(v, fs[0], v1) && SentAll(v1, fs[1..], v')
    ensures SentAll(v, fs, v')
  {
    assert (v.s.hist.submitted + [fs[0]]) + fs[1..] == v.s.hist.submitted + fs;
    EvolvesTransitive(v, v1, v');
    hide Valid, Evolves, Stranded, Settled;
  }

  lemma {:induction false} SendAllKeeps(v: View, fs: seq<DataFrame>) returns (v': View)
    requires MaySend(v, fs)
    ensures SendAll(v, fs) == Ok(v') && SentAll(v, fs, v')
    decreases fs
  {
    if fs == [] {
      assert v.s.hist.submitted + fs == v.s.hist.submitted;
      v' := v;
    } else {
      assert v.s.state == Open;
      hide AfterData, SendAll, SentAll, Accepts, MaySend;
      var v1 := AfterData(v, fs[0]);
      SendAllStep(v, fs);
      SentOne(v, fs);
      if |fs| == 1 {
        v' := v1;
        SendNothing(v1, fs[1..]);
      } else {
        v' := SendAllKeeps(v1, fs[1..]);
        SentMore(v, fs, v1, v');
      }
    }
  }

  lemma SendNothing(v: View, fs: seq<DataFrame>)
    requires fs == []
    ensures SendAll(v, fs) == Ok(v)
  {
  }

  /** The part of a body that its length in uint32 covers: all of it exactly for bodies below 2^32 bytes. */
  function Covered(body: seq<byte>): (r: seq<byte>)
    ensures r == body <==> |body| < UINT32
  {
    CoverIsPrefix(body);
    body[..ToUint32(|body|)]
  }

  lemma CoverIsPrefix(body: seq<byte>)
    ensures ToUint32(|body|) <= |body|
    ensures ToUint32(|body|) == |body| <==> |body| < UINT32
  {
  }

  /** All that the client ever sends of the upload has been handed over. */
  ghost predicate Uploaded(s: Stream) {
    var covered := Covered(s.hist.upload);
    if covered == [] then s.hist.submitted == [] else IsCutOf(s.hist.submitted, s.id, covered)
  }

  /** Cutting from the start, whenever it ends. */
  lemma ChunksCover(id: StreamId, data: seq<byte>, chunkSize: u32)
    requires Chunks(id, data, chunkSize, 0).Ok?
    ensures var fs := Chunks(id, data, chunkSize, 0).value;
            if Covered(data) == [] then fs == [] else IsCutOf(fs, id, Covered(data))
  {
    ChunksCut(id, data, chunkSize, 0);
    Wraps(0);
    assert 0 * chunkSize == 0;
    hide Chunks;
    assert data[0..ToUint32(|data|)] == Covered(data);
    hide IsCutOf;
  }

  lemma NewStreamValid(id: StreamId, command: Option<HttpCommand>, upload: seq<byte>, sendWindow: u32,
      receiveWindow: u32, w: Writer)
    ensures ReadyToSend(View(New(id, command, upload, sendWindow, receiveWindow), w))
  {
  }

  /** A request on a new stream: it crashes only where the body cannot be cut. */
  lemma SendRequestKeeps(v: View, cmd: HttpCommand, frameSize: u32)
    requires ReadyToSend(v) && v.s.state == Idle && v.s.hist.submitted == [] && v.s.hist.upload == cmd.body
    ensures SendRequest(v, cmd, frameSize).Crash? ==> cmd.body != [] && !Cuttable(|cmd.body|, frameSize)
    ensures SendRequest(v, cmd, frameSize).Crash? ==> SendRequest(v, cmd, frameSize).kind != IllegalStreamState
    ensures |cmd.body| < UINT32 && cmd.body != [] && !Cuttable(|cmd.body|, frameSize) ==>
            SendRequest(v, cmd, frameSize).Crash?
    ensures SendRequest(v, cmd, frameSize).Ok? ==>
              var v' := SendRequest(v, cmd, frameSize).value;
              && ReadyToSend(v') && Evolves(v, v') && Uploaded(v'.s) && Sized(v'.s.hist.submitted, frameSize)
              && v'.s.state in {Open, HalfClosedLocal}
              && v'.w.completions == v.w.completions
  {
    SendControlFrameKeeps(v, RequestHeaders(v.s.id, cmd));
    var v1 := SendFrame(v, RequestHeaders(v.s.id, cmd)).value;
    assert v1.s.state == (if cmd.body == [] then HalfClosedLocal else Open);
    assert ReadyToSend(v1);
    if cmd.body != [] {
      CuttingIsExact(v.s.id, cmd.body, frameSize);
      ChunksNeverTouchTheStream(v.s.id, cmd.body, frameSize, 0);
      var r := Chunks(v.s.id, cmd.body, frameSize, 0);
      if r.Ok? {
        ChunksCover(v.s.id, cmd.body, frameSize);
        ChunksSized(v.s.id, cmd.body, frameSize, 0);
        var v2 := SendAllKeeps(v1, r.value);
        assert v1.s.hist.submitted + r.value == r.value;
        EvolvesTransitive(v, v1, v2);
      }
    }
    hide SendFrame, SendAll, Chunks, Valid, Settled;
  }
}
