/** How the loop that sends a request body, which goes forward, meets the functions that specify it. */
module EngineLemmas {
  import opened Wrappers
  import opened Frames
  import opened StreamState
  import opened StreamSpec
  import opened ConnectionSpec
  import U = UploadTheorems

  /** The loop of sendDataFrames from chunk `sent` on: each chunk is sent before the next one is cut. */
  function SendFrom(v: View, data: seq<byte>, chunkSize: u32, sent: u32): Outcome<View>
    decreases ToUint32(|data|) - ToUint32(sent * chunkSize)
  {
    var (from, total, next) := (ToUint32(sent * chunkSize), ToUint32(|data|), ToUint32(sent + 1));
    if from >= total then Ok(v)
    else if chunkSize == 0 then Crash(EndlessLoop)
    else
      var to := ToUint32(next * chunkSize);
      var end := if to < total then to else total;
      if end < from then Crash(SliceOutOfRange)
      else
        ChunkAdvances(sent, chunkSize, total);
        var v1 :- SendFrame(v, Data(DataFrame(v.s.id, data[from..end], to >= total)));
        SendFrom(v1, data, chunkSize, next)
  }

  /** One turn of the loop. */
  lemma SendFromUnfolds(v: View, data: seq<byte>, chunkSize: u32, sent: u32)
    requires ToUint32(sent * chunkSize) < ToUint32(|data|) && chunkSize != 0
    ensures var (from, total, next) := (ToUint32(sent * chunkSize), ToUint32(|data|), ToUint32(sent + 1));
            var to := ToUint32(next * chunkSize);
            var end := if to < total then to else total;
            if end < from then SendFrom(v, data, chunkSize, sent) == Crash(SliceOutOfRange)
            else
              && from < to && total <= |data|
              && SendFrom(v, data, chunkSize, sent) ==
                 match SendFrame(v, Data(DataFrame(v.s.id, data[from..end], to >= total)))
                 case Ok(v1) => SendFrom(v1, data, chunkSize, next)
                 case Crash(kind) => Crash(kind)
  {
    hide SendFrame, ToUint32;
    NeverMore(|data|);
    if ToUint32(sent * chunkSize) <= ToUint32(ToUint32(sent + 1) * chunkSize) {
      ChunkAdvances(sent, chunkSize, ToUint32(|data|));
    }
  }

  lemma NeverMore(n: nat)
    ensures ToUint32(n) <= n
  {
  }

  /** An open stream accepts DATA, and stays open until END_STREAM has gone out. */
  lemma OpenAccepts(v: View, d: DataFrame)
    requires v.s.state == Open
    ensures SendFrame(v, Data(d)).Ok?
    ensures !d.endStream ==> SendFrame(v, Data(d)).value.s.state == Open
    ensures SendFrame(v, Data(d)).value.s.id == v.s.id
  {
  }

  /** On an open stream nothing depends on sending each chunk before the next one is cut. */
  lemma {:induction false} SendFromIsSendChunks(v: View, data: seq<byte>, chunkSize: u32, sent: u32)
    requires v.s.state == Open
    ensures SendFrom(v, data, chunkSize, sent) ==
            match Chunks(v.s.id, data, chunkSize, sent)
            case Ok(frames) => SendAll(v, frames)
            case Crash(kind) => Crash(kind)
    decreases ToUint32(|data|) - ToUint32(sent * chunkSize)
  {
    hide SendFrame;
    var (from, total, next) := (ToUint32(sent * chunkSize), ToUint32(|data|), ToUint32(sent + 1));
    var to := ToUint32(next * chunkSize);
    var end := if to < total then to else total;
    if from < total && chunkSize != 0 && from <= end {
      ChunkAdvances(sent, chunkSize, total);
      hide ToUint32;
      var d := DataFrame(v.s.id, data[from..end], to >= total);
      OpenAccepts(v, d);
      var v1 := SendFrame(v, Data(d)).value;
      if d.endStream {
        assert Chunks(v.s.id, data, chunkSize, next) == Ok([]);
        assert SendAll(v1, []) == Ok(v1);
        assert ([d] + [])[1..] == [];
      } else {
        SendFromIsSendChunks(v1, data, chunkSize, next);
        if Chunks(v.s.id, data, chunkSize, next).Ok? {
          var rest := Chunks(v.s.id, data, chunkSize, next).value;
          assert ([d] + rest)[1..] == rest;
        }
      }
    }
  }

  lemma RequestOpens(v: View, cmd: HttpCommand)
    requires v.s.state == Idle
    ensures SendFrame(v, RequestHeaders(v.s.id, cmd)).Ok?
    ensures cmd.body != [] ==> SendFrame(v, RequestHeaders(v.s.id, cmd)).value.s.state == Open
  {
  }

  /** RST_STREAM on a stream that is not closed, whatever its state: the command is told the server's code. */
  lemma ResetTells(v: View, f: Frame)
    requires f.RstStream? && v.s.state != Closed && v.s.command.Some?
    ensures ReceiveFrame(v, f).Ok?
    ensures var v' := ReceiveFrame(v, f).value;
            && v'.s.state == Closed && v'.w.log == v.w.log
            && v'.w.completions ==
               v.w.completions + [Completion(v.s.command.value.id, StreamFailure(ClosedByServer(f.errorCode)))]
  {
  }

  /** The log has gained the HEADERS frame of a request, and after it nothing but DATA. */
  ghost predicate AsksFirst(log: seq<Frame>, log': seq<Frame>, id: StreamId, cmd: HttpCommand) {
    && |log| < |log'| && log == log'[..|log|]
    && log'[|log|] == Headers(id, cmd.body == [], true, false, cmd.headers)
    && forall k :: |log| < k < |log'| ==> log'[k].Data?
  }

  lemma RequestAsksFirst(c: Connection, cmd: HttpCommand)
    requires DoRequest(c, cmd).Ok?
    ensures AsksFirst(c.writer.log, DoRequest(c, cmd).value.writer.log, NextId(c.streams.Keys), cmd)
  {
    hide DoRequest, NextId;
    U.RequestAsks(c, cmd);
  }
}
