/** What the sending side guarantees in every state of every run. */
module SendTheorems {
  import opened Frames
  import opened StreamSpec
  import opened ConnectionSpec
  import opened RequestLemmas
  import opened Runs
  import opened WireTheorems
  import SL = StreamLemmas

  /** No lost wake-up: what waits does not fit, whatever the order in which drains visited the streams. */
  lemma NoLostWakeUp(states: seq<Connection>, inputs: seq<Input>, k: nat, id: StreamId)
    requires IsRun(states, inputs) && k < |states| && id in states[k].streams
    ensures var c := states[k];
            && c.streams[id] < |c.store|
            && var s := c.store[c.streams[id]];
               s.pending != [] ==> s.sendWindow <= |s.pending[0].data| || c.writer.sendWindow <= |s.pending[0].data|
  {
    RunKeeps(states, inputs, k);
    assert SettledAt(states[k], id);
    hide Step, StreamSound;
  }

  /** All credit a stream was given: its window at creation and the increments since. */
  function StreamCredit(s: Stream): int {
    s.initialSendWindow + s.hist.credit
  }

  function ConnectionCredit(c: Connection): int {
    INITIAL_WINDOW + c.hist.credit
  }

  /**
   Credit is conserved, per stream and for the connection as a whole, and is never overdrawn: the bytes of the DATA
   frames in the log and the windows that are left are all the credit there was.
   */
  lemma CreditConservation(states: seq<Connection>, inputs: seq<Input>, k: nat, h: nat)
    requires IsRun(states, inputs) && k < |states| && h < |states[k].store|
    ensures var c, s := states[k], states[k].store[h];
            && SL.Bytes(SentBy(c, h)) + s.sendWindow == StreamCredit(s)
            && s.sendWindow >= 0
            && SL.Bytes(Datas(c.writer.log)) + c.writer.sendWindow == ConnectionCredit(c)
            && c.writer.sendWindow >= 1
  {
    SentIsWritten(states, inputs, k, h);
    LogCarriesData(states, inputs, k);
    RunKeeps(states, inputs, k);
    assert StreamSound(states[k].store[h]);
    hide Step, SentBy, Datas, DataOf, WrittenFor;
  }

  /**
   Upload end to end, for every stream: the DATA frames that the log has for it, followed by those that wait, carry the
   part of the body that its uint32 length covers, which is all of it exactly below 2^32 bytes; they carry its id;
   END_STREAM is on the last frame only, and once it is in the log everything is.
   */
  lemma UploadInOrder(states: seq<Connection>, inputs: seq<Input>, k: nat, h: nat)
    requires IsRun(states, inputs) && k < |states| && h < |states[k].store|
    ensures var c, s := states[k], states[k].store[h];
            var sent, covered := SentBy(c, h), Covered(s.hist.upload);
            && (covered == s.hist.upload <==> |s.hist.upload| < UINT32)
            && SL.Payload(sent) + SL.Payload(s.pending) == covered
            && SL.AllFor(s.id, sent + s.pending)
            && SL.EndsOnlyLast(sent + s.pending)
            && (covered != [] ==> SL.Ended(sent + s.pending))
            && (SL.Ended(sent) ==> s.pending == [] && SL.Payload(sent) == covered)
            && (Sole(c.store, h) ==> sent == DataOf(c.writer.log, s.id))
  {
    SentIsWritten(states, inputs, k, h);
    RunStream(states, inputs, k, h);
    hide IsRun, Covered, SentBy, DataOf, Sole;
    var s := states[k].store[h];
    SL.BytesConcat(s.hist.written, s.pending);
    assert SL.Payload([]) == [];
    if s.hist.written != [] {
      assert s.hist.submitted[|s.hist.written| - 1] == s.hist.written[|s.hist.written| - 1];
    }
  }

  // ---------------------------------------------------------------- the greedy prefix

  /** `n` frames are the longest prefix of `fs` whose running total stays below `limit`. */
  ghost predicate LongestBelow(n: nat, fs: seq<DataFrame>, limit: int) {
    && n <= |fs|
    && forall k :: 0 <= k <= |fs| ==> (k <= n <==> k == 0 || SL.Bytes(fs[..k]) < limit)
  }

  lemma LongestIsUnique(n: nat, m: nat, fs: seq<DataFrame>, limit: int)
    requires LongestBelow(n, fs, limit) && LongestBelow(m, fs, limit)
    ensures n == m
  {
    assert n <= m <==> n == 0 || SL.Bytes(fs[..n]) < limit;
    assert m <= n <==> m == 0 || SL.Bytes(fs[..m]) < limit;
  }

  lemma {:induction false} BytesMonotone(fs: seq<DataFrame>, j: nat, k: nat)
    requires j <= k <= |fs|
    ensures SL.Bytes(fs[..j]) <= SL.Bytes(fs[..k])
    decreases k
  {
    if j < k {
      assert fs[..k][..k - 1] == fs[..k - 1];
      BytesMonotone(fs, j, k - 1);
    }
  }

  function Min(a: int, b: int): int {
    if a < b then a else b
  }

  /** Bytes of DATA that the log has for all streams but one. */
  function OthersSent(c: Connection, h: nat): int
    requires h < |c.store|
  {
    SL.Bytes(Datas(c.writer.log)) - SL.Bytes(SentBy(c, h))
  }

  /** The credit of a stream, or what the other streams left of the connection's if that is less. */
  function Limit(c: Connection, h: nat): int
    requires h < |c.store|
  {
    Min(StreamCredit(c.store[h]), ConnectionCredit(c) - OthersSent(c, h))
  }

  /**
   Greedy-prefix refinement: in every state, the log has for a stream exactly the longest prefix of what was submitted
   that the stream's own credit, and the connection credit that the other streams left over, strictly exceed.
   */
  lemma GreedyPrefix(states: seq<Connection>, inputs: seq<Input>, k: nat, id: StreamId)
    requires IsRun(states, inputs) && k < |states| && id in states[k].streams
    ensures var c := states[k];
            && c.streams[id] < |c.store|
            && var h := c.streams[id];
               && SentBy(c, h) <= c.store[h].hist.submitted
               && LongestBelow(|SentBy(c, h)|, c.store[h].hist.submitted, Limit(c, h))
  {
    hide IsRun, SL.Valid, SL.Settled, Uploaded, LongestBelow, SL.Bytes, TotalWritten, SentBy, Datas, DataOf, Sole,
         WrittenFor;
    RunKeeps(states, inputs, k);
    var c := states[k];
    var h := c.streams[id];
    assert SettledAt(c, id);
    RunStream(states, inputs, k, h);
    CreditConservation(states, inputs, k, h);
    SentIsWritten(states, inputs, k, h);
    hide Valid;
    GreedyStream(c.store[h], StreamCredit(c.store[h]), ConnectionCredit(c) - OthersSent(c, h), c.writer.sendWindow);
  }

  lemma GreedyStream(s: Stream, credit: int, share: int, window: int)
    requires SL.Valid(s) && SL.Settled(s, window) && window >= 1
    requires SL.Bytes(s.hist.written) + s.sendWindow == credit && SL.Bytes(s.hist.written) + window == share
    ensures s.hist.written <= s.hist.submitted
    ensures LongestBelow(|s.hist.written|, s.hist.submitted, Min(credit, share))
  {
    var fs, n := s.hist.submitted, |s.hist.written|;
    assert fs[..n] == s.hist.written;
    forall k | 0 <= k <= |fs| ensures k <= n <==> k == 0 || SL.Bytes(fs[..k]) < Min(credit, share) {
      if k <= n {
        BytesMonotone(fs, k, n);
      } else {
        BytesMonotone(fs, n + 1, k);
        assert fs[..n + 1] == s.hist.written + [s.pending[0]];
        SL.BytesAppend(s.hist.written, s.pending[0]);
      }
    }
    hide SL.Valid;
  }

  /**
   Only totals of credit matter: two runs that submitted the same frames on a stream, and left it the same total of
   credit, have put the same frames on the wire for it, however that credit was split and ordered and whatever the other
   streams did.
   */
  lemma CreditTotalsDecide(
    states: seq<Connection>, inputs: seq<Input>, k: nat, id: StreamId,
    states': seq<Connection>, inputs': seq<Input>, k': nat, id': StreamId)
    requires IsRun(states, inputs) && k < |states| && id in states[k].streams
    requires states[k].streams[id] < |states[k].store|
    requires IsRun(states', inputs') && k' < |states'| && id' in states'[k'].streams
    requires states'[k'].streams[id'] < |states'[k'].store|
    requires var (c, c') := (states[k], states'[k']);
             var (h, h') := (c.streams[id], c'.streams[id']);
             && c.store[h].hist.submitted == c'.store[h'].hist.submitted
             && Limit(c, h) == Limit(c', h')
    ensures var (c, c') := (states[k], states'[k']);
            var (h, h') := (c.streams[id], c'.streams[id']);
            SentBy(c, h) == SentBy(c', h') && c.store[h].pending == c'.store[h'].pending
  {
    hide IsRun, LongestBelow, SentBy, Limit, Sole, DataOf;
    var (c, c') := (states[k], states'[k']);
    var (h, h') := (c.streams[id], c'.streams[id']);
    GreedyPrefix(states, inputs, k, id);
    GreedyPrefix(states', inputs', k', id');
    LongestIsUnique(|SentBy(c, h)|, |SentBy(c', h')|, c.store[h].hist.submitted, Limit(c, h));
    SubmittedSplits(states, inputs, k, h);
    SubmittedSplits(states', inputs', k', h');
    RestIsPending(c.store[h].hist.submitted, SentBy(c, h), c.store[h].pending);
    RestIsPending(c.store[h].hist.submitted, SentBy(c', h'), c'.store[h'].pending);
  }

  lemma RestIsPending(submitted: seq<DataFrame>, sent: seq<DataFrame>, pending: seq<DataFrame>)
    requires submitted == sent + pending
    ensures sent == submitted[..|sent|] && pending == submitted[|sent|..]
  {
  }

  lemma SubmittedSplits(states: seq<Connection>, inputs: seq<Input>, k: nat, h: nat)
    requires IsRun(states, inputs) && k < |states| && h < |states[k].store|
    ensures states[k].store[h].hist.submitted == SentBy(states[k], h) + states[k].store[h].pending
  {
    SentIsWritten(states, inputs, k, h);
    RunStream(states, inputs, k, h);
    hide IsRun, SentBy, DataOf, Sole, Uploaded;
  }

  // ---------------------------------------------------------------- progress

  function TotalSubmitted(store: seq<Stream>): nat {
    if store == [] then 0
    else TotalSubmitted(store[..|store| - 1]) + SL.Bytes(store[|store| - 1].hist.submitted)
  }

  /** Submitted frames cover the written ones, and on stream `h` its waiting ones too. */
  lemma {:induction false} SubmittedCoversWritten(store: seq<Stream>, h: nat)
    requires forall i :: 0 <= i < |store| ==> SL.Valid(store[i])
    ensures TotalWritten(store) <= TotalSubmitted(store)
    ensures h < |store| ==> TotalWritten(store) + SL.Bytes(store[h].pending) <= TotalSubmitted(store)
    decreases store
  {
    if store != [] {
      var last := store[|store| - 1];
      SubmittedCoversWritten(store[..|store| - 1], h);
      SL.BytesConcat(last.hist.written, last.pending);
      assert h < |store| - 1 ==> store[..|store| - 1][h] == store[h];
    }
  }

  lemma HeadFits(fs: seq<DataFrame>)
    requires fs != []
    ensures |fs[0].data| <= SL.Bytes(fs)
  {
    BytesMonotone(fs, 1, |fs|);
    assert fs[..1][..0] == [] && fs[..|fs|] == fs;
  }

  /** Progress: with enough credit for all that was submitted, no stream has anything left waiting. */
  lemma EnoughCreditDrains(states: seq<Connection>, inputs: seq<Input>, k: nat, id: StreamId)
    requires IsRun(states, inputs) && k < |states| && id in states[k].streams
    requires states[k].streams[id] < |states[k].store|
    requires var s := states[k].store[states[k].streams[id]]; StreamCredit(s) > SL.Bytes(s.hist.submitted)
    requires ConnectionCredit(states[k]) > TotalSubmitted(states[k].store)
    ensures states[k].store[states[k].streams[id]].pending == []
  {
    hide IsRun, SL.Valid, Sound, AllSettled, SentBy, Datas;
    var c := states[k];
    var h := c.streams[id];
    NoLostWakeUp(states, inputs, k, id);
    CreditConservation(states, inputs, k, h);
    LogCarriesData(states, inputs, k);
    RunKeeps(states, inputs, k);
    forall i | 0 <= i < |c.store| ensures SL.Valid(c.store[i]) {
      RunStream(states, inputs, k, i);
    }
    SubmittedCoversWritten(c.store, h);
    SubmittedSplits(states, inputs, k, h);
    SL.BytesConcat(SentBy(c, h), c.store[h].pending);
    if c.store[h].pending != [] {
      HeadFits(c.store[h].pending);
    }
  }
}
