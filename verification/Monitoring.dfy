/** The monitoring report: a slice that is appended to and sorted in place after every append. */
module Monitoring {
  import opened Frames
  import opened StreamState
  import opened ConnectionSpec

  datatype StreamInfo = StreamInfo(streamId: StreamId, httpMethod: string, path: string, state: State,
      isCachedPushPromise: bool)

  predicate Less(a: StreamInfo, b: StreamInfo) {
    a.streamId < b.streamId
  }

  predicate Sorted(infos: seq<StreamInfo>) {
    forall i, j :: 0 <= i < j < |infos| ==> !Less(infos[j], infos[i])
  }

  predicate StrictlySorted(infos: seq<StreamInfo>) {
    forall i, j :: 0 <= i < j < |infos| ==> Less(infos[i], infos[j])
  }

  // ---------------------------------------------------------------- sorting in place

  method Swap(a: array<StreamInfo>, i: nat, j: nat)
    requires i < a.Length && j < a.Length
    modifies a
    ensures a[..] == old(a[..])[i := old(a[j])][j := old(a[i])]
    ensures multiset(a[..]) == multiset(old(a[..]))
  {
    a[i], a[j] := a[j], a[i];
  }

  /** The first `n` elements are in order but for the one at `k`, which belongs further to the front. */
  ghost predicate SortedBut(infos: seq<StreamInfo>, n: nat, k: nat) {
    && k < n <= |infos|
    && (forall i, j :: 0 <= i < j < n && i != k && j != k ==> !Less(infos[j], infos[i]))
    && (forall j :: k < j < n ==> !Less(infos[j], infos[k]))
  }

  /** sort.Sort: only Less and Swap touch the elements. */
  method Sort(a: array<StreamInfo>)
    modifies a
    ensures Sorted(a[..]) && multiset(a[..]) == multiset(old(a[..]))
  {
    hide Less;
    var n := 0;
    while n < a.Length
      invariant 0 <= n <= a.Length
      invariant Sorted(a[..n])
      invariant multiset(a[..]) == multiset(old(a[..]))
    {
      var k := n;
      assert SortedBut(a[..], n + 1, k);
      while k > 0 && Less(a[k], a[k - 1])
        invariant 0 <= k <= n
        invariant SortedBut(a[..], n + 1, k)
        invariant multiset(a[..]) == multiset(old(a[..]))
      {
        ghost var before := a[..];
        Swap(a, k - 1, k);
        SwapsForward(before, n + 1, k, a[..]);
        k := k - 1;
      }
      InPlace(a[..], n + 1, k);
      assert a[..n + 1] == a[..][..n + 1];
      n := n + 1;
    }
    assert a[..n] == a[..];
  }

  lemma SwapsForward(s: seq<StreamInfo>, n: nat, k: nat, t: seq<StreamInfo>)
    requires SortedBut(s, n, k) && k > 0 && Less(s[k], s[k - 1]) && t == s[k - 1 := s[k]][k := s[k - 1]]
    ensures SortedBut(t, n, k - 1)
  {
  }

  lemma InPlace(s: seq<StreamInfo>, n: nat, k: nat)
    requires SortedBut(s, n, k) && (k == 0 || !Less(s[k], s[k - 1]))
    ensures Sorted(s[..n])
  {
    forall i, j | 0 <= i < j < n ensures !Less(s[j], s[i]) {
      if j == k && i < k - 1 {
        assert !Less(s[k - 1], s[i]);
      }
    }
  }

  class MonitoringCommandResult {
    var streamInfo: array<StreamInfo>

    constructor ()
      ensures fresh(streamInfo) && streamInfo[..] == []
    {
      streamInfo := new StreamInfo[0];
    }

    method AddStreamInfo(info: StreamInfo)
      modifies this
      ensures fresh(streamInfo)
      ensures Sorted(streamInfo[..])
      ensures multiset(streamInfo[..]) == multiset(old(streamInfo[..])) + multiset{info}
    {
      var old' := streamInfo;
      var appended := new StreamInfo[old'.Length + 1](i requires 0 <= i <= old'.Length reads old' =>
          if i < old'.Length then old'[i] else info);
      assert appended[..] == old'[..] + [info];
      Sort(appended);
      streamInfo := appended;
    }
  }

  // ---------------------------------------------------------------- what the report says

  function InfoOf(c: Connection, id: StreamId): StreamInfo
    requires id in c.streams && c.streams[id] < |c.store|
  {
    var s := c.store[c.streams[id]];
    StreamInfo(id, FindHeader(":method", s.requestHeaders), FindHeader(":path", s.requestHeaders), s.state,
        id in c.cache)
  }

  /** Each visited stream once, in strictly increasing order of ids, with its current state. */
  ghost predicate IsReport(infos: seq<StreamInfo>, c: Connection, visited: set<StreamId>)
    requires WellFormed(c) && visited <= c.streams.Keys
  {
    && StrictlySorted(infos)
    && (forall k :: 0 <= k < |infos| ==> infos[k].streamId in visited && infos[k] == InfoOf(c, infos[k].streamId))
    && (forall id <- visited :: InfoOf(c, id) in infos)
  }

  lemma TwiceInMultiset(infos: seq<StreamInfo>, i: nat, j: nat)
    requires i < j < |infos| && infos[i] == infos[j]
    ensures multiset(infos)[infos[i]] >= 2
  {
    assert infos == infos[..j] + infos[j..];
    assert infos[..j][i] == infos[i] && infos[j..][0] == infos[i];
    assert infos[i] in infos[..j] && infos[i] in infos[j..];
  }

  lemma {:induction false} OnceInMultiset(infos: seq<StreamInfo>, x: StreamInfo)
    requires StrictlySorted(infos)
    ensures multiset(infos)[x] <= 1
    decreases infos
  {
    if infos != [] {
      var init, last := infos[..|infos| - 1], infos[|infos| - 1];
      assert infos == init + [last];
      OnceInMultiset(init, x);
      if x in init {
        var k :| 0 <= k < |init| && init[k] == x;
        assert Less(infos[k], infos[|infos| - 1]);
      }
    }
  }

  /** One AddStreamInfo, for a stream not visited before. */
  lemma AddingReports(infos: seq<StreamInfo>, infos': seq<StreamInfo>, c: Connection, visited: set<StreamId>,
      id: StreamId)
    requires WellFormed(c) && visited <= c.streams.Keys && id in c.streams && id !in visited
    requires IsReport(infos, c, visited)
    requires Sorted(infos') && multiset(infos') == multiset(infos) + multiset{InfoOf(c, id)}
    ensures IsReport(infos', c, visited + {id})
  {
    var info := InfoOf(c, id);
    forall x ensures x in infos' <==> x in infos || x == info {
      assert x in infos' <==> x in multiset(infos');
      assert x in infos <==> x in multiset(infos);
    }
    assert info !in infos;
    hide InfoOf;
    forall k | 0 <= k < |infos'|
      ensures infos'[k].streamId in visited + {id} && infos'[k] == InfoOf(c, infos'[k].streamId)
    {
      assert infos'[k] in infos';
      if infos'[k] in infos {
        var j :| 0 <= j < |infos| && infos[j] == infos'[k];
      } else {
        assert infos'[k].streamId == id by { IdOf(c, id); }
      }
    }
    forall i, j | 0 <= i < j < |infos'| ensures Less(infos'[i], infos'[j]) {
      if infos'[i].streamId == infos'[j].streamId {
        TwiceInMultiset(infos', i, j);
        OnceInMultiset(infos, infos'[i]);
      }
    }
  }

  lemma IdOf(c: Connection, id: StreamId)
    requires id in c.streams && c.streams[id] < |c.store|
    ensures InfoOf(c, id).streamId == id
  {
  }

  lemma {:induction false} SameIds(a: seq<StreamInfo>, b: seq<StreamInfo>)
    requires StrictlySorted(a) && StrictlySorted(b) && forall x :: x in a <==> x in b
    ensures a == b
    decreases |a| + |b|
  {
    assert (a != [] ==> a[0] in b) && (b != [] ==> b[0] in a);
    if a != [] && b != [] {
      var (x, y) := (a[|a| - 1], b[|b| - 1]);
      assert x in b && y in a;
      var i :| 0 <= i < |b| && b[i] == x;
      var j :| 0 <= j < |a| && a[j] == y;
      assert x == y;
      var (a', b') := (a[..|a| - 1], b[..|b| - 1]);
      forall z ensures z in a' <==> z in b' {
        InitOf(a, z);
        InitOf(b, z);
      }
      SameIds(a', b');
      assert a == a' + [x] && b == b' + [y];
    }
  }

  lemma InitOf(a: seq<StreamInfo>, z: StreamInfo)
    requires StrictlySorted(a) && a != []
    ensures z in a[..|a| - 1] <==> z in a && z != a[|a| - 1]
  {
    var init, last := a[..|a| - 1], a[|a| - 1];
    assert a == init + [last];
    if z in init {
      var k :| 0 <= k < |init| && init[k] == z;
      assert Less(a[k], a[|a| - 1]);
    }
  }

  /** An entry tells method, path and state of its stream, and whether its id is in the push cache. */
  predicate Tells(info: StreamInfo, c: Connection) {
    && info.streamId in c.streams && c.streams[info.streamId] < |c.store|
    && var s := c.store[c.streams[info.streamId]];
       && info.httpMethod == FindHeader(":method", s.requestHeaders)
       && info.path == FindHeader(":path", s.requestHeaders)
       && info.state == s.state
       && (info.isCachedPushPromise <==> info.streamId in c.cache)
  }

  /**
   Whatever the order of the visit, the report is the same: one entry per stream, by increasing ids, each telling the
   state of its stream.
   */
  lemma ReportIsDetermined(a: seq<StreamInfo>, b: seq<StreamInfo>, c: Connection)
    requires WellFormed(c) && IsReport(a, c, c.streams.Keys) && IsReport(b, c, c.streams.Keys)
    ensures a == b && |a| == |c.streams.Keys|
    ensures forall k :: 0 <= k < |a| ==> Tells(a[k], c)
    ensures forall i, j :: 0 <= i < j < |a| ==> a[i].streamId < a[j].streamId
  {
    forall k | 0 <= k < |a| ensures Tells(a[k], c) {
      assert a[k] == InfoOf(c, a[k].streamId);
    }
    hide InfoOf;
    forall x | x in a ensures x in b {
      var k :| 0 <= k < |a| && a[k] == x;
      assert InfoOf(c, a[k].streamId) in b;
    }
    forall x | x in b ensures x in a {
      var k :| 0 <= k < |b| && b[k] == x;
      assert InfoOf(c, b[k].streamId) in a;
    }
    SameIds(a, b);
    ReportLength(a, c, c.streams.Keys);
  }

  /** The report has one entry per stream. */
  lemma {:induction false} ReportLength(infos: seq<StreamInfo>, c: Connection, visited: set<StreamId>)
    requires WellFormed(c) && visited <= c.streams.Keys && IsReport(infos, c, visited)
    ensures |infos| == |visited|
    decreases |visited|
  {
    if infos == [] {
      assert visited == {};
    } else {
      var init, last := infos[..|infos| - 1], infos[|infos| - 1];
      forall id | id in visited - {last.streamId} ensures InfoOf(c, id) in init {
        IdOf(c, id);
        InitOf(infos, InfoOf(c, id));
      }
      forall k | 0 <= k < |init| ensures init[k].streamId in visited - {last.streamId} {
        assert Less(infos[k], infos[|infos| - 1]);
      }
      ReportLength(init, c, visited - {last.streamId});
    }
  }
}
