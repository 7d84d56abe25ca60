/** What an HTTP command comes to: a promised response, a request on the wire, or an error. */
module CommandTheorems {
  import opened Wrappers
  import opened Frames
  import opened StreamState
  import opened StreamSpec
  import opened ConnectionSpec
  import opened Runs
  import opened Actions
  import opened UploadTheorems
  import HL = HonestLemmas
  import SL = StreamLemmas

  /** The value found is that of the first header with the name; where there is none, it is empty. */
  lemma {:induction false} FirstHeader(name: string, headers: seq<HeaderField>, k: nat)
    requires k <= |headers| && forall n :: 0 <= n < k ==> headers[n].name != name
    requires k < |headers| ==> headers[k].name == name
    ensures FindHeader(name, headers) == if k < |headers| then headers[k].value else ""
    decreases |headers|
  {
    if headers != [] && k > 0 {
      assert forall n :: 0 <= n < k - 1 ==> headers[1..][n] == headers[n + 1];
      FirstHeader(name, headers[1..], k - 1);
    }
  }

  /** The stream has been promised as the response to a GET of this path. */
  predicate Answers(s: Stream, path: string) {
    FindHeader(":method", s.requestHeaders) == "GET" && FindHeader(":path", s.requestHeaders) == path
  }

  /** The push cache has a response for this path. */
  ghost predicate HasAnswer(c: Connection, path: string)
    requires WellFormed(c)
  {
    exists id :: id in c.cache && Answers(c.store[c.cache[id]], path)
  }

  lemma {:induction false} SearchingFinds(c: Connection, path: string, order: seq<StreamId>)
    requires WellFormed(c)
    ensures var r := FindPromised(c, path, order);
            if r.Some? then r.value in c.cache && Answers(c.store[c.cache[r.value]], path)
            else forall id <- order :: id in c.cache ==> !Answers(c.store[c.cache[id]], path)
    decreases order
  {
    hide FindHeader;
    if order != [] {
      SearchingFinds(c, path, order[..|order| - 1]);
    }
  }

  /** The command gets the response that is, or will be, on stream `id`, and nothing goes out. */
  predicate Given(c: Connection, id: StreamId, cmd: HttpCommand, c': Connection)
    requires id in c.cache && c.cache[id] < |c.store|
  {
    var (h, s) := (c.cache[id], c.store[c.cache[id]]);
    var result := if s.err.Some? then StreamFailure(s.err.value) else Response(s.responseHeaders, s.responseBody);
    && c' == c.(store := c'.store, cache := c.cache - {id}, writer := c'.writer, hist := c'.hist)
    && c'.hist.issuedIds == c.hist.issuedIds
    && c'.store == (if s.command.Some? then c.store else c.store[h := s.(command := Some(cmd))])
    && c'.writer == c.writer.(completions := c.writer.completions +
         if s.command.Some? then [Completion(cmd.id, AlreadyBound)]
         else if s.state == Closed then [Completion(cmd.id, result)]
         else [])
  }

  /** A new stream has asked for it. */
  ghost predicate Sent(c: Connection, cmd: HttpCommand, c': Connection) {
    && |c'.hist.issuedIds| == |c.hist.issuedIds| + 1 && |c'.store| == |c.store| + 1
    && c' == c.(store := c'.store, streams := c'.streams, writer := c'.writer, hist := c'.hist)
    && c'.store[..|c.store|] == c.store
    && var (id, s) := (c'.hist.issuedIds[|c.hist.issuedIds|], c'.store[|c.store|]);
       && c'.streams == c.streams[id := |c.store|] && s.id == id && s.command == Some(cmd)
       && s.requestHeaders == cmd.headers && s.responseHeaders == [] && s.responseBody == []
       && s.state in {Open, HalfClosedLocal} && s.err.None?
       && c'.writer.completions == c.writer.completions
       && SL.AllFor(id, s.hist.written)
       && c'.writer.log ==
          c.writer.log + [Headers(id, cmd.body == [], true, false, cmd.headers)] + AsFrames(s.hist.written)
  }

  /** The command cannot be sent. */
  predicate TurnedDown(c: Connection, cmd: HttpCommand, reason: CommandResult, c': Connection) {
    && c' == c.(writer := c'.writer, hist := c'.hist) && c'.hist.issuedIds == c.hist.issuedIds
    && c'.writer == c.writer.(completions := c.writer.completions + [Completion(cmd.id, reason)])
  }

  /** What an HTTP command comes to, by its method, its path and the push cache. */
  ghost predicate CommandEffect(c: Connection, cmd: HttpCommand, c': Connection)
    requires WellFormed(c)
  {
    var (verb, path) := (FindHeader(":method", cmd.headers), FindHeader(":path", cmd.headers));
    if verb == "GET" && HasAnswer(c, path) then
      exists id :: id in c.cache && Answers(c.store[c.cache[id]], path) && Given(c, id, cmd, c')
    else if verb == "GET" || verb == "PUT" || verb == "POST" then Sent(c, cmd, c')
    else TurnedDown(c, cmd, if verb == "" then MethodMissing else MethodNotSupported, c')
  }

  lemma TakingGives(c: Connection, cmd: HttpCommand, id: StreamId)
    requires id in c.cache && c.cache[id] < |c.store|
    ensures Given(c, id, cmd, TakeFromCache(CountCommand(c, cmd), cmd, id))
  {
    var (h, s) := (c.cache[id], c.store[c.cache[id]]);
    assert c.store[h := s] == c.store;
    assert c.writer.completions + [] == c.writer.completions;
  }

  lemma RequestingSends(c: Connection, cmd: HttpCommand)
    requires Sound(c) && DoRequest(CountCommand(c, cmd), cmd).Ok?
    ensures Sent(c, cmd, DoRequest(CountCommand(c, cmd), cmd).value)
  {
    var c0 := CountCommand(c, cmd);
    CountCommandKeeps(c, cmd);
    var s := HL.RequestIs(c0, cmd);
    RequestsChange(c0, cmd);
    assert DoRequest(c0, cmd) == Act(c0, Requests(cmd));
    hide DoRequest, NextId, Sound, Act;
    RequestingAsks(c0, cmd);
  }

  lemma RequestsChange(c: Connection, cmd: HttpCommand)
    requires DoRequest(c, cmd).Ok?
    ensures var c' := DoRequest(c, cmd).value;
            c' == c.(store := c'.store, streams := c'.streams, writer := c'.writer, hist := c'.hist)
  {
    hide SendRequest, NextId;
  }

  /**
   Every HTTP command, whatever the order in which the cache is searched: a GET is answered from the push cache
   exactly if an entry there has its method and path, on the stream of such an entry; otherwise a GET, PUT or POST
   is sent, once; a command with another method, or none, is turned down.
   */
  lemma CommandHasEffect(c: Connection, i: Input)
    requires Sound(c) && WellFormed(c) && i.event.Http? && Legal(c, i) && Step(c, i).Ok?
    ensures CommandEffect(c, i.event.command, Step(c, i).value)
  {
    hide Sound, DoRequest, TakeFromCache, FindHeader, FindPromised, Sent, Given, Complete;
    var cmd := i.event.command;
    var c0 := CountCommand(c, cmd);
    var path := FindHeader(":path", cmd.headers);
    assert WellFormed(c0);
    SearchingFinds(c0, path, i.order);
    HL.HttpStep(c, i);
    match MethodOf(cmd) {
      case Get =>
        match FindPromised(c0, path, i.order) {
          case None =>
            assert !HasAnswer(c, path);
            RequestingSends(c, cmd);
          case Some(id) =>
            assert HasAnswer(c, path);
            TakingGives(c, cmd, id);
        }
      case PutOrPost => RequestingSends(c, cmd);
      case Missing => Refusing(c, cmd, MethodMissing);
      case Unsupported => Refusing(c, cmd, MethodNotSupported);
    }
  }

  lemma Refusing(c: Connection, cmd: HttpCommand, reason: CommandResult)
    ensures TurnedDown(c, cmd, reason, Complete(CountCommand(c, cmd), cmd, reason))
  {
  }
}
