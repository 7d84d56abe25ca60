/**
 The stream state machine of RFC 7540, section 5.1, as the client implements it.
 `Incoming` and `Outgoing` return the states that are set one after the other, oldest first.
 */
module StreamState {
  import opened Wrappers
  import opened Frames

  datatype State = Idle | ReservedLocal | ReservedRemote | Open | HalfClosedRemote | HalfClosedLocal | Closed

  /** States set on receipt of `f`, or None for a STREAM_CLOSED stream error. */
  function Incoming(st: State, f: Frame): Option<seq<State>> {
    match f
    case Data(d) =>
      if st !in {Open, HalfClosedLocal} then None else Some(RemoteEnd(st, d.endStream))
    case Headers(_, endStream, _, _, _) =>
      if st !in {Idle, Open, HalfClosedLocal, ReservedRemote} then None
      else if st == ReservedRemote then Some([HalfClosedLocal] + RemoteEnd(HalfClosedLocal, endStream))
      else Some(RemoteEnd(st, endStream))
    case RstStream(_, _) => Some([Closed])
    case PushPromise(_, _, _, _) => if st != Idle then None else Some([ReservedRemote])
    case _ => Some([])
  }

  function RemoteEnd(st: State, endStream: bool): seq<State> {
    if endStream && st == Open then [HalfClosedRemote]
    else if endStream && st == HalfClosedLocal then [Closed]
    else []
  }

  /** States set when `f` is sent; a panic where the state is not one of those MustBeIn allows. */
  function Outgoing(st: State, f: Frame): Outcome<seq<State>> {
    match f
    case Data(d) =>
      if st !in {Open, HalfClosedRemote} then Crash(IllegalStreamState) else Ok(LocalEnd(st, d.endStream))
    case Headers(_, endStream, _, _, _) =>
      if st !in {Idle, Open, HalfClosedRemote} then Crash(IllegalStreamState)
      else if st == Idle then Ok([Open] + LocalEnd(Open, endStream))
      else Ok(LocalEnd(st, endStream))
    case RstStream(_, _) => Ok([Closed])
    case _ => Ok([])
  }

  function LocalEnd(st: State, endStream: bool): seq<State> {
    if endStream && st == Open then [HalfClosedLocal]
    else if endStream && st == HalfClosedRemote then [Closed]
    else []
  }

  /** The arrows of the diagram in RFC 7540, section 5.1, for both endpoints. */
  predicate Arrow(a: State, b: State) {
    match a
    case Idle => b in {ReservedLocal, ReservedRemote, Open}
    case ReservedLocal => b in {HalfClosedRemote, Closed}
    case ReservedRemote => b in {HalfClosedLocal, Closed}
    case Open => b in {HalfClosedRemote, HalfClosedLocal, Closed}
    case HalfClosedRemote => b == Closed
    case HalfClosedLocal => b == Closed
    case Closed => false
  }

  /** The extra move the client makes: RST_STREAM sent for a stream that is still idle. */
  predicate IdleReset(a: State, b: State) {
    a == Idle && b == Closed
  }

  /** Position of a state in every lifetime. */
  function Rank(st: State): nat {
    match st
    case Idle => 0
    case ReservedLocal => 1
    case ReservedRemote => 1
    case Open => 1
    case HalfClosedRemote => 2
    case HalfClosedLocal => 2
    case Closed => 3
  }

  /** One step of a lifetime; a closed stream may be closed again, which is no change. */
  predicate Move(a: State, b: State) {
    (Arrow(a, b) || IdleReset(a, b) || (a == Closed && b == Closed)) && b != ReservedLocal
  }

  ghost predicate Walk(path: seq<State>) {
    forall i, j :: 0 <= i < j < |path| && j == i + 1 ==> Move(path[i], path[j])
  }

  /** The states a stream goes through from its creation on. */
  ghost predicate Lifetime(path: seq<State>) {
    path != [] && path[0] == Idle && Walk(path)
  }

  function LastOf(st: State, sets: seq<State>): State {
    if sets == [] then st else sets[|sets| - 1]
  }

  /** Whatever frame arrives, the states set walk along the diagram; a refused frame is one the state forbids. */
  lemma IncomingWalks(st: State, f: Frame)
    requires st != ReservedLocal
    ensures Incoming(st, f).Some? ==> Walk([st] + Incoming(st, f).value)
    ensures Incoming(st, f).None? <==>
            || (f.Data? && st !in {Open, HalfClosedLocal})
            || (f.Headers? && st in {HalfClosedRemote, Closed})
            || (f.PushPromise? && st != Idle)
  {
  }

  lemma OutgoingWalks(st: State, f: Frame)
    requires st != ReservedLocal
    ensures Outgoing(st, f).Ok? ==> Walk([st] + Outgoing(st, f).value)
  {
  }

  lemma WalkAppends(path: seq<State>, sets: seq<State>)
    requires path != [] && Walk(path) && Walk([path[|path| - 1]] + sets)
    ensures Walk(path + sets)
  {
    var tail := [path[|path| - 1]] + sets;
    forall i, j | 0 <= i < j < |path + sets| && j == i + 1 ensures Move((path + sets)[i], (path + sets)[j]) {
      if i >= |path| - 1 {
        assert Move(tail[i - (|path| - 1)], tail[j - (|path| - 1)]);
      }
    }
  }

  /** Ranks never fall along a walk, and they rise wherever the state changes. */
  lemma {:induction false} WalkRises(path: seq<State>, i: nat, j: nat)
    requires Walk(path) && i <= j < |path|
    ensures Rank(path[i]) <= Rank(path[j])
    ensures path[i] == Closed ==> path[j] == Closed
    ensures path[i] != path[j] ==> Rank(path[i]) < Rank(path[j])
    decreases j - i
  {
    if i < j {
      assert Move(path[j - 1], path[j]);
      WalkRises(path, i, j - 1);
    }
  }
}
