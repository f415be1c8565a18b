/** The lifecycle every orchestrated action follows, as a reference state
    machine over dispatched events:

      IDLE --PENDING--> PENDING --FULFILLED--> FULFILLED
                               \--REJECTED---> REJECTED

    Both end states are terminal: a further marker of the same action is an
    illegal transition. Events that carry no marker of the action are
    ignored. */
module Lifecycle {
  import opened Wrappers
  import opened Events

  /** An action instance whose markers are tracked. */
  datatype Action = LoadEntitiesAction | RemoveSourceAction(sourceId: string)

  datatype Phase = Idle | Pending | Fulfilled | Rejected

  /** The lifecycle marker `e` carries for `a`, if any. */
  function Marker(a: Action, e: Event): Option<Phase>
  {
    match e
    case LoadEntitiesPending(_) => if a == LoadEntitiesAction then Some(Pending) else None
    case LoadEntitiesFulfilled(_, _) => if a == LoadEntitiesAction then Some(Fulfilled) else None
    case LoadEntitiesRejected(_) => if a == LoadEntitiesAction then Some(Rejected) else None
    case RemoveSourcePending(id) => if a == RemoveSourceAction(id) then Some(Pending) else None
    case RemoveSourceFulfilled(id) => if a == RemoveSourceAction(id) then Some(Fulfilled) else None
    case RemoveSourceRejected(id) => if a == RemoveSourceAction(id) then Some(Rejected) else None
    case _ => None
  }

  /** The legal transitions. */
  function Advance(p: Phase, marker: Phase): Option<Phase>
  {
    match (p, marker)
    case (Idle, Pending) => Some(Pending)
    case (Pending, Fulfilled) => Some(Fulfilled)
    case (Pending, Rejected) => Some(Rejected)
    case _ => None
  }

  /** The phase `a` reaches from `p` after `events`; `None` once a marker
      is illegal. */
  function Replay(a: Action, p: Phase, events: seq<Event>): Option<Phase>
    decreases |events|
  {
    if |events| == 0 then Some(p)
    else
      match Marker(a, events[0])
      case None => Replay(a, p, events[1..])
      case Some(m) =>
        match Advance(p, m)
        case None => None
        case Some(q) => Replay(a, q, events[1..])
  }

  /** `Replay` continued from a possibly failed replay. */
  function ReplayAfter(a: Action, p: Option<Phase>, events: seq<Event>): Option<Phase>
  {
    match p
    case None => None
    case Some(q) => Replay(a, q, events)
  }

  /** Replaying a concatenation replays its parts in turn. */
  lemma {:induction false} ReplayConcat(a: Action, p: Phase, x: seq<Event>, y: seq<Event>)
    ensures Replay(a, p, x + y) == ReplayAfter(a, Replay(a, p, x), y)
    decreases |x|
  {
    if |x| == 0 {
      assert x + y == y;
    } else {
      assert (x + y)[0] == x[0];
      assert (x + y)[1..] == x[1..] + y;
      match Marker(a, x[0])
      case None => ReplayConcat(a, p, x[1..], y);
      case Some(m) =>
        match Advance(p, m)
        case None =>
        case Some(q) => ReplayConcat(a, q, x[1..], y);
    }
  }

  /** Events without markers of `a` leave its phase unchanged. */
  lemma {:induction false} ReplayUnmarked(a: Action, p: Phase, events: seq<Event>)
    requires forall i :: 0 <= i < |events| ==> Marker(a, events[i]).None?
    ensures Replay(a, p, events) == Some(p)
    decreases |events|
  {
    if |events| > 0 {
      ReplayUnmarked(a, p, events[1..]);
    }
  }

  /** A start marker, then events that leave `a` alone, then a run that
      takes `a` from PENDING to phase `q`, takes `a` from IDLE to `q`. */
  lemma ReplayBracketed(a: Action, start: Event, mid: seq<Event>, tail: seq<Event>, q: Phase)
    requires Marker(a, start) == Some(Pending)
    requires forall i :: 0 <= i < |mid| ==> Marker(a, mid[i]).None?
    requires Replay(a, Pending, tail) == Some(q)
    ensures Replay(a, Idle, [start] + mid + tail) == Some(q)
  {
    ReplayConcat(a, Idle, [start] + mid, tail);
    ReplayConcat(a, Idle, [start], mid);
    assert Replay(a, Idle, [start]) == Some(Pending) by {
      assert [start][1..] == [];
    }
    ReplayUnmarked(a, Pending, mid);
  }

  /** `a` went through a complete lifecycle in `events`. */
  predicate Settled(a: Action, events: seq<Event>)
  {
    Replay(a, Idle, events) == Some(Fulfilled) || Replay(a, Idle, events) == Some(Rejected)
  }
}
