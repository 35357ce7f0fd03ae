/** The MCS queue lock: threads queue nodes behind a tail pointer and hand the lock over through
    one-shot flags. A flag is set in advance, or replaced by the handle of an event on which its
    waiter sleeps. Every acquisition and every transfer uses a node of its own. */
module McsLock {
  import opened Runs

  /** The flag word: 0, -1, or the handle of an auto-reset event. */
  datatype Flag = Clear | Set | Handle(signalled: bool, closed: bool)

  /** Where a thread is inside `flag_set`. */
  datatype Setting = TrySet | Signal

  /** Where a thread is inside `flag_wait`. */
  datatype Wait =
    | Look            // about to read the flag
    | Store           // found it clear and made an event, about to store its handle
    | Block           // stored it, waiting for the event
    | CloseShared     // woken, about to close the event
    | ClosePrivate    // found the flag set after all, about to close the event nobody else knows

  /** `owner` and `moved` are bookkeeping: the thread that uses the node, and whether the node took
      over from another while a successor was already queued. */
  datatype Node = Node(next: Option<nat>, ready: Flag, nextFlag: Flag, owner: nat, moved: bool)

  datatype Pc =
    | Idle
      // acquiring
    | Linking(node: nat, pred: nat)                        // about to write pred.next
    | Announcing(node: nat, pred: nat, setting: Setting)   // setting pred.nextFlag
    | Waiting(node: nat, wait: Wait)                       // waiting for node.readyFlag
    | Held(node: nat)
      // releasing
    | Reading(node: nat)                                   // about to read node.next
    | Swapping(node: nat)                                  // about to swap the tail for null
    | AwaitingLink(node: nat, wait: Wait)                  // waiting for node.nextFlag
    | Rereading(node: nat)
    | Passing(node: nat, next: nat, setting: Setting)      // setting next.readyFlag
      // moving the hold to another node
    | Moving(node: nat, to: nat)                           // about to swap the tail
    | Spinning(node: nat, to: nat)                         // until node.next is written
    | Copying(node: nat, to: nat)

  /** `queue` is the abstract lock: the nodes in the order of their tail exchanges, holder first. */
  datatype State = State(tail: Option<nat>, nodes: seq<Node>, threads: seq<Pc>, queue: seq<nat>)
  {
    function Move(t: nat, p: Pc): State
      requires t < |threads|
    {
      this.(threads := threads[t := p])
    }
  }

  datatype Action =
    | Acquire(t: nat)
    | TryAcquire(t: nat)
    | Release(t: nat)
    | Transfer(t: nat)
    | HandOver(t: nat, to: nat)     // another thread will release the node that `t` holds
    | Go(t: nat)                    // the one next step of thread `t`, if it is enabled

  function InitState(n: nat): State
  {
    State(None, [], seq(n, _ => Idle), [])
  }

  function FreshNode(t: nat): Node { Node(None, Clear, Clear, t, false) }

  function StepAcquire(s: State, t: nat): Option<State>
    requires t < |s.threads|
  {
    if !s.threads[t].Idle? then None
    else
      var n := |s.nodes|;
      Some(State(Some(n), s.nodes + [FreshNode(t)],
                 s.threads[t := if s.tail.None? then Held(n) else Linking(n, s.tail.value)],
                 s.queue + [n]))
  }

  function StepTryAcquire(s: State, t: nat): Option<State>
    requires t < |s.threads|
  {
    if !s.threads[t].Idle? then None
    else
      var n := |s.nodes|;
      if s.tail.Some? then Some(s.(nodes := s.nodes + [FreshNode(t)]))     // EBUSY
      else Some(State(Some(n), s.nodes + [FreshNode(t)], s.threads[t := Held(n)], s.queue + [n]))
  }

  function StepRelease(s: State, t: nat): Option<State>
    requires t < |s.threads|
  {
    if s.threads[t].Held? then Some(s.Move(t, Reading(s.threads[t].node))) else None
  }

  function StepTransfer(s: State, t: nat): Option<State>
    requires t < |s.threads|
  {
    if s.threads[t].Held? then
      Some(s.(nodes := s.nodes + [FreshNode(t)]).Move(t, Moving(s.threads[t].node, |s.nodes|)))
    else None
  }

  function StepHandOver(s: State, t: nat, to: nat): Option<State>
    requires t < |s.threads|
  {
    if to < |s.threads| && s.threads[t].Held? && s.threads[t].node < |s.nodes| && s.threads[to].Idle? then
      var n := s.threads[t].node;
      Some(s.(nodes := s.nodes[n := s.nodes[n].(owner := to)], threads := s.threads[t := Idle][to := Held(n)]))
    else None
  }

  /** One step inside `flag_wait` on a flag now worth `f`: the flag afterwards, and where the waiter
      goes, `None` when it returns. Blocked when the whole is `None`. */
  function FlagWait(f: Flag, w: Wait): Option<(Flag, Option<Wait>)>
  {
    match w
    case Look => if f.Clear? then Some((f, Some(Store))) else Some((f, None))
    case Store => if f.Clear? then Some((Handle(false, false), Some(Block))) else Some((f, Some(ClosePrivate)))
    case Block => if f.Handle? && f.signalled then Some((f.(signalled := false), Some(CloseShared))) else None
    case CloseShared => Some((if f.Handle? then f.(closed := true) else f, None))
    case ClosePrivate => Some((f, None))
  }

  /** One step inside `flag_set`: the flag afterwards, and whether the caller must still signal. */
  function FlagSet(f: Flag, g: Setting): (Flag, bool)
  {
    match g
    case TrySet => if f.Clear? then (Set, false) else (f, true)
    case Signal => (if f.Handle? then f.(signalled := true) else f, false)
  }

  function StepLinking(s: State, t: nat, n: nat, pred: nat): Option<State>
    requires t < |s.threads|
  {
    if pred >= |s.nodes| then None
    else Some(s.(nodes := s.nodes[pred := s.nodes[pred].(next := Some(n))]).Move(t, Announcing(n, pred, TrySet)))
  }

  function StepAnnouncing(s: State, t: nat, n: nat, pred: nat, g: Setting): Option<State>
    requires t < |s.threads|
  {
    if pred >= |s.nodes| then None
    else
      var (f, more) := FlagSet(s.nodes[pred].nextFlag, g);
      Some(s.(nodes := s.nodes[pred := s.nodes[pred].(nextFlag := f)])
            .Move(t, if more then Announcing(n, pred, Signal) else Waiting(n, Look)))
  }

  function StepWaiting(s: State, t: nat, n: nat, w: Wait): Option<State>
    requires t < |s.threads|
  {
    if n >= |s.nodes| then None
    else match FlagWait(s.nodes[n].ready, w)
      case None => None
      case Some((f, w')) =>
        Some(s.(nodes := s.nodes[n := s.nodes[n].(ready := f)])
              .Move(t, if w'.Some? then Waiting(n, w'.value) else Held(n)))
  }

  function StepReading(s: State, t: nat, n: nat): Option<State>
    requires t < |s.threads|
  {
    if n >= |s.nodes| then None
    else Some(s.Move(t, match s.nodes[n].next case None => Swapping(n) case Some(m) => Passing(n, m, TrySet)))
  }

  function StepSwapping(s: State, t: nat, n: nat): Option<State>
    requires t < |s.threads|
  {
    if s.tail == Some(n) then Some(State(None, s.nodes, s.threads[t := Idle], Tail(s.queue)))
    else Some(s.Move(t, AwaitingLink(n, Look)))
  }

  function Tail(q: seq<nat>): seq<nat> { if q == [] then [] else q[1..] }

  function StepAwaitingLink(s: State, t: nat, n: nat, w: Wait): Option<State>
    requires t < |s.threads|
  {
    if n >= |s.nodes| then None
    else match FlagWait(s.nodes[n].nextFlag, w)
      case None => None
      case Some((f, w')) =>
        Some(s.(nodes := s.nodes[n := s.nodes[n].(nextFlag := f)])
              .Move(t, if w'.Some? then AwaitingLink(n, w'.value) else Rereading(n)))
  }

  /** Without a successor here the code would follow a null pointer. */
  function StepRereading(s: State, t: nat, n: nat): Option<State>
    requires t < |s.threads|
  {
    if n >= |s.nodes| || s.nodes[n].next.None? then None
    else Some(s.Move(t, Passing(n, s.nodes[n].next.value, TrySet)))
  }

  /** The hand-over takes effect with the write of the flag, or with the event. */
  function StepPassing(s: State, t: nat, n: nat, next: nat, g: Setting): Option<State>
    requires t < |s.threads|
  {
    if next >= |s.nodes| then None
    else
      var (f, more) := FlagSet(s.nodes[next].ready, g);
      var s1 := s.(nodes := s.nodes[next := s.nodes[next].(ready := f)]);
      if more then Some(s1.Move(t, Passing(n, next, Signal)))
      else Some(s1.(queue := Tail(s.queue)).Move(t, Idle))
  }

  function Renamed(q: seq<nat>, n: nat): seq<nat> { if q == [] then [] else [n] + q[1..] }

  function StepMoving(s: State, t: nat, n: nat, to: nat): Option<State>
    requires t < |s.threads|
  {
    if s.tail == Some(n) then Some(State(Some(to), s.nodes, s.threads[t := Held(to)], Renamed(s.queue, to)))
    else Some(s.Move(t, Spinning(n, to)))
  }

  function StepSpinning(s: State, t: nat, n: nat, to: nat): Option<State>
    requires t < |s.threads|
  {
    if n >= |s.nodes| || s.nodes[n].next.None? then None else Some(s.Move(t, Copying(n, to)))
  }

  function StepCopying(s: State, t: nat, n: nat, to: nat): Option<State>
    requires t < |s.threads|
  {
    if n >= |s.nodes| || to >= |s.nodes| then None
    else Some(s.(nodes := s.nodes[to := s.nodes[to].(next := s.nodes[n].next, moved := true)],
                 queue := Renamed(s.queue, to)).Move(t, Held(to)))
  }

  function StepGo(s: State, t: nat): Option<State>
    requires t < |s.threads|
  {
    match s.threads[t]
    case Idle => None
    case Linking(n, pred) => StepLinking(s, t, n, pred)
    case Announcing(n, pred, g) => StepAnnouncing(s, t, n, pred, g)
    case Waiting(n, w) => StepWaiting(s, t, n, w)
    case Held(_) => None
    case Reading(n) => StepReading(s, t, n)
    case Swapping(n) => StepSwapping(s, t, n)
    case AwaitingLink(n, w) => StepAwaitingLink(s, t, n, w)
    case Rereading(n) => StepRereading(s, t, n)
    case Passing(n, next, g) => StepPassing(s, t, n, next, g)
    case Moving(n, to) => StepMoving(s, t, n, to)
    case Spinning(n, to) => StepSpinning(s, t, n, to)
    case Copying(n, to) => StepCopying(s, t, n, to)
  }

  function Step(s: State, a: Action): Option<State>
  {
    if a.t >= |s.threads| then None
    else match a
      case Acquire(t) => StepAcquire(s, t)
      case TryAcquire(t) => StepTryAcquire(s, t)
      case Release(t) => StepRelease(s, t)
      case Transfer(t) => StepTransfer(s, t)
      case HandOver(t, to) => StepHandOver(s, t, to)
      case Go(t) => StepGo(s, t)
  }
}
