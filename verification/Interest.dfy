/**
 * Channels, the epoll interest set they mirror, and the way an event becomes queued callbacks.
 *
 * Each method that takes a channel's mutex is written as if it ran alone. `ok` is the answer of epoll_ctl.
 */
module Interest {
  import opened Options

  /** A callback, known by a number. */
  type Callback = Option<nat>

  /** A mask of events, as the set of its bits. */
  type Mask = set<nat>

  const IN := 0        // EPOLLIN
  const OUT := 2       // EPOLLOUT
  const ERR := 3       // EPOLLERR
  const HUP := 4       // EPOLLHUP
  const ET := 31       // EPOLLET

  class EpollPoller {
    var interest: map<int, Mask>       // the kernel's interest set

    constructor ()
      ensures interest == map[]
    {
      interest := map[];
    }

    /** EPOLL_CTL_MOD or EPOLL_CTL_ADD, whichever in_epoll_ calls for. */
    method UpdateChannel(ch: Channel, ok: bool)
      modifies this`interest, ch`inEpoll
      ensures interest == if ok then old(interest)[ch.fd := ch.events] else old(interest)
      ensures ch.inEpoll == (old(ch.inEpoll) || ok)
    {
      if ok {
        interest := interest[ch.fd := ch.events];
      }
      if !ch.inEpoll {
        if !ok {
          return;
        }
        ch.inEpoll := true;
      }
    }

    method RemoveChannel(ch: Channel, ok: bool)
      requires ch.inEpoll
      modifies this`interest, ch`inEpoll
      ensures interest == if ok then old(interest) - {ch.fd} else old(interest)
      ensures ch.inEpoll == !ok
    {
      if !ok {
        return;
      }
      interest := interest - {ch.fd};
      ch.inEpoll := false;
    }
  }

  class TaskQueue {
    var tasks: seq<nat>
    const epoller: EpollPoller

    constructor (epoller: EpollPoller)
      ensures tasks == [] && this.epoller == epoller
    {
      tasks := [];
      this.epoller := epoller;
    }
  }

  /** The events a reported mask raises, in the order in which their callbacks are pushed. */
  function Raised(revents: Mask): seq<nat> {
    var all := if ERR in revents || HUP in revents then revents + {IN, OUT} else revents;
    (if ERR in all then [ERR] else []) + (if IN in all then [IN] else []) + (if OUT in all then [OUT] else [])
  }

  /** An error or a hang-up wakes the reader and the writer; nothing wakes one side twice, and errors come first. */
  lemma RaisedMeans(revents: Mask)
    ensures IN in Raised(revents) <==> IN in revents || ERR in revents || HUP in revents
    ensures OUT in Raised(revents) <==> OUT in revents || ERR in revents || HUP in revents
    ensures ERR in Raised(revents) <==> ERR in revents
    ensures forall i, j | 0 <= i < j < |Raised(revents)| :: Raised(revents)[i] != Raised(revents)[j]
    ensures ERR in revents ==> Raised(revents) == [ERR, IN, OUT]
  {
  }

  /** The three callbacks of a channel. */
  datatype Slots = Slots(onRead: Callback, onWrite: Callback, onError: Callback)
  {
    function For(e: nat): Callback {
      if e == IN then onRead else if e == OUT then onWrite else if e == ERR then onError else None
    }
  }

  function Pushed(cb: Callback): seq<nat> {
    if cb.Some? then [cb.value] else []
  }

  /** What the queue gets for the events, each with the callbacks that were installed when it was triggered. */
  ghost function Callbacks(seen: seq<Slots>, es: seq<nat>): seq<nat>
    requires |seen| == |es|
  {
    if es == [] then [] else
      var i := |es| - 1;
      Callbacks(seen[..i], es[..i]) + Pushed(seen[i].For(es[i]))
  }

  lemma CallbacksMore(seen: seq<Slots>, es: seq<nat>, slots: Slots, e: nat)
    requires |seen| == |es|
    ensures Callbacks(seen + [slots], es + [e]) == Callbacks(seen, es) + Pushed(slots.For(e))
  {
    assert (seen + [slots])[..|es|] == seen && (es + [e])[..|es|] == es;
  }

  function OnlyRead(slots: Slots): seq<nat> {
    if slots.onRead.Some? then [slots.onRead.value] else []
  }

  function OnlyWrite(slots: Slots): seq<nat> {
    if slots.onWrite.Some? then [slots.onWrite.value] else []
  }

  function OnlyError(slots: Slots): seq<nat> {
    if slots.onError.Some? then [slots.onError.value] else []
  }

  /** A read event queues the read callback, a write event the write callback; a hang-up both, like both
      events together, and an error all three. */
  ghost predicate HandedOver(revents: Mask, seen: seq<Slots>, queued: seq<nat>) {
    && (revents == {IN} ==> |seen| == 1 && queued == OnlyRead(seen[0]))
    && (revents == {OUT} ==> |seen| == 1 && queued == OnlyWrite(seen[0]))
    && (ERR !in revents && (HUP in revents || (IN in revents && OUT in revents)) ==>
          |seen| == 2 && queued == OnlyRead(seen[0]) + OnlyWrite(seen[1]))
    && (ERR in revents ==> |seen| == 3 && queued == OnlyError(seen[0]) + OnlyRead(seen[1]) + OnlyWrite(seen[2]))
  }

  lemma EachSlot(seen: seq<Slots>, revents: Mask)
    requires |seen| == |Raised(revents)|
    ensures HandedOver(revents, seen, Callbacks(seen, Raised(revents)))
  {
    hide Callbacks;
    if ERR in revents {
      assert Raised(revents) == [ERR, IN, OUT] && seen == [seen[0], seen[1], seen[2]];
      Three(seen[0], seen[1], seen[2], ERR, IN, OUT);
    } else if HUP in revents || (IN in revents && OUT in revents) {
      assert Raised(revents) == [IN, OUT] && seen == [seen[0], seen[1]];
      Two(seen[0], seen[1], IN, OUT);
    } else if revents == {IN} || revents == {OUT} {
      assert Raised(revents) == [if revents == {IN} then IN else OUT] && seen == [seen[0]];
      One(seen[0], if revents == {IN} then IN else OUT);
    }
  }

  lemma One(a: Slots, e: nat)
    ensures Callbacks([a], [e]) == Pushed(a.For(e))
  {
    assert Callbacks([], []) == [] && [a] == [] + [a] && [e] == [] + [e];
    CallbacksMore([], [], a, e);
  }

  lemma Two(a: Slots, b: Slots, e: nat, f: nat)
    ensures Callbacks([a, b], [e, f]) == Pushed(a.For(e)) + Pushed(b.For(f))
  {
    One(a, e);
    assert [a, b] == [a] + [b] && [e, f] == [e] + [f];
    CallbacksMore([a], [e], b, f);
  }

  lemma Three(a: Slots, b: Slots, c: Slots, e: nat, f: nat, g: nat)
    ensures Callbacks([a, b, c], [e, f, g]) == Pushed(a.For(e)) + Pushed(b.For(f)) + Pushed(c.For(g))
  {
    Two(a, b, e, f);
    assert [a, b, c] == [a, b] + [c] && [e, f, g] == [e, f] + [g];
    CallbacksMore([a, b], [e, f], c, g);
  }

  class Channel {
    const fd: int
    var queue: TaskQueue?
    var events: Mask
    var revents: Mask
    var inEpoll: bool
    var onRead: Callback
    var onWrite: Callback
    var onError: Callback

    constructor (fd: int, queue: TaskQueue)
      requires fd !in queue.epoller.interest
      ensures this.fd == fd && this.queue == queue && Mirror() && onRead == onWrite == onError == None
    {
      this.fd, this.queue := fd, queue;
      events, revents, inEpoll := {}, {}, false;
      onRead, onWrite, onError := None, None, None;
    }

    /** The callbacks installed, the interest recorded in the channel and the kernel's interest set say the same. */
    ghost predicate Mirror()
      reads this, queue, if queue == null then null else queue.epoller
    {
      && queue != null
      && (IN in events <==> onRead.Some?)
      && (OUT in events <==> onWrite.Some?)
      && (inEpoll <==> fd in queue.epoller.interest)
      && (inEpoll ==> queue.epoller.interest[fd] == events)
      && (!inEpoll ==> events == {})
    }

    function Installed(): Slots
      reads this`onRead, this`onWrite, this`onError
    {
      Slots(onRead, onWrite, onError)
    }

    /** Other threads run: they may install and remove callbacks. */
    method Interference()
      modifies this`onRead, this`onWrite, this`onError
    {
      onRead, onWrite, onError := *, *, *;
    }

    method TriggerEvent(e: nat)
      requires queue != null
      modifies queue`tasks
      ensures queue.tasks == old(queue.tasks) + Pushed(Installed().For(e))
      ensures e == IN ==> queue.tasks == old(queue.tasks) + if onRead.Some? then [onRead.value] else []
      ensures e == OUT ==> queue.tasks == old(queue.tasks) + if onWrite.Some? then [onWrite.value] else []
      ensures e == ERR ==> queue.tasks == old(queue.tasks) + if onError.Some? then [onError.value] else []
      ensures e != IN && e != OUT && e != ERR ==> queue.tasks == old(queue.tasks)
    {
      var cb: Callback := None;
      match e {
        case IN => cb := onRead;
        case OUT => cb := onWrite;
        case ERR => cb := onError;
        case _ => return;
      }
      if cb.Some? {
        queue.tasks := queue.tasks + [cb.value];
      }
    }

    /** `seen` are the callbacks installed at each trigger: the mutex is free in between. */
    method HandleEvent() returns (ghost seen: seq<Slots>)
      requires queue != null
      modifies this`revents, this`onRead, this`onWrite, this`onError, queue`tasks
      ensures |seen| == |Raised(old(revents))|
      ensures queue.tasks == old(queue.tasks) + Callbacks(seen, Raised(old(revents)))
      ensures seen != [] ==> Installed() == seen[|seen| - 1]
      ensures HandedOver(old(revents), seen, Callbacks(seen, Raised(old(revents))))
    {
      ghost var reported := revents;
      if ERR in revents || HUP in revents {
        revents := revents + {IN, OUT};
      }
      ghost var done := [];
      seen := [];
      assert Callbacks(seen, done) == [];
      hide Callbacks, Pushed, HandedOver;
      if ERR in revents {
        seen, done := TriggerNext(ERR, seen, done, old(queue.tasks));
      }
      if IN in revents {
        seen, done := TriggerNext(IN, seen, done, old(queue.tasks));
      }
      if OUT in revents {
        seen, done := TriggerNext(OUT, seen, done, old(queue.tasks));
      }
      assert done == Raised(reported);
      hide Raised;
      EachSlot(seen, reported);
    }

    /** One event of several, after whatever other threads did since the last. */
    method TriggerNext(e: nat, ghost seen: seq<Slots>, ghost done: seq<nat>, ghost before: seq<nat>)
      returns (ghost seen': seq<Slots>, ghost done': seq<nat>)
      requires queue != null && |seen| == |done| && queue.tasks == before + Callbacks(seen, done)
      modifies this`onRead, this`onWrite, this`onError, queue`tasks
      ensures seen' == seen + [Installed()] && done' == done + [e]
      ensures queue.tasks == before + Callbacks(seen', done')
    {
      hide Callbacks, Pushed;
      Interference();
      TriggerEvent(e);
      CallbacksMore(seen, done, Installed(), e);
      seen', done' := seen + [Installed()], done + [e];
    }
  }

  /** An operation of do_io on one of several channels, with its event mask. */
  datatype Op =
    | Register(ch: nat, event: Mask, cb: nat, onError: nat, useET: bool)
    | Unregister(ch: nat, event: Mask)

  /** How much an operation adds to the pending count. */
  function Counts(op: Op): int {
    match op
    case Register(_, event, _, _, _) => if event == {IN} || event == {OUT} then 1 else 0
    case Unregister(_, event) => -(if IN in event then 1 else 0) - (if OUT in event then 1 else 0)
  }

  ghost function Counted(ops: seq<Op>): int {
    if ops == [] then 0 else Counted(ops[..|ops| - 1]) + Counts(ops[|ops| - 1])
  }

  class IOManager {
    var pending: int                   // pending_event_count_

    /** An event mask for another operation is refused without a trace. */
    method RegisterEvent(ch: Channel, event: Mask, cb: nat, onError: nat, useET: bool, ok: bool)
      returns (registered: bool)
      requires ch.queue != null
      modifies this`pending, ch, ch.queue.epoller`interest
      ensures registered == (event == {IN} || event == {OUT})
      ensures !registered ==> unchanged(this) && unchanged(ch) && unchanged(ch.queue.epoller)
      ensures registered ==> pending == old(pending) + 1
      ensures registered ==> ch.events == old(ch.events) + event + if useET then {ET} else {}
      ensures registered ==> ch.onRead == (if event == {IN} then Some(cb) else old(ch.onRead))
      ensures registered ==> ch.onWrite == (if event == {OUT} then Some(cb) else old(ch.onWrite))
      ensures registered ==> ch.onError == Some(onError)
      ensures ch.queue == old(ch.queue)
      ensures forall fd | fd != ch.fd :: Same(ch.queue.epoller.interest, old(ch.queue.epoller.interest), fd)
      ensures registered && old(ch.Mirror()) ==>
        (ch.Mirror() <==> ok || (old(ch.inEpoll) && ch.events == old(ch.events)))
    {
      if event == {IN} {
        ch.onRead := Some(cb);
      } else if event == {OUT} {
        ch.onWrite := Some(cb);
      } else {
        return false;
      }
      ch.onError := Some(onError);
      ch.events := ch.events + event;
      if useET {
        ch.events := ch.events + {ET};
      }
      ch.queue.epoller.UpdateChannel(ch, ok);
      pending := pending + 1;
      return true;
    }

    method UnregisterEvent(ch: Channel, event: Mask, ok: bool)
      requires ch.queue != null
      modifies this`pending, ch, ch.queue.epoller`interest
      ensures pending == old(pending) - (if IN in event then 1 else 0) - (if OUT in event then 1 else 0)
      ensures ch.events == old(ch.events) - event * {IN, OUT}
      ensures ch.onRead == if IN in event then None else old(ch.onRead)
      ensures ch.onWrite == if OUT in event then None else old(ch.onWrite)
      ensures ch.onError == old(ch.onError)
      ensures ch.queue == old(ch.queue)
      ensures forall fd | fd != ch.fd :: Same(ch.queue.epoller.interest, old(ch.queue.epoller.interest), fd)
      ensures old(ch.Mirror()) ==>
        (ch.Mirror() <==> ok || (ch.events == old(ch.events) && (old(ch.inEpoll) || ch.events == {})))
    {
      var banned := 0;
      if IN in event {
        ch.events := ch.events - {IN};
        ch.onRead := None;
        banned := banned + 1;
      }
      if OUT in event {
        ch.events := ch.events - {OUT};
        ch.onWrite := None;
        banned := banned + 1;
      }
      ch.queue.epoller.UpdateChannel(ch, ok);
      if banned > 0 {
        pending := pending - banned;
      }
    }

    /** The callbacks of a waiter still parked are lost, and its registration stays counted. Only a channel that is in
        epoll is detached from its queue, whether or not epoll_ctl succeeds. */
    method RemoveChannel(ch: Channel, ok: bool)
      modifies ch, if ch.queue == null then {} else {ch.queue.epoller}
      ensures old(ch.queue) == null ==> unchanged(ch)
      ensures old(ch.queue) != null ==> ch.onRead == ch.onWrite == ch.onError == None
      ensures old(ch.queue) != null && old(ch.inEpoll) ==> ch.queue == null && ch.events == {} && ch.inEpoll == !ok
      ensures old(ch.queue) != null && !old(ch.inEpoll) ==>
        ch.queue == old(ch.queue) && ch.events == old(ch.events) && !ch.inEpoll
      ensures old(ch.queue) != null ==>
        var before := old(ch.queue.epoller.interest);
        old(ch.queue).epoller.interest == if old(ch.inEpoll) && ok then before - {ch.fd} else before
    {
      if ch.queue == null {
        return;
      }
      ch.onRead := None;
      ch.onWrite := None;
      ch.onError := None;
      if ch.inEpoll {
        ch.events := {};
        ch.queue.epoller.RemoveChannel(ch, ok);
        ch.queue := null;
      }
    }

    /** What is registered for a direction is what an event in that direction queues, and an error queues the error
        callback. */
    method RegisterThenTrigger(ch: Channel, e: nat, cb: nat, onError: nat, ok: bool)
      requires ch.queue != null && (e == IN || e == OUT)
      modifies this`pending, ch, ch.queue.epoller`interest, ch.queue`tasks
      ensures ch.queue == old(ch.queue) && ch.queue.tasks == old(ch.queue.tasks) + [cb, onError]
    {
      var _ := RegisterEvent(ch, {e}, cb, onError, true, ok);
      ch.TriggerEvent(e);
      assert ch.queue.tasks == old(ch.queue.tasks) + [cb];
      ch.TriggerEvent(ERR);
    }

    /** After one direction is unregistered, its events queue nothing, and those of the other still what was
        registered. */
    method UnregisterThenTrigger(ch: Channel, e: nat, ok: bool)
      requires ch.queue != null && (e == IN || e == OUT)
      modifies this`pending, ch, ch.queue.epoller`interest, ch.queue`tasks
      ensures ch.queue == old(ch.queue)
      ensures e == IN ==>
        ch.queue.tasks == old(ch.queue.tasks) + if old(ch.onWrite).Some? then [old(ch.onWrite).value] else []
      ensures e == OUT ==>
        ch.queue.tasks == old(ch.queue.tasks) + if old(ch.onRead).Some? then [old(ch.onRead).value] else []
    {
      UnregisterEvent(ch, {e}, ok);
      ch.TriggerEvent(e);
      ch.TriggerEvent(if e == IN then OUT else IN);
    }

    /** Any sequence of operations on any channels, epoll_ctl succeeding: every channel keeps its mirror, under its own
        operations and those of the others, and the pending count follows the operations. */
    method Run(chs: seq<Channel>, ops: seq<Op>, ghost pollers: set<EpollPoller>)
      requires forall i | 0 <= i < |chs| :: chs[i].Mirror() && chs[i].queue.epoller in pollers
      requires forall i, j | 0 <= i < j < |chs| :: chs[i] != chs[j] && chs[i].fd != chs[j].fd
      requires forall op | op in ops :: op.ch < |chs|
      modifies this`pending, chs, pollers
      ensures forall i | 0 <= i < |chs| :: chs[i].Mirror() && chs[i].queue == old(chs[i].queue)
      ensures pending == old(pending) + Counted(ops)
    {
      for k := 0 to |ops|
        invariant forall i | 0 <= i < |chs| :: chs[i].Mirror() && chs[i].queue == old(chs[i].queue)
        invariant pending == old(pending) + Counted(ops[..k])
      {
        assert ops[k] in ops && ops[..k + 1][..k] == ops[..k];
        Operate(chs, ops[k], pollers);
      }
      assert ops[..|ops|] == ops;
    }

    /** One operation on one of the channels. */
    method Operate(chs: seq<Channel>, op: Op, ghost pollers: set<EpollPoller>)
      requires forall i | 0 <= i < |chs| :: chs[i].Mirror() && chs[i].queue.epoller in pollers
      requires forall i, j | 0 <= i < j < |chs| :: chs[i] != chs[j] && chs[i].fd != chs[j].fd
      requires op.ch < |chs|
      modifies this`pending, chs, pollers
      ensures forall i | 0 <= i < |chs| :: chs[i].Mirror() && chs[i].queue == old(chs[i].queue)
      ensures pending == old(pending) + Counts(op)
    {
      var ch := chs[op.ch];
      ghost var before := ch.queue.epoller.interest;
      match op {
        case Register(_, event, cb, onError, useET) => var _ := RegisterEvent(ch, event, cb, onError, useET, true);
        case Unregister(_, event) => UnregisterEvent(ch, event, true);
      }
      forall i | 0 <= i < |chs| && i != op.ch ensures chs[i].Mirror() {
        assert chs[i].fd != ch.fd && Same(ch.queue.epoller.interest, before, chs[i].fd);
      }
    }

    /** One round of do_io on one direction leaves the other direction and the pending count as they were. */
    method WaitRound(ch: Channel, event: nat, cb: nat, onError: nat)
      requires ch.Mirror() && (event == IN || event == OUT)
      modifies this`pending, ch, ch.queue.epoller`interest
      ensures ch.Mirror() && ch.queue == old(ch.queue) && pending == old(pending)
      ensures ch.inEpoll && event !in ch.events && ET in ch.events
      ensures event == IN ==> ch.onRead == None && ch.onWrite == old(ch.onWrite)
      ensures event == OUT ==> ch.onWrite == None && ch.onRead == old(ch.onRead)
    {
      var _ := RegisterEvent(ch, {event}, cb, onError, true, true);
      UnregisterEvent(ch, {event}, true);
    }
  }

  /** The two interest sets agree on a descriptor. */
  ghost predicate Same(a: map<int, Mask>, b: map<int, Mask>, fd: int) {
    (fd in a <==> fd in b) && (fd in a ==> a[fd] == b[fd])
  }
}
