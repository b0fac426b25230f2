/**
 * Waking long-polls: the waiter map of internal/adapter/postgres/transfer_events.go and the polls of
 * await in internal/adapter/httpserver/transfer_handler.go.
 */
module WakeUps {
  import opened Relay

  /** A channel of capacity one: it holds a signal or it does not. */
  type Channel = nat

  /** The waiter map, the channels that hold a signal, and the next channel made. */
  datatype Hub = Hub(waiters: map<TransferId, set<Channel>>, pending: set<Channel>, unused: Channel)

  predicate Waits(waiters: map<TransferId, set<Channel>>, id: TransferId, ch: Channel) {
    id in waiters && ch in waiters[id]
  }

  function Subscribed(h: Hub, id: TransferId): Hub {
    Hub(h.waiters[id := (if id in h.waiters then h.waiters[id] else {}) + {h.unused}], h.pending - {h.unused},
        h.unused + 1)
  }

  function Unsubscribed(h: Hub, id: TransferId, ch: Channel): Hub {
    if id !in h.waiters then h
    else if h.waiters[id] - {ch} == {} then h.(waiters := h.waiters - {id})
    else h.(waiters := h.waiters[id := h.waiters[id] - {ch}])
  }

  function Woken(h: Hub, id: TransferId): Hub {
    if id in h.waiters then h.(pending := h.pending + h.waiters[id]) else h
  }

  function AllWoken(h: Hub): Hub {
    h.(pending := h.pending + set id, ch | id in h.waiters && ch in h.waiters[id] :: ch)
  }

  function Received(h: Hub, ch: Channel): Hub {
    h.(pending := h.pending - {ch})
  }

  // ------------------------------------------------------ the object

  class TransferEvents {
    var waiters: map<TransferId, set<Channel>>
    var pending: set<Channel>
    var unused: Channel

    function State(): Hub
      reads this
    {
      Hub(waiters, pending, unused)
    }

    constructor ()
      ensures State() == Hub(map[], {}, 0)
    {
      waiters, pending, unused := map[], {}, 0;
    }

    method Subscribe(id: TransferId) returns (signal: Channel)
      modifies this
      ensures State() == Subscribed(old(State()), id) && signal == old(unused)
    {
      signal := unused;
      unused := unused + 1;
      pending := pending - {signal};
      if id !in waiters {
        waiters := waiters[id := {}];
      }
      waiters := waiters[id := waiters[id] + {signal}];
    }

    /** The function Subscribe returns. */
    method Unsubscribe(id: TransferId, signal: Channel)
      modifies this
      ensures State() == Unsubscribed(old(State()), id, signal)
    {
      if id in waiters {
        waiters := waiters[id := waiters[id] - {signal}];
        if waiters[id] == {} {
          waiters := waiters - {id};
        }
      }
    }

    /** Signals without blocking: a pending signal already says enough. */
    method Notify(signal: Channel)
      modifies this`pending
      ensures pending == old(pending) + {signal}
    {
      if signal !in pending {
        pending := pending + {signal};
      }
    }

    method NotifyEach(signals: set<Channel>)
      modifies this`pending
      ensures pending == old(pending) + signals
    {
      var rest := signals;
      while rest != {}
        invariant rest <= signals && pending == old(pending) + (signals - rest)
        decreases |rest|
      {
        var signal :| signal in rest;
        Notify(signal);
        rest := rest - {signal};
      }
    }

    method Wake(id: TransferId)
      modifies this`pending
      ensures State() == Woken(old(State()), id)
    {
      if id in waiters {
        NotifyEach(waiters[id]);
      }
    }

    method WakeAll()
      modifies this`pending
      ensures State() == AllWoken(old(State()))
    {
      var rest := waiters.Keys;
      while rest != {}
        invariant rest <= waiters.Keys
        invariant pending == old(pending) + set id, ch | id in waiters && id !in rest && ch in waiters[id] :: ch
        decreases |rest|
      {
        var id :| id in rest;
        NotifyEach(waiters[id]);
        rest := rest - {id};
      }
    }

    /** The poll takes the signal out of its channel. */
    method Receive(signal: Channel)
      requires signal in pending
      modifies this`pending
      ensures State() == Received(old(State()), signal)
    {
      pending := pending - {signal};
    }
  }

  // ------------------------------------------------------ polls, changes and the listener

  /** About to read, or waiting since a read that found the transfer like this. */
  datatype Phase = Reading | Waiting(seen: Transfer)
  datatype Poll = Poll(id: TransferId, phase: Phase)

  /**
   * The relay's table with the ids it has ever held, and the polls. A row update made while the listener's
   * connection listens is queued there; one made while it does not is never notified. caughtUp says that
   * the listener has woken everybody since it last began to listen.
   */
  datatype World = World(hub: Hub, polls: map<Channel, Poll>, transfers: Transfers, used: set<TransferId>,
                         queue: seq<TransferId>, listening: bool, caughtUp: bool)

  /** Changes carries the ids of the rows its statement updates, in the order they are notified. */
  datatype Event =
    | Begins(id: TransferId)
    | Reads(ch: Channel)
    | Receives(ch: Channel)
    | TimesOut(ch: Channel)
    | Finishes(ch: Channel)
    | Changes(op: Op, updated: seq<TransferId>)
    | Notified
    | Disconnects
    | Listens
    | CatchesUp

  /** The trigger runs for every updated row. */
  ghost predicate Notifies(m: Transfers, op: Op, updated: seq<TransferId>) {
    forall id :: id in m && id in Apply(m, op) && Apply(m, op)[id] != m[id] ==> id in updated
  }

  ghost predicate Can(w: World, e: Event) {
    match e
    case Begins(_) => true
    case Reads(ch) => ch in w.polls && w.polls[ch].phase.Reading? && w.polls[ch].id in w.transfers
    case Receives(ch) => ch in w.polls && w.polls[ch].phase.Waiting? && ch in w.hub.pending
    case TimesOut(ch) => ch in w.polls && w.polls[ch].phase.Waiting?
    case Finishes(ch) => ch in w.polls
    case Changes(op, updated) => Notifies(w.transfers, op, updated) && (op.Create? ==> op.id !in w.used)
    case Notified => w.queue != [] && w.listening && w.caughtUp
    case Disconnects => true
    case Listens => !w.listening
    case CatchesUp => w.listening
  }

  function Phased(w: World, ch: Channel, phase: Phase): World
    requires ch in w.polls
  {
    w.(polls := w.polls[ch := w.polls[ch].(phase := phase)])
  }

  function Next(w: World, e: Event): World
    requires Can(w, e)
  {
    match e
    case Begins(id) => w.(hub := Subscribed(w.hub, id), polls := w.polls[w.hub.unused := Poll(id, Reading)])
    case Reads(ch) => Phased(w, ch, Waiting(w.transfers[w.polls[ch].id]))
    case Receives(ch) => Phased(w.(hub := Received(w.hub, ch)), ch, Reading)
    case TimesOut(ch) => Phased(w, ch, Reading)
    case Finishes(ch) => w.(hub := Unsubscribed(w.hub, w.polls[ch].id, ch), polls := w.polls - {ch})
    case Changes(op, updated) =>
      w.(transfers := Apply(w.transfers, op), used := if op.Create? then w.used + {op.id} else w.used,
         queue := if w.listening then w.queue + updated else w.queue)
    case Notified => w.(hub := Woken(w.hub, w.queue[0]), queue := w.queue[1..])
    case Disconnects => w.(listening := false, caughtUp := false, queue := [])
    case Listens => w.(listening := true, caughtUp := false, queue := [])
    case CatchesUp => w.(hub := AllWoken(w.hub), caughtUp := true)
  }

  // ------------------------------------------------------ the invariant

  /** The waiter map holds exactly the live subscriptions, and no empty entry. */
  ghost predicate MapExact(w: World) {
    && (forall id, ch :: Waits(w.hub.waiters, id, ch) <==> ch in w.polls && w.polls[ch].id == id)
    && (forall id :: id in w.hub.waiters ==> w.hub.waiters[id] != {})
    && (forall ch :: ch in w.polls ==> ch < w.hub.unused)
  }

  /** The poll waits, and the transfer is no longer as it last read it. */
  predicate Stale(w: World, ch: Channel) {
    && ch in w.polls && w.polls[ch].phase.Waiting?
    && w.polls[ch].id in w.transfers && w.transfers[w.polls[ch].id] != w.polls[ch].phase.seen
  }

  /** A wake-up for the poll is pending, queued, or to come when the listener catches up. */
  predicate Coming(w: World, ch: Channel) {
    ch in w.polls && (ch in w.hub.pending || w.polls[ch].id in w.queue || !w.listening || !w.caughtUp)
  }

  predicate PollTrue(w: World, ch: Channel)
    requires ch in w.polls
  {
    (w.polls[ch].phase.Waiting? ==> w.polls[ch].id in w.used) && (Stale(w, ch) ==> Coming(w, ch))
  }

  ghost predicate Inv(w: World) {
    MapExact(w) && w.transfers.Keys <= w.used && forall ch :: ch in w.polls ==> PollTrue(w, ch)
  }

  function Start(): World {
    World(Hub(map[], {}, 0), map[], map[], {}, [], false, false)
  }

  lemma MapExactNext(w: World, e: Event)
    requires MapExact(w) && Can(w, e)
    ensures MapExact(Next(w, e))
  {
    match e
    case Begins(id) => BeginsExact(w, id);
    case Finishes(gone) => FinishesExact(w, gone);
    case _ =>
  }

  lemma BeginsExact(w: World, id: TransferId)
    requires MapExact(w)
    ensures MapExact(Next(w, Begins(id)))
  {
    SubscribedWaits(w.hub, id);
  }

  lemma FinishesExact(w: World, gone: Channel)
    requires MapExact(w) && gone in w.polls
    ensures MapExact(Next(w, Finishes(gone)))
  {
    assert Waits(w.hub.waiters, w.polls[gone].id, gone);
    UnsubscribedWaits(w.hub, w.polls[gone].id, gone);
  }

  lemma SubscribedWaits(h: Hub, id: TransferId)
    ensures forall other, ch :: Waits(Subscribed(h, id).waiters, other, ch) <==>
              Waits(h.waiters, other, ch) || (other == id && ch == h.unused)
  {
  }

  lemma UnsubscribedWaits(h: Hub, id: TransferId, gone: Channel)
    ensures forall other, ch :: Waits(Unsubscribed(h, id, gone).waiters, other, ch) <==>
              Waits(h.waiters, other, ch) && !(other == id && ch == gone)
  {
    forall other, ch ensures Waits(Unsubscribed(h, id, gone).waiters, other, ch) <==>
                             Waits(h.waiters, other, ch) && !(other == id && ch == gone) {
      assert id in h.waiters && ch in h.waiters[id] && ch != gone ==> ch in h.waiters[id] - {gone};
    }
  }

  lemma ApplyKeys(m: Transfers, op: Op)
    ensures Apply(m, op).Keys <= m.Keys + if op.Create? then {op.id} else {}
  {
  }

  lemma ChangesKeeps(w: World, e: Event, ch: Channel)
    requires Inv(w) && e.Changes? && Can(w, e) && ch in w.polls
    ensures PollTrue(Next(w, e), ch)
  {
    var id := w.polls[ch].id;
    assert PollTrue(w, ch);
    ApplyKeys(w.transfers, e.op);
    assert id in Apply(w.transfers, e.op) && w.polls[ch].phase.Waiting? ==> id in w.transfers;
  }

  lemma InvNext(w: World, e: Event)
    requires Inv(w) && Can(w, e)
    ensures Inv(Next(w, e))
  {
    MapExactNext(w, e);
    var w' := Next(w, e);
    if e.Changes? {
      ApplyKeys(w.transfers, e.op);
    }
    forall ch | ch in w'.polls ensures PollTrue(w', ch) {
      PollKept(w, e, ch);
    }
  }

  lemma PollKept(w: World, e: Event, ch: Channel)
    requires Inv(w) && Can(w, e) && ch in Next(w, e).polls
    ensures PollTrue(Next(w, e), ch)
  {
    if ch in w.polls {
      assert PollTrue(w, ch) && Waits(w.hub.waiters, w.polls[ch].id, ch);
      if e.Changes? {
        ChangesKeeps(w, e, ch);
      } else if e.Notified? {
        assert w.queue == [w.queue[0]] + w.queue[1..];
      }
    }
  }

  // ------------------------------------------------------ runs

  ghost predicate Occurs(w: World, e: Event, w': World) {
    Can(w, e) && w' == Next(w, e)
  }

  ghost predicate IsRun(run: seq<World>, events: seq<Event>) {
    && |run| == |events| + 1 && run[0] == Start()
    && forall i {:trigger events[i]} :: 0 <= i < |events| ==> Occurs(run[i], events[i], run[i + 1])
  }

  lemma {:induction false} AlwaysInv(run: seq<World>, events: seq<Event>, i: nat)
    requires IsRun(run, events) && i < |run|
    ensures Inv(run[i])
  {
    if i > 0 {
      AlwaysInv(run, events, i - 1);
      assert Occurs(run[i - 1], events[i - 1], run[i - 1 + 1]);
      InvNext(run[i - 1], events[i - 1]);
    }
  }

  /**
   * In every run, a poll whose transfer was changed by any statement since it last read it is about to be
   * woken: a signal is pending, a notification queued, or the listener has still to catch up.
   */
  lemma NoLostWakeUp(run: seq<World>, events: seq<Event>, i: nat, ch: Channel)
    requires IsRun(run, events) && i < |run| && ch in run[i].polls
    ensures Stale(run[i], ch) ==> Coming(run[i], ch)
    ensures Waits(run[i].hub.waiters, run[i].polls[ch].id, ch)
  {
    AlwaysInv(run, events, i);
    assert PollTrue(run[i], ch);
    assert Waits(run[i].hub.waiters, run[i].polls[ch].id, ch) <==> run[i].polls[ch].id == run[i].polls[ch].id;
  }

  /** So a stored answer, a delivery or a close wakes whoever waits without having seen it. */
  lemma LegsWake(run: seq<World>, events: seq<Event>, i: nat, ch: Channel)
    requires IsRun(run, events) && i < |run| && ch in run[i].polls && run[i].polls[ch].phase.Waiting?
    requires run[i].polls[ch].id in run[i].transfers
    requires var seen, t := run[i].polls[ch].phase.seen, run[i].transfers[run[i].polls[ch].id];
             || (t.answer.Some? && seen.answer.None?)
             || (t.delivery.Some? && seen.delivery.None?)
             || (t.closed.Some? && seen.closed.None?)
    ensures Coming(run[i], ch)
  {
    NoLostWakeUp(run, events, i, ch);
  }

  /** A channel that was made is never made again. */
  lemma {:induction false} MadeOnce(run: seq<World>, events: seq<Event>, i: nat, j: nat, ch: Channel)
    requires IsRun(run, events) && i <= j < |run| && ch in run[i].polls
    ensures ch < run[j].hub.unused
  {
    AlwaysInv(run, events, i);
    if i < j {
      MadeOnce(run, events, i, j - 1, ch);
      assert Occurs(run[j - 1], events[j - 1], run[j - 1 + 1]);
    }
  }

  /** A signal stays until its poll takes it, whatever else happens. */
  lemma {:induction false} SignalStays(run: seq<World>, events: seq<Event>, i: nat, j: nat, ch: Channel)
    requires IsRun(run, events) && i <= j < |run| && ch in run[i].polls && ch in run[i].hub.pending
    requires forall k :: i <= k < j ==> events[k] != Receives(ch)
    ensures ch in run[j].hub.pending
  {
    if i < j {
      SignalStays(run, events, i, j - 1, ch);
      assert Occurs(run[j - 1], events[j - 1], run[j - 1 + 1]);
      assert events[j - 1] != Receives(ch);
      MadeOnce(run, events, i, j - 1, ch);
    }
  }

  /** A wake reaches every poll on its transfer and leaves the others' channels as they were. */
  lemma WakeReachesExactly(run: seq<World>, events: seq<Event>, i: nat, ch: Channel)
    requires IsRun(run, events) && i < |events| && events[i].Notified? && ch in run[i].polls
    ensures var woken := run[i].polls[ch].id == run[i].queue[0];
            ch in run[i + 1].hub.pending <==> ch in run[i].hub.pending || woken
  {
    AlwaysInv(run, events, i);
    assert Occurs(run[i], events[i], run[i + 1]);
    var id := run[i].queue[0];
    assert Waits(run[i].hub.waiters, id, ch) <==> run[i].polls[ch].id == id;
  }

  /** Catching up reaches every poll, and no channel whose poll has ended. */
  lemma CatchUpReachesAll(run: seq<World>, events: seq<Event>, i: nat, ch: Channel)
    requires IsRun(run, events) && i < |events| && events[i].CatchesUp?
    ensures ch in run[i + 1].hub.pending <==> ch in run[i].hub.pending || ch in run[i].polls
  {
    AlwaysInv(run, events, i);
    assert Occurs(run[i], events[i], run[i + 1]);
    assert ch in run[i].polls ==> Waits(run[i].hub.waiters, run[i].polls[ch].id, ch);
    AllWokenPending(run[i].hub, ch);
  }

  /** Event k signalled the poll of ch: a notification of its transfer, or the listener catching up. */
  predicate Signals(run: seq<World>, events: seq<Event>, k: nat, ch: Channel) {
    && k < |events| && k < |run| && ch in run[k].polls
    && (events[k].CatchesUp? || (events[k].Notified? && run[k].queue != [] && run[k].queue[0] == run[k].polls[ch].id))
  }

  lemma SignalNext(run: seq<World>, events: seq<Event>, i: nat, ch: Channel)
    requires IsRun(run, events) && i < |events| && ch in run[i + 1].polls && ch in run[i + 1].hub.pending
    ensures Signals(run, events, i, ch)
            || (ch in run[i].polls && ch in run[i].hub.pending && events[i] != Receives(ch))
  {
    AlwaysInv(run, events, i);
    assert Occurs(run[i], events[i], run[i + 1]);
    if events[i].Notified? {
      var id := run[i].queue[0];
      assert Waits(run[i].hub.waiters, id, ch) <==> ch in run[i].polls && run[i].polls[ch].id == id;
    } else if events[i].CatchesUp? {
      CatchUpReachesAll(run, events, i, ch);
    }
  }

  /**
   * No poll is woken for nothing: its signal was set by a notification of its transfer or by catching up, since it
   * last took one.
   */
  lemma {:induction false} SignalHasCause(run: seq<World>, events: seq<Event>, i: nat, ch: Channel) returns (k: nat)
    requires IsRun(run, events) && i < |run| && ch in run[i].polls && ch in run[i].hub.pending
    ensures k < i && Signals(run, events, k, ch) && forall e :: k < e < i ==> events[e] != Receives(ch)
  {
    assert i > 0;
    SignalNext(run, events, i - 1, ch);
    if Signals(run, events, i - 1, ch) {
      k := i - 1;
    } else {
      k := SignalHasCause(run, events, i - 1, ch);
    }
  }

  lemma AllWokenPending(h: Hub, ch: Channel)
    ensures ch in AllWoken(h).pending <==> ch in h.pending || exists id :: Waits(h.waiters, id, ch)
  {
    if id :| Waits(h.waiters, id, ch) {
      assert id in h.waiters && ch in h.waiters[id];
    }
    if id :| id in h.waiters && ch in h.waiters[id] {
      assert Waits(h.waiters, id, ch);
    }
  }

  // ------------------------------------------------------ waking comes about

  /** These events lead from w, and the listener alone makes them. */
  ghost predicate ListenerRuns(w: World, ws: seq<World>, es: seq<Event>) {
    && |ws| == |es| + 1 && ws[0] == w
    && forall i {:trigger es[i]} :: 0 <= i < |es| ==>
         (es[i].Listens? || es[i].CatchesUp? || es[i].Notified?) && Occurs(ws[i], es[i], ws[i + 1])
  }

  lemma CatchUpWakes(w: World, ch: Channel)
    requires MapExact(w) && ch in w.polls && w.listening
    ensures Can(w, CatchesUp) && ch in Next(w, CatchesUp).hub.pending
  {
    assert Waits(w.hub.waiters, w.polls[ch].id, ch);
    AllWokenPending(w.hub, ch);
  }

  lemma NotifiedWakes(w: World, ch: Channel)
    requires Inv(w) && ch in w.polls && w.listening && w.caughtUp && w.queue != []
    ensures var w' := Next(w, Notified);
            && Can(w, Notified) && Inv(w') && w'.listening && w'.caughtUp && |w'.queue| == |w.queue| - 1
            && w'.polls == w.polls
            && (w.queue[0] == w.polls[ch].id ==> ch in w'.hub.pending)
            && (w.queue[0] != w.polls[ch].id && w.polls[ch].id in w.queue ==> w.polls[ch].id in w'.queue)
  {
    InvNext(w, Notified);
    assert Waits(w.hub.waiters, w.polls[ch].id, ch);
    assert w.queue == [w.queue[0]] + w.queue[1..];
  }

  /** A wake-up that is on its way arrives by the listener's own steps, whatever it is at. */
  lemma {:induction false} ListenerWakes(w: World, ch: Channel) returns (ws: seq<World>, es: seq<Event>)
    requires Inv(w) && Coming(w, ch)
    ensures ListenerRuns(w, ws, es) && ch in ws[|es|].hub.pending
    decreases |w.queue|
  {
    if ch in w.hub.pending {
      ws, es := [w], [];
    } else if !w.listening {
      var w' := Next(w, Listens);
      CatchUpWakes(w', ch);
      ws, es := [w, w', Next(w', CatchesUp)], [Listens, CatchesUp];
    } else if !w.caughtUp {
      CatchUpWakes(w, ch);
      ws, es := [w, Next(w, CatchesUp)], [CatchesUp];
    } else {
      NotifiedWakes(w, ch);
      var w' := Next(w, Notified);
      if w.queue[0] == w.polls[ch].id {
        ws, es := [w, w'], [Notified];
      } else {
        var rest, events := ListenerWakes(w', ch);
        ws, es := [w] + rest, [Notified] + events;
        ListenerRunsOn(w, w', rest, events);
      }
    }
  }

  lemma ListenerRunsOn(w: World, w': World, ws: seq<World>, es: seq<Event>)
    requires Occurs(w, Notified, w') && ListenerRuns(w', ws, es)
    ensures ListenerRuns(w, [w] + ws, [Notified] + es)
  {
    forall i | 0 <= i < |es| + 1
      ensures Occurs(([w] + ws)[i], ([Notified] + es)[i], ([w] + ws)[i + 1])
    {
      assert i > 0 ==> es[i - 1] == ([Notified] + es)[i];
    }
  }

  /** A woken poll that takes its signal and reads has seen the transfer as it is. */
  lemma WokenPollSees(w: World, ch: Channel)
    requires Inv(w) && ch in w.polls && w.polls[ch].phase.Waiting? && ch in w.hub.pending
    requires w.polls[ch].id in w.transfers
    ensures Can(w, Receives(ch)) && Can(Next(w, Receives(ch)), Reads(ch))
    ensures var w' := Next(Next(w, Receives(ch)), Reads(ch));
            && !Stale(w', ch) && ch !in w'.hub.pending && w'.polls[ch].id == w.polls[ch].id
            && w'.polls[ch].phase == Waiting(w.transfers[w.polls[ch].id])
  {
  }
}
