/**
  List streams: clients that receive from a watcher's channel, list again and send what changed. Cache
  changes, notifications, receives, listings and sends interleave freely.
*/
module Streams {
  import opened Replies
  import opened Watchers

  type List = seq<string>

  /** Where a client's loop is. `Closed`: the connection ended. */
  datatype Phase = Waiting | Relisting | Sending(list: List) | Closed

  datatype Client = Client(phase: Phase, sent: List)

  /** `pending` counts cache changes whose handler has not run yet. */
  datatype World = World(current: List, pending: nat, queued: nat, open: bool, clients: seq<Client>)

  datatype Step =
    | Change(list: List)      // the cache changes; a handler call is due
    | Notify                  // the handler runs, under the lock
    | CloseWatcher
    | Receive(client: nat)    // from the queue, or at once from a closed channel
    | Relist(client: nat)     // the client calls the list function
    | Send(client: nat)       // and sends the list if it differs from the last one
    | Hangup(client: nat)     // the connection ends or fails

  predicate ReceiveEnabled(w: World) {
    w.queued > 0 || !w.open
  }

  function With(w: World, i: nat, c: Client): World
    requires i < |w.clients|
  {
    w.(clients := w.clients[i := c])
  }

  predicate Next(w: World, s: Step, w': World) {
    match s
    case Change(list) => w' == w.(current := list, pending := w.pending + 1)
    case Notify =>
      w.pending > 0 && w' == w.(pending := w.pending - 1, queued := if w.open then Offered(w.queued) else w.queued)
    case CloseWatcher => w.open && w' == w.(open := false)
    case Receive(i) =>
      && i < |w.clients| && w.clients[i].phase == Waiting && ReceiveEnabled(w)
      && w' == With(w, i, w.clients[i].(phase := Relisting)).(queued := if w.queued > 0 then w.queued - 1 else 0)
    case Relist(i) =>
      && i < |w.clients| && w.clients[i].phase == Relisting
      && w' == With(w, i, w.clients[i].(phase := Sending(w.current)))
    case Send(i) =>
      && i < |w.clients| && w.clients[i].phase.Sending?
      && w' == With(w, i, Client(Waiting, w.clients[i].phase.list))
    case Hangup(i) =>
      && i < |w.clients| && w' == With(w, i, w.clients[i].(phase := Closed))
  }

  predicate Run(ws: seq<World>, steps: seq<Step>) {
    && |ws| == |steps| + 1
    && forall i :: 0 <= i < |steps| ==> Next(ws[i], steps[i], ws[i + 1])
  }

  /** A list is up to date, or something that leads to a new listing is due. */
  predicate Covered(w: World, list: List) {
    list == w.current || w.pending > 0 || ReceiveEnabled(w)
  }

  /** No client is left with an old list: what it sent last, or is about to send, is covered. */
  predicate NotStale(w: World, c: Client) {
    match c.phase
    case Waiting => Covered(w, c.sent)
    case Relisting => true
    case Sending(list) => Covered(w, list)
    case Closed => true
  }

  /** A watcher with one client, or a closed one with any number. */
  predicate Unshared(w: World) {
    |w.clients| <= 1 || !w.open
  }

  predicate Fresh(w: World) {
    Unshared(w) && forall i :: 0 <= i < |w.clients| ==> NotStale(w, w.clients[i])
  }

  lemma StepKeepsFresh(w: World, s: Step, w': World)
    requires Fresh(w) && Next(w, s, w')
    ensures Fresh(w')
  {
    forall i | 0 <= i < |w'.clients| ensures NotStale(w', w'.clients[i]) {
      assert NotStale(w, w.clients[i]);
    }
  }

  /**
    In every interleaving, for the single client of an open watcher or any client of a closed one, the
    last list sent is the current one, or a receive is enabled, or a notification or listing is under
    way, although notifications that find the channel full are dropped.
  */
  lemma {:induction false} NoStaleClient(ws: seq<World>, steps: seq<Step>, i: nat)
    requires Run(ws, steps) && Fresh(ws[0]) && i < |ws|
    ensures Fresh(ws[i])
  {
    hide Next, Fresh;
    if i > 0 {
      NoStaleClient(ws, steps, i - 1);
      StepKeepsFresh(ws[i - 1], steps[i - 1], ws[i]);
    }
  }

  /** When nothing is under way any more, every client of such a watcher has the current list. */
  lemma QuietMeansCurrent(w: World, i: nat)
    requires Fresh(w) && w.pending == 0 && !ReceiveEnabled(w) && i < |w.clients| && w.clients[i].phase == Waiting
    ensures w.clients[i].sent == w.current
  {
    assert NotStale(w, w.clients[i]);
  }

  /** All clients wait with the current list and nothing is under way. */
  predicate AllQuiet(w: World) {
    && w.open && w.pending == 0 && w.queued == 0
    && forall i :: 0 <= i < |w.clients| ==> w.clients[i] == Client(Waiting, w.current)
  }

  /**
    The restriction is exact: from any quiet state of an open watcher that two or more clients share, one
    change leaves some client with the old list and nothing under way.
  */
  lemma SharedWatcherGoesStale(w: World, list: List) returns (ws: seq<World>, steps: seq<Step>)
    requires AllQuiet(w) && |w.clients| >= 2 && list != w.current
    ensures Run(ws, steps) && ws[0] == w
    ensures var last := ws[|ws| - 1];
      && |last.clients| == |w.clients| && last.clients[1].phase == Waiting && !NotStale(last, last.clients[1])
      && last.clients[1].sent != last.current
  {
    var c := w.clients[0];
    var w1 := w.(current := list, pending := 1);
    var w2 := w1.(pending := 0, queued := 1);
    var w3 := With(w2, 0, c.(phase := Relisting)).(queued := 0);
    var w4 := With(w3, 0, c.(phase := Sending(list)));
    var w5 := With(w4, 0, Client(Waiting, list));
    steps := [Change(list), Notify, Receive(0), Relist(0), Send(0)];
    ws := [w, w1, w2, w3, w4, w5];
    assert Next(ws[0], steps[0], ws[1]) && Next(ws[1], steps[1], ws[2]) && Next(ws[2], steps[2], ws[3]);
    assert Next(ws[3], steps[3], ws[4]) && Next(ws[4], steps[4], ws[5]);
  }

  // ---- one client, as it is written

  /** What a client's loop wakes up for, and what then comes of its calls. */
  datatype Event =
    | HangUp
    | Changed(listed: Option<List>, writable: bool)
    | KeepAlive(pinged: bool)

  /** The last list that was sent or found unchanged, after `n` events handled without error. */
  function Response(first: List, events: seq<Event>, n: nat): List
    requires n <= |events|
  {
    if n == 0 then first
    else if events[n - 1].Changed? && events[n - 1].listed.Some? then events[n - 1].listed.value
    else Response(first, events, n - 1)
  }

  /** The events that end the loop: the client hangs up, or listing, sending or pinging fails. */
  predicate Ends(e: Event, response: List) {
    match e
    case HangUp => true
    case Changed(listed, writable) => listed.None? || (listed.value != response && !writable)
    case KeepAlive(pinged) => !pinged
  }

  /** A connection: what was sent on it, in order. */
  class Connection {
    var messages: seq<List>

    constructor ()
      ensures messages == []
    {
      messages := [];
    }

    /** Lists again and sends the result unless it equals the last response; `None` is no response yet. */
    method WriteList(oldResp: Option<List>, listed: Option<List>, writable: bool)
      returns (resp: Option<List>, ok: bool)
      modifies this
      ensures ok <==> listed.Some? && (writable || oldResp == listed)
      ensures ok ==> resp == listed
      ensures !ok ==> resp == oldResp
      ensures messages == if ok && oldResp != listed then old(messages) + [listed.value] else old(messages)
    {
      if listed.None? {
        return oldResp, false;
      }
      if oldResp.Some? && oldResp == listed {
        return oldResp, true;
      }
      if !writable {
        return oldResp, false;
      }
      messages := messages + [listed.value];
      resp, ok := listed, true;
    }

    /**
      The loop, up to the event that ends it. After every event handled, the client's last message is what
      was listed last, and no list is sent twice in a row.
    */
    method Serve(first: Option<List>, writable: bool, events: seq<Event>) returns (handled: nat)
      requires messages == []
      modifies this
      ensures first.None? || !writable ==> messages == [] && handled == 0
      ensures first.Some? && writable ==>
                && handled <= |events| && messages != [] && messages[0] == first.value
                && messages[|messages| - 1] == Response(first.value, events, handled)
                && (forall i :: 0 <= i < handled ==> !Ends(events[i], Response(first.value, events, i)))
                && (handled < |events| ==> Ends(events[handled], Response(first.value, events, handled)))
      ensures forall i :: 0 <= i < |messages| - 1 ==> messages[i] != messages[i + 1]
    {
      handled := 0;
      var resp, ok := WriteList(None, first, writable);
      if !ok {
        return;
      }
      while handled < |events|
        invariant handled <= |events| && messages != [] && messages[0] == first.value
        invariant resp == Some(messages[|messages| - 1]) && resp.value == Response(first.value, events, handled)
        invariant forall i :: 0 <= i < handled ==> !Ends(events[i], Response(first.value, events, i))
        invariant forall i :: 0 <= i < |messages| - 1 ==> messages[i] != messages[i + 1]
      {
        match events[handled] {
          case HangUp => ok := false;
          case Changed(listed, canWrite) => resp, ok := WriteList(resp, listed, canWrite);
          case KeepAlive(pinged) => ok := pinged;
        }
        if !ok {
          return;
        }
        handled := handled + 1;
      }
    }
  }
}
