/**
 Workspace events from the host's log to a client that disconnects and reconnects: the server's event stream, the
 client's cursor, and the frames in flight between them.
 */
module EventDelivery {
  import opened Options
  import opened Decimal

  const MAX_SAFE_INTEGER := 9007199254740991
  const PAGE := 200
  const PAGES_PER_POLL := 10

  datatype Event = Event(position: nat, aggregateType: string, aggregateId: string, workspaceId: Option<string>)

  predicate WorkspaceOwns(workspace: string, e: Event) {
    (e.aggregateType == "workspace" && e.aggregateId == workspace) || e.workspaceId == Some(workspace)
  }

  /** The tenant log: positions strictly increase and are safe integers. */
  predicate IsLog(log: seq<Event>) {
    && (forall i, j :: 0 <= i < j < |log| ==> log[i].position < log[j].position)
    && (forall i :: 0 <= i < |log| ==> log[i].position <= MAX_SAFE_INTEGER)
  }

  datatype Page = Page(events: seq<Event>, nextPosition: nat)

  /** The number of events at or before a position. */
  function Index(log: seq<Event>, position: nat): (i: nat)
    ensures i <= |log|
    ensures IsLog(log) ==> forall k :: 0 <= k < |log| ==> (k < i <==> log[k].position <= position)
  {
    if log == [] then 0
    else if log[|log| - 1].position <= position then |log|
    else Index(log[..|log| - 1], position)
  }

  /** `readEvents`: the next events after a position, at most one page, in order. */
  function ReadEvents(log: seq<Event>, after: nat): Page {
    var i := Index(log, after);
    var j := if i + PAGE < |log| then i + PAGE else |log|;
    Page(log[i..j], if i < j then log[j - 1].position else after)
  }

  // ---------------------------------------------------------------- frames

  /** A server-sent event: its `id` field is the printed position. */
  datatype Frame = Kernel(id: string, event: Event) | Cursor(id: string)

  function KernelFrames(workspace: string, events: seq<Event>): seq<Frame> {
    if events == [] then []
    else (if WorkspaceOwns(workspace, events[0]) then [Kernel(Print(events[0].position), events[0])] else [])
         + KernelFrames(workspace, events[1..])
  }

  /** `emitPage` with its closing cursor frame. */
  function EmitPage(workspace: string, page: Page): seq<Frame> {
    KernelFrames(workspace, page.events) + [Cursor(Print(page.nextPosition))]
  }

  /** A client reads back a position only from a plain numeral of safe size. */
  function ValidPosition(text: string): Option<nat> {
    if text == [] || !AllDigits(text) || Value(text) > MAX_SAFE_INTEGER then None else Some(Value(text))
  }

  lemma PositionsRoundTrip(position: nat)
    ensures ValidPosition(Print(position)) == if position <= MAX_SAFE_INTEGER then Some(position) else None
  {
    ValueOfPrint(position);
  }

  // ---------------------------------------------------------------- client

  datatype Client = Client(cursor: nat, failures: nat)

  /** `received` and `start` describe one replay epoch: the events handled since the cursor was `start`. */
  datatype Handled = Handled(client: Client, received: seq<Event>, start: nat)

  function Max(a: nat, b: nat): nat { if a > b then a else b }

  function OnFrame(h: Handled, f: Frame): Handled {
    var position := ValidPosition(f.id);
    match f
    case Kernel(_, e) =>
      h.(client := h.client.(cursor := if position.Some? then Max(h.client.cursor, position.value) else h.client.cursor),
         received := h.received + [e])
    case Cursor(_) =>
      if position.None? then h
      else if position.value < h.client.cursor then Handled(h.client.(cursor := position.value), [], position.value)
      else h.(client := h.client.(cursor := position.value))
  }

  function OnOpen(h: Handled): Handled { h.(client := h.client.(failures := 0)) }

  /** A second failure in a row gives up the cursor, so that the next connection replays everything. */
  function OnError(h: Handled): Handled {
    var failures := h.client.failures + 1;
    if failures >= 2 && h.client.cursor > 0 then Handled(Client(0, failures), [], 0)
    else h.(client := h.client.(failures := failures))
  }

  // ---------------------------------------------------------------- system

  /** A live connection: how far the server has read, and the frames the client has not handled yet. */
  datatype Connection = Connection(serverCursor: nat, queue: seq<Frame>)

  datatype System = System(log: seq<Event>, handled: Handled, connection: Option<Connection>)

  datatype Step =
    | Append(event: Event)
    | Connect
    | ServerPage
    | Deliver
    | Opened
    | Disconnect

  predicate Enabled(s: System, step: Step) {
    match step
    case Append(e) => IsLog(s.log + [e])
    case Connect => s.connection.None?
    case ServerPage => s.connection.Some?
    case Deliver => s.connection.Some? && s.connection.value.queue != []
    case Opened => s.connection.Some?
    case Disconnect => s.connection.Some?
  }

  function Apply(workspace: string, s: System, step: Step): System
    requires Enabled(s, step)
  {
    match step
    case Append(e) => s.(log := s.log + [e])
    case Connect =>
      (var page := ReadEvents(s.log, s.handled.client.cursor);
       s.(connection := Some(Connection(page.nextPosition, EmitPage(workspace, page)))))
    case ServerPage =>
      (var c := s.connection.value;
       var page := ReadEvents(s.log, c.serverCursor);
       if page.nextPosition > c.serverCursor
       then s.(connection := Some(Connection(page.nextPosition, c.queue + EmitPage(workspace, page))))
       else s)
    case Deliver =>
      (var c := s.connection.value;
       s.(handled := OnFrame(s.handled, c.queue[0]), connection := Some(c.(queue := c.queue[1..]))))
    case Opened => s.(handled := OnOpen(s.handled))
    case Disconnect => s.(handled := OnError(s.handled), connection := None)
  }

  // ---------------------------------------------------------------- what should have been received

  /** The reference: the workspace's events after `from` and up to `to`, in log order. */
  function Owned(workspace: string, log: seq<Event>, from: nat, to: nat): seq<Event> {
    if log == [] then []
    else
      var last := log[|log| - 1];
      Owned(workspace, log[..|log| - 1], from, to)
      + (if from < last.position <= to && WorkspaceOwns(workspace, last) then [last] else [])
  }

  predicate NoneOwned(workspace: string, log: seq<Event>, from: nat, to: nat) {
    forall i :: 0 <= i < |log| && from < log[i].position <= to ==> !WorkspaceOwns(workspace, log[i])
  }

  lemma {:induction false} SkippingAddsNothing(workspace: string, log: seq<Event>, start: nat, from: nat, to: nat)
    requires IsLog(log) && from <= to && NoneOwned(workspace, log, from, to)
    ensures Owned(workspace, log, start, to) == Owned(workspace, log, start, from)
  {
    if log != [] {
      SkippingAddsNothing(workspace, log[..|log| - 1], start, from, to);
      assert log[|log| - 1] in log;
    }
  }

  lemma {:induction false} NextIsAdded(workspace: string, log: seq<Event>, start: nat, from: nat, i: nat)
    requires IsLog(log) && i < |log| && start <= from < log[i].position && WorkspaceOwns(workspace, log[i])
    requires NoneOwned(workspace, log, from, log[i].position - 1)
    ensures Owned(workspace, log, start, log[i].position) == Owned(workspace, log, start, from) + [log[i]]
  {
    var front := log[..|log| - 1];
    if i == |log| - 1 {
      SkippingAddsNothing(workspace, front, start, from, log[i].position);
    } else {
      NextIsAdded(workspace, front, start, from, i);
    }
  }

  lemma {:induction false} NothingBeyondTheLog(workspace: string, log: seq<Event>, e: Event, start: nat, to: nat)
    requires e.position > to || to <= start
    ensures Owned(workspace, log + [e], start, to) == Owned(workspace, log, start, to)
  {
    assert (log + [e])[..|log|] == log;
  }

  lemma {:induction false} EmptyInterval(workspace: string, log: seq<Event>, at: nat)
    ensures Owned(workspace, log, at, at) == []
  {
    if log != [] {
      EmptyInterval(workspace, log[..|log| - 1], at);
    }
  }

  // ---------------------------------------------------------------- frames in flight

  /** Handling `queue` from cursor `from` brings the client to `to` without skipping or repeating an owned event. */
  ghost predicate Covers(workspace: string, log: seq<Event>, from: nat, queue: seq<Frame>, to: nat)
    decreases |queue|
  {
    if queue == [] then from == to
    else
      match queue[0]
      case Kernel(id, e) =>
        && e in log && WorkspaceOwns(workspace, e) && id == Print(e.position) && from < e.position <= to
        && NoneOwned(workspace, log, from, e.position - 1)
        && Covers(workspace, log, e.position, queue[1..], to)
      case Cursor(id) =>
        exists p: nat ::
          && id == Print(p) && p <= MAX_SAFE_INTEGER && from <= p <= to
          && NoneOwned(workspace, log, from, p)
          && Covers(workspace, log, p, queue[1..], to)
  }

  lemma {:induction false} CoversJoin(workspace: string, log: seq<Event>, from: nat, queue: seq<Frame>, mid: nat, more: seq<Frame>, to: nat)
    requires Covers(workspace, log, from, queue, mid) && Covers(workspace, log, mid, more, to) && mid <= to
    ensures Covers(workspace, log, from, queue + more, to)
    decreases |queue|
  {
    if queue == [] {
      assert queue + more == more;
    } else {
      var rest := (queue + more)[1..];
      assert rest == queue[1..] + more;
      match queue[0]
      case Kernel(_, e) => CoversJoin(workspace, log, e.position, queue[1..], mid, more, to);
      case Cursor(id) =>
        var p: nat :| id == Print(p) && p <= MAX_SAFE_INTEGER && from <= p <= mid && NoneOwned(workspace, log, from, p)
                      && Covers(workspace, log, p, queue[1..], mid);
        CoversJoin(workspace, log, p, queue[1..], mid, more, to);
    }
  }

  lemma {:induction false} CoversBounds(workspace: string, log: seq<Event>, from: nat, queue: seq<Frame>, to: nat)
    requires Covers(workspace, log, from, queue, to)
    ensures from <= to
  {
    if queue != [] {
    }
  }

  /** New log entries beyond the covered range do not disturb frames in flight. */
  lemma {:induction false} CoversAppend(workspace: string, log: seq<Event>, e: Event, from: nat, queue: seq<Frame>, to: nat)
    requires Covers(workspace, log, from, queue, to) && (e.position > to || from == to)
    ensures Covers(workspace, log + [e], from, queue, to)
    decreases |queue|
  {
    if queue != [] {
      match queue[0]
      case Kernel(_, k) =>
        CoversAppend(workspace, log, e, k.position, queue[1..], to);
      case Cursor(id) =>
        var p: nat :| id == Print(p) && p <= MAX_SAFE_INTEGER && from <= p <= to && NoneOwned(workspace, log, from, p)
                      && Covers(workspace, log, p, queue[1..], to);
        CoversAppend(workspace, log, e, p, queue[1..], to);
        assert NoneOwned(workspace, log + [e], from, p);
    }
  }

  lemma CursorCovers(workspace: string, log: seq<Event>, from: nat, to: nat)
    requires from <= to <= MAX_SAFE_INTEGER && NoneOwned(workspace, log, from, to)
    ensures Covers(workspace, log, from, [Cursor(Print(to))], to)
  {
    var frames := [Cursor(Print(to))];
    assert frames[1..] == [];
    assert Covers(workspace, log, to, frames[1..], to);
  }

  lemma KernelCovers(workspace: string, log: seq<Event>, from: nat, e: Event, more: seq<Frame>, to: nat)
    requires e in log && WorkspaceOwns(workspace, e) && from < e.position <= to
    requires NoneOwned(workspace, log, from, e.position - 1)
    requires Covers(workspace, log, e.position, more, to)
    ensures Covers(workspace, log, from, [Kernel(Print(e.position), e)] + more, to)
  {
    assert ([Kernel(Print(e.position), e)] + more)[1..] == more;
  }

  /** Where the log stands relative to a cursor and to the end of the page that is being emitted. */
  predicate Between(workspace: string, log: seq<Event>, from: nat, i: nat, j: nat, next: nat) {
    && i <= j <= |log| && from <= next <= MAX_SAFE_INTEGER
    && (forall k :: 0 <= k < i && from < log[k].position ==> !WorkspaceOwns(workspace, log[k]))
    && (forall k :: i <= k < |log| ==> from < log[k].position)
    && (forall k :: 0 <= k < j ==> log[k].position <= next)
    && (forall k :: j <= k < |log| ==> next < log[k].position)
  }

  /** The frames of the events between two log indices cover the range they were read from. */
  lemma {:induction false} RangeCovers(workspace: string, log: seq<Event>, from: nat, i: nat, j: nat, next: nat)
    requires IsLog(log) && Between(workspace, log, from, i, j, next)
    ensures Covers(workspace, log, from, KernelFrames(workspace, log[i..j]) + [Cursor(Print(next))], next)
    decreases j - i
  {
    var last := [Cursor(Print(next))];
    if i == j {
      CursorCovers(workspace, log, from, next);
      assert KernelFrames(workspace, log[i..j]) + last == last;
    } else {
      assert log[i..j][1..] == log[i + 1..j];
      var rest := KernelFrames(workspace, log[i + 1..j]);
      if WorkspaceOwns(workspace, log[i]) {
        RangeCovers(workspace, log, log[i].position, i + 1, j, next);
        KernelCovers(workspace, log, from, log[i], rest + last, next);
        assert KernelFrames(workspace, log[i..j]) + last == [Kernel(Print(log[i].position), log[i])] + (rest + last);
      } else {
        RangeCovers(workspace, log, from, i + 1, j, next);
        assert KernelFrames(workspace, log[i..j]) == rest;
      }
    }
  }

  lemma PageCovers(workspace: string, log: seq<Event>, after: nat)
    requires IsLog(log) && after <= MAX_SAFE_INTEGER
    ensures var page := ReadEvents(log, after);
            && Covers(workspace, log, after, EmitPage(workspace, page), page.nextPosition)
            && after <= page.nextPosition <= MAX_SAFE_INTEGER
            && (page.nextPosition == after || page.nextPosition <= log[|log| - 1].position)
  {
    var i := Index(log, after);
    var j := if i + PAGE < |log| then i + PAGE else |log|;
    var next := ReadEvents(log, after).nextPosition;
    RangeCovers(workspace, log, after, i, j, next);
  }

  // ---------------------------------------------------------------- every run

  predicate AtMostEnd(log: seq<Event>, position: nat, start: nat) {
    position == start || (log != [] && position <= log[|log| - 1].position)
  }

  /** Between two replays the client has exactly the owned events up to its cursor; the rest is on its way. */
  ghost predicate Inv(workspace: string, s: System) {
    var h := s.handled;
    && IsLog(s.log)
    && h.start <= h.client.cursor <= MAX_SAFE_INTEGER
    && h.received == Owned(workspace, s.log, h.start, h.client.cursor)
    && AtMostEnd(s.log, h.client.cursor, h.start)
    && (s.connection.Some? ==>
          var c := s.connection.value;
          && Covers(workspace, s.log, h.client.cursor, c.queue, c.serverCursor)
          && c.serverCursor <= MAX_SAFE_INTEGER
          && AtMostEnd(s.log, c.serverCursor, h.start))
  }

  lemma AppendingKeepsInv(workspace: string, s: System, e: Event)
    requires Inv(workspace, s) && IsLog(s.log + [e])
    ensures Inv(workspace, s.(log := s.log + [e]))
  {
    var h := s.handled;
    assert s.log != [] ==> s.log[|s.log| - 1].position < e.position by {
      if s.log != [] {
        assert (s.log + [e])[|s.log| - 1] == s.log[|s.log| - 1] && (s.log + [e])[|s.log|] == e;
      }
    }
    NothingBeyondTheLog(workspace, s.log, e, h.start, h.client.cursor);
    if s.connection.Some? {
      var c := s.connection.value;
      CoversBounds(workspace, s.log, h.client.cursor, c.queue, c.serverCursor);
      CoversAppend(workspace, s.log, e, h.client.cursor, c.queue, c.serverCursor);
    }
  }

  lemma KernelIsDelivered(workspace: string, s: System)
    requires Inv(workspace, s) && Enabled(s, Deliver) && s.connection.value.queue[0].Kernel?
    ensures Inv(workspace, Apply(workspace, s, Deliver))
    ensures Apply(workspace, s, Deliver).handled.start == s.handled.start
  {
    var h, e := s.handled, s.connection.value.queue[0].event;
    var i :| 0 <= i < |s.log| && s.log[i] == e;
    PositionsRoundTrip(e.position);
    NextIsAdded(workspace, s.log, h.start, h.client.cursor, i);
    assert e.position <= s.log[|s.log| - 1].position;
  }

  /** The position that a cursor frame at the head of a covering queue carries. */
  lemma HeadPosition(workspace: string, log: seq<Event>, from: nat, queue: seq<Frame>, to: nat) returns (p: nat)
    requires queue != [] && queue[0].Cursor? && Covers(workspace, log, from, queue, to)
    ensures queue[0].id == Print(p) && p <= MAX_SAFE_INTEGER && from <= p <= to
    ensures NoneOwned(workspace, log, from, p) && Covers(workspace, log, p, queue[1..], to)
  {
    p :| queue[0].id == Print(p) && p <= MAX_SAFE_INTEGER && from <= p <= to
         && NoneOwned(workspace, log, from, p) && Covers(workspace, log, p, queue[1..], to);
  }

  lemma CursorAdvances(h: Handled, f: Frame, p: nat)
    requires f == Cursor(Print(p)) && h.client.cursor <= p <= MAX_SAFE_INTEGER
    ensures OnFrame(h, f) == h.(client := h.client.(cursor := p))
  {
    PositionsRoundTrip(p);
  }

  lemma CursorIsDelivered(workspace: string, s: System)
    requires Inv(workspace, s) && Enabled(s, Deliver) && s.connection.value.queue[0].Cursor?
    ensures Inv(workspace, Apply(workspace, s, Deliver))
    ensures Apply(workspace, s, Deliver).handled.start == s.handled.start
  {
    var h, c := s.handled, s.connection.value;
    var p := HeadPosition(workspace, s.log, h.client.cursor, c.queue, c.serverCursor);
    CursorAdvances(h, c.queue[0], p);
    CursorMovesTo(workspace, s, p, h.client.(cursor := p));
  }

  /** Moving the client's cursor over a stretch without owned events keeps what it has received complete. */
  lemma CursorMovesTo(workspace: string, s: System, p: nat, client: Client)
    requires Inv(workspace, s) && s.connection.Some? && s.connection.value.queue != []
    requires s.handled.client.cursor <= p <= s.connection.value.serverCursor && NoneOwned(workspace, s.log, s.handled.client.cursor, p)
    requires Covers(workspace, s.log, p, s.connection.value.queue[1..], s.connection.value.serverCursor)
    requires client.cursor == p
    ensures Inv(workspace, s.(handled := s.handled.(client := client), connection := Some(s.connection.value.(queue := s.connection.value.queue[1..]))))
  {
    SkippingAddsNothing(workspace, s.log, s.handled.start, s.handled.client.cursor, p);
  }

  lemma DeliveringKeepsInv(workspace: string, s: System)
    requires Inv(workspace, s) && Enabled(s, Deliver)
    ensures Inv(workspace, Apply(workspace, s, Deliver))
    ensures Apply(workspace, s, Deliver).handled.start == s.handled.start
  {
    match s.connection.value.queue[0]
    case Kernel(_, _) => KernelIsDelivered(workspace, s);
    case Cursor(_) => CursorIsDelivered(workspace, s);
  }

  lemma ConnectingKeepsInv(workspace: string, s: System)
    requires Inv(workspace, s) && Enabled(s, Connect)
    ensures Inv(workspace, Apply(workspace, s, Connect))
  {
    PageCovers(workspace, s.log, s.handled.client.cursor);
  }

  lemma QueueingKeepsInv(workspace: string, s: System, frames: seq<Frame>, next: nat)
    requires Inv(workspace, s) && s.connection.Some?
    requires s.connection.value.serverCursor <= next <= MAX_SAFE_INTEGER
    requires Covers(workspace, s.log, s.connection.value.serverCursor, frames, next)
    requires AtMostEnd(s.log, next, s.handled.start)
    ensures Inv(workspace, s.(connection := Some(Connection(next, s.connection.value.queue + frames))))
  {
    var c := s.connection.value;
    CoversJoin(workspace, s.log, s.handled.client.cursor, c.queue, c.serverCursor, frames, next);
  }

  lemma ReadingKeepsInv(workspace: string, s: System)
    requires Inv(workspace, s) && Enabled(s, ServerPage)
    ensures Inv(workspace, Apply(workspace, s, ServerPage))
  {
    var c := s.connection.value;
    var page := ReadEvents(s.log, c.serverCursor);
    PageCovers(workspace, s.log, c.serverCursor);
    if page.nextPosition > c.serverCursor {
      QueueingKeepsInv(workspace, s, EmitPage(workspace, page), page.nextPosition);
      assert Apply(workspace, s, ServerPage) == s.(connection := Some(Connection(page.nextPosition, c.queue + EmitPage(workspace, page))));
    } else {
      assert Apply(workspace, s, ServerPage) == s;
    }
  }

  lemma StepKeepsInv(workspace: string, s: System, step: Step)
    requires Inv(workspace, s) && Enabled(s, step)
    ensures Inv(workspace, Apply(workspace, s, step))
  {
    match step
    case Append(e) => AppendingKeepsInv(workspace, s, e);
    case Connect => ConnectingKeepsInv(workspace, s);
    case ServerPage => ReadingKeepsInv(workspace, s);
    case Deliver => DeliveringKeepsInv(workspace, s);
    case Opened =>
    case Disconnect => EmptyInterval(workspace, s.log, 0);
  }

  function Outcome(workspace: string, s: System, steps: seq<Step>): System
    requires AllEnabled(workspace, s, steps)
    decreases |steps|
  {
    if steps == [] then s else Outcome(workspace, Apply(workspace, s, steps[0]), steps[1..])
  }

  predicate AllEnabled(workspace: string, s: System, steps: seq<Step>)
    decreases |steps|
  {
    steps == [] || (Enabled(s, steps[0]) && AllEnabled(workspace, Apply(workspace, s, steps[0]), steps[1..]))
  }

  lemma {:induction false} EveryRunKeepsInv(workspace: string, s: System, steps: seq<Step>)
    requires Inv(workspace, s) && AllEnabled(workspace, s, steps)
    ensures Inv(workspace, Outcome(workspace, s, steps))
    decreases |steps|
  {
    if steps != [] {
      StepKeepsInv(workspace, s, steps[0]);
      EveryRunKeepsInv(workspace, Apply(workspace, s, steps[0]), steps[1..]);
    }
  }

  /** A client that starts from a stored cursor, or from zero when none is readable. */
  function Fresh(log: seq<Event>, stored: Option<string>): System {
    var cursor := if stored.Some? && ValidPosition(stored.value).Some? then ValidPosition(stored.value).value else 0;
    System(log, Handled(Client(cursor, 0), [], cursor), None)
  }

  /**
   End-to-end delivery. Whatever is appended, read, delivered, lost with a connection or reconnected, the client has
   received exactly the workspace's events after the start of its epoch and up to its cursor, in log order.
   */
  lemma ClientReceivesEveryOwnedEvent(workspace: string, log: seq<Event>, stored: Option<string>, steps: seq<Step>)
    requires IsLog(log) && AllEnabled(workspace, Fresh(log, stored), steps)
    ensures var s := Outcome(workspace, Fresh(log, stored), steps);
            s.handled.received == Owned(workspace, s.log, s.handled.start, s.handled.client.cursor)
  {
    EmptyInterval(workspace, log, Fresh(log, stored).handled.start);
    EveryRunKeepsInv(workspace, Fresh(log, stored), steps);
  }

  /** Once the server has read to the end and the client has handled every frame, nothing owned is missing. */
  lemma DrainedClientIsComplete(workspace: string, log: seq<Event>, stored: Option<string>, steps: seq<Step>)
    requires IsLog(log) && AllEnabled(workspace, Fresh(log, stored), steps)
    requires var s := Outcome(workspace, Fresh(log, stored), steps);
             s.connection.Some? && s.connection.value.queue == [] && ReadEvents(s.log, s.connection.value.serverCursor).events == []
    ensures var s := Outcome(workspace, Fresh(log, stored), steps);
            forall e :: e in s.log && e.position > s.handled.client.cursor ==>
              e.workspaceId != Some(workspace) && !(e.aggregateType == "workspace" && e.aggregateId == workspace)
  {
    EmptyInterval(workspace, log, Fresh(log, stored).handled.start);
    EveryRunKeepsInv(workspace, Fresh(log, stored), steps);
  }

  lemma {:induction false} OwnedMembers(workspace: string, log: seq<Event>, from: nat, to: nat, e: Event)
    ensures e in Owned(workspace, log, from, to) <==> e in log && from < e.position <= to && WorkspaceOwns(workspace, e)
  {
    if log != [] {
      OwnedMembers(workspace, log[..|log| - 1], from, to, e);
      assert log == log[..|log| - 1] + [log[|log| - 1]];
    }
  }

  lemma {:induction false} OwnedAscends(workspace: string, log: seq<Event>, from: nat, to: nat, i: nat, j: nat)
    requires IsLog(log) && i < j < |Owned(workspace, log, from, to)|
    ensures Owned(workspace, log, from, to)[i].position < Owned(workspace, log, from, to)[j].position
  {
    var front, last := log[..|log| - 1], log[|log| - 1];
    var o := Owned(workspace, front, from, to);
    if j < |o| {
      OwnedAscends(workspace, front, from, to, i, j);
    } else {
      OwnedMembers(workspace, front, from, to, o[i]);
      var k :| 0 <= k < |front| && front[k] == o[i];
      assert log[k].position < last.position;
    }
  }

  /** Owned events ascend, so none is named twice; they are those of the range that concern the workspace itself or are marked with it. */
  lemma OwnedIsOrdered(workspace: string, log: seq<Event>, from: nat, to: nat)
    requires IsLog(log)
    ensures var o := Owned(workspace, log, from, to);
            && (forall i, j :: 0 <= i < j < |o| ==> o[i].position < o[j].position)
            && (forall e :: e in o <==> e in log && from < e.position <= to
                                        && ((e.aggregateType == "workspace" && e.aggregateId == workspace) || e.workspaceId == Some(workspace)))
  {
    var o := Owned(workspace, log, from, to);
    forall i, j | 0 <= i < j < |o| ensures o[i].position < o[j].position {
      OwnedAscends(workspace, log, from, to, i, j);
    }
    forall e ensures e in o <==> e in log && from < e.position <= to && WorkspaceOwns(workspace, e) {
      OwnedMembers(workspace, log, from, to, e);
    }
  }

  /** What is received only grows, until a replay. */
  lemma DeliveringOnlyAdds(workspace: string, s: System)
    requires Inv(workspace, s) && Enabled(s, Deliver)
    ensures var h, next := s.handled, Apply(workspace, s, Deliver).handled;
            next.start == h.start && h.received <= next.received && h.client.cursor <= next.client.cursor && next.client.failures == h.client.failures
  {
    DeliveringKeepsInv(workspace, s);
    var c := s.connection.value;
    match c.queue[0]
    case Kernel(_, _) =>
    case Cursor(_) =>
      var p := HeadPosition(workspace, s.log, s.handled.client.cursor, c.queue, c.serverCursor);
      CursorAdvances(s.handled, c.queue[0], p);
  }

  /**
   A replay from the start begins exactly when a connection is lost that was not the first one lost in a row, and there is
   something to replay. Every other step keeps the epoch and all that was received in it.
   */
  lemma EpochsEndOnlyByFailures(workspace: string, s: System, step: Step)
    requires Inv(workspace, s) && Enabled(s, step)
    ensures var h, next := s.handled, Apply(workspace, s, step).handled;
            var replays := step == Disconnect && h.client.failures >= 1 && h.client.cursor > 0;
            && (replays ==> next == Handled(Client(0, h.client.failures + 1), [], 0))
            && (!replays ==> next.start == h.start && h.received <= next.received && h.client.cursor <= next.client.cursor)
  {
    if step.Deliver? {
      DeliveringOnlyAdds(workspace, s);
    }
  }

  /** How many connections in a row were lost after the last one that opened, `before` of them before these steps. */
  function LostInARow(before: nat, steps: seq<Step>): nat
    decreases |steps|
  {
    if steps == [] then before
    else LostInARow(match steps[0] case Disconnect => before + 1 case Opened => 0 case _ => before, steps[1..])
  }

  lemma {:induction false} FailuresAreCounted(workspace: string, s: System, steps: seq<Step>)
    requires Inv(workspace, s) && AllEnabled(workspace, s, steps)
    ensures Outcome(workspace, s, steps).handled.client.failures == LostInARow(s.handled.client.failures, steps)
    decreases |steps|
  {
    if steps != [] {
      StepKeepsInv(workspace, s, steps[0]);
      if steps[0].Deliver? {
        DeliveringOnlyAdds(workspace, s);
      }
      FailuresAreCounted(workspace, Apply(workspace, s, steps[0]), steps[1..]);
    }
  }

  /** So over every run the cursor is given up exactly at the second loss in a row, and at each further one that finds a new cursor. */
  lemma ReplaysFollowRepeatedLosses(workspace: string, log: seq<Event>, stored: Option<string>, steps: seq<Step>)
    requires IsLog(log) && AllEnabled(workspace, Fresh(log, stored), steps) && Outcome(workspace, Fresh(log, stored), steps).connection.Some?
    ensures var s := Outcome(workspace, Fresh(log, stored), steps);
            var next := Apply(workspace, s, Disconnect);
            && (LostInARow(0, steps) >= 1 && s.handled.client.cursor > 0 ==>
                  next.handled.start == 0 && next.handled.client.cursor == 0 && next.handled.received == [])
            && (LostInARow(0, steps) == 0 ==> next.handled.(client := s.handled.client) == s.handled && next.handled.client.cursor == s.handled.client.cursor)
            && next.connection == None && next.handled.client.failures == LostInARow(0, steps) + 1
  {
    EmptyInterval(workspace, log, Fresh(log, stored).handled.start);
    FailuresAreCounted(workspace, Fresh(log, stored), steps);
  }

  /** A text is a position exactly when it consists of digits, at least one, and its value is a safe integer. */
  lemma PositionsAreReadExactlyWhen(text: string)
    ensures ValidPosition(text).Some? <==> text != "" && (forall i :: 0 <= i < |text| ==> '0' <= text[i] <= '9') && Value(text) <= 9007199254740991
    ensures ValidPosition(text).Some? ==> ValidPosition(text).value == Value(text)
  {
  }

  /**
   One frame at the desktop, for any client: an event is handed on and moves the cursor at most forward; a cursor frame
   sets it, and one that sets it back begins a new epoch there. A frame without a position moves nothing.
   */
  lemma FramesMoveTheCursor(h: Handled, f: Frame)
    ensures var p, next := ValidPosition(f.id), OnFrame(h, f);
            && next.client.failures == h.client.failures
            && (f.Kernel? ==> next.received == h.received + [f.event] && next.start == h.start && next.client.cursor >= h.client.cursor)
            && (f.Kernel? && p.Some? ==> next.client.cursor >= p.value && next.client.cursor in {p.value, h.client.cursor})
            && (f.Kernel? && p.None? ==> next.client.cursor == h.client.cursor)
            && (f.Cursor? && p.None? ==> next == h)
            && (f.Cursor? && p.Some? ==> next.client.cursor == p.value)
            && (f.Cursor? && p.Some? && p.value < h.client.cursor ==> next.received == [] && next.start == p.value)
            && (f.Cursor? && p.Some? && p.value >= h.client.cursor ==> next.received == h.received && next.start == h.start)
  {
  }
}
