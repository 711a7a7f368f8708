/** The two stateful ends of event delivery: the host's response stream and the desktop's subscription. */
module EventStreams {
  import opened Options
  import opened Decimal
  import opened EventDelivery

  // ---------------------------------------------------------------- host side

  /** What one page of a poll sends, where it leaves the cursor, and whether the poll goes on. */
  function Turn(workspace: string, log: seq<Event>, cursor: nat): (seq<Frame>, nat, bool) {
    var page := ReadEvents(log, cursor);
    if page.nextPosition <= cursor then ([], cursor, false)
    else (EmitPage(workspace, page), page.nextPosition, |page.events| >= PAGE)
  }

  /** What one poll sends from a cursor, reading at most `pages` pages of an unchanging log. */
  function Polled(workspace: string, log: seq<Event>, cursor: nat, pages: nat): (seq<Frame>, nat)
    decreases pages
  {
    if pages == 0 then ([], cursor)
    else
      var t := Turn(workspace, log, cursor);
      if !t.2 then (t.0, t.1)
      else var rest := Polled(workspace, log, t.1, pages - 1); (t.0 + rest.0, rest.1)
  }

  class EventStream {
    const workspace: string
    const pagesPerPoll: nat
    var cursor: nat
    var stopped: bool
    var sent: seq<Frame>

    constructor (workspace: string, log: seq<Event>, after: nat)
      ensures this.workspace == workspace && pagesPerPoll == PAGES_PER_POLL && !stopped
      ensures cursor == ReadEvents(log, after).nextPosition && sent == EmitPage(workspace, ReadEvents(log, after))
    {
      this.workspace := workspace;
      pagesPerPoll := PAGES_PER_POLL;
      cursor := ReadEvents(log, after).nextPosition;
      stopped := false;
      sent := EmitPage(workspace, ReadEvents(log, after));
    }

    method Cleanup()
      modifies this
      ensures stopped && cursor == old(cursor) && sent == old(sent)
    {
      stopped := true;
    }

    /** The body of the polling loop: reads one page and sends what is owned of it. */
    method SendPage(log: seq<Event>) returns (more: bool)
      requires IsLog(log)
      modifies this`cursor, this`sent
      ensures more == Turn(workspace, log, old(cursor)).2
      ensures cursor == Turn(workspace, log, old(cursor)).1
      ensures sent == old(sent) + Turn(workspace, log, old(cursor)).0
    {
      NextIsNotBefore(log, cursor);
      var previousCursor := cursor;
      var page := ReadEvents(log, cursor);
      cursor := page.nextPosition;
      if cursor > previousCursor {
        sent := sent + EmitPage(workspace, page);
      }
      more := !(|page.events| < PAGE || cursor == previousCursor);
    }

    method Poll(log: seq<Event>)
      requires IsLog(log)
      modifies this
      ensures stopped == old(stopped)
      ensures old(stopped) ==> cursor == old(cursor) && sent == old(sent)
      ensures !old(stopped) ==> cursor == Polled(workspace, log, old(cursor), pagesPerPoll).1
      ensures !old(stopped) ==> sent == old(sent) + Polled(workspace, log, old(cursor), pagesPerPoll).0
    {
      if stopped {
        return;
      }
      ghost var goal := Polled(workspace, log, cursor, pagesPerPoll);
      ghost var total := sent + goal.0;
      var pageCount := 0;
      var more := true;
      while more && pageCount < pagesPerPoll
        invariant 0 <= pageCount <= pagesPerPoll && !stopped
        invariant more ==> Ahead(workspace, log, cursor, pagesPerPoll - pageCount, sent) == (total, goal.1)
        invariant !more ==> sent == total && cursor == goal.1
      {
        AheadByTurn(workspace, log, cursor, pagesPerPoll - pageCount, sent);
        more := SendPage(log);
        pageCount := pageCount + 1;
      }
    }
  }

  /** Where a poll ends that has sent `sent` and still may read `pages` pages. */
  function Ahead(workspace: string, log: seq<Event>, cursor: nat, pages: nat, sent: seq<Frame>): (seq<Frame>, nat) {
    var rest := Polled(workspace, log, cursor, pages);
    (sent + rest.0, rest.1)
  }

  lemma AheadByTurn(workspace: string, log: seq<Event>, cursor: nat, pages: nat, sent: seq<Frame>)
    requires pages > 0
    ensures var t := Turn(workspace, log, cursor);
            Ahead(workspace, log, cursor, pages, sent) == if t.2 then Ahead(workspace, log, t.1, pages - 1, sent + t.0) else (sent + t.0, t.1)
  {
    var t := Turn(workspace, log, cursor);
    if t.2 {
      Regroup(sent, t.0, Polled(workspace, log, t.1, pages - 1).0);
    }
  }

  lemma Regroup(a: seq<Frame>, b: seq<Frame>, c: seq<Frame>)
    ensures a + b + c == a + (b + c)
  {
  }

  lemma NextIsNotBefore(log: seq<Event>, after: nat)
    requires IsLog(log)
    ensures ReadEvents(log, after).nextPosition >= after
    ensures ReadEvents(log, after).nextPosition == after ==> ReadEvents(log, after).events == []
    ensures |ReadEvents(log, after).events| < PAGE ==> Index(log, ReadEvents(log, after).nextPosition) == |log|
    ensures |ReadEvents(log, after).events| == PAGE ==> Index(log, ReadEvents(log, after).nextPosition) == Index(log, after) + PAGE
  {
    var i := Index(log, after);
    var j := if i + PAGE < |log| then i + PAGE else |log|;
    if i < j {
      var next := Index(log, log[j - 1].position);
      assert j - 1 < next;
      assert j < |log| ==> log[j - 1].position < log[j].position && !(j < next);
    }
  }

  /** A poll leaves nothing unread when at most ten full pages were waiting. */
  lemma {:induction false} PollCatchesUp(workspace: string, log: seq<Event>, cursor: nat, pages: nat)
    requires IsLog(log) && |log| - Index(log, cursor) <= pages * PAGE
    ensures ReadEvents(log, Polled(workspace, log, cursor, pages).1).events == []
    decreases pages
  {
    NextIsNotBefore(log, cursor);
    var t := Turn(workspace, log, cursor);
    if pages > 0 && t.2 {
      PollCatchesUp(workspace, log, t.1, pages - 1);
    } else if pages > 0 {
      StoppingLeavesNothing(workspace, log, cursor);
    }
  }

  function Pages(workspace: string, s: System, n: nat): System
    requires s.connection.Some?
    decreases n
  {
    if n == 0 then s else Pages(workspace, Apply(workspace, s, ServerPage), n - 1)
  }

  /** The system with its connection's server at `cursor` and this queue. */
  function At(s: System, cursor: nat, queue: seq<Frame>): System { s.(connection := Some(Connection(cursor, queue))) }

  lemma PageStep(workspace: string, s: System)
    requires s.connection.Some?
    ensures var c := s.connection.value;
            var t := Turn(workspace, s.log, c.serverCursor);
            Apply(workspace, s, ServerPage) == At(s, t.1, c.queue + t.0)
  {
    assert s.connection.value.queue + [] == s.connection.value.queue;
  }

  /** Reading further pages of a log that was read to the end changes nothing. */
  lemma {:induction false} NoMorePages(workspace: string, s: System, n: nat)
    requires s.connection.Some? && ReadEvents(s.log, s.connection.value.serverCursor).nextPosition <= s.connection.value.serverCursor
    ensures Pages(workspace, s, n) == s
    decreases n
  {
    if n > 0 {
      PageStep(workspace, s);
      NoMorePages(workspace, s, n - 1);
    }
  }

  lemma PollsOn(workspace: string, log: seq<Event>, cursor: nat, n: nat, queue: seq<Frame>)
    requires n > 0
    ensures var t, p := Turn(workspace, log, cursor), Polled(workspace, log, cursor, n);
            if t.2 then p.1 == Polled(workspace, log, t.1, n - 1).1 && queue + p.0 == (queue + t.0) + Polled(workspace, log, t.1, n - 1).0
            else p == (t.0, t.1)
  {
    var t := Turn(workspace, log, cursor);
    Regroup(queue, t.0, Polled(workspace, log, t.1, n - 1).0);
  }

  lemma FirstPage(workspace: string, s: System, n: nat)
    requires n > 0 && s.connection.Some?
    ensures var c := s.connection.value;
            var t := Turn(workspace, s.log, c.serverCursor);
            Pages(workspace, s, n) == Pages(workspace, At(s, t.1, c.queue + t.0), n - 1)
  {
    PageStep(workspace, s);
  }

  lemma PollGoesOn(workspace: string, s: System, n: nat)
    requires IsLog(s.log) && s.connection.Some? && n > 0 && Turn(workspace, s.log, s.connection.value.serverCursor).2
    requires var c, t := s.connection.value, Turn(workspace, s.log, s.connection.value.serverCursor);
             PollMatches(workspace, At(s, t.1, c.queue + t.0), n - 1)
    ensures PollMatches(workspace, s, n)
  {
    FirstPage(workspace, s, n);
    PollsOn(workspace, s.log, s.connection.value.serverCursor, n, s.connection.value.queue);
  }

  lemma PollEnds(workspace: string, s: System, n: nat)
    requires IsLog(s.log) && s.connection.Some? && n > 0 && !Turn(workspace, s.log, s.connection.value.serverCursor).2
    ensures PollMatches(workspace, s, n)
  {
    var c, t := s.connection.value, Turn(workspace, s.log, s.connection.value.serverCursor);
    FirstPage(workspace, s, n);
    PollsOn(workspace, s.log, c.serverCursor, n, c.queue);
    StoppingLeavesNothing(workspace, s.log, c.serverCursor);
    NoMorePages(workspace, At(s, t.1, c.queue + t.0), n - 1);
  }

  predicate PollMatches(workspace: string, s: System, n: nat)
    requires s.connection.Some?
  {
    var c := s.connection.value;
    var p := Polled(workspace, s.log, c.serverCursor, n);
    Pages(workspace, s, n) == At(s, p.1, c.queue + p.0)
  }

  lemma NoPages(workspace: string, s: System)
    requires s.connection.Some?
    ensures PollMatches(workspace, s, 0)
  {
    var c := s.connection.value;
    assert c.queue + [] == c.queue;
    assert Pages(workspace, s, 0) == s && Polled(workspace, s.log, c.serverCursor, 0) == ([], c.serverCursor);
  }

  /** A poll is a run of single-page steps of the delivery system, so all results about its runs apply to it. */
  lemma {:induction false} PollIsPageSteps(workspace: string, s: System, n: nat)
    requires IsLog(s.log) && s.connection.Some?
    ensures PollMatches(workspace, s, n)
    decreases n
  {
    var c := s.connection.value;
    if n == 0 {
      NoPages(workspace, s);
    } else {
      var t := Turn(workspace, s.log, c.serverCursor);
      if t.2 {
        PollIsPageSteps(workspace, At(s, t.1, c.queue + t.0), n - 1);
        PollGoesOn(workspace, s, n);
      } else {
        PollEnds(workspace, s, n);
      }
    }
  }

  /** A poll stops early only where no event is left to read. */
  lemma StoppingLeavesNothing(workspace: string, log: seq<Event>, cursor: nat)
    requires IsLog(log) && !Turn(workspace, log, cursor).2
    ensures ReadEvents(log, Turn(workspace, log, cursor).1).nextPosition <= Turn(workspace, log, cursor).1
    ensures ReadEvents(log, Turn(workspace, log, cursor).1).events == []
  {
    NextIsNotBefore(log, cursor);
    NextIsNotBefore(log, Turn(workspace, log, cursor).1);
  }

  // ---------------------------------------------------------------- catching up

  lemma {:induction false} StepsJoin(workspace: string, s: System, a: seq<Step>, b: seq<Step>)
    requires AllEnabled(workspace, s, a) && AllEnabled(workspace, Outcome(workspace, s, a), b)
    ensures AllEnabled(workspace, s, a + b) && Outcome(workspace, s, a + b) == Outcome(workspace, Outcome(workspace, s, a), b)
    decreases |a|
  {
    if a == [] {
      assert a + b == b;
    } else {
      StepsJoin(workspace, Apply(workspace, s, a[0]), a[1..], b);
      assert (a + b)[1..] == a[1..] + b;
    }
  }

  /** No step takes an event out of the log, and appending puts it there. */
  lemma {:induction false} LogKeeps(workspace: string, s: System, steps: seq<Step>, e: Event)
    requires AllEnabled(workspace, s, steps) && (e in s.log || Append(e) in steps)
    ensures e in Outcome(workspace, s, steps).log
    decreases |steps|
  {
    if steps != [] {
      assert steps == [steps[0]] + steps[1..];
      LogKeeps(workspace, Apply(workspace, s, steps[0]), steps[1..], e);
    }
  }

  lemma {:induction false} DrainQueue(workspace: string, s: System) returns (steps: seq<Step>)
    requires Inv(workspace, s) && s.connection.Some?
    ensures AllEnabled(workspace, s, steps)
    ensures var last := Outcome(workspace, s, steps);
            && Inv(workspace, last) && last.log == s.log && last.handled.start == s.handled.start
            && last.connection == Some(Connection(s.connection.value.serverCursor, []))
    decreases |s.connection.value.queue|
  {
    steps := [];
    if s.connection.value.queue != [] {
      DeliveringKeepsInv(workspace, s);
      var rest := DrainQueue(workspace, Apply(workspace, s, Deliver));
      steps := [Deliver] + rest;
      assert steps[1..] == rest;
    }
  }

  lemma PagesAdvance(log: seq<Event>, cursor: nat)
    requires IsLog(log) && ReadEvents(log, cursor).nextPosition > cursor
    ensures Index(log, ReadEvents(log, cursor).nextPosition) > Index(log, cursor)
  {
    NextIsNotBefore(log, cursor);
  }

  lemma {:induction false} ReadOn(workspace: string, s: System) returns (steps: seq<Step>)
    requires Inv(workspace, s) && s.connection.Some?
    ensures AllEnabled(workspace, s, steps)
    ensures var last := Outcome(workspace, s, steps);
            && Inv(workspace, last) && last.log == s.log && last.handled == s.handled && last.connection.Some?
            && ReadEvents(last.log, last.connection.value.serverCursor).events == []
    decreases |s.log| - Index(s.log, s.connection.value.serverCursor)
  {
    var cursor := s.connection.value.serverCursor;
    NextIsNotBefore(s.log, cursor);
    steps := [];
    if ReadEvents(s.log, cursor).nextPosition > cursor {
      PagesAdvance(s.log, cursor);
      ReadingKeepsInv(workspace, s);
      var rest := ReadOn(workspace, Apply(workspace, s, ServerPage));
      steps := [ServerPage] + rest;
      assert steps[1..] == rest;
    }
  }

  /**
   From every reachable state in which it has no connection, the client can catch up: it connects, the server reads on,
   the frames arrive, and then the client has every owned event of the log after its start, each appended one among them.
   */
  lemma ClientsCatchUp(workspace: string, log: seq<Event>, stored: Option<string>, steps: seq<Step>) returns (more: seq<Step>)
    requires IsLog(log) && AllEnabled(workspace, Fresh(log, stored), steps) && Outcome(workspace, Fresh(log, stored), steps).connection.None?
    ensures AllEnabled(workspace, Fresh(log, stored), steps + more)
    ensures var s, last := Outcome(workspace, Fresh(log, stored), steps), Outcome(workspace, Fresh(log, stored), steps + more);
            && last.log == s.log && last.handled.start == s.handled.start
            && (forall e :: e in last.handled.received <==>
                  e in s.log && e.position > s.handled.start
                  && ((e.aggregateType == "workspace" && e.aggregateId == workspace) || e.workspaceId == Some(workspace)))
            && (forall e :: Append(e) in steps ==> e in s.log)
  {
    EmptyInterval(workspace, log, Fresh(log, stored).handled.start);
    EveryRunKeepsInv(workspace, Fresh(log, stored), steps);
    more := CatchUp(workspace, Outcome(workspace, Fresh(log, stored), steps));
    StepsJoin(workspace, Fresh(log, stored), steps, more);
    forall e | Append(e) in steps ensures e in Outcome(workspace, Fresh(log, stored), steps).log {
      LogKeeps(workspace, Fresh(log, stored), steps, e);
    }
  }

  lemma CatchUp(workspace: string, s: System) returns (more: seq<Step>)
    requires Inv(workspace, s) && s.connection.None?
    ensures AllEnabled(workspace, s, more)
    ensures var last := Outcome(workspace, s, more);
            && last.log == s.log && last.handled.start == s.handled.start
            && (forall e :: e in last.handled.received <==>
                  e in s.log && e.position > s.handled.start
                  && ((e.aggregateType == "workspace" && e.aggregateId == workspace) || e.workspaceId == Some(workspace)))
  {
    ConnectingKeepsInv(workspace, s);
    var connected := Apply(workspace, s, Connect);
    var reading := ReadOn(workspace, connected);
    var draining := DrainQueue(workspace, Outcome(workspace, connected, reading));
    StepsJoin(workspace, connected, reading, draining);
    more := [Connect] + (reading + draining);
    assert more[1..] == reading + draining;
    ReadToTheEnd(Outcome(workspace, connected, reading));
    CaughtUp(workspace, Outcome(workspace, connected, reading + draining));
  }

  lemma ReadToTheEnd(s: System)
    requires IsLog(s.log) && s.connection.Some? && ReadEvents(s.log, s.connection.value.serverCursor).events == []
    ensures forall e :: e in s.log ==> e.position <= s.connection.value.serverCursor
  {
    assert Index(s.log, s.connection.value.serverCursor) == |s.log|;
  }

  lemma CaughtUp(workspace: string, s: System)
    requires Inv(workspace, s) && s.connection.Some? && s.connection.value.queue == []
    requires forall e :: e in s.log ==> e.position <= s.connection.value.serverCursor
    ensures forall e :: e in s.handled.received <==>
              e in s.log && e.position > s.handled.start
              && ((e.aggregateType == "workspace" && e.aggregateId == workspace) || e.workspaceId == Some(workspace))
  {
    OwnedIsOrdered(workspace, s.log, s.handled.start, s.handled.client.cursor);
  }

  // ---------------------------------------------------------------- desktop side

  datatype ConnectionState = Connecting | Connected | Disconnected

  /** The subscription of one workspace. Only frames of the present source count; older sources are ignored. */
  class WorkspaceEventStream {
    var cursor: nat
    var failures: nat
    var state: ConnectionState
    var source: Option<nat>
    var timer: bool
    var closed: bool
    var saved: string
    ghost var received: seq<Event>
    ghost var start: nat

    ghost function View(): Handled
      reads this
    {
      Handled(Client(cursor, failures), received, start)
    }

    constructor (stored: Option<string>)
      ensures View() == Fresh([], stored).handled
      ensures source.None? && !timer && !closed && state.Connecting?
    {
      var position := if stored.Some? then ValidPosition(stored.value) else None;
      cursor := if position.Some? then position.value else 0;
      saved := if stored.Some? then stored.value else "";
      failures, state, source, timer, closed := 0, Connecting, None, false, false;
      received, start := [], if position.Some? then position.value else 0;
    }

    predicate Current(from: nat)
      reads this
    {
      !closed && source == Some(from)
    }

    /** Opens the given source after the cursor, unless the last subscriber has left. */
    method Connect(next: nat) returns (after: Option<string>)
      modifies this`source, this`timer
      ensures old(closed) ==> after.None? && source == old(source) && timer == old(timer)
      ensures !old(closed) ==> after == Some(Print(cursor)) && source == Some(next) && !timer
    {
      if closed {
        return None;
      }
      timer := false;
      source := Some(next);
      after := Some(Print(cursor));
    }

    method OnOpenEvent(from: nat)
      modifies this`failures, this`state
      ensures View() == if old(Current(from)) then OnOpen(old(View())) else old(View())
    {
      if Current(from) {
        failures, state := 0, Connected;
      }
    }

    method OnKernelEvent(from: nat, id: string, ghost e: Event)
      modifies this`cursor, this`saved, this`received
      ensures View() == if old(Current(from)) then OnFrame(old(View()), Kernel(id, e)) else old(View())
      ensures old(Current(from)) ==> saved == Print(cursor)
    {
      if Current(from) {
        var position := ValidPosition(id);
        cursor := Max(cursor, if position.Some? then position.value else cursor);
        saved := Print(cursor);
        received := received + [e];
      }
    }

    method OnCursorEvent(from: nat, id: string) returns (changed: bool)
      modifies this`cursor, this`saved, this`received, this`start
      ensures View() == if old(Current(from)) then OnFrame(old(View()), Cursor(id)) else old(View())
      ensures changed <==> old(Current(from)) && cursor < old(cursor)
    {
      changed := false;
      if Current(from) {
        var reported := ValidPosition(id);
        if reported.Some? {
          changed := reported.value < cursor;
          if changed {
            received, start := [], reported.value;
          }
          cursor := reported.value;
          saved := Print(cursor);
        }
      }
    }

    /** The delay in milliseconds before the next attempt, when the error concerned the present source. */
    method OnErrorEvent(from: nat) returns (delay: Option<nat>)
      modifies this
      ensures closed == old(closed)
      ensures View() == if old(Current(from)) then OnError(old(View())) else old(View())
      ensures old(Current(from)) ==> source.None? && timer && state.Disconnected?
      ensures old(Current(from)) ==> delay == Some(if failures * 500 < 2000 then failures * 500 else 2000)
      ensures !old(Current(from)) ==> source == old(source) && delay.None?
    {
      if !Current(from) {
        return None;
      }
      source := None;
      failures := failures + 1;
      state := Disconnected;
      if failures >= 2 && cursor > 0 {
        cursor := 0;
        saved := Print(cursor);
        received, start := [], 0;
      }
      timer := true;
      delay := Some(if failures * 500 < 2000 then failures * 500 else 2000);
    }

    /** The last subscriber leaves: no later frame of any source changes the client. */
    method Close()
      modifies this`closed
      ensures closed && View() == old(View())
    {
      closed := true;
    }
  }
}
