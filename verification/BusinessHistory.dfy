/** The versioned history of a business: commands, the snapshots they record, and references that outlive them. */
module BusinessHistory {
  import opened Options
  import opened BusinessContext

  datatype Receipt = Receipt(request: nat, response: Business)

  /** `history` holds every state that was ever current since the first one seen, by version. */
  datatype World = World(
    current: Option<Business>,
    snapshots: map<nat, Business>,
    receipts: map<nat, Receipt>,
    history: map<nat, Business>)

  /** One command: `next` is what the business rules make of it. */
  datatype Command = Command(allowed: bool, key: nat, request: nat, expected: nat, next: Result<Business>)

  const INVALID := "BUSINESS_SNAPSHOT_INVALID"

  function Current(w: World): Business { if w.current.Some? then w.current.value else EMPTY }

  /** Saving one state: never over a different one. */
  function Save(snapshots: map<nat, Business>, b: Business): Result<map<nat, Business>> {
    if b.version == 0 then Ok(snapshots)
    else if b.version in snapshots then if snapshots[b.version] == b then Ok(snapshots) else Err(INVALID)
    else Ok(snapshots[b.version := b])
  }

  function Record(snapshots: map<nat, Business>, before: Business, next: Business): Result<map<nat, Business>> {
    if next.version != before.version + 1 then Err(INVALID)
    else
      var first := Save(snapshots, before);
      if first.Err? then first else Save(first.value, next)
  }

  function Carry(w: World, c: Command): (World, Result<Business>) {
    if !c.allowed then (w, Err("WORKSPACE_ACCESS_DENIED"))
    else if c.key in w.receipts then
      (w, if w.receipts[c.key].request != c.request then Err("IDEMPOTENCY_KEY_REUSED") else Ok(w.receipts[c.key].response))
    else if Current(w).version != c.expected then (w, Err("STREAM_VERSION_CONFLICT"))
    else if c.next.Err? then (w, Err(c.next.code))
    else
      var next := c.next.value;
      var recorded := Record(w.snapshots, Current(w), next);
      if recorded.Err? then (w, Err(recorded.code))
      else (World(Some(next), recorded.value, w.receipts[c.key := Receipt(c.request, next)], w.history[next.version := next]), Ok(next))
  }

  /** Reading a version: the current state, or a snapshot. */
  function ReadVersion(w: World, version: nat): Result<Business> {
    if w.current.Some? && w.current.value.version == version then Ok(w.current.value)
    else if version in w.snapshots && w.snapshots[version].version == version then Ok(w.snapshots[version])
    else Err(INVALID)
  }

  datatype Purpose = Now | Historical

  /** Validating a reference against the current books, or against those of its own version. */
  function Validate(w: World, active: bool, ref: Reference, purpose: Purpose, balances: Balances): Result<Content> {
    match purpose
    case Now => Check(Select(w.current, active, ref.kind, ref.id, balances), ref)
    case Historical =>
      var past := ReadVersion(w, ref.version);
      if !active then Err("PLUGIN_NOT_ACTIVE") else if past.Err? then Err(past.code)
      else Check(Select(Some(past.value), active, ref.kind, ref.id, balances), ref)
  }

  // ---------------------------------------------------------------- the store

  class BusinessStore {
    var current: Option<Business>
    var snapshots: map<nat, Business>
    var receipts: map<nat, Receipt>
    var history: map<nat, Business>

    function View(): World
      reads this
    {
      World(current, snapshots, receipts, history)
    }

    constructor (legacy: Option<Business>)
      requires legacy.Some? ==> legacy.value.version >= 1
      ensures View() == Beginning(legacy)
    {
      current, snapshots, receipts := legacy, map[], map[];
      history := if legacy.Some? then map[legacy.value.version := legacy.value] else map[];
    }

    method RecordBusinessSnapshots(before: Business, next: Business) returns (ok: bool)
      modifies this`snapshots
      ensures ok <==> Record(old(snapshots), before, next).Ok?
      ensures ok ==> Ok(snapshots) == Record(old(snapshots), before, next)
      ensures !ok ==> snapshots == old(snapshots)
    {
      if next.version != before.version + 1 {
        return false;
      }
      var states := [before, next];
      var saved: map<nat, Business> := snapshots;
      var i := 0;
      while i < 2
        invariant 0 <= i <= 2 && snapshots == old(snapshots)
        invariant Record(old(snapshots), before, next) ==
                  if i == 0 then Record(saved, before, next) else if i == 1 then Save(saved, next) else Ok(saved)
      {
        var state := states[i];
        if state.version != 0 {
          if state.version in saved {
            if saved[state.version] != state {
              return false;
            }
          } else {
            saved := saved[state.version := state];
          }
        }
        i := i + 1;
      }
      snapshots := saved;
      ok := true;
    }

    method CommandOpcBusiness(c: Command) returns (r: Result<Business>)
      modifies this
      ensures (View(), r) == Carry(old(View()), c)
    {
      if !c.allowed {
        return Err("WORKSPACE_ACCESS_DENIED");
      }
      if c.key in receipts {
        var previous := receipts[c.key];
        return if previous.request != c.request then Err("IDEMPOTENCY_KEY_REUSED") else Ok(previous.response);
      }
      var state := if current.Some? then current.value else EMPTY;
      if state.version != c.expected {
        return Err("STREAM_VERSION_CONFLICT");
      }
      if c.next.Err? {
        return Err(c.next.code);
      }
      var next := c.next.value;
      var ok := RecordBusinessSnapshots(state, next);
      if !ok {
        return Err(INVALID);
      }
      current := Some(next);
      history := history[next.version := next];
      receipts := receipts[c.key := Receipt(c.request, next)];
      r := Ok(next);
    }
  }

  // ---------------------------------------------------------------- every run

  /** Books start empty, or as an older host left them: at some version and without snapshots. */
  function Beginning(legacy: Option<Business>): World {
    World(legacy, map[], map[], if legacy.Some? then map[legacy.value.version := legacy.value] else map[])
  }

  /** The version from which on the history is kept. */
  function First(legacy: Option<Business>): nat { if legacy.Some? then legacy.value.version else 1 }

  ghost predicate Inv(w: World, first: nat) {
    && first >= 1
    && (w.current.None? ==> w.history == map[] && w.snapshots == map[] && first == 1)
    && (w.current.Some? ==> w.current.value.version in w.history && w.history[w.current.value.version] == w.current.value)
    && (forall v :: v in w.history <==> w.current.Some? && first <= v <= w.current.value.version)
    && (forall v :: v in w.history ==> w.history[v].version == v)
    && (forall v :: v in w.snapshots ==> v in w.history && w.snapshots[v] == w.history[v])
    && (forall v :: v in w.history && v < w.current.value.version ==> v in w.snapshots)
  }

  function After(w: World, commands: seq<Command>): World
    decreases |commands|
  {
    if commands == [] then w else After(Carry(w, commands[0]).0, commands[1..])
  }

  /** What a later state keeps of an earlier one. */
  predicate Extends(w: World, later: World) {
    && (forall v :: v in w.history ==> v in later.history && later.history[v] == w.history[v])
    && (forall v :: v in w.snapshots ==> v in later.snapshots && later.snapshots[v] == w.snapshots[v])
    && (forall k :: k in w.receipts ==> k in later.receipts && later.receipts[k] == w.receipts[k])
  }

  /** Recording never fails in a reachable state: a snapshot already there is the very state to be saved. */
  lemma RecordingSucceeds(w: World, first: nat, next: Business)
    requires Inv(w, first)
    ensures Record(w.snapshots, Current(w), next).Ok? <==> next.version == Current(w).version + 1
  {
  }

  lemma CommandKeepsInv(w: World, first: nat, c: Command)
    requires Inv(w, first)
    ensures Inv(Carry(w, c).0, first) && Extends(w, Carry(w, c).0)
  {
    if Carry(w, c).0 != w {
      AdvancingKeepsInv(w, first, c.next.value, Carry(w, c).0);
    }
  }

  /** A carried-out command adds the next version and at most two snapshots, both true. */
  lemma AdvancingKeepsInv(w: World, first: nat, next: Business, later: World)
    requires Inv(w, first) && Record(w.snapshots, Current(w), next).Ok?
    requires later.current == Some(next) && later.snapshots == Record(w.snapshots, Current(w), next).value
    requires later.history == w.history[next.version := next]
    requires forall k :: k in w.receipts ==> k in later.receipts && later.receipts[k] == w.receipts[k]
    ensures Inv(later, first) && Extends(w, later)
  {
    RecordingSucceeds(w, first, next);
    RecordedSnapshots(w.snapshots, Current(w), next);
  }

  lemma RecordedSnapshots(snapshots: map<nat, Business>, before: Business, next: Business)
    requires Record(snapshots, before, next).Ok?
    ensures var r := Record(snapshots, before, next).value;
            && (forall v :: v in snapshots ==> v in r && r[v] == snapshots[v])
            && (forall v :: v in r ==> v in snapshots || (v == before.version > 0) || v == next.version)
            && next.version in r && r[next.version] == next
            && (before.version > 0 ==> before.version in r && r[before.version] == before)
  {
  }

  lemma {:induction false} RunKeepsInv(w: World, first: nat, commands: seq<Command>)
    requires Inv(w, first)
    ensures Inv(After(w, commands), first) && Extends(w, After(w, commands))
    decreases |commands|
  {
    if commands != [] {
      CommandKeepsInv(w, first, commands[0]);
      RunKeepsInv(Carry(w, commands[0]).0, first, commands[1..]);
    }
  }

  lemma {:induction false} RunsJoin(w: World, a: seq<Command>, b: seq<Command>)
    ensures After(w, a + b) == After(After(w, a), b)
    decreases |a|
  {
    if a == [] {
      assert a + b == b;
    } else {
      assert (a + b)[1..] == a[1..] + b;
      RunsJoin(Carry(w, a[0]).0, a[1..], b);
    }
  }

  lemma CommandSucceedsWhen(w: World, first: nat, c: Command)
    requires Inv(w, first)
    ensures Carry(w, c).1.Ok? <==>
              && c.allowed
              && (if c.key in w.receipts then w.receipts[c.key].request == c.request
                  else c.expected == Current(w).version && c.next.Ok? && c.next.value.version == c.expected + 1)
  {
    if c.next.Ok? {
      RecordingSucceeds(w, first, c.next.value);
    }
  }

  predicate Legacy(legacy: Option<Business>) { legacy.Some? ==> legacy.value.version >= 1 }

  /** After any commands, every version from the first one kept to the current one reads as it was, and no other version reads. */
  lemma EveryVersionReadsAsItWas(legacy: Option<Business>, commands: seq<Command>, version: nat)
    requires Legacy(legacy)
    ensures var w := After(Beginning(legacy), commands);
            && (ReadVersion(w, version).Ok? <==> w.current.Some? && First(legacy) <= version <= w.current.value.version)
            && (ReadVersion(w, version).Ok? ==> version in w.history && ReadVersion(w, version).value == w.history[version])
  {
    RunKeepsInv(Beginning(legacy), First(legacy), commands);
  }

  /**
   Keeping snapshots never stands in the way: after any commands an allowed one is answered exactly when it repeats a
   known request, or when it names the current version and makes the next one. In the latter case it becomes current, and
   repeating it is answered from its receipt; a command that fails changes nothing.
   */
  lemma ValidCommandsSucceed(legacy: Option<Business>, commands: seq<Command>, c: Command)
    requires Legacy(legacy)
    ensures var w := After(Beginning(legacy), commands);
            && (Carry(w, c).1.Ok? <==>
                  && c.allowed
                  && (if c.key in w.receipts then w.receipts[c.key].request == c.request
                      else c.expected == Current(w).version && c.next.Ok? && c.next.value.version == c.expected + 1))
            && (Carry(w, c).1.Ok? && c.key !in w.receipts ==>
                  After(Beginning(legacy), commands + [c]).current == Some(c.next.value)
                  && ReadVersion(After(Beginning(legacy), commands + [c]), c.next.value.version) == Ok(c.next.value)
                  && Carry(After(Beginning(legacy), commands + [c]), c) == (After(Beginning(legacy), commands + [c]), Ok(c.next.value)))
            && (Carry(w, c).1.Err? ==> After(Beginning(legacy), commands + [c]) == w)
  {
    var w := After(Beginning(legacy), commands);
    RunKeepsInv(Beginning(legacy), First(legacy), commands);
    CommandSucceedsWhen(w, First(legacy), c);
    RunsJoin(Beginning(legacy), commands, [c]);
    assert After(w, [c]) == Carry(w, c).0;
    CommandKeepsInv(w, First(legacy), c);
  }

  /** What was current after some commands is what its version reads as after any further ones. */
  lemma PastStatesStayReadable(legacy: Option<Business>, earlier: seq<Command>, later: seq<Command>)
    requires Legacy(legacy) && After(Beginning(legacy), earlier).current.Some?
    ensures var past := After(Beginning(legacy), earlier).current.value;
            ReadVersion(After(Beginning(legacy), earlier + later), past.version) == Ok(past)
  {
    var w := After(Beginning(legacy), earlier);
    RunKeepsInv(Beginning(legacy), First(legacy), earlier);
    RunKeepsInv(w, First(legacy), later);
    RunsJoin(Beginning(legacy), earlier, later);
  }

  /** No snapshot is ever overwritten, and a repeated command gets its first answer without changing anything. */
  lemma NothingIsRewritten(legacy: Option<Business>, earlier: seq<Command>, later: seq<Command>, again: Command)
    requires Legacy(legacy)
    ensures Extends(After(Beginning(legacy), earlier), After(Beginning(legacy), earlier + later))
    ensures again.allowed && again.key in After(Beginning(legacy), earlier).receipts
            && After(Beginning(legacy), earlier).receipts[again.key].request == again.request ==>
              Carry(After(Beginning(legacy), earlier + later), again)
              == (After(Beginning(legacy), earlier + later), Ok(After(Beginning(legacy), earlier).receipts[again.key].response))
  {
    var w := After(Beginning(legacy), earlier);
    RunKeepsInv(Beginning(legacy), First(legacy), earlier);
    RunKeepsInv(w, First(legacy), later);
    RunsJoin(Beginning(legacy), earlier, later);
  }

  /**
   A reference taken to the current books stays valid historically, with the content it was taken with; against the
   current books it is valid exactly while no further command has been carried out.
   */
  lemma ReferencesOutliveChanges(legacy: Option<Business>, earlier: seq<Command>, later: seq<Command>, kind: Kind, id: nat, balances: Balances)
    requires Legacy(legacy)
    requires Select(After(Beginning(legacy), earlier).current, true, kind, id, balances).Ok?
    ensures var taken := Select(After(Beginning(legacy), earlier).current, true, kind, id, balances).value;
            var w := After(Beginning(legacy), earlier + later);
            && Validate(w, true, taken.1, Historical, balances) == Ok(taken.0)
            && (Validate(w, true, taken.1, Now, balances).Ok? <==> w.current.Some? && w.current.value.version == taken.1.version)
            && (Validate(w, true, taken.1, Now, balances).Ok? ==> Validate(w, true, taken.1, Now, balances) == Ok(taken.0))
  {
    var w, now := After(Beginning(legacy), earlier), After(Beginning(legacy), earlier + later);
    PastStatesStayReadable(legacy, earlier, later);
    RunKeepsInv(Beginning(legacy), First(legacy), earlier);
    RunKeepsInv(Beginning(legacy), First(legacy), earlier + later);
    RunKeepsInv(w, First(legacy), later);
    RunsJoin(Beginning(legacy), earlier, later);
    ReferenceValidates(w, now, First(legacy), kind, id, balances);
  }

  lemma ReferenceValidates(w: World, now: World, first: nat, kind: Kind, id: nat, balances: Balances)
    requires Inv(w, first) && Inv(now, first) && Extends(w, now) && Select(w.current, true, kind, id, balances).Ok?
    requires ReadVersion(now, w.current.value.version) == Ok(w.current.value)
    ensures var taken := Select(w.current, true, kind, id, balances).value;
            && Validate(now, true, taken.1, Historical, balances) == Ok(taken.0)
            && (Validate(now, true, taken.1, Now, balances).Ok? <==> now.current.Some? && now.current.value.version == taken.1.version)
            && (Validate(now, true, taken.1, Now, balances).Ok? ==> Validate(now, true, taken.1, Now, balances) == Ok(taken.0))
  {
    var past := w.current.value;
    assert past.version in now.history && now.history[past.version] == past;
    assert now.current.Some? && now.current.value.version == past.version ==> now.current.value == past;
  }

  /** Conversely, only references that could have been taken at their version validate. */
  lemma OnlyTrueReferencesValidate(legacy: Option<Business>, commands: seq<Command>, ref: Reference, balances: Balances)
    requires Legacy(legacy)
    requires Validate(After(Beginning(legacy), commands), true, ref, Historical, balances).Ok?
    ensures var w := After(Beginning(legacy), commands);
            && ref.version in w.history
            && Select(Some(w.history[ref.version]), true, ref.kind, ref.id, balances) ==
               Ok((Validate(w, true, ref, Historical, balances).value, ref))
  {
    EveryVersionReadsAsItWas(legacy, commands, ref.version);
    RunKeepsInv(Beginning(legacy), First(legacy), commands);
  }
}
