/** The live tail of a session (internal/live/nats.go): wakeups, ticks and previews drive
    cursor reads of the durable event log.

    The environment is a script of moves, one per interaction of the tail with it. Each move
    may first commit events or delete the session; `ok` says whether the interaction goes
    through (the read succeeds, the frame buffer has room, the context is alive) and `wake`
    is what the select sees. A script that runs out stands for a cancelled context. */
module LiveTail {
  import opened Conversation

  datatype Kind = RequestStart | RequestEnd(startId: string) | AgentMessage | OtherKind

  datatype Event = Event(id: string, sequence: int, thread: string, kind: Kind)

  datatype Envelope = Envelope(eventId: string, eventType: string, request: string, text: string)

  datatype Frame = Persisted(event: Event) | Preview(envelope: Envelope) | SessionDeleted

  datatype Wake = Wakeup | Tick | Previewed(envelope: Envelope) | Undecodable | Cancelled

  datatype Move = Move(commits: seq<Event>, deletes: bool, ok: bool, wake: Wake)

  /** What the tail depends on: the committed log, whether the session is gone, and the
      moves still to come. */
  datatype World = World(log: seq<Event>, gone: bool, script: seq<Move>)

  const PAGE: nat := 1000

  function Next(w: World): World
    requires w.script != []
  {
    var m := w.script[0];
    var gone := w.gone || m.deletes;
    World(if gone then w.log else w.log + m.commits, gone, w.script[1..])
  }

  // ---------------------------------------------------------------- the log

  ghost predicate Increasing(log: seq<Event>) {
    forall i, j :: 0 <= i < j < |log| ==> log[i].sequence < log[j].sequence
  }

  /** Receipt sequences are assigned under the session's row lock, so commits keep them increasing. */
  ghost predicate WellFormed(w: World)
    decreases |w.script|
  {
    Increasing(w.log) && (w.script != [] ==> WellFormed(Next(w)))
  }

  /** The events of one thread past a cursor, in order. */
  function After(log: seq<Event>, scope: string, cursor: int): seq<Event> {
    if log == [] then []
    else
      var e := log[|log| - 1];
      After(log[..|log| - 1], scope, cursor) + if e.thread == scope && e.sequence > cursor then [e] else []
  }

  function Page(w: World, scope: string, cursor: int): (page: seq<Event>)
    ensures |page| <= PAGE
  {
    if w.gone then []
    else
      var events := After(w.log, scope, cursor);
      if |events| > PAGE then events[..PAGE] else events
  }

  /** MAX(seq) of the thread, or 0. */
  function Latest(log: seq<Event>, scope: string): int {
    if log == [] then 0
    else
      var e, before := log[|log| - 1], Latest(log[..|log| - 1], scope);
      if e.thread == scope && e.sequence > before then e.sequence else before
  }

  lemma {:induction false} AfterConcat(a: seq<Event>, b: seq<Event>, scope: string, cursor: int)
    ensures After(a + b, scope, cursor) == After(a, scope, cursor) + After(b, scope, cursor)
  {
    if b == [] {
      assert a + b == a;
    } else {
      AfterConcat(a, b[..|b| - 1], scope, cursor);
      assert (a + b)[..|a + b| - 1] == a + b[..|b| - 1];
    }
  }

  lemma {:induction false} AfterMember(log: seq<Event>, scope: string, cursor: int, e: Event)
    ensures e in After(log, scope, cursor) <==> e in log && e.thread == scope && e.sequence > cursor
  {
    if log != [] {
      AfterMember(log[..|log| - 1], scope, cursor, e);
      assert log == log[..|log| - 1] + [log[|log| - 1]];
    }
  }

  lemma {:induction false} AfterIncreasing(log: seq<Event>, scope: string, cursor: int)
    requires Increasing(log)
    ensures Increasing(After(log, scope, cursor))
  {
    if log != [] {
      var init := log[..|log| - 1];
      AfterIncreasing(init, scope, cursor);
      forall e | e in After(init, scope, cursor) ensures e.sequence < log[|log| - 1].sequence {
        AfterMember(init, scope, cursor, e);
      }
    }
  }

  lemma {:induction false} AfterNothing(log: seq<Event>, scope: string, cursor: int)
    requires forall e | e in log :: e.sequence <= cursor
    ensures After(log, scope, cursor) == []
  {
    if log != [] { AfterNothing(log[..|log| - 1], scope, cursor); }
  }

  /** Advancing the cursor over the next event leaves exactly the rest. */
  lemma {:induction false} AfterAdvance(log: seq<Event>, scope: string, cursor: int)
    requires Increasing(log) && After(log, scope, cursor) != []
    ensures var next := After(log, scope, cursor);
      After(log, scope, next[0].sequence) == next[1..]
  {
    var init, e := log[..|log| - 1], log[|log| - 1];
    var before := After(init, scope, cursor);
    if before == [] {
      AfterNothing(init, scope, e.sequence);
    } else {
      AfterAdvance(init, scope, cursor);
      AfterMember(init, scope, cursor, before[0]);
    }
  }

  // ---------------------------------------------------------------- the tail as a state machine

  datatype State = State(
    cursor: int,
    prepared: set<string>,
    closedEvents: set<string>,
    closedRequests: set<string>,
    legacyClosed: bool,
    frames: seq<Frame>)

  datatype Progress = Progress(state: State, world: World, ok: bool)

  /** The cursor and the fences move before the frame is offered to the subscriber. */
  function Noted(s: State, e: Event): State {
    var s := s.(cursor := e.sequence);
    match e.kind
    case RequestStart => s.(legacyClosed := false)
    case RequestEnd(startId) =>
      s.(legacyClosed := true, closedRequests := if startId != "" then s.closedRequests + {startId}
          else s.closedRequests)
    case AgentMessage => s.(closedEvents := s.closedEvents + {e.id})
    case OtherKind => s
  }

  function Offered(s: State, f: Frame): State {
    s.(frames := s.frames + [f])
  }

  /** Offers a page of events one by one; a full buffer ends the stream. */
  function Delivered(s: State, w: World, events: seq<Event>): Progress
    decreases |events|
  {
    if events == [] then Progress(s, w, true)
    else if w.script == [] then Progress(Noted(s, events[0]), w, false)
    else if !w.script[0].ok then Progress(Noted(s, events[0]), Next(w), false)
    else Delivered(Offered(Noted(s, events[0]), Persisted(events[0])), Next(w), events[1..])
  }

  lemma {:induction false} DeliveredUses(s: State, w: World, events: seq<Event>)
    ensures |Delivered(s, w, events).world.script| <= |w.script|
    decreases |events|
  {
    if events != [] && w.script != [] && w.script[0].ok {
      DeliveredUses(Offered(Noted(s, events[0]), Persisted(events[0])), Next(w), events[1..]);
    }
  }

  /** The existence check that ends a reconciliation, and the synthetic last frame. */
  function Checked(s: State, w: World): Progress {
    if w.script == [] then Progress(s, w, false)
    else
      var w1 := Next(w);
      if !w.script[0].ok then Progress(s, w1, false)
      else if !w1.gone then Progress(s, w1, true)
      else if w1.script == [] then Progress(s, w1, false)
      else Progress(if w1.script[0].ok then Offered(s, SessionDeleted) else s, Next(w1), false)
  }

  /** Reads pages until a short one, offering every event. */
  function Reconciled(s: State, w: World, scope: string): Progress
    decreases |w.script|
  {
    if w.script == [] then Progress(s, w, false)
    else if !w.script[0].ok then Progress(s, Next(w), false)
    else
      var page := Page(Next(w), scope, s.cursor);
      var d := Delivered(s, Next(w), page);
      DeliveredUses(s, Next(w), page);
      if !d.ok then d
      else if |page| < PAGE then Checked(d.state, d.world)
      else Reconciled(d.state, d.world, scope)
  }

  lemma {:induction false} ReconciledUses(s: State, w: World, scope: string)
    ensures |Reconciled(s, w, scope).world.script| <= |w.script|
    decreases |w.script|
  {
    if w.script != [] && w.script[0].ok {
      var page := Page(Next(w), scope, s.cursor);
      var d := Delivered(s, Next(w), page);
      DeliveredUses(s, Next(w), page);
      if d.ok && |page| >= PAGE { ReconciledUses(d.state, d.world, scope); }
    }
  }

  /** The durable log is caught up before the first preview of an event is considered. */
  function Prepared(s: State, w: World, scope: string, eventId: string): Progress {
    if eventId in s.prepared then Progress(s, w, true)
    else
      var r := Reconciled(s, w, scope);
      if r.ok then r.(state := r.state.(prepared := r.state.prepared + {eventId})) else r
  }

  predicate Fenced(s: State, envelope: Envelope) {
    || envelope.eventId in s.closedEvents
    || (if envelope.request != "" then envelope.request in s.closedRequests else s.legacyClosed)
  }

  predicate OptedIn(optIn: map<string, bool>, eventType: string) {
    eventType in optIn && optIn[eventType]
  }

  function Forwarded(s: State, w: World, scope: string, optIn: map<string, bool>, envelope: Envelope): Progress {
    if !OptedIn(optIn, envelope.eventType) then Progress(s, w, true)
    else
      var p := Prepared(s, w, scope, envelope.eventId);
      if !p.ok then p
      else if Fenced(p.state, envelope) then p
      else if p.world.script == [] then p.(ok := false)
      else
        var room := p.world.script[0].ok;
        Progress(if room then Offered(p.state, Preview(envelope)) else p.state, Next(p.world), room)
  }

  /** One turn of the select loop. */
  function Turn(s: State, w: World, scope: string, optIn: map<string, bool>): Progress
    requires w.script != []
  {
    match w.script[0].wake
    case Cancelled => Progress(s, Next(w), false)
    case Wakeup => Reconciled(s, Next(w), scope)
    case Tick => Reconciled(s, Next(w), scope)
    case Undecodable => Progress(s, Next(w), true)
    case Previewed(envelope) => Forwarded(s, Next(w), scope, optIn, envelope)
  }

  lemma {:induction false} TurnUses(s: State, w: World, scope: string, optIn: map<string, bool>)
    requires w.script != []
    ensures |Turn(s, w, scope, optIn).world.script| < |w.script|
  {
    ReconciledUses(s, Next(w), scope);
  }

  /** The whole run of the tail. */
  function Run(s: State, w: World, scope: string, optIn: map<string, bool>): Progress
    decreases |w.script|
  {
    if w.script == [] then Progress(s, w, false)
    else
      var t := Turn(s, w, scope, optIn);
      TurnUses(s, w, scope, optIn);
      if t.ok then Run(t.state, t.world, scope, optIn) else t
  }

  function Start(log: seq<Event>, scope: string): State {
    State(Latest(log, scope), {}, {}, {}, false, [])
  }

  // ---------------------------------------------------------------- the tail as the program runs it

  class Tail {
    const scope: string
    const optIn: map<string, bool>
    var cursor: int
    var previewPrepared: set<string>
    var closedPreviewEvents: set<string>
    var closedModelRequests: set<string>
    var legacyModelRequestClosed: bool
    var frames: seq<Frame>

    function Current(): State
      reads this
    {
      State(cursor, previewPrepared, closedPreviewEvents, closedModelRequests, legacyModelRequestClosed, frames)
    }

    /** Subscribing reads the cursor before the tail starts. */
    constructor (log: seq<Event>, scope: string, optIn: map<string, bool>)
      ensures Current() == Start(log, scope)
      ensures this.scope == scope && this.optIn == optIn
    {
      this.scope, this.optIn := scope, optIn;
      cursor := Latest(log, scope);
      previewPrepared, closedPreviewEvents, closedModelRequests := {}, {}, {};
      legacyModelRequestClosed := false;
      frames := [];
    }

    method Offer(f: Frame, w: World) returns (ok: bool, w': World)
      modifies this`frames
      ensures w.script == [] ==> !ok && w' == w
      ensures w.script != [] ==> ok == w.script[0].ok && w' == Next(w)
      ensures Current() == if ok then Offered(old(Current()), f) else old(Current())
    {
      if w.script == [] { return false, w; }
      ok, w' := w.script[0].ok, Next(w);
      if ok { frames := frames + [f]; }
    }

    method DeliverPage(events: seq<Event>, w: World) returns (ok: bool, w': World)
      modifies this
      ensures Progress(Current(), w', ok) == Delivered(old(Current()), w, events)
    {
      w' := w;
      assert events[0..] == events;
      for i := 0 to |events|
        invariant Delivered(Current(), w', events[i..]) == Delivered(old(Current()), w, events)
      {
        var event := events[i];
        assert events[i..][0] == event && events[i..][1..] == events[i + 1..];
        cursor := event.sequence;
        match event.kind {
          case RequestStart => legacyModelRequestClosed := false;
          case RequestEnd(startId) =>
            legacyModelRequestClosed := true;
            if startId != "" { closedModelRequests := closedModelRequests + {startId}; }
          case AgentMessage => closedPreviewEvents := closedPreviewEvents + {event.id};
          case OtherKind =>
        }
        ok, w' := Offer(Persisted(event), w');
        if !ok { return; }
      }
      ok := true;
    }

    method CheckSession(w: World) returns (ok: bool, w': World)
      modifies this
      ensures Progress(Current(), w', ok) == Checked(old(Current()), w)
    {
      if w.script == [] { return false, w; }
      w' := Next(w);
      if !w.script[0].ok { return false, w'; }
      if !w'.gone { return true, w'; }
      var _, last := Offer(SessionDeleted, w');
      return false, last;
    }

    method Reconcile(w: World) returns (ok: bool, w': World)
      modifies this
      ensures Progress(Current(), w', ok) == Reconciled(old(Current()), w, scope)
    {
      w' := w;
      while true
        invariant Reconciled(Current(), w', scope) == Reconciled(old(Current()), w, scope)
        decreases |w'.script|
      {
        if w'.script == [] { return false, w'; }
        var read := w'.script[0].ok;
        w' := Next(w');
        if !read { return false, w'; }
        var events := Page(w', scope, cursor);
        DeliveredUses(Current(), w', events);
        ok, w' := DeliverPage(events, w');
        if !ok { return; }
        if |events| < PAGE { break; }
      }
      ok, w' := CheckSession(w');
    }

    method ForwardPreview(envelope: Envelope, w: World) returns (ok: bool, w': World)
      modifies this
      ensures Progress(Current(), w', ok) == Forwarded(old(Current()), w, scope, optIn, envelope)
    {
      ok, w' := true, w;
      if envelope.eventType !in optIn || !optIn[envelope.eventType] { return; }
      if envelope.eventId !in previewPrepared {
        ok, w' := Reconcile(w');
        if !ok { return; }
        previewPrepared := previewPrepared + {envelope.eventId};
      }
      if envelope.eventId in closedPreviewEvents { return; }
      if envelope.request != "" {
        if envelope.request in closedModelRequests { return; }
      } else if legacyModelRequestClosed {
        return;
      }
      ok, w' := Offer(Preview(envelope), w');
    }

    method Loop(w: World) returns (w': World)
      modifies this
      ensures Progress(Current(), w', false) == Run(old(Current()), w, scope, optIn)
    {
      w' := w;
      var ok := true;
      while w'.script != []
        invariant Run(Current(), w', scope, optIn) == Run(old(Current()), w, scope, optIn)
        decreases |w'.script|
      {
        var wake := w'.script[0].wake;
        TurnUses(Current(), w', scope, optIn);
        w' := Next(w');
        match wake {
          case Cancelled => return;
          case Wakeup => ok, w' := Reconcile(w');
          case Tick => ok, w' := Reconcile(w');
          case Undecodable =>
          case Previewed(envelope) => ok, w' := ForwardPreview(envelope, w');
        }
        if !ok { return; }
      }
    }
  }

  // ---------------------------------------------------------------- what a subscriber has received

  function Events(frames: seq<Frame>): seq<Event> {
    if frames == [] then []
    else
      var f := frames[|frames| - 1];
      Events(frames[..|frames| - 1]) + if f.Persisted? then [f.event] else []
  }

  function MessageIds(events: seq<Event>): set<string> {
    set e | e in events && e.kind.AgentMessage? :: e.id
  }

  function EndedRequests(events: seq<Event>): set<string> {
    set e | e in events && e.kind.RequestEnd? && e.kind.startId != "" :: e.kind.startId
  }

  /** The last request boundary received is an end. */
  function LegacyClosed(events: seq<Event>): bool {
    if events == [] then false
    else
      var e := events[|events| - 1];
      if e.kind.RequestStart? then false
      else if e.kind.RequestEnd? then true
      else LegacyClosed(events[..|events| - 1])
  }

  /** A preview the subscriber may still receive after those frames. */
  ghost predicate Timely(frames: seq<Frame>, envelope: Envelope, optIn: map<string, bool>) {
    var events := Events(frames);
    && OptedIn(optIn, envelope.eventType)
    && envelope.eventId !in MessageIds(events)
    && if envelope.request != "" then envelope.request !in EndedRequests(events) else !LegacyClosed(events)
  }

  /** Every preview was timely when it was delivered, and session.deleted is last. */
  ghost predicate Orderly(frames: seq<Frame>, optIn: map<string, bool>) {
    frames == [] ||
    var init, f := frames[..|frames| - 1], frames[|frames| - 1];
    && Orderly(init, optIn)
    && SessionDeleted !in init
    && (f.Preview? ==> Timely(init, f.envelope, optIn))
  }

  /** The fences are exactly what the delivered history says. */
  ghost predicate Fences(s: State) {
    var events := Events(s.frames);
    && s.closedEvents == MessageIds(events)
    && s.closedRequests == EndedRequests(events)
    && s.legacyClosed == LegacyClosed(events)
  }

  /** Sequence of the last event delivered, or the subscription cursor. */
  function Reached(frames: seq<Frame>, start: int): int {
    var events := Events(frames);
    if events == [] then start else events[|events| - 1].sequence
  }

  /** What was delivered, and what is still past the cursor, is everything past the
      subscription cursor. */
  ghost predicate Behind(s: State, log: seq<Event>, scope: string, start: int) {
    && s.cursor == Reached(s.frames, start)
    && Events(s.frames) + After(log, scope, s.cursor) == After(log, scope, start)
  }

  ghost predicate Sound(s: State, optIn: map<string, bool>) {
    Fences(s) && Orderly(s.frames, optIn) && SessionDeleted !in s.frames
  }

  /** The running tail. */
  ghost predicate Tracking(s: State, log: seq<Event>, scope: string, optIn: map<string, bool>, start: int) {
    Behind(s, log, scope, start) && Sound(s, optIn)
  }

  /** The ended tail. */
  ghost predicate Ended(s: State, log: seq<Event>, scope: string, optIn: map<string, bool>, start: int) {
    Events(s.frames) <= After(log, scope, start) && Orderly(s.frames, optIn)
  }

  ghost predicate Kept(p: Progress, scope: string, optIn: map<string, bool>, start: int) {
    && WellFormed(p.world)
    && if p.ok then Tracking(p.state, p.world.log, scope, optIn, start)
        else Ended(p.state, p.world.log, scope, optIn, start)
  }

  lemma {:induction false} EventsSnoc(init: seq<Frame>, f: Frame)
    ensures Events(init + [f]) == Events(init) + if f.Persisted? then [f.event] else []
  {
    assert (init + [f])[..|init|] == init;
  }

  lemma {:induction false} OrderlySnoc(init: seq<Frame>, f: Frame, optIn: map<string, bool>)
    requires Orderly(init, optIn) && SessionDeleted !in init && (f.Preview? ==> Timely(init, f.envelope, optIn))
    ensures Orderly(init + [f], optIn)
  {
    assert (init + [f])[..|init|] == init;
  }

  lemma {:induction false} IdsSnoc(events: seq<Event>, e: Event)
    ensures MessageIds(events + [e]) == MessageIds(events) + if e.kind.AgentMessage? then {e.id} else {}
    ensures EndedRequests(events + [e]) == EndedRequests(events) +
        if e.kind.RequestEnd? && e.kind.startId != "" then {e.kind.startId} else {}
    ensures LegacyClosed(events + [e]) == if e.kind.RequestStart? then false else if e.kind.RequestEnd? then true
        else LegacyClosed(events)
  {
    assert (events + [e])[..|events|] == events;
  }

  lemma SeqAssoc<T>(a: seq<T>, b: seq<T>, c: seq<T>)
    ensures (a + b) + c == a + (b + c)
  {
  }

  /** What is committed later is past the cursor exactly when it is past the start. */
  lemma {:induction false} MorePast(s: State, log: seq<Event>, more: seq<Event>, scope: string, start: int)
    requires Behind(s, log, scope, start) && Increasing(log + more)
    ensures After(more, scope, s.cursor) == After(more, scope, start)
  {
    var events := Events(s.frames);
    if events != [] {
      var last := events[|events| - 1];
      assert last in After(log, scope, start);
      AfterMember(log, scope, start, last);
      forall e | e in more ensures e.sequence > s.cursor {
        var i :| 0 <= i < |log| && log[i] == last;
        var j :| 0 <= j < |more| && more[j] == e;
        assert (log + more)[i] == last && (log + more)[|log| + j] == e;
      }
      AfterAll(more, scope, s.cursor, start);
    }
  }

  lemma {:induction false} AfterAll(more: seq<Event>, scope: string, a: int, b: int)
    requires b < a && forall e | e in more :: e.sequence > a
    ensures After(more, scope, a) == After(more, scope, b)
  {
    if more != [] { AfterAll(more[..|more| - 1], scope, a, b); }
  }

  lemma {:induction false} BehindGrows(s: State, log: seq<Event>, more: seq<Event>, scope: string, start: int)
    requires Behind(s, log, scope, start) && Increasing(log + more)
    ensures Behind(s, log + more, scope, start)
  {
    MorePast(s, log, more, scope, start);
    AfterConcat(log, more, scope, s.cursor);
    AfterConcat(log, more, scope, start);
    SeqAssoc(Events(s.frames), After(log, scope, s.cursor), After(more, scope, s.cursor));
  }

  lemma {:induction false} NextGrows(s: State, w: World, scope: string, start: int)
    requires WellFormed(w) && w.script != []
    ensures WellFormed(Next(w)) && w.log <= Next(w).log
    ensures Behind(s, w.log, scope, start) ==> Behind(s, Next(w).log, scope, start)
    ensures Events(s.frames) <= After(w.log, scope, start) ==> Events(s.frames) <= After(Next(w).log, scope, start)
  {
    var more := w.script[0].commits;
    if Next(w).log != w.log {
      AfterConcat(w.log, more, scope, start);
      if Behind(s, w.log, scope, start) { BehindGrows(s, w.log, more, scope, start); }
    }
  }

  /** Offering the next event past the cursor keeps the tail in step. */
  lemma {:induction false} OfferNext(s: State, log: seq<Event>, scope: string, optIn: map<string, bool>, start: int)
    requires Increasing(log) && Tracking(s, log, scope, optIn, start) && After(log, scope, s.cursor) != []
    ensures var e := After(log, scope, s.cursor)[0];
      var s' := Offered(Noted(s, e), Persisted(e));
      && Tracking(s', log, scope, optIn, start)
      && After(log, scope, s'.cursor) == After(log, scope, s.cursor)[1..]
  {
    var past := After(log, scope, s.cursor);
    var e := past[0];
    AfterAdvance(log, scope, s.cursor);
    EventsSnoc(s.frames, Persisted(e));
    OrderlySnoc(s.frames, Persisted(e), optIn);
    IdsSnoc(Events(s.frames), e);
    assert past == [e] + past[1..];
    SeqAssoc(Events(s.frames), [e], past[1..]);
  }

  lemma {:induction false} TrackingEnds(s: State, s': State, log: seq<Event>, scope: string, optIn: map<string, bool>,
      start: int)
    requires Tracking(s, log, scope, optIn, start) && s'.frames == s.frames
    ensures Ended(s', log, scope, optIn, start)
  {
  }

  lemma {:induction false} NextKeeps(s: State, w: World, scope: string, optIn: map<string, bool>, start: int)
    requires WellFormed(w) && w.script != []
    ensures WellFormed(Next(w)) && w.log <= Next(w).log
    ensures Tracking(s, w.log, scope, optIn, start) ==> Tracking(s, Next(w).log, scope, optIn, start)
    ensures Ended(s, w.log, scope, optIn, start) ==> Ended(s, Next(w).log, scope, optIn, start)
  {
    NextGrows(s, w, scope, start);
  }

  /** Offering the next event, whether or not there is room for it. */
  lemma {:induction false} OfferStep(s: State, w: World, e: Event, scope: string, optIn: map<string, bool>, start: int)
    requires WellFormed(w) && Tracking(s, w.log, scope, optIn, start)
    requires After(w.log, scope, s.cursor) != [] && e == After(w.log, scope, s.cursor)[0]
    ensures Ended(Noted(s, e), w.log, scope, optIn, start)
    ensures w.script != [] ==>
      && WellFormed(Next(w)) && w.log <= Next(w).log
      && Ended(Noted(s, e), Next(w).log, scope, optIn, start)
      && Tracking(Offered(Noted(s, e), Persisted(e)), Next(w).log, scope, optIn, start)
  {
    OfferNext(s, w.log, scope, optIn, start);
    TrackingEnds(s, Noted(s, e), w.log, scope, optIn, start);
    if w.script != [] {
      NextKeeps(Noted(s, e), w, scope, optIn, start);
      NextKeeps(Offered(Noted(s, e), Persisted(e)), w, scope, optIn, start);
    }
  }

  lemma {:induction false} ReadPrefix(read: seq<Event>, log: seq<Event>, scope: string, cursor: int)
    requires read <= log && After(read, scope, cursor) != []
    ensures After(log, scope, cursor) != [] && After(log, scope, cursor)[0] == After(read, scope, cursor)[0]
  {
    AfterConcat(read, log[|read|..], scope, cursor);
    assert log == read + log[|read|..];
  }

  /** What a delivery or reconciliation made of the tail, when it kept it in step with a log that only grew. */
  ghost function Safe(p: Progress, before: seq<Event>, scope: string, optIn: map<string, bool>,
      start: int): Option<State> {
    if Kept(p, scope, optIn, start) && before <= p.world.log then Some(p.state) else None
  }

  lemma {:induction false} DeliveredPast(s: State, w: World, events: seq<Event>, read: seq<Event>, scope: string)
    requires Increasing(read) && events <= After(read, scope, s.cursor)
    ensures var d := Delivered(s, w, events);
      d.ok ==> After(read, scope, d.state.cursor) == After(read, scope, s.cursor)[|events|..]
    decreases |events|
  {
    if events != [] {
      var e := events[0];
      AfterAdvance(read, scope, s.cursor);
      if w.script != [] && w.script[0].ok {
        DeliveredPast(Offered(Noted(s, e), Persisted(e)), Next(w), events[1..], read, scope);
      }
    }
  }

  /** Delivering a page that was read from the log keeps the tail in step. */
  lemma {:induction false} DeliveredInStep(s: State, w: World, events: seq<Event>, read: seq<Event>, scope: string,
                                           optIn: map<string, bool>, start: int)
    requires WellFormed(w) && Tracking(s, w.log, scope, optIn, start)
    requires read <= w.log && Increasing(read) && events <= After(read, scope, s.cursor)
    ensures var d := Delivered(s, w, events); Kept(d, scope, optIn, start) && w.log <= d.world.log
    decreases |events|
  {
    if events != [] {
      var e := events[0];
      ReadPrefix(read, w.log, scope, s.cursor);
      OfferStep(s, w, e, scope, optIn, start);
      if w.script != [] && w.script[0].ok {
        AfterAdvance(read, scope, s.cursor);
        DeliveredInStep(Offered(Noted(s, e), Persisted(e)), Next(w), events[1..], read, scope, optIn, start);
      }
    }
  }

  /** A full page accepted is a page no longer past the cursor. */
  lemma {:induction false} DeliveredKeeps(s: State, w: World, events: seq<Event>, read: seq<Event>, scope: string,
                                          optIn: map<string, bool>, start: int)
    requires WellFormed(w) && Tracking(s, w.log, scope, optIn, start)
    requires read <= w.log && Increasing(read) && events <= After(read, scope, s.cursor)
    ensures var d := Delivered(s, w, events);
      && Safe(d, w.log, scope, optIn, start).Some?
      && (d.ok ==> After(read, scope, d.state.cursor) == After(read, scope, s.cursor)[|events|..])
  {
    DeliveredInStep(s, w, events, read, scope, optIn, start);
    DeliveredPast(s, w, events, read, scope);
  }

  lemma {:induction false} DeletedLast(s: State, log: seq<Event>, scope: string, optIn: map<string, bool>, start: int)
    requires Tracking(s, log, scope, optIn, start)
    ensures Ended(Offered(s, SessionDeleted), log, scope, optIn, start)
  {
    EventsSnoc(s.frames, SessionDeleted);
    OrderlySnoc(s.frames, SessionDeleted, optIn);
  }

  lemma {:induction false} CheckedKeeps(s: State, w: World, scope: string, optIn: map<string, bool>, start: int)
    requires WellFormed(w) && Tracking(s, w.log, scope, optIn, start)
    ensures var c := Checked(s, w);
      && Kept(c, scope, optIn, start)
      && w.log <= c.world.log
      && (c.ok ==> c.state == s && !c.world.gone)
  {
    TrackingEnds(s, s, w.log, scope, optIn, start);
    if w.script != [] {
      NextKeeps(s, w, scope, optIn, start);
      var w1 := Next(w);
      if w1.script != [] {
        NextKeeps(s, w1, scope, optIn, start);
        DeletedLast(s, w1.log, scope, optIn, start);
        NextKeeps(Offered(s, SessionDeleted), w1, scope, optIn, start);
      }
    }
  }

  /** Some log the tail read between two points has nothing past the cursor. */
  ghost predicate CaughtUp(before: seq<Event>, after: seq<Event>, scope: string, cursor: int) {
    exists read :: before <= read <= after && After(read, scope, cursor) == []
  }

  lemma {:induction false} GoneStays(s: State, w: World, events: seq<Event>)
    requires w.gone
    ensures Delivered(s, w, events).world.gone
    decreases |events|
  {
    if events != [] && w.script != [] && w.script[0].ok {
      GoneStays(Offered(Noted(s, events[0]), Persisted(events[0])), Next(w), events[1..]);
    }
  }

  lemma {:induction false} LastPage(s: State, w1: World, page: seq<Event>, scope: string, cursor: int)
    requires page == Page(w1, scope, cursor) && |page| < PAGE
    requires var d := Delivered(s, w1, page);
      d.ok && After(w1.log, scope, d.state.cursor) == After(w1.log, scope, cursor)[|page|..]
          && Checked(d.state, d.world).ok
    ensures After(w1.log, scope, Delivered(s, w1, page).state.cursor) == []
  {
    if w1.gone { GoneStays(s, w1, page); }
  }

  /** The same, and when it succeeded everything committed before its last read is delivered. */
  ghost function Settled(p: Progress, before: seq<Event>, scope: string, optIn: map<string, bool>,
      start: int): Option<State> {
    if p.ok && !CaughtUp(before, p.world.log, scope, p.state.cursor) then None else Safe(p, before, scope, optIn, start)
  }

  lemma {:induction false} SettledSooner(p: Progress, earlier: seq<Event>, before: seq<Event>, scope: string,
      optIn: map<string, bool>, start: int)
    requires Settled(p, before, scope, optIn, start).Some? && earlier <= before
    ensures Settled(p, earlier, scope, optIn, start).Some?
  {
    if p.ok {
      var read :| before <= read <= p.world.log && After(read, scope, p.state.cursor) == [];
      assert earlier <= read;
    }
  }

  lemma {:induction false} FailureSettled(s: State, w: World, scope: string, optIn: map<string, bool>, start: int)
    requires WellFormed(w) && Tracking(s, w.log, scope, optIn, start)
    ensures Settled(Progress(s, w, false), w.log, scope, optIn, start).Some?
    ensures w.script != [] ==> Settled(Progress(s, Next(w), false), w.log, scope, optIn, start).Some?
  {
    TrackingEnds(s, s, w.log, scope, optIn, start);
    if w.script != [] { NextKeeps(s, w, scope, optIn, start); }
  }

  /** After a short page only the existence check is left. */
  lemma {:induction false} ShortPageKeeps(s: State, w1: World, page: seq<Event>, scope: string,
      optIn: map<string, bool>, start: int)
    requires page == Page(w1, scope, s.cursor) && |page| < PAGE
    requires var d := Delivered(s, w1, page);
      d.ok && Kept(d, scope, optIn, start) && After(w1.log, scope, d.state.cursor)
          == After(w1.log, scope, s.cursor)[|page|..]
      && w1.log <= d.world.log
    ensures var d := Delivered(s, w1, page); Settled(Checked(d.state, d.world), w1.log, scope, optIn, start).Some?
  {
    var d := Delivered(s, w1, page);
    CheckedKeeps(d.state, d.world, scope, optIn, start);
    if Checked(d.state, d.world).ok { LastPage(s, w1, page, scope, s.cursor); }
  }

  /** A reconciliation keeps the tail in step; when it succeeds the session still exists and
      everything committed before its last read, however many pages that took, has been
      delivered. */
  lemma {:induction false} ReconciledKeeps(s: State, w: World, scope: string, optIn: map<string, bool>, start: int)
    requires WellFormed(w) && Tracking(s, w.log, scope, optIn, start)
    ensures Settled(Reconciled(s, w, scope), w.log, scope, optIn, start).Some?
    decreases |w.script|
  {
    FailureSettled(s, w, scope, optIn, start);
    if w.script != [] && w.script[0].ok {
      NextKeeps(s, w, scope, optIn, start);
      var w1 := Next(w);
      var page := Page(w1, scope, s.cursor);
      var d := Delivered(s, w1, page);
      DeliveredKeeps(s, w1, page, w1.log, scope, optIn, start);
      DeliveredUses(s, w1, page);
      if d.ok {
        if |page| < PAGE {
          ShortPageKeeps(s, w1, page, scope, optIn, start);
        } else {
          ReconciledKeeps(d.state, d.world, scope, optIn, start);
          SettledSooner(Reconciled(d.state, d.world, scope), w1.log, d.world.log, scope, optIn, start);
        }
      }
      SettledSooner(Reconciled(s, w, scope), w.log, w1.log, scope, optIn, start);
    }
  }

  lemma {:induction false} PreviewKeeps(s: State, log: seq<Event>, envelope: Envelope, scope: string,
      optIn: map<string, bool>, start: int)
    requires Tracking(s, log, scope, optIn, start) && OptedIn(optIn, envelope.eventType) && !Fenced(s, envelope)
    ensures Tracking(Offered(s, Preview(envelope)), log, scope, optIn, start)
  {
    EventsSnoc(s.frames, Preview(envelope));
    assert Events(s.frames) + [] == Events(s.frames);
    OrderlySnoc(s.frames, Preview(envelope), optIn);
  }

  lemma {:induction false} PreparedKeeps(s: State, w: World, scope: string, eventId: string, optIn: map<string, bool>,
      start: int)
    requires WellFormed(w) && Tracking(s, w.log, scope, optIn, start)
    ensures var p := Prepared(s, w, scope, eventId); Kept(p, scope, optIn, start) && w.log <= p.world.log
  {
    if eventId !in s.prepared { ReconciledKeeps(s, w, scope, optIn, start); }
  }

  lemma {:induction false} ForwardedKeeps(s: State, w: World, scope: string, optIn: map<string, bool>,
      envelope: Envelope, start: int)
    requires WellFormed(w) && Tracking(s, w.log, scope, optIn, start)
    ensures var p := Forwarded(s, w, scope, optIn, envelope); Kept(p, scope, optIn, start) && w.log <= p.world.log
  {
    if OptedIn(optIn, envelope.eventType) {
      PreparedKeeps(s, w, scope, envelope.eventId, optIn, start);
      var p := Prepared(s, w, scope, envelope.eventId);
      if p.ok && !Fenced(p.state, envelope) {
        TrackingEnds(p.state, p.state, p.world.log, scope, optIn, start);
        if p.world.script != [] {
          PreviewKeeps(p.state, p.world.log, envelope, scope, optIn, start);
          NextKeeps(p.state, p.world, scope, optIn, start);
          NextKeeps(Offered(p.state, Preview(envelope)), p.world, scope, optIn, start);
        }
      }
    }
  }

  lemma {:induction false} TurnKeeps(s: State, w: World, scope: string, optIn: map<string, bool>, start: int)
    requires WellFormed(w) && Tracking(s, w.log, scope, optIn, start) && w.script != []
    ensures var t := Turn(s, w, scope, optIn); Kept(t, scope, optIn, start) && w.log <= t.world.log
  {
    NextKeeps(s, w, scope, optIn, start);
    TrackingEnds(s, s, Next(w).log, scope, optIn, start);
    match w.script[0].wake
    case Cancelled =>
    case Undecodable =>
    case Previewed(envelope) => ForwardedKeeps(s, Next(w), scope, optIn, envelope, start);
    case Wakeup => ReconciledKeeps(s, Next(w), scope, optIn, start);
    case Tick => ReconciledKeeps(s, Next(w), scope, optIn, start);
  }

  lemma {:induction false} RunKeeps(s: State, w: World, scope: string, optIn: map<string, bool>, start: int)
    requires WellFormed(w) && Tracking(s, w.log, scope, optIn, start)
    ensures var r := Run(s, w, scope, optIn); Ended(r.state, r.world.log, scope, optIn, start) && w.log <= r.world.log
    decreases |w.script|
  {
    TrackingEnds(s, s, w.log, scope, optIn, start);
    if w.script != [] {
      var t := Turn(s, w, scope, optIn);
      TurnUses(s, w, scope, optIn);
      TurnKeeps(s, w, scope, optIn, start);
      if t.ok { RunKeeps(t.state, t.world, scope, optIn, start); }
    }
  }

  lemma {:induction false} StartTracks(log: seq<Event>, w: World, scope: string, optIn: map<string, bool>)
    ensures Tracking(Start(log, scope), w.log, scope, optIn, Latest(log, scope))
  {
  }

  /** In every run the persisted frames delivered are a gap-free, repeat-free, in-order
      prefix of the log past the subscription cursor, and previews and the synthetic end
      are in order. */
  lemma {:induction false} RunDeliversLog(subscribed: seq<Event>, w: World, scope: string, optIn: map<string, bool>)
    requires WellFormed(w)
    ensures var r := Run(Start(subscribed, scope), w, scope, optIn);
      && Events(r.state.frames) <= After(r.world.log, scope, Latest(subscribed, scope))
      && Orderly(r.state.frames, optIn)
  {
    StartTracks(subscribed, w, scope, optIn);
    RunKeeps(Start(subscribed, scope), w, scope, optIn, Latest(subscribed, scope));
  }

  lemma {:induction false} OrderlyPrefix(frames: seq<Frame>, optIn: map<string, bool>, k: nat)
    requires Orderly(frames, optIn) && k <= |frames|
    ensures Orderly(frames[..k], optIn)
    decreases |frames|
  {
    if k < |frames| {
      var init := frames[..|frames| - 1];
      OrderlyPrefix(init, optIn, k);
      assert init[..k] == frames[..k];
    } else {
      assert frames[..k] == frames;
    }
  }

  lemma {:induction false} EventsMember(frames: seq<Frame>, i: nat)
    requires i < |frames| && frames[i].Persisted?
    ensures frames[i].event in Events(frames)
    decreases |frames|
  {
    if i < |frames| - 1 { EventsMember(frames[..|frames| - 1], i); }
  }

  /** No preview follows the message it previews, nor the end of its request; nothing
      follows session.deleted. */
  lemma {:induction false} NoStalePreview(frames: seq<Frame>, optIn: map<string, bool>, i: nat, j: nat)
    requires Orderly(frames, optIn) && i < j < |frames|
    ensures frames[i] != SessionDeleted
    ensures frames[j].Preview? && frames[i].Persisted? && frames[i].event.kind.AgentMessage? ==>
      frames[j].envelope.eventId != frames[i].event.id
    ensures (frames[j].Preview? && frames[i].Persisted? && frames[i].event.kind.RequestEnd?
             && frames[j].envelope.request != "") ==>
      frames[j].envelope.request != frames[i].event.kind.startId
    ensures frames[j].Preview? ==> frames[j].envelope.eventType in optIn && optIn[frames[j].envelope.eventType]
  {
    OrderlyPrefix(frames, optIn, j + 1);
    assert frames[..j + 1][..j] == frames[..j];
    assert frames[..j][i] == frames[i];
    if frames[i].Persisted? { EventsMember(frames[..j], i); }
  }

  /** No frame between two positions delivers the start of a request. */
  predicate NoStartBetween(frames: seq<Frame>, i: nat, j: nat) {
    forall k | i < k < j && k < |frames| :: frames[k].Persisted? ==> !frames[k].event.kind.RequestStart?
  }

  lemma {:induction false} StillClosed(frames: seq<Frame>, i: nat)
    requires i < |frames| && frames[i].Persisted? && frames[i].event.kind.RequestEnd?
    requires NoStartBetween(frames, i, |frames|)
    ensures LegacyClosed(Events(frames))
    decreases |frames|
  {
    var n := |frames| - 1;
    var init := frames[..n];
    assert frames == init + [frames[n]];
    EventsSnoc(init, frames[n]);
    if frames[n].Persisted? {
      IdsSnoc(Events(init), frames[n].event);
    } else {
      assert Events(init) + [] == Events(init);
    }
    if i < n {
      assert init[i] == frames[i];
      assert forall k | i < k < |init| :: init[k] == frames[k];
      StillClosed(init, i);
    }
  }

  /** A preview that names no request is never delivered between the end of a request and the
      next start. */
  lemma {:induction false} NoLegacyPreview(frames: seq<Frame>, optIn: map<string, bool>, i: nat, j: nat)
    requires Orderly(frames, optIn) && i < j < |frames|
    requires frames[i].Persisted? && frames[i].event.kind.RequestEnd? && NoStartBetween(frames, i, j)
    ensures frames[j].Preview? ==> frames[j].envelope.request != ""
  {
    OrderlyPrefix(frames, optIn, j + 1);
    assert frames[..j + 1][..j] == frames[..j];
    assert frames[..j][i] == frames[i];
    assert forall k | i < k < j :: frames[..j][k] == frames[k];
    StillClosed(frames[..j], i);
  }

  /** Subscribing starts past everything committed so far, from an event of the thread or from 0. */
  lemma {:induction false} SubscribesAtEnd(log: seq<Event>, scope: string, e: Event)
    ensures e in log && e.thread == scope ==> e.sequence <= Latest(log, scope)
    ensures Latest(log, scope) == 0 || exists x :: x in log && x.thread == scope && x.sequence == Latest(log, scope)
  {
    if log != [] {
      var init, last := log[..|log| - 1], log[|log| - 1];
      assert log == init + [last];
      SubscribesAtEnd(init, scope, e);
    }
  }

  // ---------------------------------------------------------------- what a wake brings

  function Iterated(p: Progress, f: Progress -> Option<Progress>, k: nat): Option<Progress> {
    if k == 0 then Some(p)
    else
      var before := Iterated(p, f, k - 1);
      if before.None? then None else f(before.value)
  }

  /** A property that every step keeps holds after any number of them. */
  lemma {:induction false} IteratedKeeps(p: Progress, f: Progress -> Option<Progress>, k: nat, inv: Progress -> bool)
    requires inv(p) && (forall q :: inv(q) && f(q).Some? ==> inv(f(q).value))
    ensures Iterated(p, f, k).Some? ==> inv(Iterated(p, f, k).value)
  {
    if k > 0 { IteratedKeeps(p, f, k - 1, inv); }
  }

  /** A turn of the select loop, if a move is left and it keeps running. */
  function NextTurn(p: Progress, scope: string, optIn: map<string, bool>): Option<Progress> {
    if p.world.script == [] then None
    else
      var t := Turn(p.state, p.world, scope, optIn);
      if t.ok then Some(t) else None
  }

  /** Where the select loop is after `k` turns, if it is still running. */
  function Going(s: State, w: World, scope: string, optIn: map<string, bool>, k: nat): Option<Progress> {
    Iterated(Progress(s, w, true), (p: Progress) => NextTurn(p, scope, optIn), k)
  }

  lemma {:induction false} RunOnward(s: State, w: World, scope: string, optIn: map<string, bool>)
    requires w.script != [] && Turn(s, w, scope, optIn).ok
    ensures var t := Turn(s, w, scope, optIn); Run(s, w, scope, optIn) == Run(t.state, t.world, scope, optIn)
  {
  }

  lemma {:induction false} GoingRuns(s: State, w: World, scope: string, optIn: map<string, bool>, k: nat)
    requires Going(s, w, scope, optIn, k).Some?
    ensures var g := Going(s, w, scope, optIn, k).value; Run(s, w, scope, optIn) == Run(g.state, g.world, scope, optIn)
  {
    var f := (p: Progress) => NextTurn(p, scope, optIn);
    var end := Run(s, w, scope, optIn);
    var inv := (p: Progress) => Run(p.state, p.world, scope, optIn) == end;
    forall p | inv(p) && f(p).Some? ensures inv(f(p).value) { RunOnward(p.state, p.world, scope, optIn); }
    IteratedKeeps(Progress(s, w, true), f, k, inv);
  }

  /** The tail is in step with the log of its world. */
  ghost predicate InStep(p: Progress, scope: string, optIn: map<string, bool>, start: int) {
    WellFormed(p.world) && Tracking(p.state, p.world.log, scope, optIn, start)
  }

  lemma {:induction false} TurnInStep(p: Progress, scope: string, optIn: map<string, bool>, start: int)
    requires InStep(p, scope, optIn, start) && p.world.script != [] && Turn(p.state, p.world, scope, optIn).ok
    ensures InStep(Turn(p.state, p.world, scope, optIn), scope, optIn, start)
  {
    TurnKeeps(p.state, p.world, scope, optIn, start);
  }

  lemma {:induction false} GoingKeeps(s: State, w: World, scope: string, optIn: map<string, bool>, start: int, k: nat)
    requires InStep(Progress(s, w, true), scope, optIn, start) && Going(s, w, scope, optIn, k).Some?
    ensures InStep(Going(s, w, scope, optIn, k).value, scope, optIn, start)
  {
    var f := (p: Progress) => NextTurn(p, scope, optIn);
    var inv := (p: Progress) => InStep(p, scope, optIn, start);
    forall p | inv(p) && f(p).Some? ensures inv(f(p).value) { TurnInStep(p, scope, optIn, start); }
    IteratedKeeps(Progress(s, w, true), f, k, inv);
  }

  predicate Wakes(wake: Wake) {
    wake == Wakeup || wake == Tick
  }

  /** A wakeup or a tick that leaves the tail running has brought everything committed by then. */
  lemma {:induction false} WakeCatchesUp(s: State, w: World, scope: string, optIn: map<string, bool>, start: int)
    requires WellFormed(w) && Tracking(s, w.log, scope, optIn, start) && w.script != [] && Wakes(w.script[0].wake)
    ensures var t := Turn(s, w, scope, optIn);
      t.ok ==> CaughtUp(Next(w).log, t.world.log, scope, t.state.cursor)
  {
    NextKeeps(s, w, scope, optIn, start);
    ReconciledKeeps(s, Next(w), scope, optIn, start);
  }

  lemma {:induction false} CaughtUpDelivered(before: seq<Event>, log: seq<Event>, s: State, scope: string, start: int)
    requires CaughtUp(before, log, scope, s.cursor) && Behind(s, log, scope, start)
    ensures After(before, scope, start) <= Events(s.frames)
  {
    var read :| before <= read <= log && After(read, scope, s.cursor) == [];
    var past := After(before, scope, start);
    assert read == before + read[|before|..] && log == before + log[|before|..];
    AfterConcat(before, read[|before|..], scope, s.cursor);
    AfterConcat(before, log[|before|..], scope, start);
    var events, rest := Events(s.frames), After(log, scope, s.cursor);
    assert events + rest == past + After(log[|before|..], scope, start);
    if |events| < |past| {
      var e := past[|events|];
      assert e == (events + rest)[|events|] == rest[0];
      AfterMember(before, scope, start, e);
      AfterMember(log, scope, s.cursor, e);
      AfterMember(before, scope, s.cursor, e);
    } else {
      assert events == (events + rest)[..|events|];
      assert past == (events + rest)[..|past|];
    }
  }

  /** In every run, a tail still going after a wakeup or a tick has delivered every event that
      was committed when it came. */
  lemma {:induction false} WakesDeliver(subscribed: seq<Event>, w: World, scope: string, optIn: map<string, bool>,
      k: nat)
    requires WellFormed(w) && Going(Start(subscribed, scope), w, scope, optIn, k + 1).Some?
    requires Wakes(Going(Start(subscribed, scope), w, scope, optIn, k).value.world.script[0].wake)
    ensures var s, start := Start(subscribed, scope), Latest(subscribed, scope);
      var b, g := Going(s, w, scope, optIn, k).value, Going(s, w, scope, optIn, k + 1).value;
      && After(Next(b.world).log, scope, start) <= Events(g.state.frames)
      && Run(s, w, scope, optIn) == Run(g.state, g.world, scope, optIn)
  {
    var s, start := Start(subscribed, scope), Latest(subscribed, scope);
    StartTracks(subscribed, w, scope, optIn);
    GoingKeeps(s, w, scope, optIn, start, k);
    GoingRuns(s, w, scope, optIn, k + 1);
    WakeDelivers(Going(s, w, scope, optIn, k).value, Going(s, w, scope, optIn, k + 1).value, scope, optIn, start);
  }

  lemma {:induction false} WakeDelivers(b: Progress, g: Progress, scope: string, optIn: map<string, bool>, start: int)
    requires InStep(b, scope, optIn, start) && NextTurn(b, scope, optIn) == Some(g) && Wakes(b.world.script[0].wake)
    ensures After(Next(b.world).log, scope, start) <= Events(g.state.frames)
  {
    TurnInStep(b, scope, optIn, start);
    WakeCatchesUp(b.state, b.world, scope, optIn, start);
    CaughtUpDelivered(Next(b.world).log, g.world.log, g.state, scope, start);
  }

  /** Reads succeed and the buffer has room. */
  predicate AllThrough(w: World) {
    forall i | 0 <= i < |w.script| :: w.script[i].ok
  }

  lemma {:induction false} NextThrough(w: World)
    requires AllThrough(w) && w.script != []
    ensures AllThrough(Next(w)) && w.script[0].ok
  {
    forall i | 0 <= i < |w.script| - 1 ensures w.script[1..][i].ok { assert w.script[i + 1].ok; }
  }

  lemma {:induction false} DeliveredThrough(s: State, w: World, events: seq<Event>)
    requires AllThrough(w)
    ensures var d := Delivered(s, w, events); AllThrough(d.world) && (d.ok || d.world.script == [])
    decreases |events|
  {
    if events != [] && w.script != [] {
      NextThrough(w);
      DeliveredThrough(Offered(Noted(s, events[0]), Persisted(events[0])), Next(w), events[1..]);
    }
  }

  /** A reconciliation ended by nothing but the end of the session or of the subscription. */
  predicate EndsWell(p: Progress) {
    || p.ok
    || p.world.script == []
    || (p.world.gone && p.state.frames != [] && p.state.frames[|p.state.frames| - 1] == SessionDeleted)
  }

  lemma {:induction false} CheckedThrough(s: State, w: World)
    requires AllThrough(w)
    ensures EndsWell(Checked(s, w))
  {
    if w.script != [] {
      NextThrough(w);
      if Next(w).script != [] { NextThrough(Next(w)); }
    }
  }

  lemma {:induction false} ReconciledThrough(s: State, w: World, scope: string)
    requires AllThrough(w)
    ensures EndsWell(Reconciled(s, w, scope))
    decreases |w.script|
  {
    if w.script != [] {
      NextThrough(w);
      var page := Page(Next(w), scope, s.cursor);
      var d := Delivered(s, Next(w), page);
      DeliveredUses(s, Next(w), page);
      DeliveredThrough(s, Next(w), page);
      if d.ok {
        if |page| < PAGE { CheckedThrough(d.state, d.world); } else { ReconciledThrough(d.state, d.world, scope); }
      }
    }
  }

  lemma {:induction false} ForwardedThrough(s: State, w: World, scope: string, optIn: map<string, bool>,
      envelope: Envelope)
    requires AllThrough(w)
    ensures EndsWell(Forwarded(s, w, scope, optIn, envelope))
  {
    if OptedIn(optIn, envelope.eventType) {
      if envelope.eventId !in s.prepared {
        ReconciledThrough(s, w, scope);
        ReconciledAllThrough(s, w, scope);
      }
      var p := Prepared(s, w, scope, envelope.eventId);
      if p.ok && p.world.script != [] { NextThrough(p.world); }
    }
  }

  lemma {:induction false} ReconciledAllThrough(s: State, w: World, scope: string)
    requires AllThrough(w)
    ensures AllThrough(Reconciled(s, w, scope).world)
    decreases |w.script|
  {
    if w.script != [] {
      NextThrough(w);
      var page := Page(Next(w), scope, s.cursor);
      var d := Delivered(s, Next(w), page);
      DeliveredUses(s, Next(w), page);
      DeliveredThrough(s, Next(w), page);
      if d.ok && |page| >= PAGE { ReconciledAllThrough(d.state, d.world, scope); }
      else if d.ok && d.world.script != [] {
        NextThrough(d.world);
        if Next(d.world).script != [] { NextThrough(Next(d.world)); }
      }
    }
  }

  /** When reads succeed and the buffer has room, nothing the tail receives stops it but the end
      of the subscription, or of the session; then session.deleted has been delivered. A message
      that does not decode changes nothing. */
  lemma {:induction false} WakeGoesThrough(s: State, w: World, scope: string, optIn: map<string, bool>)
    requires AllThrough(w) && w.script != []
    ensures w.script[0].wake != Cancelled ==> EndsWell(Turn(s, w, scope, optIn))
    ensures w.script[0].wake == Cancelled || w.script[0].wake == Undecodable ==> Turn(s, w, scope, optIn).state == s
    ensures w.script[0].wake == Cancelled ==> !Turn(s, w, scope, optIn).ok
    ensures w.script[0].wake == Undecodable ==> Turn(s, w, scope, optIn).ok
  {
    NextThrough(w);
    match w.script[0].wake
    case Cancelled =>
    case Undecodable =>
    case Previewed(envelope) => ForwardedThrough(s, Next(w), scope, optIn, envelope);
    case Wakeup => ReconciledThrough(s, Next(w), scope);
    case Tick => ReconciledThrough(s, Next(w), scope);
  }

  /** Only events were added. */
  ghost predicate AddsEvents(frames: seq<Frame>, frames': seq<Frame>) {
    frames <= frames' && forall i | |frames| <= i < |frames'| :: frames'[i].Persisted?
  }

  lemma {:induction false} DeliveredAdds(s: State, w: World, events: seq<Event>)
    ensures AddsEvents(s.frames, Delivered(s, w, events).state.frames)
    decreases |events|
  {
    if events != [] && w.script != [] && w.script[0].ok {
      DeliveredAdds(Offered(Noted(s, events[0]), Persisted(events[0])), Next(w), events[1..]);
    }
  }

  lemma {:induction false} ReconciledAdds(s: State, w: World, scope: string)
    ensures var r := Reconciled(s, w, scope); r.ok ==> AddsEvents(s.frames, r.state.frames)
    decreases |w.script|
  {
    if w.script != [] && w.script[0].ok {
      var page := Page(Next(w), scope, s.cursor);
      var d := Delivered(s, Next(w), page);
      DeliveredUses(s, Next(w), page);
      DeliveredAdds(s, Next(w), page);
      if d.ok && |page| >= PAGE { ReconciledAdds(d.state, d.world, scope); }
    }
  }

  /** What becomes of a preview that leaves the tail running: after the events it brought along
      it is delivered if the subscriber opted in and it is still timely, and else dropped. */
  ghost predicate Handled(before: seq<Frame>, after: seq<Frame>, envelope: Envelope, optIn: map<string, bool>) {
    if envelope.eventType in optIn && optIn[envelope.eventType] then
      exists base :: HandledOver(before, base, after, envelope, optIn)
    else after == before
  }

  ghost predicate HandledOver(before: seq<Frame>, base: seq<Frame>, after: seq<Frame>, envelope: Envelope,
      optIn: map<string, bool>) {
    AddsEvents(before, base) && after == if Timely(base, envelope, optIn) then base + [Preview(envelope)] else base
  }

  /** The fences say exactly whether a preview is timely. */
  lemma {:induction false} FencedUntimely(s: State, envelope: Envelope, optIn: map<string, bool>)
    requires Fences(s) && OptedIn(optIn, envelope.eventType)
    ensures Fenced(s, envelope) <==> !Timely(s.frames, envelope, optIn)
  {
  }

  lemma {:induction false} ForwardedHandled(s: State, w: World, scope: string, optIn: map<string, bool>,
      envelope: Envelope)
    requires OptedIn(optIn, envelope.eventType)
    requires var p := Prepared(s, w, scope, envelope.eventId);
      p.ok ==> Fences(p.state) && AddsEvents(s.frames, p.state.frames)
    ensures var f := Forwarded(s, w, scope, optIn, envelope);
      f.ok ==> exists base :: HandledOver(s.frames, base, f.state.frames, envelope, optIn)
  {
    var p := Prepared(s, w, scope, envelope.eventId);
    var f := Forwarded(s, w, scope, optIn, envelope);
    if f.ok {
      FencedUntimely(p.state, envelope, optIn);
      assert HandledOver(s.frames, p.state.frames, f.state.frames, envelope, optIn);
    }
  }

  lemma {:induction false} PreviewHandled(s: State, w: World, scope: string, optIn: map<string, bool>, start: int)
    requires WellFormed(w) && Tracking(s, w.log, scope, optIn, start) && w.script != [] && w.script[0].wake.Previewed?
    ensures var t := Turn(s, w, scope, optIn);
      t.ok ==> Handled(s.frames, t.state.frames, w.script[0].wake.envelope, optIn)
  {
    var envelope := w.script[0].wake.envelope;
    NextKeeps(s, w, scope, optIn, start);
    if OptedIn(optIn, envelope.eventType) {
      PreparedKeeps(s, Next(w), scope, envelope.eventId, optIn, start);
      ReconciledAdds(s, Next(w), scope);
      ForwardedHandled(s, Next(w), scope, optIn, envelope);
    }
  }

  /** In every run each preview met by a tail that goes on is handled so. */
  lemma {:induction false} PreviewsHandled(subscribed: seq<Event>, w: World, scope: string, optIn: map<string, bool>,
      k: nat)
    requires WellFormed(w) && Going(Start(subscribed, scope), w, scope, optIn, k + 1).Some?
    requires Going(Start(subscribed, scope), w, scope, optIn, k).value.world.script[0].wake.Previewed?
    ensures var s := Start(subscribed, scope);
      var b, g := Going(s, w, scope, optIn, k).value, Going(s, w, scope, optIn, k + 1).value;
      Handled(b.state.frames, g.state.frames, b.world.script[0].wake.envelope, optIn)
  {
    var s, start := Start(subscribed, scope), Latest(subscribed, scope);
    StartTracks(subscribed, w, scope, optIn);
    GoingKeeps(s, w, scope, optIn, start, k);
    var b := Going(s, w, scope, optIn, k).value;
    PreviewHandled(b.state, b.world, scope, optIn, start);
  }


  // ---------------------------------------------------------------- a request's start comes before its previews

  ghost predicate IsStart(e: Event, request: string, scope: string) {
    e.kind.RequestStart? && e.id == request && e.thread == scope
  }

  /** Publishers commit a request's start before publishing its previews; `startOf` names the
      sequence of that event and `request` the one request an event id is previewed under. */
  ghost predicate Published(w: World, scope: string, request: string -> string, startOf: string -> int)
    decreases |w.script|
  {
    w.script != [] ==>
      && (w.script[0].wake.Previewed? ==> PublishedAfterStart(Next(w).log, w.script[0].wake.envelope, scope, request,
          startOf))
      && Published(Next(w), scope, request, startOf)
  }

  ghost predicate PublishedAfterStart(log: seq<Event>, envelope: Envelope, scope: string, request: string -> string,
      startOf: string -> int) {
    && envelope.request == request(envelope.eventId)
    && (envelope.request != "" ==> exists e ::
      e in log && IsStart(e, envelope.request, scope) && e.sequence == startOf(envelope.request))
  }

  /** Every preview of a request was delivered after the tail had passed the request's start. */
  ghost predicate StartsFirst(frames: seq<Frame>, start: int, startOf: string -> int) {
    forall j :: 0 <= j < |frames| && frames[j].Preview? && frames[j].envelope.request != "" ==>
      startOf(frames[j].envelope.request) <= Reached(frames[..j], start)
  }

  ghost predicate Passed(s: State, request: string -> string, startOf: string -> int) {
    forall id | id in s.prepared && request(id) != "" :: startOf(request(id)) <= s.cursor
  }

  /** The part of the running invariant that speaks of request starts. */
  ghost predicate Started(s: State, start: int, request: string -> string, startOf: string -> int) {
    StartsFirst(s.frames, start, startOf) && Passed(s, request, startOf)
  }

  lemma {:induction false} StartsSnoc(frames: seq<Frame>, f: Frame, start: int, startOf: string -> int)
    requires StartsFirst(frames, start, startOf)
    requires f.Preview? && f.envelope.request != "" ==> startOf(f.envelope.request) <= Reached(frames, start)
    ensures StartsFirst(frames + [f], start, startOf)
  {
    var all := frames + [f];
    forall j | 0 <= j < |all| && all[j].Preview? && all[j].envelope.request != ""
      ensures startOf(all[j].envelope.request) <= Reached(all[..j], start)
    {
      if j < |frames| { assert all[..j] == frames[..j]; } else { assert all[..j] == frames; }
    }
  }

  lemma {:induction false} DeliveredStarted(s: State, w: World, events: seq<Event>, scope: string, start: int,
                                            request: string -> string, startOf: string -> int)
    requires Started(s, start, request, startOf) && Published(w, scope, request, startOf)
    requires forall e | e in events :: e.sequence > s.cursor
    requires Increasing(events)
    ensures var d := Delivered(s, w, events);
      && Published(d.world, scope, request, startOf)
      && StartsFirst(d.state.frames, start, startOf)
      && (d.ok ==> Passed(d.state, request, startOf) && d.state.cursor >= s.cursor)
      && d.state.prepared == s.prepared
    decreases |events|
  {
    if events != [] && w.script != [] && w.script[0].ok {
      var e := events[0];
      StartsSnoc(s.frames, Persisted(e), start, startOf);
      forall x | x in events[1..] ensures x.sequence > e.sequence {
        var i :| 1 <= i < |events| && events[i] == x;
      }
      DeliveredStarted(Offered(Noted(s, e), Persisted(e)), Next(w), events[1..], scope, start, request, startOf);
    }
  }

  lemma {:induction false} PageAhead(w: World, scope: string, cursor: int)
    requires Increasing(w.log)
    ensures Increasing(Page(w, scope, cursor)) && Page(w, scope, cursor) <= After(w.log, scope, cursor)
    ensures forall e | e in Page(w, scope, cursor) :: e.sequence > cursor
  {
    AfterIncreasing(w.log, scope, cursor);
    forall e | e in Page(w, scope, cursor) ensures e.sequence > cursor {
      assert e in After(w.log, scope, cursor);
      AfterMember(w.log, scope, cursor, e);
    }
  }

  lemma {:induction false} CheckedStarted(s: State, w: World, scope: string, start: int, request: string -> string,
      startOf: string -> int)
    requires Started(s, start, request, startOf) && Published(w, scope, request, startOf)
    ensures var c := Checked(s, w);
      && Published(c.world, scope, request, startOf)
      && Started(c.state, start, request, startOf)
      && c.state.prepared == s.prepared && c.state.cursor == s.cursor
  {
    StartsSnoc(s.frames, SessionDeleted, start, startOf);
  }

  lemma {:induction false} ReconciledStarted(s: State, w: World, scope: string, optIn: map<string, bool>, start: int,
                                             request: string -> string, startOf: string -> int)
    requires WellFormed(w) && Tracking(s, w.log, scope, optIn, start)
    requires Started(s, start, request, startOf) && Published(w, scope, request, startOf)
    ensures var r := Reconciled(s, w, scope);
      && Published(r.world, scope, request, startOf)
      && StartsFirst(r.state.frames, start, startOf)
      && (r.ok ==> Passed(r.state, request, startOf) && r.state.cursor >= s.cursor)
      && r.state.prepared == s.prepared
    decreases |w.script|
  {
    if w.script != [] && w.script[0].ok {
      var w1 := Next(w);
      var page := Page(w1, scope, s.cursor);
      var d := Delivered(s, w1, page);
      NextKeeps(s, w, scope, optIn, start);
      PageAhead(w1, scope, s.cursor);
      DeliveredKeeps(s, w1, page, w1.log, scope, optIn, start);
      DeliveredStarted(s, w1, page, scope, start, request, startOf);
      DeliveredUses(s, w1, page);
      if d.ok {
        if |page| < PAGE {
          CheckedStarted(d.state, d.world, scope, start, request, startOf);
        } else {
          ReconciledStarted(d.state, d.world, scope, optIn, start, request, startOf);
        }
      }
    }
  }

  /** A successful reconciliation passes every start committed before it began. */
  lemma {:induction false} StartPassed(before: seq<Event>, after: seq<Event>, scope: string, cursor: int, e: Event)
    requires CaughtUp(before, after, scope, cursor) && e in before && e.thread == scope
    ensures e.sequence <= cursor
  {
    var read :| before <= read <= after && After(read, scope, cursor) == [];
    AfterMember(read, scope, cursor, e);
  }

  lemma {:induction false} PreparedStarted(s: State, w: World, scope: string, envelope: Envelope,
      optIn: map<string, bool>, start: int,
                                           request: string -> string, startOf: string -> int)
    requires WellFormed(w) && Tracking(s, w.log, scope, optIn, start)
    requires Started(s, start, request, startOf) && Published(w, scope, request, startOf)
    requires PublishedAfterStart(w.log, envelope, scope, request, startOf)
    ensures var p := Prepared(s, w, scope, envelope.eventId);
      && Published(p.world, scope, request, startOf)
      && StartsFirst(p.state.frames, start, startOf)
      && (p.ok ==> Passed(p.state, request, startOf))
      && (p.ok && envelope.request != "" ==> startOf(envelope.request) <= p.state.cursor)
  {
    if envelope.eventId !in s.prepared {
      ReconciledKeeps(s, w, scope, optIn, start);
      ReconciledStarted(s, w, scope, optIn, start, request, startOf);
      var r := Reconciled(s, w, scope);
      if r.ok && envelope.request != "" {
        var e :| e in w.log && IsStart(e, envelope.request, scope) && e.sequence == startOf(envelope.request);
        StartPassed(w.log, r.world.log, scope, r.state.cursor, e);
      }
    }
  }

  lemma {:induction false} ForwardedStarted(s: State, w: World, scope: string, envelope: Envelope,
      optIn: map<string, bool>, start: int,
                                            request: string -> string, startOf: string -> int)
    requires WellFormed(w) && Tracking(s, w.log, scope, optIn, start)
    requires Started(s, start, request, startOf) && Published(w, scope, request, startOf)
    requires PublishedAfterStart(w.log, envelope, scope, request, startOf)
    ensures var p := Forwarded(s, w, scope, optIn, envelope);
      && Published(p.world, scope, request, startOf)
      && StartsFirst(p.state.frames, start, startOf)
      && (p.ok ==> Passed(p.state, request, startOf))
  {
    if OptedIn(optIn, envelope.eventType) {
      PreparedKeeps(s, w, scope, envelope.eventId, optIn, start);
      PreparedStarted(s, w, scope, envelope, optIn, start, request, startOf);
      var p := Prepared(s, w, scope, envelope.eventId);
      if p.ok && !Fenced(p.state, envelope) && p.world.script != [] {
        StartsSnoc(p.state.frames, Preview(envelope), start, startOf);
      }
    }
  }

  lemma {:induction false} RunStarted(s: State, w: World, scope: string, optIn: map<string, bool>, start: int,
                                      request: string -> string, startOf: string -> int)
    requires WellFormed(w) && Tracking(s, w.log, scope, optIn, start)
    requires Started(s, start, request, startOf) && Published(w, scope, request, startOf)
    ensures StartsFirst(Run(s, w, scope, optIn).state.frames, start, startOf)
    decreases |w.script|
  {
    if w.script != [] {
      var t := Turn(s, w, scope, optIn);
      TurnUses(s, w, scope, optIn);
      TurnKeeps(s, w, scope, optIn, start);
      NextKeeps(s, w, scope, optIn, start);
      var wake := w.script[0].wake;
      if wake.Previewed? {
        ForwardedStarted(s, Next(w), scope, wake.envelope, optIn, start, request, startOf);
      } else if wake.Wakeup? || wake.Tick? {
        ReconciledStarted(s, Next(w), scope, optIn, start, request, startOf);
      }
      if t.ok { RunStarted(t.state, t.world, scope, optIn, start, request, startOf); }
    }
  }

  /** When publishers commit a request's start before its first preview, and no event id is
      previewed under two requests, a subscriber receives every log event past the
      subscription cursor up to the start before any preview of the request. */
  lemma {:induction false} StartBeforePreview(subscribed: seq<Event>, w: World, scope: string, optIn: map<string, bool>,
                                              request: string -> string, startOf: string -> int, j: nat, e: Event)
    requires WellFormed(w) && Published(w, scope, request, startOf)
    requires var r := Run(Start(subscribed, scope), w, scope, optIn);
      && j < |r.state.frames| && r.state.frames[j].Preview? && r.state.frames[j].envelope.request != ""
      && e in After(r.world.log, scope, Latest(subscribed, scope))
      && e.sequence <= startOf(r.state.frames[j].envelope.request)
    ensures e in Events(Run(Start(subscribed, scope), w, scope, optIn).state.frames[..j])
  {
    var start := Latest(subscribed, scope);
    var r := Run(Start(subscribed, scope), w, scope, optIn);
    StartTracks(subscribed, w, scope, optIn);
    RunStarted(Start(subscribed, scope), w, scope, optIn, start, request, startOf);
    RunKeeps(Start(subscribed, scope), w, scope, optIn, start);
    RunWellFormed(Start(subscribed, scope), w, scope, optIn, start);
    AfterIncreasing(r.world.log, scope, start);
    EventsPrefix(r.state.frames, j);
    AfterMember(r.world.log, scope, start, e);
    UpToReached(After(r.world.log, scope, start), Events(r.state.frames[..j]), e);
  }

  lemma {:induction false} EventsPrefix(frames: seq<Frame>, j: nat)
    requires j <= |frames|
    ensures Events(frames[..j]) <= Events(frames)
    decreases |frames|
  {
    if j < |frames| {
      var init := frames[..|frames| - 1];
      EventsPrefix(init, j);
      assert init[..j] == frames[..j];
    } else {
      assert frames[..j] == frames;
    }
  }

  lemma {:induction false} UpToReached(log: seq<Event>, read: seq<Event>, e: Event)
    requires Increasing(log) && read <= log && e in log
    requires read != [] && e.sequence <= read[|read| - 1].sequence
    ensures e in read
  {
    var i :| 0 <= i < |log| && log[i] == e;
    assert i < |read|;
    assert read[i] == e;
  }

  lemma {:induction false} RunWellFormed(s: State, w: World, scope: string, optIn: map<string, bool>, start: int)
    requires WellFormed(w) && Tracking(s, w.log, scope, optIn, start)
    ensures Increasing(Run(s, w, scope, optIn).world.log)
    decreases |w.script|
  {
    if w.script != [] {
      var t := Turn(s, w, scope, optIn);
      TurnUses(s, w, scope, optIn);
      TurnKeeps(s, w, scope, optIn, start);
      if t.ok { RunWellFormed(t.state, t.world, scope, optIn, start); }
    }
  }

  // ---------------------------------------------------------------- one event id previewed under two requests

  /** An event id and two requests it is previewed under. */
  datatype Clash = Clash(eventId: string, first: string, second: string)

  function First(c: Clash): Event {
    Event(c.first, 1, "t", RequestStart)
  }

  function Second(c: Clash): Event {
    Event(c.second, 2, "t", RequestStart)
  }

  function Shared(c: Clash, request: string): Envelope {
    Envelope(c.eventId, "agent.message", request, "")
  }

  function Receives(c: Clash, commits: seq<Event>, request: string): Move {
    Move(commits, false, true, Previewed(Shared(c, request)))
  }

  /** An interaction that goes through: a read, an existence check or a frame taken. */
  const GOES_THROUGH := Move([], false, true, Undecodable)

  function SecondPart(c: Clash): seq<Move> {
    [Receives(c, [Second(c)], c.second), GOES_THROUGH]
  }

  /** Each request's start is committed before its preview, but both previews carry one id. */
  function ClashWorld(c: Clash): World {
    var g := [GOES_THROUGH];
    World([], false, [Receives(c, [First(c)], c.first)] + (g + (g + (g + (g + SecondPart(c))))))
  }

  lemma {:induction false} NextQuiet(log: seq<Event>, more: seq<Move>)
    ensures Next(World(log, false, [GOES_THROUGH] + more)) == World(log, false, more)
  {
    assert ([GOES_THROUGH] + more)[1..] == more && log + [] == log;
  }

  /** A reconciliation that reads one event: read, offer, check. */
  lemma {:induction false} ReconcileOne(s: State, log: seq<Event>, more: seq<Move>, scope: string, e: Event)
    requires After(log, scope, s.cursor) == [e]
    ensures var g := [GOES_THROUGH];
      Reconciled(s, World(log, false, g + (g + (g + more))), scope)
      == Progress(Offered(Noted(s, e), Persisted(e)), World(log, false, more), true)
  {
    var g := [GOES_THROUGH];
    NextQuiet(log, g + (g + more));
    NextQuiet(log, g + more);
    NextQuiet(log, more);
    var s1 := Offered(Noted(s, e), Persisted(e));
    assert Page(World(log, false, g + (g + more)), scope, s.cursor) == [e];
    assert Delivered(s1, World(log, false, g + more), []) == Progress(s1, World(log, false, g + more), true);
    assert [e][1..] == [];
    assert Delivered(s, World(log, false, g + (g + more)), [e]) == Progress(s1, World(log, false, g + more), true);
    assert Checked(s1, World(log, false, g + more)) == Progress(s1, World(log, false, more), true);
  }

  lemma {:induction false} FirstPast(c: Clash)
    ensures After([First(c)], "t", 0) == [First(c)]
  {
    assert [First(c)][..0] == [];
  }

  lemma {:induction false} ClashStarts(c: Clash, g: seq<Move>)
    requires g == [GOES_THROUGH]
    ensures ClashWorld(c).script[0] == Receives(c, [First(c)], c.first)
    ensures Next(ClashWorld(c)) == World([First(c)], false, g + (g + (g + (g + SecondPart(c)))))
  {
    assert ClashWorld(c).script[1..] == g + (g + (g + (g + SecondPart(c))));
  }

  function AfterFirst(c: Clash): State {
    State(1, {c.eventId}, {}, {}, false, [Persisted(First(c))])
  }

  lemma {:induction false} ClashPrepared(c: Clash, g: seq<Move>, tail: seq<Move>)
    requires g == [GOES_THROUGH]
    ensures Prepared(Start([], "t"), World([First(c)], false, g + (g + (g + (g + tail)))), "t", c.eventId)
      == Progress(AfterFirst(c), World([First(c)], false, g + tail), true)
  {
    FirstPast(c);
    ReconcileOne(Start([], "t"), [First(c)], g + tail, "t", First(c));
  }

  lemma {:induction false} ForwardedOn(s: State, w: World, optIn: map<string, bool>, envelope: Envelope, s1: State,
      log: seq<Event>, more: seq<Move>)
    requires OptedIn(optIn, envelope.eventType) && !Fenced(s1, envelope)
    requires Prepared(s, w, "t", envelope.eventId) == Progress(s1, World(log, false, [GOES_THROUGH] + more), true)
    ensures Forwarded(s, w, "t", optIn, envelope)
        == Progress(Offered(s1, Preview(envelope)), World(log, false, more), true)
  {
    NextQuiet(log, more);
  }

  lemma {:induction false} TurnForwards(s: State, w: World, w1: World, optIn: map<string, bool>, envelope: Envelope)
    requires w.script != [] && w.script[0].wake == Previewed(envelope) && w1 == Next(w)
    ensures Turn(s, w, "t", optIn) == Forwarded(s, w1, "t", optIn, envelope)
  {
  }

  lemma {:induction false} FirstTurn(c: Clash, optIn: map<string, bool>)
    requires OptedIn(optIn, "agent.message")
    ensures Turn(Start([], "t"), ClashWorld(c), "t", optIn)
      == Progress(Offered(AfterFirst(c), Preview(Shared(c, c.first))), World([First(c)], false, SecondPart(c)), true)
  {
    var s, g := Start([], "t"), [GOES_THROUGH];
    var w1 := World([First(c)], false, g + (g + (g + (g + SecondPart(c)))));
    ClashStarts(c, g);
    ClashPrepared(c, g, SecondPart(c));
    TurnForwards(s, ClashWorld(c), w1, optIn, Shared(c, c.first));
    ForwardedOn(s, w1, optIn, Shared(c, c.first), AfterFirst(c), [First(c)], SecondPart(c));
  }

  lemma {:induction false} SecondTurn(c: Clash, optIn: map<string, bool>)
    requires OptedIn(optIn, "agent.message")
    ensures var s := Offered(AfterFirst(c), Preview(Shared(c, c.first)));
      Turn(s, World([First(c)], false, SecondPart(c)), "t", optIn)
      == Progress(Offered(s, Preview(Shared(c, c.second))), World([First(c), Second(c)], false, []), true)
  {
    var w1 := Next(World([First(c)], false, SecondPart(c)));
    assert w1.log == [First(c), Second(c)];
    assert Next(w1) == World([First(c), Second(c)], false, []);
  }

  lemma {:induction false} TwoTurns(s: State, w: World, optIn: map<string, bool>, t: Progress, t': Progress)
    requires w.script != [] && t == Turn(s, w, "t", optIn) && t.ok
    requires t.world.script != [] && t' == Turn(t.state, t.world, "t", optIn) && t'.ok && t'.world.script == []
    ensures Run(s, w, "t", optIn) == Progress(t'.state, t'.world, false)
  {
    assert Run(t'.state, t'.world, "t", optIn) == Progress(t'.state, t'.world, false);
    assert Run(t.state, t.world, "t", optIn) == Run(t'.state, t'.world, "t", optIn);
  }

  function ClashFrames(c: Clash): seq<Frame> {
    [Persisted(First(c)), Preview(Shared(c, c.first)), Preview(Shared(c, c.second))]
  }

  lemma {:induction false} ClashRun(c: Clash, optIn: map<string, bool>)
    requires OptedIn(optIn, "agent.message")
    ensures var r := Run(Start([], "t"), ClashWorld(c), "t", optIn);
      r.state.frames == ClashFrames(c) && r.world.log == [First(c), Second(c)]
  {
    var s, w := Start([], "t"), ClashWorld(c);
    FirstTurn(c, optIn);
    SecondTurn(c, optIn);
    var t := Turn(s, w, "t", optIn);
    TwoTurns(s, w, optIn, t, Turn(t.state, t.world, "t", optIn));
    assert [Persisted(First(c)), Preview(Shared(c, c.first))] + [Preview(Shared(c, c.second))] == ClashFrames(c);
  }

  lemma {:induction false} SecondMissing(c: Clash)
    ensures Events(ClashFrames(c)[..2]) == [First(c)]
  {
    var one, two := ClashFrames(c)[..1], ClashFrames(c)[..2];
    assert one == [] + [Persisted(First(c))];
    EventsSnoc([], Persisted(First(c)));
    assert two == one + [ClashFrames(c)[1]];
    EventsSnoc(one, ClashFrames(c)[1]);
  }

  lemma {:induction false} QuietFirst(log: seq<Event>, more: seq<Move>)
    requires WellFormed(World(log, false, more))
    ensures WellFormed(World(log, false, [GOES_THROUGH] + more))
  {
    var w := World(log, false, [GOES_THROUGH] + more);
    assert w.script[1..] == more && log + [] == log;
    assert Next(w) == World(log, false, more);
  }

  lemma {:induction false} ClashIncreasing(c: Clash)
    ensures Increasing([]) && Increasing([First(c)]) && Increasing([First(c), Second(c)])
  {
  }

  lemma {:induction false} ClashWellFormed(c: Clash)
    ensures WellFormed(ClashWorld(c))
  {
    ClashIncreasing(c);
    var g, tail := [GOES_THROUGH], SecondPart(c);
    assert WellFormed(World([First(c), Second(c)], false, []));
    QuietFirst([First(c), Second(c)], []);
    assert g + [] == g;
    assert Next(World([First(c)], false, tail)) == World([First(c), Second(c)], false, g);
    QuietFirst([First(c)], tail);
    QuietFirst([First(c)], g + tail);
    QuietFirst([First(c)], g + (g + tail));
    QuietFirst([First(c)], g + (g + (g + tail)));
    ClashStarts(c, g);
  }

  /** Publishers send previews only for the pairs in `uses`, each of a request after having
      committed its start; `startOf` names the sequence of that event. */
  ghost predicate CommitsFirst(w: World, scope: string, uses: iset<(string, string)>, startOf: string -> int)
    decreases |w.script|
  {
    w.script != [] ==>
      && (w.script[0].wake.Previewed? ==> UsedAfterStart(Next(w).log, w.script[0].wake.envelope, scope, uses, startOf))
      && CommitsFirst(Next(w), scope, uses, startOf)
  }

  ghost predicate UsedAfterStart(log: seq<Event>, envelope: Envelope, scope: string, uses: iset<(string, string)>,
      startOf: string -> int) {
    && (envelope.eventId, envelope.request) in uses
    && (envelope.request != "" ==> exists e ::
      e in log && IsStart(e, envelope.request, scope) && e.sequence == startOf(envelope.request))
  }

  /** Before any preview of a request the subscriber has every event past the subscription
      cursor up to the request's start. */
  ghost predicate StartsDelivered(r: Progress, scope: string, start: int, startOf: string -> int) {
    forall j: nat, e | j < |r.state.frames| && e in After(r.world.log, scope, start) ::
        InTime(r.state.frames, j, e, startOf)
  }

  ghost predicate InTime(frames: seq<Frame>, j: nat, e: Event, startOf: string -> int)
    requires j < |frames|
  {
    frames[j].Preview? && frames[j].envelope.request != "" && e.sequence <= startOf(frames[j].envelope.request) ==>
      e in Events(frames[..j])
  }

  /** Whatever publishers of these pairs do, and whatever else happens, every subscriber gets
      a request's start before its previews. */
  ghost predicate StartsAlwaysFirst(uses: iset<(string, string)>) {
    forall subscribed, w, scope, optIn, startOf |
      WellFormed(w) && CommitsFirst(w, scope, uses, startOf) ::
      StartsDelivered(Run(Start(subscribed, scope), w, scope, optIn), scope, Latest(subscribed, scope), startOf)
  }

  ghost predicate OneRequestEach(uses: iset<(string, string)>) {
    forall id, a, b | (id, a) in uses && (id, b) in uses :: a == b
  }

  ghost function RequestOf(uses: iset<(string, string)>, id: string): string {
    if exists r :: (id, r) in uses then (var r :| (id, r) in uses; r) else ""
  }

  lemma {:induction false} FunctionalPublished(w: World, scope: string, uses: iset<(string, string)>,
      startOf: string -> int, request: string -> string)
    requires OneRequestEach(uses) && CommitsFirst(w, scope, uses, startOf)
    requires forall id :: request(id) == RequestOf(uses, id)
    ensures Published(w, scope, request, startOf)
    decreases |w.script|
  {
    if w.script != [] { FunctionalPublished(Next(w), scope, uses, startOf, request); }
  }

  lemma {:induction false} OneRequestSuffices(uses: iset<(string, string)>, subscribed: seq<Event>, w: World,
      scope: string,
                                              optIn: map<string, bool>, startOf: string -> int)
    requires OneRequestEach(uses) && WellFormed(w) && CommitsFirst(w, scope, uses, startOf)
    ensures StartsDelivered(Run(Start(subscribed, scope), w, scope, optIn), scope, Latest(subscribed, scope), startOf)
  {
    var request: string -> string := id => RequestOf(uses, id);
    FunctionalPublished(w, scope, uses, startOf, request);
    var r := Run(Start(subscribed, scope), w, scope, optIn);
    forall j: nat, e | j < |r.state.frames| && e in After(r.world.log, scope, Latest(subscribed, scope))
      ensures InTime(r.state.frames, j, e, startOf)
    {
      var f := r.state.frames[j];
      if f.Preview? && f.envelope.request != "" && e.sequence <= startOf(f.envelope.request) {
        StartBeforePreview(subscribed, w, scope, optIn, request, startOf, j, e);
      }
    }
  }

  function ClashStartOf(c: Clash): string -> int {
    request => if request == c.second then 2 else 1
  }

  lemma {:induction false} QuietCommits(log: seq<Event>, more: seq<Move>, uses: iset<(string, string)>,
      startOf: string -> int)
    requires CommitsFirst(World(log, false, more), "t", uses, startOf)
    ensures CommitsFirst(World(log, false, [GOES_THROUGH] + more), "t", uses, startOf)
  {
    NextQuiet(log, more);
  }

  lemma {:induction false} ClashCommits(c: Clash, uses: iset<(string, string)>)
    requires c.first != c.second && (c.eventId, c.first) in uses && (c.eventId, c.second) in uses
    ensures CommitsFirst(ClashWorld(c), "t", uses, ClashStartOf(c))
  {
    var g, tail, startOf := [GOES_THROUGH], SecondPart(c), ClashStartOf(c);
    assert CommitsFirst(World([First(c), Second(c)], false, []), "t", uses, startOf);
    QuietCommits([First(c), Second(c)], [], uses, startOf);
    assert g + [] == g;
    var w2 := World([First(c)], false, tail);
    assert Next(w2) == World([First(c), Second(c)], false, g);
    assert [First(c), Second(c)][1] == Second(c);
    assert UsedAfterStart(Next(w2).log, Shared(c, c.second), "t", uses, startOf);
    QuietCommits([First(c)], tail, uses, startOf);
    QuietCommits([First(c)], g + tail, uses, startOf);
    QuietCommits([First(c)], g + (g + tail), uses, startOf);
    QuietCommits([First(c)], g + (g + (g + tail)), uses, startOf);
    ClashStarts(c, g);
    assert [First(c)][0] == First(c);
    assert UsedAfterStart(Next(ClashWorld(c)).log, Shared(c, c.first), "t", uses, startOf);
  }

  /** For any event id previewed under two requests the order can be lost: the second
      request's start was committed first, is past the subscription cursor, and has not been
      delivered when its preview is. */
  lemma {:induction false} SharedIdSkipsStart(c: Clash, uses: iset<(string, string)>, optIn: map<string, bool>)
    requires c.first != c.second && c.second != "" && (c.eventId, c.first) in uses && (c.eventId, c.second) in uses
    requires OptedIn(optIn, "agent.message")
    ensures WellFormed(ClashWorld(c)) && CommitsFirst(ClashWorld(c), "t", uses, ClashStartOf(c))
    ensures var r := Run(Start([], "t"), ClashWorld(c), "t", optIn);
      && |r.state.frames| == 3 && r.state.frames[2] == Preview(Shared(c, c.second))
      && Second(c) in After(r.world.log, "t", Latest([], "t")) && IsStart(Second(c), c.second, "t")
      && Second(c) !in Events(r.state.frames[..2])
  {
    ClashWellFormed(c);
    ClashCommits(c, uses);
    ClashRun(c, optIn);
    SecondMissing(c);
    AfterMember([First(c), Second(c)], "t", 0, Second(c));
  }

  /** The order of starts and previews is kept in every run exactly when no event id is
      previewed under two requests. */
  lemma {:induction false} StartsFirstExactly(uses: iset<(string, string)>)
    ensures StartsAlwaysFirst(uses) <==> OneRequestEach(uses)
  {
    if OneRequestEach(uses) {
      forall subscribed, w, scope, optIn, startOf | WellFormed(w) && CommitsFirst(w, scope, uses, startOf)
        ensures StartsDelivered(Run(Start(subscribed, scope), w, scope, optIn), scope, Latest(subscribed, scope),
            startOf)
      {
        OneRequestSuffices(uses, subscribed, w, scope, optIn, startOf);
      }
    } else {
      var id, a, b :| (id, a) in uses && (id, b) in uses && a != b;
      var c := if b != "" then Clash(id, a, b) else Clash(id, b, a);
      var optIn := map["agent.message" := true];
      SharedIdSkipsStart(c, uses, optIn);
      var r := Run(Start([], "t"), ClashWorld(c), "t", optIn);
      assert !InTime(r.state.frames, 2, Second(c), ClashStartOf(c));
      assert !StartsDelivered(r, "t", Latest([], "t"), ClashStartOf(c));
    }
  }
}
