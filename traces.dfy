/** What an operation of the hook does to one session (the transfer session or the
    resume session): the steps it sets, the log entries it appends, the calls it
    makes to the outside world and the error it records. */
module Traces {
  import opened Types
  import opened Steps

  /** The contribution of one operation, in order. `error` is the last value the
      operation wrote to the session's error field, if it wrote one. */
  datatype Trace = Trace(steps: seq<Step>, entries: seq<LogEntry>, effects: seq<Effect>, error: Option<SessionError>)

  const Nothing: Trace := Trace([], [], [], None)

  function StepTo(s: Step): Trace { Trace([s], [], [], None) }
  function Log(e: LogEntry): Trace { Trace([], [e], [], None) }
  function Call(e: Effect): Trace { Trace([], [], [e], None) }
  function Record(err: SessionError): Trace { Trace([], [], [], Some(err)) }

  /** `a` followed by `b`. */
  function Then(a: Trace, b: Trace): (c: Trace)
    ensures c.steps == a.steps + b.steps && c.entries == a.entries + b.entries
    ensures c.effects == a.effects + b.effects
    ensures c.error == if b.error.Some? then b.error else a.error
  {
    Trace(a.steps + b.steps, a.entries + b.entries, a.effects + b.effects, if b.error.Some? then b.error else a.error)
  }

  /** Traces compose associatively, with `Nothing` as a right unit. */
  lemma ThenAssoc(a: Trace, b: Trace, c: Trace)
    ensures Then(Then(a, b), c) == Then(a, Then(b, c))
  {
    assert a.steps + b.steps + c.steps == a.steps + (b.steps + c.steps);
    assert a.entries + b.entries + c.entries == a.entries + (b.entries + c.entries);
    assert a.effects + b.effects + c.effects == a.effects + (b.effects + c.effects);
  }

  lemma ThenNothing(t: Trace)
    ensures Then(t, Nothing) == t && Then(Nothing, t) == t
  {
    assert t.steps + [] == t.steps && t.entries + [] == t.entries && t.effects + [] == t.effects;
  }

  /** What `b` logged and did last is what `a` then `b` logged and did last. */
  lemma LastOfThen(a: Trace, b: Trace)
    ensures 0 < |b.entries| ==> Then(a, b).entries[|Then(a, b).entries| - 1] == b.entries[|b.entries| - 1]
    ensures 0 < |b.effects| ==> Then(a, b).effects[|Then(a, b).effects| - 1] == b.effects[|b.effects| - 1]
  {
  }

  /** The visible state of one session; `trail` is every step set since the session
      was last cleared. */
  datatype Session = Session(step: Step, logs: seq<LogEntry>, trail: seq<Step>, error: Option<SessionError>)

  /** A session that has just been created or cleared. */
  const Cleared: Session := Session(Idle, [], [], None)

  function LastOr(s: Step, steps: seq<Step>): Step {
    if steps == [] then s else steps[|steps| - 1]
  }

  /** The session after an operation with trace `t` ran on it. */
  function Apply(s: Session, t: Trace): (r: Session)
    ensures r.logs == s.logs + t.entries && r.trail == s.trail + t.steps
    ensures r.step == LastOr(s.step, t.steps)
    ensures t.error.None? ==> r.error == s.error
    ensures t.error.Some? ==> r.error == t.error
  {
    Session(LastOr(s.step, t.steps), s.logs + t.entries, s.trail + t.steps, if t.error.Some? then t.error else s.error)
  }

  /** The displayed step is the last one set since the session was cleared, or idle. */
  predicate Consistent(s: Session) {
    s.step == LastOr(Idle, s.trail)
  }

  /** Running operations one after the other is running their concatenated trace. */
  lemma ApplyThen(s: Session, a: Trace, b: Trace)
    ensures Apply(Apply(s, a), b) == Apply(s, Then(a, b))
  {
    assert s.logs + a.entries + b.entries == s.logs + (a.entries + b.entries);
    assert s.trail + a.steps + b.steps == s.trail + (a.steps + b.steps);
    if b.steps == [] {
      assert a.steps + b.steps == a.steps;
    } else {
      assert LastOr(s.step, a.steps + b.steps) == b.steps[|b.steps| - 1];
    }
  }

  /** Every operation keeps the displayed step equal to the last step set. */
  lemma ApplyConsistent(s: Session, t: Trace)
    requires Consistent(s)
    ensures Consistent(Apply(s, t))
  {
    if t.steps == [] {
      assert s.trail + t.steps == s.trail;
    } else {
      assert (s.trail + t.steps)[|s.trail + t.steps| - 1] == t.steps[|t.steps| - 1];
    }
  }

  /** No "Error:" line among `entries`. */
  predicate NoErrorEntry(entries: seq<LogEntry>) {
    forall i :: 0 <= i < |entries| ==> !entries[i].ErrorEntry?
  }

  lemma NoErrorEntryAppend(a: seq<LogEntry>, b: seq<LogEntry>)
    requires NoErrorEntry(a) && NoErrorEntry(b)
    ensures NoErrorEntry(a + b)
  {
    forall i | 0 <= i < |a + b| ensures !(a + b)[i].ErrorEntry? {
      if i >= |a| {
        assert (a + b)[i] == b[i - |a|];
      }
    }
  }

  /** Every contract write among `effects` calls one of the ABI functions `names`. */
  predicate WritesOnly(effects: seq<Effect>, names: set<Function>) {
    forall i :: 0 <= i < |effects| && effects[i].WriteContract? ==> effects[i].call.name in names
  }

  lemma WritesOnlyAppend(a: seq<Effect>, b: seq<Effect>, names: set<Function>)
    requires WritesOnly(a, names) && WritesOnly(b, names)
    ensures WritesOnly(a + b, names)
  {
    forall i | 0 <= i < |a + b| && (a + b)[i].WriteContract? ensures (a + b)[i].call.name in names {
      if i >= |a| {
        assert (a + b)[i] == b[i - |a|];
      }
    }
  }

  /** A trace with no "Error:" entry whose contract writes all call one of `names`. */
  predicate Quiet(t: Trace, names: set<Function>) {
    NoErrorEntry(t.entries) && WritesOnly(t.effects, names)
  }

  lemma ThenQuiet(a: Trace, b: Trace, names: set<Function>)
    requires Quiet(a, names) && Quiet(b, names)
    ensures Quiet(Then(a, b), names)
  {
    NoErrorEntryAppend(a.entries, b.entries);
    WritesOnlyAppend(a.effects, b.effects, names);
  }

  lemma QuietWeaken(t: Trace, names: set<Function>, more: set<Function>)
    requires Quiet(t, names) && names <= more
    ensures Quiet(t, more)
  {
  }
}
