/**
 * `CResource<T, CloseFnType, CloseFn>`, the general-purpose RAII wrapper of
 * winchroma.h: one handle field `_obj` that is closed by `CloseFn` when the
 * wrapper is reset, reassigned or destroyed, and detached without closing by
 * `release`.
 *
 * The wrapper's history is recorded as a log of events: `Took(h)` when a
 * non-NULL handle is taken into ownership, `Closed(h)` for each call of the
 * close function, `Detached(h)` when `release` hands the handle out. The
 * value-level `Slot` model gives each operation as a function; the class
 * `CResource` performs them in place and is specified by those functions.
 */
module Gdi {

  /** A platform handle; 0 is NULL. */
  type Handle = int
  const NULL: Handle := 0

  datatype Event = Took(h: Handle) | Closed(h: Handle) | Detached(h: Handle)

  /** The wrapper's field `_obj` together with its history. */
  datatype Slot = Slot(obj: Handle, log: seq<Event>)

  /**
   * Single ownership: the log is a series of complete episodes, each a
   * `Took(h)` of a non-NULL `h` immediately followed by exactly one of
   * `Closed(h)` or `Detached(h)`, and then, exactly when `obj` is not NULL,
   * one open episode `Took(obj)`.
   */
  predicate Episodes(log: seq<Event>, obj: Handle)
    decreases |log|
  {
    if |log| == 0 then obj == NULL
    else if |log| == 1 then obj != NULL && log[0] == Took(obj)
    else
      && log[0].Took? && log[0].h != NULL
      && (log[1] == Closed(log[0].h) || log[1] == Detached(log[0].h))
      && Episodes(log[2..], obj)
  }

  /** The handles passed to the close function, in call order. */
  function CloseCalls(log: seq<Event>): seq<Handle>
    decreases |log|
  {
    if log == [] then []
    else CloseCalls(log[..|log| - 1]) + (if log[|log| - 1].Closed? then [log[|log| - 1].h] else [])
  }

  /** Storing into an empty slot: a non-NULL handle is taken into ownership. */
  function TakeSlot(s: Slot, h: Handle): (t: Slot)
    requires s.obj == NULL
    ensures t.obj == h
    ensures CloseCalls(t.log) == CloseCalls(s.log)
  {
    Slot(h, if h != NULL then s.log + [Took(h)] else s.log)
  }

  /** `CResource()` (h == NULL) and `CResource(T obj)`. */
  function ConstructSlot(h: Handle): (t: Slot)
    ensures t.obj == h && CloseCalls(t.log) == []
    ensures Episodes(t.log, t.obj)
  {
    TakeSlot(Slot(NULL, []), h)
  }

  /**
   * `reset()`, and the destructor: a non-NULL handle is closed once; the slot
   * is NULL afterwards whatever the close function returned.
   */
  function ResetSlot(s: Slot): (t: Slot)
    ensures t.obj == NULL
    ensures CloseCalls(t.log) == CloseCalls(s.log) + (if s.obj != NULL then [s.obj] else [])
  {
    if s.obj != NULL then Slot(NULL, s.log + [Closed(s.obj)]) else Slot(NULL, s.log)
  }

  /** `release()`: the held handle is handed out to the caller and nothing is closed. */
  function ReleaseSlot(s: Slot): (t: Slot)
    ensures t.obj == NULL
    ensures CloseCalls(t.log) == CloseCalls(s.log)
  {
    if s.obj != NULL then Slot(NULL, s.log + [Detached(s.obj)]) else Slot(NULL, s.log)
  }

  /**
   * `operator=(T &h)`: reset, then store `h`. The parameter is a reference,
   * and `aliasesObj` says it refers to the wrapper's own `_obj` (as in
   * `r = r._obj`): reset then clears the very variable `h` names, so the
   * store reads NULL and the wrapper ends empty.
   */
  function AssignSlot(s: Slot, h: Handle, aliasesObj: bool): (t: Slot)
    requires aliasesObj ==> h == s.obj
    ensures t.obj == if aliasesObj then NULL else h
    ensures CloseCalls(t.log) == CloseCalls(s.log) + (if s.obj != NULL then [s.obj] else [])
    ensures s.obj != NULL ==> |t.log| > |s.log| && t.log[|s.log|] == Closed(s.obj)
    ensures !aliasesObj && h != NULL ==> |t.log| > |s.log| && t.log[|t.log| - 1] == Took(h)
  {
    var r := ResetSlot(s);
    TakeSlot(r, if aliasesObj then r.obj else h)
  }

  /** `Assign(h)` stores a handle held elsewhere; `AssignOwn` is `r = r._obj`. */
  datatype Op = Assign(h: Handle) | AssignOwn | Reset | Release

  function Apply(s: Slot, op: Op): Slot
  {
    match op
    case Assign(h) => AssignSlot(s, h, false)
    case AssignOwn => AssignSlot(s, s.obj, true)
    case Reset => ResetSlot(s)
    case Release => ReleaseSlot(s)
  }

  function Run(s: Slot, ops: seq<Op>): Slot
    decreases |ops|
  {
    if ops == [] then s else Run(Apply(s, ops[0]), ops[1..])
  }

  /** A whole lifetime: construction, the operations, then the destructor. */
  function Lifetime(h: Handle, ops: seq<Op>): Slot
  {
    ResetSlot(Run(ConstructSlot(h), ops))
  }

  lemma {:induction false} EpisodesTake(log: seq<Event>, h: Handle)
    requires Episodes(log, NULL) && h != NULL
    ensures Episodes(log + [Took(h)], h)
    decreases |log|
  {
    if |log| >= 2 {
      assert (log + [Took(h)])[2..] == log[2..] + [Took(h)];
      EpisodesTake(log[2..], h);
    }
  }

  lemma {:induction false} EpisodesEnd(log: seq<Event>, h: Handle, e: Event)
    requires Episodes(log, h) && h != NULL
    requires e == Closed(h) || e == Detached(h)
    ensures Episodes(log + [e], NULL)
    decreases |log|
  {
    if |log| >= 2 {
      assert (log + [e])[2..] == log[2..] + [e];
      EpisodesEnd(log[2..], h, e);
    }
  }

  /** Every operation keeps single ownership. */
  lemma ApplyKeepsEpisodes(s: Slot, op: Op)
    requires Episodes(s.log, s.obj)
    ensures Episodes(Apply(s, op).log, Apply(s, op).obj)
  {
    var r := ResetSlot(s);
    if s.obj != NULL {
      EpisodesEnd(s.log, s.obj, Closed(s.obj));
      EpisodesEnd(s.log, s.obj, Detached(s.obj));
    }
    assert Episodes(r.log, NULL);
    if op.Assign? && op.h != NULL {
      EpisodesTake(r.log, op.h);
    }
  }

  lemma {:induction false} RunKeepsEpisodes(s: Slot, ops: seq<Op>)
    requires Episodes(s.log, s.obj)
    ensures Episodes(Run(s, ops).log, Run(s, ops).obj)
    decreases |ops|
  {
    if ops != [] {
      ApplyKeepsEpisodes(s, ops[0]);
      RunKeepsEpisodes(Apply(s, ops[0]), ops[1..]);
    }
  }

  /**
   * After any sequence of assign/reset/release ending in destruction, the
   * wrapper holds nothing and every handle it took was either closed once or
   * detached once.
   */
  lemma LifetimeCompletes(h: Handle, ops: seq<Op>)
    ensures Lifetime(h, ops).obj == NULL
    ensures Episodes(Lifetime(h, ops).log, NULL)
  {
    RunKeepsEpisodes(ConstructSlot(h), ops);
    ApplyKeepsEpisodes(Run(ConstructSlot(h), ops), Reset);
  }

  /**
   * The shape of a single-ownership log: acquisitions sit at the even
   * positions, and each odd position closes or detaches the handle taken
   * just before it.
   */
  lemma {:induction false} EpisodeShape(log: seq<Event>, obj: Handle, i: nat)
    requires Episodes(log, obj) && i < |log|
    ensures log[i].Took? <==> i % 2 == 0
    ensures log[i].h != NULL
    ensures i % 2 == 1 ==> log[i - 1] == Took(log[i].h)
    ensures i == |log| - 1 && obj != NULL ==> log[i] == Took(obj)
    decreases i
  {
    if i >= 2 {
      EpisodeShape(log[2..], obj, i - 2);
    }
  }

  /**
   * No double close: of two close or detach events, the later one ends a
   * later acquisition, so each acquisition is ended at most once.
   */
  lemma AtMostOneEnding(log: seq<Event>, obj: Handle, j: nat, k: nat)
    requires Episodes(log, obj) && j < k < |log|
    requires !log[j].Took? && !log[k].Took?
    ensures j < k - 1 && log[k - 1] == Took(log[k].h)
  {
    EpisodeShape(log, obj, j);
    EpisodeShape(log, obj, k);
  }

  /**
   * Once released, a handle is never closed by this wrapper: any later close
   * belongs to a handle taken after the release.
   */
  lemma DetachedNeverClosed(log: seq<Event>, obj: Handle, j: nat, k: nat)
    requires Episodes(log, obj) && j < k < |log|
    requires log[j].Detached? && log[k].Closed?
    ensures j < k - 1 && log[k - 1] == Took(log[k].h)
  {
    AtMostOneEnding(log, obj, j, k);
  }

  /** Every close call is for a handle the wrapper owned at that point. */
  lemma ClosesOnlyOwned(log: seq<Event>, obj: Handle, k: nat)
    requires Episodes(log, obj) && k < |log| && log[k].Closed?
    ensures k > 0 && log[k - 1] == Took(log[k].h) && log[k].h != NULL
  {
    EpisodeShape(log, obj, k);
  }

  /**
   * `r = r._obj` followed by destruction closes the held handle once: the
   * assignment closes it and leaves NULL, so the destructor closes nothing.
   */
  lemma SelfAssignThenDestroy(s: Slot)
    ensures ResetSlot(AssignSlot(s, s.obj, true)).obj == NULL
    ensures CloseCalls(ResetSlot(AssignSlot(s, s.obj, true)).log)
         == CloseCalls(s.log) + (if s.obj != NULL then [s.obj] else [])
  {
  }

  /** `release()` followed by destruction calls the close function not at all. */
  lemma ReleaseThenDestroy(s: Slot)
    ensures CloseCalls(ResetSlot(ReleaseSlot(s)).log) == CloseCalls(s.log)
    ensures ResetSlot(ReleaseSlot(s)).obj == NULL
  {
  }

  /**
   * The wrapper object. `close` is the template argument `CloseFn`; its
   * result is handed to CHECKERR, which only logs it, so it has no effect.
   */
  class CResource {
    const close: Handle -> bool
    var obj: Handle
    ghost var log: seq<Event>

    ghost predicate Valid()
      reads this
    {
      Episodes(log, obj)
    }

    ghost function State(): Slot
      reads this
    {
      Slot(obj, log)
    }

    /** `CResource()`: an empty wrapper. */
    constructor Empty(close: Handle -> bool)
      ensures Valid() && this.close == close
      ensures obj == NULL && State() == ConstructSlot(NULL)
    {
      this.close := close;
      obj := NULL;
      log := [];
    }

    /** `CResource(T obj)`: takes ownership of `h` without checking it. */
    constructor (close: Handle -> bool, h: Handle)
      ensures Valid() && this.close == close
      ensures obj == h && State() == ConstructSlot(h)
    {
      this.close := close;
      obj := h;
      log := if h != NULL then [Took(h)] else [];
    }

    /** `operator T()`: the held handle; ownership stays with the wrapper. */
    method Get() returns (h: Handle)
      ensures h == obj
    {
      h := obj;
    }

    method Reset()
      requires Valid()
      modifies this
      ensures Valid() && State() == ResetSlot(old(State()))
      ensures obj == NULL
      ensures CloseCalls(log) == old(CloseCalls(log)) + (if old(obj) != NULL then [old(obj)] else [])
    {
      ApplyKeepsEpisodes(State(), Op.Reset);
      if obj != NULL {
        var ok := close(obj);
        log := log + [Closed(obj)];
      }
      obj := NULL;
    }

    method Release() returns (h: Handle)
      requires Valid()
      modifies this
      ensures Valid() && State() == ReleaseSlot(old(State()))
      ensures h == old(obj) && obj == NULL
      ensures CloseCalls(log) == old(CloseCalls(log))
    {
      ApplyKeepsEpisodes(State(), Op.Release);
      h := obj;
      if obj != NULL {
        log := log + [Detached(obj)];
      }
      obj := NULL;
    }

    /**
     * `operator=(T &h)`; its missing return value is not modelled.
     * `aliasesObj` says `h` is a reference to this wrapper's own `_obj`.
     */
    method Assign(h: Handle, aliasesObj: bool)
      requires Valid()
      requires aliasesObj ==> h == obj
      modifies this
      ensures Valid() && State() == AssignSlot(old(State()), h, aliasesObj)
      ensures obj == if aliasesObj then NULL else h
      ensures CloseCalls(log) == old(CloseCalls(log)) + (if old(obj) != NULL then [old(obj)] else [])
    {
      ApplyKeepsEpisodes(State(), if aliasesObj then Op.AssignOwn else Op.Assign(h));
      Reset();
      // `_obj = h`: when `h` names `_obj`, it reads the NULL reset just stored.
      var value := if aliasesObj then obj else h;
      obj := value;
      if value != NULL {
        log := log + [Took(value)];
      }
    }

    /** `~CResource()`: the end of the wrapper's scope resets it. */
    method Destroy()
      requires Valid()
      modifies this
      ensures Valid() && State() == ResetSlot(old(State()))
      ensures obj == NULL
      ensures CloseCalls(log) == old(CloseCalls(log)) + (if old(obj) != NULL then [old(obj)] else [])
    {
      Reset();
    }
  }
}
