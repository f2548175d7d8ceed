/** Waiting for a shielded task: the task and its waiter run side by side, cancellations reach only the
    waiter, and they may arrive before, between and after anything the task does. */
module ShieldedWait {
  import opened Wrappers

  datatype TaskEnd = Succeeded | Faulted

  datatype Leave = Normally | Cancelled | WithFault

  /** `requested` is a cancellation that has arrived and is raised when the waiter runs next. A waiter
      either notes cancellations to raise one at the end, or holds them off (`holdOff`). */
  datatype Wait = Wait(holdOff: bool, ended: Option<TaskEnd>, requested: bool, interrupted: bool, left: Option<Leave>)

  datatype Event = TaskWorks | TaskEnds(end: TaskEnd) | CancelArrives | WaiterWakes

  function Begin(holdOff: bool): Wait {
    Wait(holdOff, None, false, false, None)
  }

  predicate CanWake(w: Wait) {
    w.left.None? && (w.requested || w.ended.Some?)
  }

  predicate Enabled(w: Wait, e: Event) {
    match e
    case TaskWorks => w.ended.None?
    case TaskEnds(_) => w.ended.None?
    case CancelArrives => w.left.None?
    case WaiterWakes => CanWake(w)
  }

  /** The waiter runs: it sees a cancellation first. One that notes goes on waiting for the task then;
      one that holds off does so only if the task has not ended. */
  function Wake(w: Wait): Wait {
    if w.requested && (w.ended.None? || !w.holdOff) then w.(requested := false, interrupted := true)
    else if w.ended.None? then w
    else w.(left := Some(if w.ended.value == Faulted then WithFault else if w.interrupted && !w.holdOff then Cancelled else Normally))
  }

  function Step(w: Wait, e: Event): Wait {
    match e
    case TaskWorks => w
    case TaskEnds(end) => w.(ended := Some(end))
    case CancelArrives => w.(requested := true)
    case WaiterWakes => Wake(w)
  }

  function Run(holdOff: bool, es: seq<Event>): Wait {
    if es == [] then Begin(holdOff) else Step(Run(holdOff, es[..|es| - 1]), es[|es| - 1])
  }

  predicate Possible(holdOff: bool, es: seq<Event>) {
    es == [] || (Possible(holdOff, es[..|es| - 1]) && Enabled(Run(holdOff, es[..|es| - 1]), es[|es| - 1]))
  }

  lemma {:induction false} RunNext(holdOff: bool, es: seq<Event>, e: Event)
    requires Possible(holdOff, es) && Enabled(Run(holdOff, es), e)
    ensures Possible(holdOff, es + [e]) && Run(holdOff, es + [e]) == Step(Run(holdOff, es), e)
  {
    assert (es + [e])[..|es|] == es;
  }

  /** In every run the waiter leaves only after the task has ended, and how it leaves is decided by the
      task's end and by whether any cancellation arrived: a fault of the task is raised whatever else
      happened; otherwise a noting waiter leaves as cancelled if and only if it was cancelled at all,
      and one that holds off never does. */
  lemma {:induction false} WaiterOutlastsTask(holdOff: bool, es: seq<Event>)
    requires Possible(holdOff, es)
    ensures var w := Run(holdOff, es);
            && w.holdOff == holdOff
            && (w.ended == Some(Succeeded) <==> TaskEnds(Succeeded) in es) && (w.ended == Some(Faulted) <==> TaskEnds(Faulted) in es)
            && (w.left.Some? ==> w.ended.Some?)
            && (w.left == Some(WithFault) <==> w.left.Some? && TaskEnds(Faulted) in es)
            && (w.left == Some(Cancelled) <==> w.left.Some? && TaskEnds(Succeeded) in es && CancelArrives in es && !holdOff)
            && (w.left == Some(Normally) <==> w.left.Some? && TaskEnds(Succeeded) in es && (CancelArrives !in es || holdOff))
            && (w.left.None? || !holdOff ==> (w.interrupted || w.requested <==> CancelArrives in es))
  {
    if es != [] {
      var before, e := es[..|es| - 1], es[|es| - 1];
      WaiterOutlastsTask(holdOff, before);
      assert es == before + [e];
    }
  }

  /** Once the task has ended, the waiter needs at most two turns to leave, unless it is cancelled anew. */
  lemma EndedTaskFreesWaiter(holdOff: bool, es: seq<Event>)
    requires Possible(holdOff, es) && Run(holdOff, es).ended.Some? && Run(holdOff, es).left.None?
    ensures var w := Run(holdOff, es);
            CanWake(w) && (Wake(w).left.Some? || (CanWake(Wake(w)) && Wake(Wake(w)).left.Some?))
  {
  }
}
