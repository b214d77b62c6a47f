/** Atomic file replacement and the transactional store built on it. */
module StateStore {
  import opened Options
  import opened Model

  /** What a file holds while it is being written, and once it is complete. */
  datatype Contents<+T> = Partial | Whole(value: T)

  /** How a write ended: replaced and reported so; failed before the replacement; failed
      after it, when opening or syncing the directory fails; or cut short by a crash. */
  datatype Outcome = Written | Failed | Late | Crashed

  /** A file replaced through a temporary sibling. */
  class File<T(!new)> {
    var target: Option<Contents<T>>
    var temp: Option<Contents<T>>
    /** Every value the target has had. */
    ghost var journal: seq<Option<Contents<T>>>

    constructor (target: Option<Contents<T>>)
      ensures this.target == target && temp.None? && journal == [target]
    {
      this.target, temp, journal := target, None, [target];
    }

    /** At every moment the target holds its old contents or the whole new ones, and a
        reported failure before the rename leaves the old ones. */
    method AtomicWrite(value: T, fate: Outcome) returns (v: Outcome)
      modifies this
      ensures v == fate
      ensures v.Written? || v.Late? ==> target == Some(Whole(value))
      ensures v.Failed? ==> target == old(target)
      ensures v.Crashed? ==> target == old(target) || target == Some(Whole(value))
      ensures |old(journal)| <= |journal| && journal[..|old(journal)|] == old(journal)
      ensures forall i | |old(journal)| <= i < |journal| :: journal[i] == Some(Whole(value))
      ensures v.Written? ==> temp.None?
    {
      v := fate;
      var early := fate.Failed? || fate.Crashed?;
      var stops: bool := *;
      if early && stops { return; }          // path, size, target type, temporary file
      temp := Some(Partial);
      stops := *;
      if early && stops {                    // mode, owner, contents, sync, close
        if fate.Failed? { Discard(); }
        return;
      }
      temp := Some(Whole(value));
      stops := *;
      if fate.Failed? { Discard(); return; } // rename
      if fate.Crashed? && stops { return; }
      target, temp := temp, None;
      journal := journal + [target];         // the directory is opened and synced after this
    }

    /** Removes the temporary file; an error is ignored. */
    method Discard()
      modifies `temp
    {
      var removed: bool := *;
      if removed { temp := None; }
    }
  }

  /** What a transition function returns: an error, or the next state; with it or without
      it, a function that takes back what it has applied outside. */
  datatype Proposal = Proposal(next: Option<State>, undo: bool)

  /** What opening the store reads from a file: bootstrap windows do not survive it. */
  function Reopened(file: Option<Contents<State>>): Option<State> {
    if file.Some? && file.value.Whole? && Valid(file.value.value) then Some(file.value.value.(bootstrap := None)) else None
  }

  predicate Settled(memory: State, file: Option<Contents<State>>) {
    && Valid(memory)
    && Reopened(file) == Some(memory.(bootstrap := None))
  }

  /** Reopening gives back the memory value exactly when no bootstrap window is open. */
  lemma ReopenIsMemory(memory: State, file: Option<Contents<State>>)
    requires Settled(memory, file)
    ensures Reopened(file) == Some(memory) <==> memory.bootstrap.None?
  {
  }

  class Store {
    var memory: State
    const file: File<State>

    constructor (file: File<State>, memory: State)
      ensures this.file == file && this.memory == memory
    {
      this.file, this.memory := file, memory;
    }

    /** Opening: a missing file becomes the new state, an unreadable one is an error. */
    method Open(fate: Outcome) returns (v: Outcome)
      modifies this, file
      ensures old(file.target).Some? ==> v == if fate.Written? && Reopened(old(file.target)).Some? then Written else Failed
      ensures old(file.target).None? ==> v == fate
      ensures v.Written? ==> Settled(memory, file.target) && memory.bootstrap.None?
      ensures v.Written? && old(file.target).Some? ==> Reopened(old(file.target)) == Some(memory) && file.target == old(file.target)
      ensures v.Written? && old(file.target).None? ==> memory == NEW_STATE
      ensures old(file.target).Some? && Reopened(old(file.target)).None? ==> v.Failed?
      ensures old(file.target).Some? ==> file.target == old(file.target)
      ensures !v.Written? ==> memory == old(memory)
    {
      var value;
      if file.target.None? {
        value := NEW_STATE;
        v := Persist(value, fate);
        if !v.Written? { return; }
      } else {
        if !fate.Written? || file.target.value.Partial? { return Failed; }
        value := file.target.value.value;
        var ok := Validate(value);
        if !ok { return Failed; }
        v := Written;
      }
      memory := value.(bootstrap := None);
    }

    /** Only a valid state reaches the file. */
    method Persist(value: State, fate: Outcome) returns (v: Outcome)
      modifies file
      ensures v == if Valid(value) then fate else Failed
      ensures v.Written? || v.Late? ==> Valid(value) && file.target == Some(Whole(value))
      ensures v.Failed? ==> file.target == old(file.target)
      ensures v.Crashed? ==> file.target == old(file.target) || (Valid(value) && file.target == Some(Whole(value)))
    {
      var ok := Validate(value);
      if !ok { return Failed; }
      v := file.AtomicWrite(value, fate);    // an encoding over the size limit is refused there
    }

    /** Memory and file move together to the next state, or neither moves. The compensation is
        run when something was applied and not committed, and never for a committed change. A
        write that fails late is the one outcome that parts them. */
    method Transition(p: Proposal, fate: Outcome) returns (v: Outcome, undo: bool)
      modifies this, file
      ensures v == if p.next.Some? && Valid(p.next.value) then fate else Failed
      ensures v.Written? ==> p.next.Some? && Valid(p.next.value) && memory == p.next.value && file.target == Some(Whole(memory))
      ensures !v.Written? ==> memory == old(memory)
      ensures v.Failed? ==> file.target == old(file.target)
      ensures v.Late? ==> p.next.Some? && Valid(p.next.value) && file.target == Some(Whole(p.next.value))
      ensures v.Crashed? ==> p.next.Some?
      ensures v.Crashed? ==> file.target == old(file.target) || (Valid(p.next.value) && file.target == Some(Whole(p.next.value)))
      ensures undo <==> p.undo && (v.Failed? || v.Late?)
      ensures old(Settled(memory, file.target)) && (v.Written? || v.Failed?) ==> Settled(memory, file.target)
      ensures old(Settled(memory, file.target)) && v.Late? ==>
                (Settled(memory, file.target) <==> p.next.value.(bootstrap := None) == memory.(bootstrap := None))
    {
      v := Failed;
      if p.next.Some? {
        var ok := Validate(p.next.value);
        if ok { v := Persist(p.next.value, fate); }
      }
      undo := p.undo && !v.Written? && !v.Crashed?;
      if v.Written? { memory := p.next.value; }
    }
  }
}
