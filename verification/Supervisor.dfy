/**
 One component worker of the process supervisor, as interleaved steps.

 The run loop's program points are the constructors of `Pc`; commands, the
 cancellation of the context and the exit of a child process may happen between
 any two of them. Each critical section of the source is one step.
 */
module Supervisor {

  /** Failures at which the worker is switched off. */
  const CEILING: nat := 6

  datatype Pc =
    | LoopTop          // about to ask shouldRun
    | Idle             // in waitWake without a timer
    | Snapshot         // in launch, about to read the generation
    | Starting         // generation read, about to start the process
    | Recording        // process started, about to record it
    | Watching         // in the inner select
    | Checking         // wake token taken, about to compare generations
    | Stopping         // in terminate after a newer command
    | Leaving          // in terminate because the context is done
    | Clearing         // child gone, about to clear the record
    | Comparing        // about to compare generations after an exit
    | Counting         // about to count an exit as a failure
    | LaunchFailed     // about to count a failed start
    | Disabling        // about to switch the worker off after an exit
    | DisablingLaunch  // about to switch the worker off after a failed start
    | BackingOff       // in waitWake with a timer
    | Finished         // the loop has returned

  /** Orders given to the worker, and what the loop remembers about them. */
  datatype Control = Control(
    desired: bool,
    generation: nat,
    wake: bool,          // the one-slot wake channel
    snapshot: nat,       // generation read by launch
    failures: nat
  )

  /** The child process and its record. */
  datatype Process = Process(
    cmd: bool,           // a child is recorded
    pid: nat,            // status.PID
    live: set<nat>,      // processes started by this worker that still run
    child: nat           // the process the local wait channel belongs to
  )

  datatype Worker = Worker(pc: Pc, ctl: Control, proc: Process, cancelled: bool)

  datatype Event =
    | Command(on: bool)
    | Cancel
    | ChildExit
    | Go                 // the only branch of a program point
    | OnCancel           // select: context done
    | OnWake             // select: wake token
    | OnTimer            // select: timer
    | OnExit             // select: process wait
    | StartOk(newPid: nat)
    | StartFail
    | Count(long: bool)  // long: the process lived more than two minutes

  function Initial(enabled: bool): Worker {
    Worker(LoopTop, Control(enabled, 0, false, 0, 0), Process(false, 0, {}, 0), false)
  }

  predicate Enabled(w: Worker, e: Event) {
    match e
    case Command(_) => true
    case Cancel => true
    case ChildExit => w.proc.live != {}
    case OnCancel => w.cancelled && (w.pc.Idle? || w.pc.Watching? || w.pc.BackingOff?)
    case OnWake => w.ctl.wake && (w.pc.Idle? || w.pc.Watching? || w.pc.BackingOff?)
    case OnTimer => w.pc.BackingOff?
    case OnExit => w.pc.Watching? && w.proc.child !in w.proc.live
    case StartOk(p) => w.pc.Starting? && !w.cancelled && p > 0 && p !in w.proc.live
    case StartFail => w.pc.Starting?
    case Count(_) => w.pc.Counting?
    case Go => CanAdvance(w)
  }

  /** The program points with a single branch; terminate waits for the child to be gone. */
  predicate CanAdvance(w: Worker) {
    && !w.pc.Idle? && !w.pc.Starting? && !w.pc.Watching? && !w.pc.Counting?
    && !w.pc.BackingOff? && !w.pc.Finished?
    && (w.pc.Stopping? || w.pc.Leaving? ==> w.proc.child !in w.proc.live)
  }

  function AfterFailure(w: Worker, disabling: Pc): Worker {
    w.(pc := if w.ctl.failures >= CEILING then disabling else BackingOff, proc := w.proc.(pid := 0))
  }

  function SwitchOff(w: Worker, next: Pc): Worker {
    w.(pc := next, ctl := w.ctl.(desired := false))
  }

  /** The step of a program point that has a single branch. */
  function Advance(w: Worker): (w': Worker)
    requires CanAdvance(w)
  {
    match w.pc
    case LoopTop => if w.ctl.desired then w.(pc := Snapshot) else w.(pc := Idle, proc := w.proc.(pid := 0))
    case Snapshot => w.(pc := Starting, ctl := w.ctl.(snapshot := w.ctl.generation))
    case Recording => w.(pc := Watching, proc := w.proc.(cmd := true, pid := w.proc.child))
    case Checking => w.(pc := if w.ctl.generation != w.ctl.snapshot then Stopping else Watching)
    case Stopping => w.(pc := Clearing, proc := w.proc.(cmd := false, pid := 0))
    case Leaving => w.(pc := Finished, proc := w.proc.(cmd := false, pid := 0))
    case Clearing => w.(pc := Comparing, proc := w.proc.(cmd := false, pid := 0))
    case Comparing =>
      if w.ctl.generation != w.ctl.snapshot then w.(pc := LoopTop, ctl := w.ctl.(failures := 0)) else w.(pc := Counting)
    case LaunchFailed => AfterFailure(w.(ctl := w.ctl.(failures := w.ctl.failures + 1)), DisablingLaunch)
    case Disabling => SwitchOff(w, LoopTop)
    case DisablingLaunch => SwitchOff(w, if w.cancelled then Finished else LoopTop)
  }

  function Apply(w: Worker, e: Event): (w': Worker)
    requires Enabled(w, e)
  {
    match e
    case Command(on) =>
      w.(ctl := w.ctl.(desired := on, generation := w.ctl.generation + 1, wake := true))
    case Cancel => w.(cancelled := true)
    case ChildExit => w.(proc := w.proc.(live := {}))
    case Go => Advance(w)
    case OnCancel => w.(pc := if w.pc.Watching? then Leaving else Finished)
    case OnWake => w.(pc := if w.pc.Watching? then Checking else LoopTop, ctl := w.ctl.(wake := false))
    case OnTimer => w.(pc := LoopTop)
    case OnExit => w.(pc := Clearing)
    case StartOk(p) => w.(pc := Recording, proc := w.proc.(child := p, live := w.proc.live + {p}))
    case StartFail => w.(pc := LaunchFailed)
    case Count(long) => AfterFailure(w.(ctl := w.ctl.(failures := if long then 1 else w.ctl.failures + 1)), Disabling)
  }

  // ----- Runs -----

  predicate IsRun(w: Worker, es: seq<Event>)
    decreases |es|
  {
    es == [] || (Enabled(w, es[0]) && IsRun(Apply(w, es[0]), es[1..]))
  }

  function End(w: Worker, es: seq<Event>): (w': Worker)
    requires IsRun(w, es)
    decreases |es|
  {
    if es == [] then w else End(Apply(w, es[0]), es[1..])
  }

  lemma {:induction false} RunAppend(w: Worker, a: seq<Event>, b: seq<Event>)
    requires IsRun(w, a) && IsRun(End(w, a), b)
    ensures IsRun(w, a + b) && End(w, a + b) == End(End(w, a), b)
    decreases |a|
  {
    if a == [] {
      assert a + b == b;
    } else {
      RunAppend(Apply(w, a[0]), a[1..], b);
      assert (a + b)[1..] == a[1..] + b;
    }
  }

  // ----- Safety -----

  predicate HasChild(pc: Pc) {
    pc.Recording? || pc.Watching? || pc.Checking? || pc.Stopping? || pc.Leaving?
  }

  /** At most one live child, and only where the loop looks after it. */
  predicate ChildInv(w: Worker) {
    && w.proc.live <= {w.proc.child}
    && (w.proc.live != {} ==> HasChild(w.pc))
    && (w.pc.Finished? ==> w.cancelled)
    && (w.pc.Leaving? ==> w.cancelled)
  }

  /** The record of a child and the published PID go together. */
  predicate RecordInv(w: Worker) {
    && (w.proc.cmd <==> w.proc.pid != 0)
    && (w.proc.cmd ==> w.proc.pid == w.proc.child)
    && (w.pc.Watching? || w.pc.Checking? || w.pc.Stopping? || w.pc.Leaving? ==> w.proc.cmd)
    && (w.proc.cmd ==> w.pc.Watching? || w.pc.Checking? || w.pc.Stopping? || w.pc.Leaving? || w.pc.Clearing?)
    && (w.pc.Recording? ==> w.proc.child > 0)
  }

  /** Commands, wake tokens and the failure count. */
  predicate WakeInv(w: Worker) {
    && w.ctl.snapshot <= w.ctl.generation
    && ((w.pc.Starting? || w.pc.Recording? || w.pc.Watching?) && w.ctl.generation != w.ctl.snapshot ==> w.ctl.wake)
    && (w.pc.Stopping? ==> w.ctl.generation != w.ctl.snapshot)
    && (w.pc.Idle? ==> !w.ctl.desired || w.ctl.wake)
    && (w.pc.BackingOff? ==> 1 <= w.ctl.failures < CEILING)
    && ((w.pc.Disabling? || w.pc.DisablingLaunch?) ==> w.ctl.failures >= CEILING)
  }

  ghost predicate Inv(w: Worker) {
    ChildInv(w) && RecordInv(w) && WakeInv(w)
  }

  lemma InitialInv(enabled: bool)
    ensures Inv(Initial(enabled))
  {
  }

  lemma AdvanceChild(w: Worker)
    requires ChildInv(w) && CanAdvance(w)
    ensures ChildInv(Advance(w))
  {
  }

  lemma AdvanceRecord(w: Worker)
    requires RecordInv(w) && CanAdvance(w)
    ensures RecordInv(Advance(w))
  {
  }

  lemma AdvanceWake(w: Worker)
    requires WakeInv(w) && CanAdvance(w)
    ensures WakeInv(Advance(w))
  {
  }

  lemma StepChild(w: Worker, e: Event)
    requires ChildInv(w) && Enabled(w, e)
    ensures ChildInv(Apply(w, e))
  {
    if e == Go { AdvanceChild(w); }
  }

  lemma StepRecord(w: Worker, e: Event)
    requires RecordInv(w) && Enabled(w, e)
    ensures RecordInv(Apply(w, e))
  {
    if e == Go { AdvanceRecord(w); }
  }

  lemma StepWake(w: Worker, e: Event)
    requires WakeInv(w) && Enabled(w, e)
    ensures WakeInv(Apply(w, e))
  {
    if e == Go { AdvanceWake(w); }
  }

  lemma StepInv(w: Worker, e: Event)
    requires Inv(w) && Enabled(w, e)
    ensures Inv(Apply(w, e))
  {
    StepChild(w, e);
    StepRecord(w, e);
    StepWake(w, e);
  }

  lemma {:induction false} RunInv(w: Worker, es: seq<Event>)
    requires Inv(w) && IsRun(w, es)
    ensures Inv(End(w, es))
    decreases |es|
  {
    if es != [] {
      StepInv(w, es[0]);
      RunInv(Apply(w, es[0]), es[1..]);
    }
  }

  /** Every interleaving: one live child at most, the PID is published exactly for a
      recorded child, and a loop that has returned has left no process behind. */
  lemma WorkerSafety(enabled: bool, es: seq<Event>)
    requires IsRun(Initial(enabled), es)
    ensures var w := End(Initial(enabled), es);
            && |w.proc.live| <= 1
            && (w.proc.cmd <==> w.proc.pid != 0)
            && (w.pc.Finished? ==> w.proc.live == {} && !w.proc.cmd && w.proc.pid == 0)
  {
    InitialInv(enabled);
    RunInv(Initial(enabled), es);
    var w := End(Initial(enabled), es);
    if w.proc.live != {} {
      assert w.proc.live == {w.proc.child};
    }
  }

  /** A command issued after launch read the generation leaves a wake token until the
      loop compares generations: a child that is watched with no token pending was
      started after the last command, and an idle loop with no token was told to stop
      or has been switched off. */
  lemma CommandStaysPending(enabled: bool, es: seq<Event>)
    requires IsRun(Initial(enabled), es)
    ensures var w := End(Initial(enabled), es);
            && ((w.pc.Starting? || w.pc.Recording? || w.pc.Watching?) && !w.ctl.wake ==> w.ctl.generation == w.ctl.snapshot)
            && (w.pc.Idle? && !w.ctl.wake ==> !w.ctl.desired)
  {
    InitialInv(enabled);
    RunInv(Initial(enabled), es);
  }

  // ----- What becomes of commands -----

  lemma {:induction false} RunPrefix(w: Worker, es: seq<Event>, k: nat)
    requires IsRun(w, es) && k <= |es|
    ensures IsRun(w, es[..k])
    ensures k < |es| ==> && Enabled(End(w, es[..k]), es[k]) && IsRun(w, es[..k + 1])
                         && End(w, es[..k + 1]) == Apply(End(w, es[..k]), es[k])
    decreases k
  {
    if k == 0 {
      if es != [] {
        assert es[..1] == [es[0]] && [es[0]][1..] == [];
        assert End(Apply(w, es[0]), []) == Apply(w, es[0]);
      }
    } else {
      RunPrefix(Apply(w, es[0]), es[1..], k - 1);
      assert es[..k][1..] == es[1..][..k - 1];
      if k < |es| { assert es[..k + 1][1..] == es[1..][..k]; }
    }
  }

  /** What a run has seen so far, -1 for never: the last command, what it asked for and where
      the loop was; the last generation read; the last switching off. */
  datatype Past = Past(asked: bool, at: Pc, command: int, read: int, off: int)

  function Note(w: Worker, e: Event, i: nat, p: Past): Past {
    if e.Command? then p.(asked := e.on, at := w.pc, command := i)
    else if e.Go? && w.pc.Snapshot? then p.(read := i)
    else if e.Go? && (w.pc.Disabling? || w.pc.DisablingLaunch?) then p.(off := i)
    else p
  }

  function PastOf(enabled: bool, es: seq<Event>): Past
    requires IsRun(Initial(enabled), es)
  {
    if es == [] then Past(enabled, LoopTop, -1, -1, -1)
    else
      var n := |es| - 1;
      RunPrefix(Initial(enabled), es, n);
      Note(End(Initial(enabled), es[..n]), es[n], n, PastOf(enabled, es[..n]))
  }

  predicate IsOff(w: Worker, e: Event) {
    e.Go? && (w.pc.Disabling? || w.pc.DisablingLaunch?)
  }

  /** The past is what the run says: the last command is there with what it asked for and where
      the loop was then, and so are the last generation read and the last switching off. */
  lemma {:induction false} PastIsTheRun(enabled: bool, es: seq<Event>, k: nat)
    requires IsRun(Initial(enabled), es) && k < |es|
    ensures IsRun(Initial(enabled), es[..k])
    ensures var w, p := End(Initial(enabled), es[..k]), PastOf(enabled, es);
            && (es[k].Command? ==> k <= p.command)
            && (k == p.command ==> es[k] == Command(p.asked) && p.at == w.pc)
            && (es[k].Go? && w.pc.Snapshot? ==> k <= p.read)
            && (k == p.read ==> es[k].Go? && w.pc.Snapshot?)
            && (IsOff(w, es[k]) ==> k <= p.off)
            && (k == p.off ==> IsOff(w, es[k]))
            && -1 <= p.command < |es| && -1 <= p.read < |es| && -1 <= p.off < |es|
            && (p.command == -1 ==> p.asked == enabled)
    decreases |es|
  {
    hide Apply, Enabled, IsRun, End;
    var n := |es| - 1;
    RunPrefix(Initial(enabled), es, n);
    RunPrefix(Initial(enabled), es, k);
    var front := es[..n];
    if k < n {
      PastIsTheRun(enabled, front, k);
      assert front[..k] == es[..k];
    } else if n > 0 {
      PastIsTheRun(enabled, front, n - 1);
    }
  }

  /** How the worker stands to its past. */
  predicate PastInv(w: Worker, p: Past, n: nat) {
    && -1 <= p.command < n && -1 <= p.read < n && -1 <= p.off < n
    && (p.command == p.read ==> p.command == -1)
    && (w.ctl.generation != w.ctl.snapshot <==> p.command > p.read)
    && (w.ctl.desired ==> p.asked)
    && (p.asked && !w.ctl.desired ==>
          && (w.pc.LoopTop? || w.pc.Idle? || w.pc.Finished?)
          && w.ctl.failures >= CEILING && p.off > p.command && p.off > p.read)
    && (p.off > p.command ==> !w.ctl.desired && (w.pc.LoopTop? || w.pc.Idle? || w.pc.Finished?))
    && (!p.asked && p.command == -1 ==> w.pc.LoopTop? || w.pc.Idle? || w.pc.Finished?)
    && (!w.ctl.desired && w.pc.Snapshot? ==> p.at.Snapshot?)
    && (!w.ctl.desired && (w.pc.Starting? || w.pc.Recording? || w.pc.Watching? || w.pc.Checking?) && p.command < p.read ==>
          p.at.Snapshot?)
  }

  lemma AdvancePast(w: Worker, p: Past, n: nat)
    requires WakeInv(w) && CanAdvance(w) && PastInv(w, p, n)
    ensures PastInv(Advance(w), Note(w, Go, n, p), n + 1)
  {
  }

  lemma StepPast(w: Worker, e: Event, p: Past, n: nat)
    requires WakeInv(w) && Enabled(w, e) && PastInv(w, p, n)
    ensures PastInv(Apply(w, e), Note(w, e, n, p), n + 1)
  {
    if e == Go { AdvancePast(w, p, n); }
  }

  lemma {:induction false} RunPast(enabled: bool, es: seq<Event>)
    requires IsRun(Initial(enabled), es)
    ensures PastInv(End(Initial(enabled), es), PastOf(enabled, es), |es|)
    decreases |es|
  {
    if es != [] {
      var n := |es| - 1;
      RunPrefix(Initial(enabled), es, n);
      RunPast(enabled, es[..n]);
      InitialInv(enabled);
      RunInv(Initial(enabled), es[..n]);
      StepPast(End(Initial(enabled), es[..n]), es[n], PastOf(enabled, es[..n]), n);
      assert es[..n + 1] == es;
    }
  }

  /** Where the loop was before event `k`. */
  function PcBefore(enabled: bool, es: seq<Event>, k: nat): Pc
    requires IsRun(Initial(enabled), es) && k < |es|
  {
    RunPrefix(Initial(enabled), es, k);
    End(Initial(enabled), es[..k]).pc
  }

  /** The last command of the run is a stop, given between shouldRun and the generation read. */
  ghost predicate StopsInTheGap(enabled: bool, es: seq<Event>)
    requires IsRun(Initial(enabled), es)
  {
    exists k :: 0 <= k < |es| && es[k] == Command(false) && PcBefore(enabled, es, k).Snapshot? &&
                forall j | k < j < |es| :: !es[j].Command?
  }

  lemma GapIsInThePast(enabled: bool, es: seq<Event>)
    requires IsRun(Initial(enabled), es)
    ensures var p := PastOf(enabled, es);
            StopsInTheGap(enabled, es) <==> p.command >= 0 && !p.asked && p.at.Snapshot?
  {
    var p := PastOf(enabled, es);
    forall k | 0 <= k < |es| ensures es[k].Command? ==> k <= p.command {
      PastIsTheRun(enabled, es, k);
    }
    RunPast(enabled, es);
    if p.command >= 0 { PastIsTheRun(enabled, es, p.command); }
    if StopsInTheGap(enabled, es) {
      var k :| 0 <= k < |es| && es[k] == Command(false) && PcBefore(enabled, es, k).Snapshot? &&
               forall j | k < j < |es| :: !es[j].Command?;
      assert k <= p.command;
    }
  }

  /** When is the last command obeyed? A worker that settles on watching a child was told to run,
      unless, and exactly if, the last command was a stop between shouldRun and the generation
      read. A worker that was told to run settles idle exactly if it was switched off after that
      command, at the ceiling; the command was newer than the launch that failed exactly if it
      came after the last generation read. */
  lemma SettledObeysOrLost(enabled: bool, es: seq<Event>)
    requires IsRun(Initial(enabled), es)
    ensures var w, p := End(Initial(enabled), es), PastOf(enabled, es);
            && (w.pc.Watching? && !w.ctl.wake ==> (p.asked <==> !StopsInTheGap(enabled, es)))
            && ((w.pc.Watching? || w.pc.Idle?) && !w.ctl.wake && p.asked ==> (w.pc.Idle? <==> p.command < p.off))
            && (w.pc.Idle? && !w.ctl.wake && p.asked ==>
                  && w.ctl.failures >= CEILING && p.read < p.off
                  && (w.ctl.generation != w.ctl.snapshot <==> p.read < p.command))
  {
    RunPast(enabled, es);
    GapIsInThePast(enabled, es);
    InitialInv(enabled);
    RunInv(Initial(enabled), es);
  }

  lemma Extend(w: Worker, es: seq<Event>, e: Event) returns (es': seq<Event>)
    requires IsRun(w, es) && Enabled(End(w, es), e)
    ensures es' == es + [e]
    ensures IsRun(w, es') && End(w, es') == Apply(End(w, es), e)
    ensures Launches(es') == Launches(es) + Launches([e]) && LongLives(es') == LongLives(es) + LongLives([e])
    ensures QuietStretch(es') <==> QuietStretch(es) && Quiet(e)
  {
    var w1 := Apply(End(w, es), e);
    assert [e][1..] == [];
    assert IsRun(w1, []);
    RunAppend(w, es, [e]);
    LaunchesAppend(es, [e]);
    LongLivesAppend(es, [e]);
    es' := es + [e];
    assert es'[|es|] == e;
    assert forall i | 0 <= i < |es| :: es'[i] == es[i];
  }

  /** Extends a run from the start and follows what the last command asked for. */
  lemma Follow(enabled: bool, es: seq<Event>, e: Event) returns (es': seq<Event>)
    requires IsRun(Initial(enabled), es) && Enabled(End(Initial(enabled), es), e)
    ensures IsRun(Initial(enabled), es') && End(Initial(enabled), es') == Apply(End(Initial(enabled), es), e)
    ensures PastOf(enabled, es').asked == if e.Command? then e.on else PastOf(enabled, es).asked
  {
    es' := Extend(Initial(enabled), es, e);
    assert es'[..|es|] == es;
  }

  /** A stop between shouldRun and the generation read is lost: the child is started and
      watched, no token is left, and nothing will stop it. */
  lemma StopInTheGapIsMissed() returns (es: seq<Event>)
    ensures IsRun(Initial(true), es)
    ensures var w := End(Initial(true), es);
            w.pc.Watching? && !w.ctl.wake && !PastOf(true, es).asked && w.proc.live != {}
  {
    hide PastOf, IsRun, End;
    EmptyRun(true);
    es := Follow(true, [], Go);
    es := Follow(true, es, Command(false));
    es := Follow(true, es, Go);
    es := Follow(true, es, StartOk(1));
    es := Follow(true, es, Go);
    es := Follow(true, es, OnWake);
    es := Follow(true, es, Go);
    assert 1 in End(Initial(true), es).proc.live;
  }

  lemma EmptyRun(enabled: bool)
    ensures IsRun(Initial(enabled), []) && End(Initial(enabled), []) == Initial(enabled)
  {
  }

  /** A start that lands while the sixth failed launch is being counted is overridden:
      the worker settles idle although the last command told it to run. */
  lemma StartBeforeDisablingIsDropped() returns (es: seq<Event>)
    ensures IsRun(Initial(true), es)
    ensures var w, p := End(Initial(true), es), PastOf(true, es);
            w.pc.Idle? && !w.ctl.wake && p.asked && p.read < p.command < p.off
  {
    hide PastOf, IsRun, End;
    EmptyRun(true);
    es := FailUntil(Initial(true), [], 5);
    es := FailOnce(Initial(true), es);
    es := Follow(true, es, Command(true));
    es := Follow(true, es, Go);
    es := Follow(true, es, Go);
    es := Follow(true, es, Go);
    es := Follow(true, es, OnWake);
    es := Follow(true, es, Go);
    RunPast(true, es);
    RunInv(Initial(true), es);
  }

  // ----- Restart ceiling -----

  /** A call of launch: a process start is attempted. */
  predicate IsLaunch(e: Event) {
    e.StartOk? || e.StartFail?
  }

  function Launches(es: seq<Event>): nat {
    if es == [] then 0 else (if IsLaunch(es[0]) then 1 else 0) + Launches(es[1..])
  }

  lemma {:induction false} LaunchesAppend(a: seq<Event>, b: seq<Event>)
    ensures Launches(a + b) == Launches(a) + Launches(b)
  {
    if a == [] {
      assert a + b == b;
    } else {
      LaunchesAppend(a[1..], b);
      assert (a + b)[1..] == a[1..] + b;
    }
  }

  /** How often a process lived over two minutes before it exited. */
  function LongLives(es: seq<Event>): nat {
    if es == [] then 0 else (if es[0] == Count(true) then 1 else 0) + LongLives(es[1..])
  }

  lemma {:induction false} LongLivesAppend(a: seq<Event>, b: seq<Event>)
    ensures LongLives(a + b) == LongLives(a) + LongLives(b)
  {
    if a == [] {
      assert a + b == b;
    } else {
      LongLivesAppend(a[1..], b);
      assert (a + b)[1..] == a[1..] + b;
    }
  }

  /** No command to the component. */
  predicate Quiet(e: Event) {
    !e.Command?
  }

  predicate QuietStretch(es: seq<Event>) {
    forall i | 0 <= i < |es| :: Quiet(es[i])
  }

  /** Launches left when `failures` have been counted and the worker is asked to run. */
  function Left(failures: nat): nat {
    if failures >= CEILING then 1 else CEILING - failures
  }

  /** Launches left once one more failure is counted. */
  function LeftAfter(failures: nat): nat {
    if failures + 1 >= CEILING then 0 else CEILING - (failures + 1)
  }

  /** The launches that can still happen before the next command. */
  function Budget(w: Worker): nat {
    match w.pc
    case LoopTop | BackingOff => if w.ctl.desired then Left(w.ctl.failures) else 0
    case Idle => if w.ctl.wake && w.ctl.desired then Left(w.ctl.failures) else 0
    case Snapshot => if w.ctl.desired then Left(w.ctl.failures) else 1
    case Starting =>
      if !w.ctl.desired then 1 else if w.ctl.generation == w.ctl.snapshot then Left(w.ctl.failures) else 1 + CEILING
    case Recording | Watching | Checking | Clearing | Comparing =>
      if !w.ctl.desired then 0 else if w.ctl.generation == w.ctl.snapshot then LeftAfter(w.ctl.failures) else CEILING
    case Stopping => if w.ctl.desired then CEILING else 0
    case Leaving => 0
    case Counting | LaunchFailed => if w.ctl.desired then LeftAfter(w.ctl.failures) else 0
    case Disabling | DisablingLaunch => 0
    case Finished => 0
  }

  lemma AdvanceBudget(w: Worker)
    requires WakeInv(w) && CanAdvance(w)
    ensures Budget(Advance(w)) <= Budget(w)
  {
  }

  lemma StepBudget(w: Worker, e: Event)
    requires WakeInv(w) && Enabled(w, e) && Quiet(e)
    ensures Budget(Apply(w, e)) + Launches([e]) <= Budget(w) + 5 * LongLives([e])
  {
    assert [e][1..] == [];
    if e == Go { AdvanceBudget(w); }
  }

  /** Between the generation read and the process start, with a newer command pending:
      the launch under way does not count against the ceiling. */
  predicate InGap(w: Worker) {
    w.pc.Starting? && w.ctl.generation != w.ctl.snapshot && w.ctl.desired
  }

  /** Launches of a quiet stretch plus those still possible after it never exceed those
      possible before it and five for every long life in it. */
  lemma {:induction false} StretchBound(w: Worker, es: seq<Event>)
    requires WakeInv(w) && IsRun(w, es) && QuietStretch(es)
    ensures Launches(es) + Budget(End(w, es)) <= Budget(w) + 5 * LongLives(es)
    decreases |es|
  {
    if es != [] {
      assert Quiet(es[0]);
      StepBudget(w, es[0]);
      StepWake(w, es[0]);
      StretchBound(Apply(w, es[0]), es[1..]);
      LaunchesAppend([es[0]], es[1..]);
      LongLivesAppend([es[0]], es[1..]);
      assert [es[0]] + es[1..] == es;
    }
  }

  /** One more failing launch from the top of the loop, up to where it is counted. */
  lemma FailOnce(w: Worker, es: seq<Event>) returns (es': seq<Event>)
    requires IsRun(w, es)
    requires var m := End(w, es); m.pc.LoopTop? && m.ctl.desired
    ensures IsRun(w, es') && Launches(es') == Launches(es) + 1 && LongLives(es') == LongLives(es)
    ensures QuietStretch(es) ==> QuietStretch(es')
    ensures var m := End(w, es);
            End(w, es') == m.(pc := LaunchFailed, ctl := m.ctl.(snapshot := m.ctl.generation))
  {
    es' := Extend(w, es, Go);
    es' := Extend(w, es', Go);
    es' := Extend(w, es', StartFail);
  }

  /** Failing launches until `n` failures have been counted. */
  lemma FailUntil(w: Worker, es: seq<Event>, n: nat) returns (es': seq<Event>)
    requires IsRun(w, es)
    requires var m := End(w, es); m.pc.LoopTop? && m.ctl.desired && m.ctl.failures <= n < CEILING
    ensures IsRun(w, es') && Launches(es') == Launches(es) + (n - End(w, es).ctl.failures) && LongLives(es') == LongLives(es)
    ensures QuietStretch(es) ==> QuietStretch(es')
    ensures var m, m' := End(w, es), End(w, es');
            m'.pc.LoopTop? && m'.ctl.desired && m'.ctl.failures == n && m'.ctl.wake == m.ctl.wake && m'.cancelled == m.cancelled
    decreases n - End(w, es).ctl.failures
  {
    var m := End(w, es);
    if m.ctl.failures == n {
      es' := es;
    } else {
      es' := FailOnce(w, es);
      es' := Extend(w, es', Go);
      es' := Extend(w, es', OnTimer);
      es' := FailUntil(w, es', n);
    }
  }

  /** From the gap, the launch under way is served and then stopped for the newer command. */
  lemma GapStops(w: Worker) returns (es: seq<Event>)
    requires Inv(w) && InGap(w) && !w.cancelled
    ensures IsRun(w, es) && QuietStretch(es) && Launches(es) == 1 && LongLives(es) == 0
    ensures var m := End(w, es);
            m.pc.Stopping? && m.proc.child in m.proc.live && m.ctl.desired && m.ctl.generation != m.ctl.snapshot && !m.cancelled
  {
    es := Extend(w, [], StartOk(w.proc.child + 1));
    es := Extend(w, es, Go);
    es := Extend(w, es, OnWake);
    es := Extend(w, es, Go);
  }

  /** Noticing a newer command clears the failure count. */
  lemma GapClearsFailures(w: Worker) returns (es: seq<Event>)
    requires Inv(w) && InGap(w) && !w.cancelled
    ensures IsRun(w, es) && QuietStretch(es) && Launches(es) == 1 && LongLives(es) == 0
    ensures var m := End(w, es); m.pc.LoopTop? && m.ctl.desired && m.ctl.failures == 0 && !m.cancelled
  {
    es := GapStops(w);
    es := Extend(w, es, ChildExit);
    es := Extend(w, es, Go);
    es := Extend(w, es, Go);
    es := Extend(w, es, Go);
  }

  /** A launch whose process lives long and exits: the next one has one failure behind it. */
  lemma LiveLong(w: Worker, es: seq<Event>) returns (es': seq<Event>)
    requires IsRun(w, es) && Inv(End(w, es))
    requires var m := End(w, es); m.pc.LoopTop? && m.ctl.desired && !m.cancelled
    ensures IsRun(w, es') && Launches(es') == Launches(es) + 1 && LongLives(es') == LongLives(es) + 1
    ensures QuietStretch(es) ==> QuietStretch(es')
    ensures var m := End(w, es'); Inv(m) && m.pc.LoopTop? && m.ctl.desired && m.ctl.failures == 1 && !m.cancelled
  {
    es' := LaunchAndExit(w, es);
    es' := CountLong(w, es');
  }

  lemma LaunchAndExit(w: Worker, es: seq<Event>) returns (es': seq<Event>)
    requires IsRun(w, es) && Inv(End(w, es))
    requires var m := End(w, es); m.pc.LoopTop? && m.ctl.desired && !m.cancelled
    ensures IsRun(w, es') && Launches(es') == Launches(es) + 1 && LongLives(es') == LongLives(es)
    ensures QuietStretch(es) ==> QuietStretch(es')
    ensures var m := End(w, es');
            m.pc.Clearing? && m.ctl.desired && m.ctl.generation == m.ctl.snapshot && m.proc.live == {} && !m.cancelled
  {
    hide IsRun, End, QuietStretch;
    es' := Extend(w, es, Go);
    es' := Extend(w, es', Go);
    es' := Extend(w, es', StartOk(1));
    es' := Extend(w, es', Go);
    es' := Extend(w, es', ChildExit);
    es' := Extend(w, es', OnExit);
  }

  lemma CountLong(w: Worker, es: seq<Event>) returns (es': seq<Event>)
    requires IsRun(w, es)
    requires var m := End(w, es); m.pc.Clearing? && m.ctl.desired && m.ctl.generation == m.ctl.snapshot && m.proc.live == {}
    ensures IsRun(w, es') && Launches(es') == Launches(es) && LongLives(es') == LongLives(es) + 1
    ensures QuietStretch(es) ==> QuietStretch(es')
    ensures var m, m' := End(w, es), End(w, es');
            Inv(m') && m'.pc.LoopTop? && m'.ctl.desired && m'.ctl.failures == 1 && m'.cancelled == m.cancelled
  {
    hide IsRun, End, QuietStretch;
    es' := Extend(w, es, Go);
    es' := Extend(w, es', Go);
    es' := Extend(w, es', Count(true));
    es' := Extend(w, es', OnTimer);
  }

  /** Failing up to the brink, and back from it `k` times by a long life. */
  lemma {:induction false} LiveOnTheBrink(w: Worker, es: seq<Event>, k: nat) returns (es': seq<Event>)
    requires IsRun(w, es) && Inv(w) && QuietStretch(es)
    requires var m := End(w, es); m.pc.LoopTop? && m.ctl.desired && m.ctl.failures == 0 && !m.cancelled
    ensures IsRun(w, es') && Launches(es') == Launches(es) + 5 + 5 * k && LongLives(es') == LongLives(es) + k
    ensures QuietStretch(es')
    ensures var m := End(w, es'); m.pc.LoopTop? && m.ctl.desired && m.ctl.failures == 5 && !m.cancelled
    decreases k
  {
    if k == 0 {
      es' := FailUntil(w, es, 5);
    } else {
      es' := LiveOnTheBrink(w, es, k - 1);
      RunInv(w, es');
      es' := LiveLong(w, es');
      es' := FailUntil(w, es', 5);
    }
  }

  /** From every state in the gap a stretch with `k` long lives can launch once more than the rest. */
  lemma GapReachesOneMore(w: Worker, k: nat) returns (es: seq<Event>)
    requires Inv(w) && InGap(w) && !w.cancelled
    ensures IsRun(w, es) && QuietStretch(es) && LongLives(es) == k && Launches(es) == CEILING + 5 * k + 1
  {
    es := GapClearsFailures(w);
    es := LiveOnTheBrink(w, es, k);
    es := FailOnce(w, es);
  }

  /** The ceiling, exactly: from a reachable state of an uncancelled supervisor every stretch
      without a command in which `k` processes live long launches at most six times, and five
      times more for each of them, if and only if the state is not in the gap. */
  lemma RestartCeiling(enabled: bool, past: seq<Event>, k: nat)
    requires IsRun(Initial(enabled), past)
    requires !End(Initial(enabled), past).cancelled
    ensures var w := End(Initial(enabled), past);
            (forall es | IsRun(w, es) && QuietStretch(es) && LongLives(es) == k :: Launches(es) <= 6 + 5 * k) <==> !InGap(w)
  {
    InitialInv(enabled);
    RunInv(Initial(enabled), past);
    var w := End(Initial(enabled), past);
    if InGap(w) {
      var es := GapReachesOneMore(w, k);
      assert IsRun(w, es) && QuietStretch(es) && LongLives(es) == k && Launches(es) > 6 + 5 * k;
    } else {
      forall es | IsRun(w, es) && QuietStretch(es) && LongLives(es) == k
        ensures Launches(es) <= 6 + 5 * k
      {
        StretchBound(w, es);
      }
    }
  }

  /** The ceiling is reached, for every number of long lives. */
  lemma CeilingIsReached(k: nat) returns (es: seq<Event>)
    ensures IsRun(Initial(true), es) && QuietStretch(es) && LongLives(es) == k && Launches(es) == 6 + 5 * k
  {
    EmptyRun(true);
    InitialInv(true);
    es := LiveOnTheBrink(Initial(true), [], k);
    es := FailOnce(Initial(true), es);
  }

  /** Switched off, or about to be. */
  predicate Off(w: Worker) {
    w.pc.Disabling? || w.pc.DisablingLaunch? || ((w.pc.LoopTop? || w.pc.Idle?) && !w.ctl.desired) || w.pc.Finished?
  }

  /** A worker that has been switched off launches nothing until a command. */
  lemma {:induction false} SwitchedOffStaysOff(w: Worker, es: seq<Event>)
    requires IsRun(w, es) && QuietStretch(es) && Off(w)
    ensures Launches(es) == 0 && Off(End(w, es))
    decreases |es|
  {
    if es != [] {
      assert Quiet(es[0]);
      SwitchedOffStaysOff(Apply(w, es[0]), es[1..]);
    }
  }

  // ----- What switches a worker off -----

  /** An exit or a failed start that is counted. */
  predicate Counted(w: Worker, e: Event) {
    e.Count? || (e.Go? && w.pc.LaunchFailed?)
  }

  /** A newer command is noticed once the child is gone. */
  predicate Noticed(w: Worker, e: Event) {
    e.Go? && w.pc.Comparing? && w.ctl.generation != w.ctl.snapshot
  }

  /** How many exits and failed starts are counted from event `j` on. */
  function CountedFrom(w: Worker, es: seq<Event>, j: nat): nat
    requires IsRun(w, es) && j <= |es|
    decreases |es|
  {
    if j == |es| then 0
    else
      var n := |es| - 1;
      RunPrefix(w, es, n);
      CountedFrom(w, es[..n], j) + if Counted(End(w, es[..n]), es[n]) then 1 else 0
  }

  /** From event `j` on no newer command is noticed, and only event `j` may be a long life. */
  predicate Unbroken(w: Worker, es: seq<Event>, j: nat)
    requires IsRun(w, es) && j <= |es|
    decreases |es|
  {
    j == |es| ||
    var n := |es| - 1;
    RunPrefix(w, es, n);
    Unbroken(w, es[..n], j) && !Noticed(End(w, es[..n]), es[n]) && (es[n] == Count(true) ==> n == j)
  }

  lemma {:induction false} FailuresAreAStreak(w: Worker, es: seq<Event>) returns (j: nat)
    requires IsRun(w, es) && w.ctl.failures == 0
    ensures j <= |es| && Unbroken(w, es, j) && End(w, es).ctl.failures == CountedFrom(w, es, j)
    decreases |es|
  {
    j := |es|;
    if es != [] {
      var n := |es| - 1;
      RunPrefix(w, es, n);
      assert es[..n + 1] == es;
      if es[n] == Count(true) {
        j := n;
        assert Unbroken(w, es[..n], n) && CountedFrom(w, es[..n], n) == 0;
      } else if !Noticed(End(w, es[..n]), es[n]) {
        j := FailuresAreAStreak(w, es[..n]);
      }
    }
  }

  lemma {:induction false} StreakIsCounted(w: Worker, es: seq<Event>, j: nat)
    requires IsRun(w, es) && j <= |es| && Unbroken(w, es, j)
    ensures CountedFrom(w, es, j) <= End(w, es).ctl.failures
    decreases |es|
  {
    if j < |es| {
      var n := |es| - 1;
      RunPrefix(w, es, n);
      assert es[..n + 1] == es;
      StreakIsCounted(w, es[..n], j);
    }
  }

  /** Once an exit or a failed start has been counted, the worker is about to be switched off if
      and only if six or more have been, of which only the first may have been a long life, and
      no newer command has been noticed since that first one. */
  lemma SwitchedOffAfterSix(enabled: bool, es: seq<Event>)
    requires IsRun(Initial(enabled), es) && es != []
    requires IsRun(Initial(enabled), es[..|es| - 1]) && Counted(End(Initial(enabled), es[..|es| - 1]), es[|es| - 1])
    ensures var w := End(Initial(enabled), es);
            w.pc.Disabling? || w.pc.DisablingLaunch? <==>
            exists j | 0 <= j <= |es| :: Unbroken(Initial(enabled), es, j) && CountedFrom(Initial(enabled), es, j) >= 6
  {
    var w := Initial(enabled);
    RunPrefix(w, es, |es| - 1);
    assert es[..|es|] == es;
    var j := FailuresAreAStreak(w, es);
    forall i | 0 <= i <= |es| && Unbroken(w, es, i) ensures CountedFrom(w, es, i) <= End(w, es).ctl.failures {
      StreakIsCounted(w, es, i);
    }
  }

  // ----- Shutdown -----

  /** What a cancelled loop does next, if no start works and nothing else happens. */
  function WayOut(w: Worker): Event {
    match w.pc
    case Idle | BackingOff | Watching => OnCancel
    case Starting => StartFail
    case Counting => Count(false)
    case Stopping | Leaving => if w.proc.child in w.proc.live then ChildExit else Go
    case _ => Go
  }

  function StepsOut(w: Worker): nat {
    match w.pc
    case Finished => 0
    case Idle | BackingOff | DisablingLaunch => 1
    case Leaving => if w.proc.child in w.proc.live then 2 else 1
    case LaunchFailed => 2
    case Watching | Starting => 3
    case Recording | Snapshot => 4
    case LoopTop => 5
    case Disabling => 6
    case Counting => 7
    case Comparing => 8
    case Clearing => 9
    case Stopping => if w.proc.child in w.proc.live then 11 else 10
    case Checking => 12
  }

  /** From every state of a cancelled supervisor the loop can return, within twelve steps and
      whatever the pending commands are; nothing it waits for can fail to come. */
  lemma {:induction false} ShutdownCompletes(w: Worker) returns (es: seq<Event>)
    requires Inv(w) && w.cancelled
    ensures IsRun(w, es) && QuietStretch(es) && |es| <= 12
    ensures End(w, es).pc.Finished? && End(w, es).proc.live == {}
  {
    es := FindWayOut(w);
    RunInv(w, es);
  }

  lemma TakeWayOut(w: Worker)
    requires Inv(w) && w.cancelled && !w.pc.Finished?
    ensures var e := WayOut(w);
            && Enabled(w, e) && !e.Command?
            && Inv(Apply(w, e)) && Apply(w, e).cancelled && StepsOut(Apply(w, e)) < StepsOut(w)
  {
    StepInv(w, WayOut(w));
  }

  lemma {:induction false} FindWayOut(w: Worker) returns (es: seq<Event>)
    requires Inv(w) && w.cancelled
    ensures IsRun(w, es) && QuietStretch(es) && |es| <= StepsOut(w)
    ensures End(w, es).pc.Finished?
    decreases StepsOut(w)
  {
    es := [];
    if !w.pc.Finished? {
      TakeWayOut(w);
      var rest := FindWayOut(Apply(w, WayOut(w)));
      hide Apply, Enabled, WayOut, Inv;
      es := [WayOut(w)] + rest;
      assert es[0] == WayOut(w) && es[1..] == rest;
      assert forall i | 0 < i < |es| :: es[i] == rest[i - 1];
    }
  }

  // ----- Back-off -----

  function Pow2(n: nat): nat {
    if n == 0 then 1 else 2 * Pow2(n - 1)
  }

  /** The delay after `failures` failures, in milliseconds. */
  function Backoff(failures: nat): (d: nat)
    requires failures >= 1
  {
    var d := 250 * Pow2(if failures - 1 < 7 then failures - 1 else 7);
    if d > 30000 then 30000 else d
  }

  lemma {:induction false} Pow2Monotone(m: nat, n: nat)
    requires m <= n
    ensures 1 <= Pow2(m) <= Pow2(n)
    decreases n
  {
    if m < n {
      Pow2Monotone(m, n - 1);
    } else if n > 0 {
      Pow2Monotone(m - 1, n - 1);
    }
  }

  /** Delays never shrink as failures grow and never exceed 30 seconds. */
  lemma BackoffMonotone(m: nat, n: nat)
    requires 1 <= m <= n
    ensures 250 <= Backoff(m) <= Backoff(n) <= 30000
  {
    Pow2Monotone(0, if m - 1 < 7 then m - 1 else 7);
    Pow2Monotone(if m - 1 < 7 then m - 1 else 7, if n - 1 < 7 then n - 1 else 7);
  }

  /** The first delay is a quarter of a second, and each is twice the one before, up to 30 seconds. */
  lemma BackoffDoubles(n: nat)
    requires n >= 1
    ensures Backoff(1) == 250
    ensures Backoff(n + 1) == if 2 * Backoff(n) > 30000 then 30000 else 2 * Backoff(n)
  {
    assert Pow2(0) == 1 && Pow2(4) == 16 && Pow2(6) == 4 * Pow2(4) && Pow2(7) == 128;
  }

  /** The loop only ever waits with fewer than six failures, so never over 4 seconds. */
  lemma BackoffInTheLoop(enabled: bool, es: seq<Event>)
    requires IsRun(Initial(enabled), es)
    requires End(Initial(enabled), es).pc.BackingOff?
    ensures 1 <= End(Initial(enabled), es).ctl.failures
    ensures Backoff(End(Initial(enabled), es).ctl.failures) <= 4000
  {
    InitialInv(enabled);
    RunInv(Initial(enabled), es);
    BackoffMonotone(End(Initial(enabled), es).ctl.failures, 5);
    assert Pow2(4) == 16;
  }
}
