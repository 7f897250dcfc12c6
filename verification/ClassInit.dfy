/**
  Class verification and initialisation as a transition system (runtime/class_linker.cc).

  `InitializeClass`, `WaitForInitializeClass` and `VerifyClass` are cut at every point where
  another thread can run: each unlocked read, each acquisition of a class's monitor and each
  call.  A thread is a stack of frames, and a frame is an activation of one of those functions
  stopped at a program counter.  Monitors are re-entrant; who holds one is read off the frames.

  At compile time an initialisation may run in a transaction (compiler/driver/compiler_driver.cc,
  runtime/transaction.cc): every write to a class is logged, and undone if it fails.
*/
module ClassInit {
  import opened Options

  // ---------- Class status (runtime/mirror/class.h) ----------

  type Status = x: int | -1 <= x <= 9

  const ERROR: Status := -1
  const RESOLVED: Status := 3
  const VERIFYING: Status := 4
  const RETRY: Status := 5                 // RetryVerificationAtRuntime
  const VERIFYING_AT_RUNTIME: Status := 6
  const VERIFIED: Status := 7
  const INITIALIZING: Status := 8
  const INITIALIZED: Status := 9

  // ---------- The classes being initialised ----------

  /** What linking fixed about a class.  `hasStaticValues` says that the class has static fields
      and its definition carries encoded values for them. */
  datatype ClassInfo = ClassInfo(super: Option<nat>, isInterface: bool, hasClinit: bool, hasStaticValues: bool)

  datatype World = World(infos: seq<ClassInfo>, isCompiler: bool, verificationEnabled: bool) {
    /** Superclasses are linked before their subclasses, and linking rejects an interface as
        a superclass. */
    ghost predicate Valid() {
      forall c :: 0 <= c < |infos| && infos[c].super.Some? ==>
        infos[c].super.value < c && !infos[infos[c].super.value].isInterface
    }

    /** The superclass whose initialisation precedes that of `c`, if there is one. */
    predicate HasInitSuper(c: nat)
      requires c < |infos|
    {
      !infos[c].isInterface && infos[c].super.Some?
    }
  }

  /** The mutable part of a class: its status, the thread recorded as running its initialiser,
      and how often its `<clinit>` has been started, other than in transactions that were undone. */
  datatype Class = Class(status: Status, owner: Option<nat>, runs: nat)

  // ---------- Frames ----------

  /** Where an activation of `InitializeClass` stands.  `Await...` frames wait for the frame
      above them to return; `thrown` says whether that left an exception pending. */
  datatype InitPc =
    | Enter | Eligible | Lock | Locked | AwaitVerify | AfterVerify(thrown: bool) | Claim | Wait
    | Super | AwaitSuper | SuperFailed(thrown: bool) | Clinit | Running | Finish(threw: bool)

  /** Where an activation of `VerifyClass` stands. */
  datatype VerifyPc = VEnter | VLocked | VSuperLock | VSuperHeld | VAwait | VSuperChecked | VBody

  datatype Frame =
    | Init(cls: nat, pc: InitPc, statics: bool, parents: bool)
    | Verify(cls: nat, vpc: VerifyPc)

  /** The CHECKs and FATALs that would abort the process. */
  datatype Site =
    | VerifyState        // VerifyClass: neither Resolved nor, at runtime, Retry
    | SuperNotRetry      // VerifyClass: unverified superclass is not in Retry
    | VerifyOutcome      // InitializeClass: unverified class neither Error nor compile-time Retry
    | ClaimState         // InitializeClass: about to initialise a class that is not Verified
    | ParentsForbidden   // InitializeClass: superclass needs initialising, not allowed
    | SuperNotErroneous  // InitializeClass: superclass failed without becoming Error and throwing
    | StaticsForbidden   // InitializeClass: <clinit> or static values, not allowed
    | WaitState          // WaitForInitializeClass: unexpected status after waking
    | VerifyNotThrown    // InitializeClass: verification left Error without an exception
    | NoException        // EnsureInitialized: failed without an exception, nothing being forbidden
    | StatusBack         // SetStatus: not upwards, or Error for a class that is Error already

  /** A transaction of a thread, with the old values of the classes written since it began. */
  datatype Transaction = Transaction(thread: nat, log: map<nat, Class>)

  datatype State = State(classes: seq<Class>, stacks: seq<seq<Frame>>, tx: Option<Transaction>, aborted: Option<Site>)

  // ---------- Environment ----------

  /** What the bytecode verifier (or the oat file) said about a class. */
  datatype Verdict = OatRejected | NoFailure | SoftFailure | HardFailure

  /** What a thread may ask for: `EnsureInitialized`, `VerifyClass` as the compiler calls it, or
      `EnsureInitialized` in a transaction. */
  datatype Request =
    | Ensure(cls: nat, statics: bool, parents: bool)
    | VerifyOnly(cls: nat)
    | Transact(cls: nat)

  /** How a call ends: `Quiet` is a result of false without a pending exception. */
  datatype Result = Done | Thrown | Quiet

  /** Everything a step leaves to the environment: a boolean outcome (superclass descriptors
      validate, `<clinit>` completes normally), a class that Java code wants initialised next,
      and the verifier's verdict.  A step ignores what it does not need. */
  datatype Choice = Choice(flag: bool, call: Option<Request>, verdict: Verdict)

  datatype Event =
    | Silent
    | Started(cls: nat)
    | Returned(cls: nat, result: Result, statics: bool, parents: bool)
    | VerifyReturned(cls: nat, thrown: bool)
    | RolledBack(cls: nat)
    | Abort(site: Site)

  datatype Outcome = Outcome(state: State, event: Event)

  // ---------- Monitors ----------

  predicate InitHolds(pc: InitPc) {
    pc.Locked? || pc.AwaitVerify? || pc.AfterVerify? || pc.Claim?
  }

  predicate SuperHeld(pc: VerifyPc) {
    pc.VSuperHeld? || pc.VAwait? || pc.VSuperChecked?
  }

  /** Frame `f` keeps the monitor of class `c` locked. */
  predicate Holds(w: World, f: Frame, c: nat) {
    match f
    case Init(k, pc, _, _) => k == c && InitHolds(pc)
    case Verify(k, pc) =>
      (k == c && !pc.VEnter?) || (SuperHeld(pc) && k < |w.infos| && w.infos[k].super == Some(c))
  }

  /** No thread other than `t` holds the monitor of `c`. */
  predicate LockFree(w: World, s: State, t: nat, c: nat) {
    forall u, j :: 0 <= u < |s.stacks| && u != t && 0 <= j < |s.stacks[u]| ==> !Holds(w, s.stacks[u][j], c)
  }

  // ---------- Well-formed states ----------

  predicate FrameWf(w: World, f: Frame) {
    f.cls < |w.infos| &&
    match f
    case Init(c, pc, _, _) => (pc.AwaitSuper? || pc.SuperFailed?) ==> w.HasInitSuper(c)
    case Verify(c, pc) => (SuperHeld(pc) || pc.VSuperLock?) ==> w.infos[c].super.Some?
  }

  ghost predicate Wf(w: World, s: State) {
    && w.Valid()
    && |s.classes| == |w.infos|
    && forall t, i :: 0 <= t < |s.stacks| && 0 <= i < |s.stacks[t]| ==> FrameWf(w, s.stacks[t][i])
  }

  // ---------- CanWeInitializeClass ----------

  predicate CanInitialize(w: World, classes: seq<Class>, c: nat, statics: bool, parents: bool)
    requires w.Valid() && |classes| == |w.infos| && c < |w.infos|
    decreases c
  {
    if statics && parents then true
    else if !statics && (w.infos[c].hasClinit || w.infos[c].hasStaticValues) then false
    else if w.HasInitSuper(c) then
      var super := w.infos[c].super.value;
      if !parents && classes[super].status != INITIALIZED then false
      else CanInitialize(w, classes, super, statics, parents)
    else true
  }

  // ---------- Stack and class updates ----------

  function Goto(s: State, t: nat, f: Frame): State
    requires t < |s.stacks| && s.stacks[t] != []
  {
    s.(stacks := s.stacks[t := s.stacks[t][..|s.stacks[t]| - 1] + [f]])
  }

  function Call(s: State, t: nat, f: Frame, callee: Frame): State
    requires t < |s.stacks| && s.stacks[t] != []
  {
    s.(stacks := s.stacks[t := s.stacks[t][..|s.stacks[t]| - 1] + [f, callee]])
  }

  /** How a caller resumes once its callee has returned `result`. */
  function Resume(f: Frame, result: Result): Frame {
    match f
    case Init(_, pc, _, _) =>
      if pc.AwaitSuper? then f.(pc := if result.Done? then Clinit else SuperFailed(result.Thrown?))
      else if pc.AwaitVerify? then f.(pc := AfterVerify(result.Thrown?))
      else f
    case Verify(_, pc) => if pc.VAwait? then f.(vpc := VSuperChecked) else f
  }

  function Return(s: State, t: nat, result: Result): State
    requires t < |s.stacks| && s.stacks[t] != []
  {
    var n := |s.stacks[t]|;
    if n == 1 then s.(stacks := s.stacks[t := []])
    else s.(stacks := s.stacks[t := s.stacks[t][..n - 2] + [Resume(s.stacks[t][n - 2], result)]])
  }

  function SetClass(s: State, c: nat, k: Class): State
    requires c < |s.classes|
  {
    s.(classes := s.classes[c := k])
  }

  /** The checks of `SetStatus` on the old and the new status. */
  predicate MaySet(old_: Status, new_: Status) {
    if new_ == ERROR then old_ != ERROR else new_ > old_
  }

  /** Outcome `o`, in which the status of `c` becomes `status`, if `SetStatus` lets it. */
  function Checked(s: State, c: nat, status: Status, o: Outcome): Outcome
    requires c < |s.classes|
  {
    if MaySet(s.classes[c].status, status) then o else AbortAt(s, StatusBack)
  }

  predicate SameSizes(s: State, s': State) {
    |s'.classes| == |s.classes| && |s'.stacks| == |s.stacks| && s'.tx == s.tx
  }

  function AbortAt(s: State, site: Site): Outcome {
    Outcome(s.(aborted := Some(site)), Abort(site))
  }

  // ---------- InitializeClass and WaitForInitializeClass ----------

  /** The top frame of `t` was called by `EnsureInitialized`, from outside or from Java code, and not
      by the initialisation of a subclass. */
  predicate CalledByEnsure(s: State, t: nat)
    requires t < |s.stacks| && s.stacks[t] != []
  {
    var n := |s.stacks[t]|;
    n == 1 || (s.stacks[t][n - 2].Init? && s.stacks[t][n - 2].pc.Running?)
  }

  /** The return from `InitializeClass`, with the check of `EnsureInitialized`. */
  function ReturnInit(s: State, t: nat, f: Frame, result: Result): Outcome
    requires t < |s.stacks| && s.stacks[t] != [] && f.Init?
  {
    if result.Quiet? && f.statics && f.parents && CalledByEnsure(s, t) then AbortAt(s, NoException)
    else Outcome(Return(s, t, result), Returned(f.cls, result, f.statics, f.parents))
  }

  /** What every step of a frame `f` of thread `t` does besides changing a class or the stack. */
  predicate StepShape(s: State, f: Frame, o: Outcome) {
    && !o.event.RolledBack? && SameSizes(s, o.state)
    && (o.event.Abort? ==> o.state == s.(aborted := Some(o.event.site)))
    && (!o.event.Abort? ==> o.state.aborted == s.aborted)
    && (o.event.Started? ==> f.Init? && f.pc.Clinit? && f.cls == o.event.cls)
  }

  /** `InitializeClass` up to the point where the class is known to be verified. */
  function EntryStep(w: World, s: State, t: nat, f: Frame): (o: Outcome)
    requires Wf(w, s) && t < |s.stacks| && s.stacks[t] != [] && f.Init? && FrameWf(w, f)
    ensures !o.event.VerifyReturned? && StepShape(s, f, o)
  {
    var c := f.cls;
    var k := s.classes[c];
    match f.pc
    case Enter =>
      if k.status == INITIALIZED then ReturnInit(s, t, f, Done)
      else Outcome(Goto(s, t, f.(pc := Eligible)), Silent)
    case Eligible =>
      if CanInitialize(w, s.classes, c, f.statics, f.parents) then Outcome(Goto(s, t, f.(pc := Lock)), Silent)
      else ReturnInit(s, t, f, Quiet)
    case Lock =>
      if LockFree(w, s, t, c) then Outcome(Goto(s, t, f.(pc := Locked)), Silent) else Outcome(s, Silent)
    case Locked =>
      if k.status == INITIALIZED then ReturnInit(s, t, f, Done)
      else if k.status == ERROR then ReturnInit(s, t, f, Thrown)
      else if k.status < VERIFIED then Outcome(Call(s, t, f.(pc := AwaitVerify), Verify(c, VEnter)), Silent)
      else Outcome(Goto(s, t, f.(pc := Claim)), Silent)
    case AfterVerify(thrown) =>
      if k.status >= VERIFIED then Outcome(Goto(s, t, f.(pc := Claim)), Silent)
      else if k.status == ERROR then (if thrown then ReturnInit(s, t, f, Thrown) else AbortAt(s, VerifyNotThrown))
      else if w.isCompiler && k.status == RETRY then ReturnInit(s, t, f, if thrown then Thrown else Quiet)
      else AbortAt(s, VerifyOutcome)
    case _ => Outcome(s, Silent)
  }

  predicate IsEntry(pc: InitPc) {
    pc.Enter? || pc.Eligible? || pc.Lock? || pc.Locked? || pc.AfterVerify?
  }

  function InitStep(w: World, s: State, t: nat, ch: Choice): (o: Outcome)
    requires Wf(w, s) && t < |s.stacks| && s.stacks[t] != []
    requires s.stacks[t][|s.stacks[t]| - 1].Init?
    ensures !o.event.VerifyReturned? && StepShape(s, s.stacks[t][|s.stacks[t]| - 1], o)
  {
    var f := s.stacks[t][|s.stacks[t]| - 1];
    assert FrameWf(w, f);
    if IsEntry(f.pc) then EntryStep(w, s, t, f) else ClaimStep(w, s, t, f, ch)
  }

  /** `InitializeClass` from claiming the class on, and `WaitForInitializeClass`. */
  function ClaimStep(w: World, s: State, t: nat, f: Frame, ch: Choice): (o: Outcome)
    requires Wf(w, s) && t < |s.stacks| && s.stacks[t] != [] && f.Init? && FrameWf(w, f)
    ensures !o.event.VerifyReturned? && StepShape(s, f, o)
  {
    var c := f.cls;
    var k := s.classes[c];
    match f.pc
    case Claim =>
      if k.status == INITIALIZING then
        if k.owner == Some(t) then ReturnInit(s, t, f, Done)
        else Outcome(Goto(s, t, f.(pc := Wait)), Silent)
      else if !ch.flag then
        Checked(s, c, ERROR, ReturnInit(SetClass(s, c, k.(status := ERROR)), t, f, Thrown))
      else if k.status != VERIFIED then AbortAt(s, ClaimState)
      else
        var claimed := SetClass(s, c, k.(status := INITIALIZING, owner := Some(t)));
        Checked(s, c, INITIALIZING, Outcome(Goto(claimed, t, f.(pc := Super)), Silent))
    case Wait =>
      if !LockFree(w, s, t, c) || k.status == INITIALIZING then Outcome(s, Silent)
      else if k.status == VERIFIED && w.isCompiler then ReturnInit(s, t, f, Quiet)
      else if k.status == ERROR then ReturnInit(s, t, f, Thrown)
      else if k.status == INITIALIZED then ReturnInit(s, t, f, Done)
      else AbortAt(s, WaitState)
    case Super =>
      if w.HasInitSuper(c) && s.classes[w.infos[c].super.value].status != INITIALIZED then
        if !f.parents then AbortAt(s, ParentsForbidden)
        else Outcome(Call(s, t, f.(pc := AwaitSuper), Init(w.infos[c].super.value, Enter, f.statics, true)), Silent)
      else Outcome(Goto(s, t, f.(pc := Clinit)), Silent)
    case SuperFailed(thrown) =>
      if s.classes[w.infos[c].super.value].status != ERROR || !thrown then AbortAt(s, SuperNotErroneous)
      else if !LockFree(w, s, t, c) then Outcome(s, Silent)
      else Checked(s, c, ERROR, ReturnInit(SetClass(s, c, k.(status := ERROR)), t, f, Thrown))
    case Clinit =>
      if (w.infos[c].hasClinit || w.infos[c].hasStaticValues) && !f.statics then AbortAt(s, StaticsForbidden)
      else if w.infos[c].hasClinit then
        Outcome(Goto(SetClass(s, c, k.(runs := k.runs + 1)), t, f.(pc := Running)), Started(c))
      else Outcome(Goto(s, t, f.(pc := Finish(!ch.flag))), Silent)
    case Running =>
      if ch.call.Some? && ch.call.value.Ensure? && ch.call.value.cls < |w.infos| then
        var r := ch.call.value;
        Outcome(Call(s, t, f, Init(r.cls, Enter, r.statics, r.parents)), Silent)
      else Outcome(Goto(s, t, f.(pc := Finish(!ch.flag))), Silent)
    case Finish(threw) =>
      if !LockFree(w, s, t, c) then Outcome(s, Silent)
      else
        var status := if threw then ERROR else INITIALIZED;
        Checked(s, c, status, ReturnInit(SetClass(s, c, k.(status := status)), t, f, if threw then Thrown else Done))
    case _ => Outcome(s, Silent)
  }

  // ---------- VerifyClass ----------

  function ReturnVerify(s: State, t: nat, c: nat, result: Result): Outcome
    requires t < |s.stacks| && s.stacks[t] != []
  {
    Outcome(Return(s, t, result), VerifyReturned(c, result.Thrown?))
  }

  /** `VerifyClass` sets the status of its class and returns. */
  function Settle(s: State, t: nat, c: nat, status: Status, result: Result): Outcome
    requires t < |s.stacks| && s.stacks[t] != [] && c < |s.classes|
  {
    Checked(s, c, status, ReturnVerify(SetClass(s, c, s.classes[c].(status := status)), t, c, result))
  }

  /** The class becomes Error and an exception is thrown. */
  function Reject(s: State, t: nat, c: nat): Outcome
    requires t < |s.stacks| && s.stacks[t] != [] && c < |s.classes|
  {
    Settle(s, t, c, ERROR, Thrown)
  }

  /** The last part of `VerifyClass`, run without the superclass's monitor. */
  function VerifyBody(w: World, s: State, t: nat, c: nat, verdict: Verdict): Outcome
    requires Wf(w, s) && t < |s.stacks| && s.stacks[t] != [] && c < |w.infos|
  {
    var super := w.infos[c].super;
    match verdict
    case OatRejected => Reject(s, t, c)
    case HardFailure => Reject(s, t, c)
    case NoFailure =>
      if super.None? || s.classes[super.value].status >= VERIFIED then Settle(s, t, c, VERIFIED, Done)
      else if s.classes[super.value].status != RETRY then AbortAt(s, SuperNotRetry)
      else Settle(s, t, c, RETRY, Done)
    case SoftFailure => Settle(s, t, c, if w.isCompiler then RETRY else VERIFIED, Done)
  }

  function VerifyStep(w: World, s: State, t: nat, ch: Choice): (o: Outcome)
    requires Wf(w, s) && t < |s.stacks| && s.stacks[t] != []
    requires s.stacks[t][|s.stacks[t]| - 1].Verify?
    ensures !o.event.Returned? && StepShape(s, s.stacks[t][|s.stacks[t]| - 1], o)
  {
    var f := s.stacks[t][|s.stacks[t]| - 1];
    var c := f.cls;
    assert FrameWf(w, f);
    var k := s.classes[c];
    match f.vpc
    case VEnter =>
      if LockFree(w, s, t, c) then Outcome(Goto(s, t, f.(vpc := VLocked)), Silent) else Outcome(s, Silent)
    case VLocked =>
      if k.status >= VERIFIED || (k.status >= RETRY && w.isCompiler) then ReturnVerify(s, t, c, Done)
      else if k.status == ERROR then ReturnVerify(s, t, c, Thrown)
      else if k.status != RESOLVED && (k.status != RETRY || w.isCompiler) then AbortAt(s, VerifyState)
      else if !w.verificationEnabled then Settle(s, t, c, VERIFIED, Done)
      else
        var status := if k.status == RESOLVED then VERIFYING else VERIFYING_AT_RUNTIME;
        var marked := SetClass(s, c, k.(status := status));
        Checked(s, c, status, Outcome(Goto(marked, t, f.(vpc := if w.infos[c].super.Some? then VSuperLock else VBody)), Silent))
    case VSuperLock =>
      if LockFree(w, s, t, w.infos[c].super.value) then Outcome(Goto(s, t, f.(vpc := VSuperHeld)), Silent)
      else Outcome(s, Silent)
    case VSuperHeld =>
      var super := w.infos[c].super.value;
      if s.classes[super].status < VERIFIED && s.classes[super].status != ERROR then
        Outcome(Call(s, t, f.(vpc := VAwait), Verify(super, VEnter)), Silent)
      else Outcome(Goto(s, t, f.(vpc := VSuperChecked)), Silent)
    case VSuperChecked =>
      if s.classes[w.infos[c].super.value].status < RETRY then Reject(s, t, c)
      else Outcome(Goto(s, t, f.(vpc := VBody)), Silent)
    case VBody => VerifyBody(w, s, t, c, ch.verdict)
    case VAwait => Outcome(s, Silent)
  }

  // ---------- Transactions ----------

  /** The log after the classes went from `old` to `new`: the first old value of each is kept. */
  function Logged(log: map<nat, Class>, old_: seq<Class>, new_: seq<Class>): map<nat, Class>
    requires |old_| == |new_|
  {
    map c: nat | c < |old_| && (c in log || old_[c] != new_[c]) :: if c in log then log[c] else old_[c]
  }

  /** The classes after the logged values are written back. */
  function Undone(log: map<nat, Class>, classes: seq<Class>): (r: seq<Class>)
    ensures |r| == |classes|
  {
    seq(|classes|, c requires 0 <= c < |classes| => if c in log then log[c] else classes[c])
  }

  /** What a step of thread `t` from `s` to `o` means for the transaction of `t`: writes are logged, and
      when its outermost frame returns it is committed, or undone if initialisation failed. */
  function InTransaction(s: State, t: nat, o: Outcome): Outcome
    requires |s.classes| == |o.state.classes| && t < |o.state.stacks|
  {
    if s.tx.None? || s.tx.value.thread != t then o
    else
      var log := Logged(s.tx.value.log, s.classes, o.state.classes);
      if !o.event.Returned? || o.state.stacks[t] != [] then
        Outcome(o.state.(tx := Some(Transaction(t, log))), o.event)
      else if o.event.result.Done? then Outcome(o.state.(tx := None), o.event)
      else Outcome(o.state.(tx := None, classes := Undone(log, o.state.classes)), RolledBack(o.event.cls))
  }

  // ---------- Whole runs ----------

  /** An idle thread starts what it is asked for.  While a transaction is active nothing else starts,
      and a transaction starts when nothing is going on: the compiler initialises the classes of an
      image with one thread. */
  function IdleStep(w: World, s: State, t: nat, call: Option<Request>): (o: Outcome)
    requires Wf(w, s) && t < |s.stacks| && s.stacks[t] == []
    ensures o.event.Silent? && o.state.classes == s.classes && o.state.aborted == s.aborted
  {
    if call.None? || call.value.cls >= |w.infos| || s.tx.Some? then Outcome(s, Silent)
    else
      match call.value
      case Ensure(c, statics, parents) => Outcome(s.(stacks := s.stacks[t := [Init(c, Enter, statics, parents)]]), Silent)
      case VerifyOnly(c) => Outcome(s.(stacks := s.stacks[t := [Verify(c, VEnter)]]), Silent)
      case Transact(c) =>
        if w.isCompiler && AllIdle(s) then
          Outcome(s.(stacks := s.stacks[t := [Init(c, Enter, true, true)]], tx := Some(Transaction(t, map[]))), Silent)
        else Outcome(s, Silent)
  }

  predicate AllIdle(s: State) {
    forall u :: 0 <= u < |s.stacks| ==> s.stacks[u] == []
  }

  /** One step of thread `t`.  A thread that is blocked, or whose choice does not apply, does
      not move. */
  function Step(w: World, s: State, t: nat, ch: Choice): Outcome
    requires Wf(w, s) && t < |s.stacks|
  {
    if s.aborted.Some? then Outcome(s, Silent)
    else if s.stacks[t] == [] then IdleStep(w, s, t, ch.call)
    else InTransaction(s, t, ThreadStep(w, s, t, ch))
  }

  /** One step of the activation on top of the stack of `t`. */
  function ThreadStep(w: World, s: State, t: nat, ch: Choice): (o: Outcome)
    requires Wf(w, s) && t < |s.stacks| && s.stacks[t] != []
    ensures StepShape(s, s.stacks[t][|s.stacks[t]| - 1], o)
  {
    if s.stacks[t][|s.stacks[t]| - 1].Init? then InitStep(w, s, t, ch) else VerifyStep(w, s, t, ch)
  }
}
