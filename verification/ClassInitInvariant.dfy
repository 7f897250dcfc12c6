/** The invariant of the class initialisation protocol and its preservation by every step. */
module ClassInitInvariant {
  import opened Options
  import opened ClassInit

  // ---------- Frame classification ----------

  /** The activation that is responsible for running `<clinit>` of its class. */
  predicate Active(pc: InitPc) {
    pc.Super? || pc.AwaitSuper? || pc.SuperFailed? || pc.Clinit? || pc.Running? || pc.Finish?
  }

  predicate ActiveOn(f: Frame, c: nat) {
    f.Init? && f.cls == c && Active(f.pc)
  }

  /** A verification that has marked its class as being verified. */
  predicate Marked(pc: VerifyPc) {
    !pc.VEnter? && !pc.VLocked?
  }

  predicate MarkedOn(f: Frame, c: nat) {
    f.Verify? && f.cls == c && Marked(f.vpc)
  }

  predicate Awaiting(f: Frame) {
    match f
    case Init(_, pc, _, _) => pc.AwaitSuper? || pc.AwaitVerify?
    case Verify(_, pc) => pc.VAwait?
  }

  /** `callee` is what `f` waits for, or what Java code run by `f` called. */
  predicate Link(w: World, f: Frame, callee: Frame) {
    match f
    case Init(c, pc, statics, _) =>
      if pc.AwaitVerify? then callee.Verify? && callee.cls == c
      else if pc.AwaitSuper? then
        callee.Init? && c < |w.infos| && w.infos[c].super == Some(callee.cls) && callee.statics == statics && callee.parents
      else pc.Running? && callee.Init?
    case Verify(c, pc) =>
      pc.VAwait? && callee.Verify? && c < |w.infos| && w.infos[c].super == Some(callee.cls)
  }

  // ---------- The invariant ----------

  predicate BeingVerified(status: Status) {
    status == VERIFYING || status == VERIFYING_AT_RUNTIME
  }

  /** Where a finished verification leaves a class. */
  predicate Settled(w: World, status: Status) {
    status >= VERIFIED || status == ERROR || (w.isCompiler && status == RETRY)
  }

  /** No class on the superclass chain of `c` needs static initialisation. */
  predicate NoStatics(w: World, c: nat)
    requires w.Valid() && c < |w.infos|
    decreases c
  {
    !w.infos[c].hasClinit && !w.infos[c].hasStaticValues &&
    (w.HasInitSuper(c) ==> NoStatics(w, w.infos[c].super.value))
  }

  /** What passing `CanWeInitializeClass` established, in terms that stay true. */
  ghost predicate FlagsOk(w: World, s: State, c: nat, statics: bool, parents: bool)
    requires Wf(w, s) && c < |w.infos|
  {
    && (statics || (!w.infos[c].hasClinit && !w.infos[c].hasStaticValues))
    && (parents || !w.HasInitSuper(c) || s.classes[w.infos[c].super.value].status == INITIALIZED)
    && (parents && !statics ==> NoStatics(w, c))
  }

  /** The superclass of `c` is initialised, or is being initialised by a frame of thread `t`
      below index `i`. */
  ghost predicate SuperReady(w: World, s: State, t: nat, i: nat, c: nat)
    requires Wf(w, s) && c < |w.infos| && t < |s.stacks| && i <= |s.stacks[t]|
  {
    w.HasInitSuper(c) ==>
      var super := w.infos[c].super.value;
      s.classes[super].status == INITIALIZED ||
      exists j :: 0 <= j < i && ActiveOn(s.stacks[t][j], super)
  }

  /** How the initialisation of a superclass fails: it throws and is Error, or at compile time it is to be
      verified again. */
  predicate SuperRefused(w: World, status: Status, thrown: bool) {
    if thrown then status == ERROR else w.isCompiler && status == RETRY
  }

  function RunsAt(w: World, c: nat, pc: InitPc): nat
    requires c < |w.infos|
  {
    if pc.Running? then 1 else if pc.Finish? && w.infos[c].hasClinit then 1 else 0
  }

  ghost predicate InitInv(w: World, s: State, t: nat, i: nat, f: Frame)
    requires Wf(w, s) && t < |s.stacks| && i <= |s.stacks[t]| && FrameWf(w, f) && f.Init?
  {
    var c, pc := f.cls, f.pc;
    var k := s.classes[c];
    && (!pc.Enter? && !pc.Eligible? ==> FlagsOk(w, s, c, f.statics, f.parents))
    && (pc.AwaitVerify? ==> k.status <= VERIFIED)
    && (pc.AfterVerify? ==> Settled(w, k.status) && k.status <= VERIFIED && (pc.thrown <==> k.status == ERROR))
    && (pc.Claim? ==> k.status == VERIFIED || k.status == INITIALIZING)
    && (pc.Wait? ==> k.status == ERROR || k.status >= INITIALIZING)
    && (Active(pc) ==> k.status == INITIALIZING && k.owner == Some(t) && k.runs == RunsAt(w, c, pc))
    && (pc.Running? ==> w.infos[c].hasClinit)
    && (pc.AwaitSuper? || pc.SuperFailed? ==> f.parents)
    && (pc.SuperFailed? ==> SuperRefused(w, s.classes[w.infos[c].super.value].status, pc.thrown))
    && (pc.Clinit? || pc.Running? || pc.Finish? ==> SuperReady(w, s, t, i, c))
  }

  ghost predicate VerifyInv(w: World, s: State, f: Frame)
    requires Wf(w, s) && FrameWf(w, f) && f.Verify?
  {
    var c, pc := f.cls, f.vpc;
    var k := s.classes[c];
    && (pc.VLocked? ==> !BeingVerified(k.status))
    && (Marked(pc) ==> w.verificationEnabled &&
                       (k.status == VERIFYING || (k.status == VERIFYING_AT_RUNTIME && !w.isCompiler)))
    && ((pc.VSuperChecked? || (pc.VBody? && w.infos[c].super.Some?)) ==>
          Settled(w, s.classes[w.infos[c].super.value].status))
  }

  ghost predicate FrameInv(w: World, s: State, t: nat, i: nat)
    requires Wf(w, s) && t < |s.stacks| && i < |s.stacks[t]|
  {
    var f := s.stacks[t][i];
    if f.Init? then InitInv(w, s, t, i, f) else VerifyInv(w, s, f)
  }

  /** Verification frames sit on top of a stack, going up the superclass chain; or a stack consists of
      them, when the compiler asked for verification alone. */
  ghost predicate StackInv(w: World, stack: seq<Frame>) {
    && (forall i :: 0 <= i < |stack| - 1 ==> Link(w, stack[i], stack[i + 1]))
    && (forall i, j :: 0 <= i < j < |stack| && stack[i].Verify? ==> stack[j].Verify? && stack[j].cls < stack[i].cls)
    && (stack != [] ==> !Awaiting(stack[|stack| - 1]))
  }

  /** Monitors exclude each other. */
  ghost predicate LockInv(w: World, s: State) {
    forall t, u, i, j, c: nat ::
      (&& 0 <= t < |s.stacks| && 0 <= i < |s.stacks[t]| && Holds(w, s.stacks[t][i], c)
       && 0 <= u < |s.stacks| && 0 <= j < |s.stacks[u]| && Holds(w, s.stacks[u][j], c))
      ==> t == u
  }

  /** At most one activation is responsible for a class. */
  ghost predicate UniqueInv(s: State) {
    forall t, i, j, c: nat ::
      (&& 0 <= t < |s.stacks| && 0 <= i < |s.stacks[t]| && ActiveOn(s.stacks[t][i], c)
       && 0 <= j < |s.stacks[t]| && ActiveOn(s.stacks[t][j], c))
      ==> i == j
  }

  ghost predicate HasActive(s: State, t: nat, c: nat)
    requires t < |s.stacks|
  {
    exists i :: 0 <= i < |s.stacks[t]| && ActiveOn(s.stacks[t][i], c)
  }

  ghost predicate HasMarked(s: State, c: nat) {
    exists t, i :: 0 <= t < |s.stacks| && 0 <= i < |s.stacks[t]| && MarkedOn(s.stacks[t][i], c)
  }

  ghost predicate ClassInv(w: World, s: State, c: nat)
    requires Wf(w, s) && c < |s.classes|
  {
    var k := s.classes[c];
    && (k.status == ERROR || k.status >= RESOLVED)
    && (k.status == INITIALIZING ==> k.owner.Some? && k.owner.value < |s.stacks| && HasActive(s, k.owner.value, c))
    && (k.status == VERIFYING || k.status == VERIFYING_AT_RUNTIME ==> HasMarked(s, c))
    && k.runs <= 1
    && (k.status != ERROR && k.status < INITIALIZING ==> k.runs == 0)
  }

  ghost predicate Inv(w: World, s: State) {
    && Wf(w, s)
    && LockInv(w, s)
    && UniqueInv(s)
    && (forall c :: 0 <= c < |s.classes| ==> ClassInv(w, s, c))
    && (forall t :: 0 <= t < |s.stacks| ==> StackInv(w, s.stacks[t]))
    && (forall t, i :: 0 <= t < |s.stacks| && 0 <= i < |s.stacks[t]| ==> FrameInv(w, s, t, i))
  }

  // ---------- A step seen as an update ----------

  /** One class may change, and the frames of one thread from index `n` on are replaced. */
  datatype Update = Update(t: nat, cls: nat, k: Class, n: nat, news: seq<Frame>)

  ghost predicate UpdateWf(w: World, s: State, d: Update) {
    && Wf(w, s) && d.t < |s.stacks| && d.cls < |s.classes| && d.n <= |s.stacks[d.t]|
    && forall i :: 0 <= i < |d.news| ==> FrameWf(w, d.news[i])
  }

  function Apply(s: State, d: Update): State
    requires d.t < |s.stacks| && d.cls < |s.classes| && d.n <= |s.stacks[d.t]|
  {
    s.(classes := s.classes[d.cls := d.k], stacks := s.stacks[d.t := s.stacks[d.t][..d.n] + d.news])
  }

  lemma ApplyWf(w: World, s: State, d: Update)
    requires UpdateWf(w, s, d)
    ensures Wf(w, Apply(s, d))
  {
    var s' := Apply(s, d);
    forall t, i | 0 <= t < |s'.stacks| && 0 <= i < |s'.stacks[t]| ensures FrameWf(w, s'.stacks[t][i]) {
      if t == d.t {
        if i < d.n {
          assert s'.stacks[t][i] == s.stacks[t][i];
        } else {
          assert s'.stacks[t][i] == d.news[i - d.n];
        }
      } else {
        assert s'.stacks[t][i] == s.stacks[t][i];
      }
    }
  }

  /** The ways a class may change: never out of Error or Initialized, never down, and at compile
      time never out of Retry. */
  ghost predicate Moves(w: World, a: Class, b: Class) {
    || a == b
    || (&& a.status != ERROR && a.status != INITIALIZED && !(w.isCompiler && a.status == RETRY)
        && (b.status == ERROR || b.status > a.status || (a.status == INITIALIZING && b.status == INITIALIZING && b.owner == a.owner)))
  }

  ghost predicate DropsActive(s: State, d: Update, c: nat)
    requires d.t < |s.stacks|
  {
    exists i :: d.n <= i < |s.stacks[d.t]| && ActiveOn(s.stacks[d.t][i], c)
  }

  ghost predicate AddsActive(d: Update, c: nat) {
    exists j :: 0 <= j < |d.news| && ActiveOn(d.news[j], c)
  }

  ghost predicate AddsMarked(d: Update, c: nat) {
    exists j :: 0 <= j < |d.news| && MarkedOn(d.news[j], c)
  }

  /** The class part of a legal update: the class changes under its monitor, and no frame that
      stays relies on what changes. */
  ghost predicate LegalClass(w: World, s: State, d: Update)
    requires UpdateWf(w, s, d)
  {
    var a, stack := s.classes[d.cls], s.stacks[d.t];
    && Moves(w, a, d.k)
    && (a.status != d.k.status ==> LockFree(w, s, d.t, d.cls))
    && (a != d.k ==>
          && (a.status == INITIALIZING ==> DropsActive(s, d, d.cls))
          && (forall i :: 0 <= i < d.n ==> !MarkedOn(stack[i], d.cls))
          && (forall i :: 0 <= i < d.n && stack[i].Init? && stack[i].cls == d.cls && stack[i].pc.AwaitVerify? ==> d.k.status <= VERIFIED))
    && (d.k.status == ERROR || d.k.status >= RESOLVED)
    && d.k.runs <= 1
    && (d.k.status != ERROR && d.k.status < INITIALIZING ==> d.k.runs == 0)
    && (d.k.status == INITIALIZING && a.status != INITIALIZING ==> d.k.owner == Some(d.t) && AddsActive(d, d.cls))
    && (BeingVerified(d.k.status) && !BeingVerified(a.status) ==> AddsMarked(d, d.cls))
  }

  /** The stack part: new monitors were free, and responsibility is handed over, not lost. */
  ghost predicate LegalStack(w: World, s: State, d: Update)
    requires UpdateWf(w, s, d)
  {
    var stack := s.stacks[d.t];
    && StackInv(w, stack[..d.n] + d.news)
    && (forall j, c: nat :: 0 <= j < |d.news| && Holds(w, d.news[j], c) ==> LockFree(w, s, d.t, c))
    && (forall j, c: nat :: 0 <= j < |d.news| && ActiveOn(d.news[j], c) ==>
          c < |s.classes| && (DropsActive(s, d, c) || s.classes[c].status != INITIALIZING))
    && (forall i, j, c: nat :: 0 <= i < |d.news| && ActiveOn(d.news[i], c) && 0 <= j < |d.news| && ActiveOn(d.news[j], c) ==> i == j)
    && (forall i, c: nat :: d.n <= i < |stack| && ActiveOn(stack[i], c) ==>
          AddsActive(d, c) || (c == d.cls && d.k.status != INITIALIZING))
    && (forall i, c: nat :: d.n <= i < |stack| && MarkedOn(stack[i], c) ==>
          AddsMarked(d, c) || (c == d.cls && !BeingVerified(d.k.status)))
  }

  // ---------- Legal updates keep the invariant ----------

  /** A superclass that is ready for the frame of `t` at `i` stays so. */
  lemma SuperReadyStays(w: World, s: State, d: Update, t: nat, i: nat, c: nat)
    requires Inv(w, s) && UpdateWf(w, s, d) && LegalClass(w, s, d) && Wf(w, Apply(s, d))
    requires t < |s.stacks| && i <= |s.stacks[t]| && (t == d.t ==> i <= d.n) && c < |w.infos|
    requires SuperReady(w, s, t, i, c)
    ensures SuperReady(w, Apply(s, d), t, i, c)
  {
    var s' := Apply(s, d);
    if w.HasInitSuper(c) && s.classes[w.infos[c].super.value].status != INITIALIZED {
      var super := w.infos[c].super.value;
      var j :| 0 <= j < i && ActiveOn(s.stacks[t][j], super);
      assert s'.stacks[t][j] == s.stacks[t][j];
    }
  }

  /** Whoever is responsible for a class is its recorded owner. */
  lemma DroppedOwner(w: World, s: State, d: Update, c: nat)
    requires Inv(w, s) && UpdateWf(w, s, d) && c < |s.classes| && DropsActive(s, d, c)
    ensures s.classes[c].owner == Some(d.t)
  {
    var i :| d.n <= i < |s.stacks[d.t]| && ActiveOn(s.stacks[d.t][i], c);
    assert FrameInv(w, s, d.t, i);
  }

  lemma OtherFrame(w: World, s: State, d: Update, t: nat, i: nat)
    requires Inv(w, s) && UpdateWf(w, s, d) && LegalClass(w, s, d) && Wf(w, Apply(s, d))
    requires t < |s.stacks| && t != d.t && i < |s.stacks[t]|
    ensures FrameInv(w, Apply(s, d), t, i)
  {
    var s' := Apply(s, d);
    var f := s.stacks[t][i];
    assert s'.stacks[t] == s.stacks[t];
    assert FrameInv(w, s, t, i) && FrameWf(w, f);
    var c := f.cls;
    if s'.classes[c] != s.classes[c] {
      if s'.classes[c].status != s.classes[c].status {
        assert c == d.cls && !Holds(w, f, c);
        if i > 0 {
          assert Link(w, s.stacks[t][i - 1], f) && !Holds(w, s.stacks[t][i - 1], c);
        }
      }
      if DropsActive(s, d, c) {
        DroppedOwner(w, s, d, c);
      }
    }
    if f.Init? && (f.pc.Clinit? || f.pc.Running? || f.pc.Finish?) {
      SuperReadyStays(w, s, d, t, i, c);
    }
  }

  lemma OwnFrame(w: World, s: State, d: Update, i: nat)
    requires Inv(w, s) && UpdateWf(w, s, d) && LegalClass(w, s, d) && LegalStack(w, s, d) && Wf(w, Apply(s, d))
    requires i < d.n && d.news != []
    ensures FrameInv(w, Apply(s, d), d.t, i)
  {
    var s' := Apply(s, d);
    var stack, stack' := s.stacks[d.t], s'.stacks[d.t];
    var f := stack[i];
    assert stack'[i] == f;
    assert Link(w, stack'[i], stack'[i + 1]);
    assert FrameInv(w, s, d.t, i) && FrameWf(w, f);
    if s'.classes[f.cls] != s.classes[f.cls] && f.Init? && Active(f.pc) {
      assert false;
    }
    if f.Init? && (f.pc.Clinit? || f.pc.Running? || f.pc.Finish?) {
      SuperReadyStays(w, s, d, d.t, i, f.cls);
    }
  }

  lemma LocksStay(w: World, s: State, d: Update)
    requires Inv(w, s) && UpdateWf(w, s, d) && LegalStack(w, s, d)
    ensures LockInv(w, Apply(s, d))
  {
    var s' := Apply(s, d);
    forall t, u, i, j, c: nat |
      && 0 <= t < |s'.stacks| && 0 <= i < |s'.stacks[t]| && Holds(w, s'.stacks[t][i], c)
      && 0 <= u < |s'.stacks| && 0 <= j < |s'.stacks[u]| && Holds(w, s'.stacks[u][j], c)
      ensures t == u
    {
      if t != u && u != d.t {
        LockSurvives(w, s, d, t, i, u, j, c);
      } else if t != u {
        LockSurvives(w, s, d, u, j, t, i, c);
      }
    }
  }

  lemma LockSurvives(w: World, s: State, d: Update, t: nat, i: nat, u: nat, j: nat, c: nat)
    requires Inv(w, s) && UpdateWf(w, s, d) && LegalStack(w, s, d)
    requires t < |s.stacks| && u < |s.stacks| && u != d.t && u != t
    requires i < |Apply(s, d).stacks[t]| && Holds(w, Apply(s, d).stacks[t][i], c) && j < |s.stacks[u]|
    ensures !Holds(w, s.stacks[u][j], c)
  {
    var s' := Apply(s, d);
    if t == d.t && i >= d.n {
      assert s'.stacks[t][i] == d.news[i - d.n];
      assert LockFree(w, s, d.t, c);
    } else {
      assert s'.stacks[t][i] == s.stacks[t][i];
    }
  }

  lemma NotSplit(w: World, s: State, d: Update, i: nat, j: nat, c: nat)
    requires Inv(w, s) && UpdateWf(w, s, d) && LegalStack(w, s, d)
    requires i < d.n && ActiveOn(s.stacks[d.t][i], c) && j < |d.news|
    ensures !ActiveOn(d.news[j], c)
  {
    assert FrameInv(w, s, d.t, i);
    assert !DropsActive(s, d, c);
  }

  lemma UniqueStays(w: World, s: State, d: Update)
    requires Inv(w, s) && UpdateWf(w, s, d) && LegalStack(w, s, d)
    ensures UniqueInv(Apply(s, d))
  {
    var s' := Apply(s, d);
    forall t, i, j, c: nat |
      && 0 <= t < |s'.stacks| && 0 <= i < |s'.stacks[t]| && ActiveOn(s'.stacks[t][i], c)
      && 0 <= j < |s'.stacks[t]| && ActiveOn(s'.stacks[t][j], c)
      ensures i == j
    {
      if t != d.t {
        assert ActiveOn(s.stacks[t][i], c) && ActiveOn(s.stacks[t][j], c);
      } else if i < d.n && j < d.n {
        assert ActiveOn(s.stacks[t][i], c) && ActiveOn(s.stacks[t][j], c);
      } else if i >= d.n && j >= d.n {
        assert ActiveOn(d.news[i - d.n], c) && ActiveOn(d.news[j - d.n], c);
      } else {
        var low, high := if i < j then i else j, if i < j then j else i;
        assert ActiveOn(s.stacks[t][low], c);
        NotSplit(w, s, d, low, high - d.n, c);
      }
    }
  }

  lemma ClassStays(w: World, s: State, d: Update, c: nat)
    requires Inv(w, s) && UpdateWf(w, s, d) && LegalClass(w, s, d) && LegalStack(w, s, d) && Wf(w, Apply(s, d))
    requires c < |s.classes|
    ensures ClassInv(w, Apply(s, d), c)
  {
    var s' := Apply(s, d);
    assert ClassInv(w, s, c);
    if s'.classes[c].status == INITIALIZING {
      ActiveStays(w, s, d, c);
    }
    if BeingVerified(s'.classes[c].status) {
      MarkedStays(w, s, d, c);
    }
  }

  lemma ActiveStays(w: World, s: State, d: Update, c: nat)
    requires Inv(w, s) && UpdateWf(w, s, d) && LegalClass(w, s, d) && LegalStack(w, s, d)
    requires c < |s.classes| && Apply(s, d).classes[c].status == INITIALIZING
    ensures var k := Apply(s, d).classes[c]; k.owner.Some? && k.owner.value < |s.stacks| && HasActive(Apply(s, d), k.owner.value, c)
  {
    var s' := Apply(s, d);
    assert ClassInv(w, s, c);
    if s.classes[c].status != INITIALIZING || (AddsActive(d, c) && s.classes[c].owner == Some(d.t)) {
      var j :| 0 <= j < |d.news| && ActiveOn(d.news[j], c);
      assert s'.stacks[d.t][d.n + j] == d.news[j];
    } else {
      var t := s.classes[c].owner.value;
      var i :| 0 <= i < |s.stacks[t]| && ActiveOn(s.stacks[t][i], c);
      assert s'.stacks[t][i] == s.stacks[t][i];
    }
  }

  lemma MarkedStays(w: World, s: State, d: Update, c: nat)
    requires Inv(w, s) && UpdateWf(w, s, d) && LegalClass(w, s, d) && LegalStack(w, s, d)
    requires c < |s.classes| && BeingVerified(Apply(s, d).classes[c].status)
    ensures HasMarked(Apply(s, d), c)
  {
    var s' := Apply(s, d);
    assert ClassInv(w, s, c);
    if AddsMarked(d, c) {
      var j :| 0 <= j < |d.news| && MarkedOn(d.news[j], c);
      assert s'.stacks[d.t][d.n + j] == d.news[j];
    } else {
      var t, i :| 0 <= t < |s.stacks| && 0 <= i < |s.stacks[t]| && MarkedOn(s.stacks[t][i], c);
      assert s'.stacks[t][i] == s.stacks[t][i];
    }
  }

  /** What is left to show for the frames an update adds. */
  ghost predicate NewFrames(w: World, s: State, d: Update)
    requires UpdateWf(w, s, d) && Wf(w, Apply(s, d))
  {
    forall i :: d.n <= i < |Apply(s, d).stacks[d.t]| ==> FrameInv(w, Apply(s, d), d.t, i)
  }

  lemma Preserve(w: World, s: State, d: Update)
    requires Inv(w, s) && UpdateWf(w, s, d) && LegalClass(w, s, d) && LegalStack(w, s, d) && Wf(w, Apply(s, d))
    requires d.news != [] || d.n == 0
    requires NewFrames(w, s, d)
    ensures Inv(w, Apply(s, d))
  {
    var s' := Apply(s, d);
    LocksStay(w, s, d);
    UniqueStays(w, s, d);
    forall c | 0 <= c < |s'.classes| ensures ClassInv(w, s', c) {
      ClassStays(w, s, d, c);
    }
    forall t, i | 0 <= t < |s'.stacks| && 0 <= i < |s'.stacks[t]| ensures FrameInv(w, s', t, i) {
      if t != d.t {
        OtherFrame(w, s, d, t, i);
      } else if i < d.n {
        OwnFrame(w, s, d, i);
      }
    }
  }
}
