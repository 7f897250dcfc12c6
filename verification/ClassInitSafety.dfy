/** What every step of an activation of the class initialisation protocol guarantees. */
module ClassInitSafety {
  import opened Options
  import opened ClassInit
  import opened ClassInitInvariant
  import opened ClassInitSteps

  // ---------- Each program counter keeps the invariant ----------

  /** The invariant is about classes and stacks only. */
  lemma SameInv(w: World, s: State, s': State)
    requires Inv(w, s) && s'.classes == s.classes && s'.stacks == s.stacks
    ensures Inv(w, s')
  {
    forall c | 0 <= c < |s'.classes| ensures ClassInv(w, s', c) {
      assert ClassInv(w, s, c);
    }
    forall t, i | 0 <= t < |s'.stacks| && 0 <= i < |s'.stacks[t]| ensures FrameInv(w, s', t, i) {
      assert FrameInv(w, s, t, i);
    }
  }

  lemma GotoWf(w: World, s: State, t: nat, f: Frame)
    requires Wf(w, s) && t < |s.stacks| && s.stacks[t] != [] && FrameWf(w, f)
    ensures Wf(w, Goto(s, t, f))
  {
    var s' := Goto(s, t, f);
    forall u, i | 0 <= u < |s'.stacks| && 0 <= i < |s'.stacks[u]| ensures FrameWf(w, s'.stacks[u][i]) {
      if u != t || i < |s.stacks[t]| - 1 {
        assert s'.stacks[u][i] == s.stacks[u][i];
      }
    }
  }

  lemma CallWf(w: World, s: State, t: nat, f: Frame, g: Frame)
    requires Wf(w, s) && t < |s.stacks| && s.stacks[t] != [] && FrameWf(w, f) && FrameWf(w, g)
    ensures Wf(w, Call(s, t, f, g))
  {
    var s' := Call(s, t, f, g);
    forall u, i | 0 <= u < |s'.stacks| && 0 <= i < |s'.stacks[u]| ensures FrameWf(w, s'.stacks[u][i]) {
      if u != t || i < |s.stacks[t]| - 1 {
        assert s'.stacks[u][i] == s.stacks[u][i];
      }
    }
  }

  lemma SameClass(s: State, c: nat)
    requires c < |s.classes|
    ensures SetClass(s, c, s.classes[c]) == s
  {
  }

  /** Passing `CanWeInitializeClass` gives facts that no later step can undo. */
  lemma {:induction false} EligibleFlags(w: World, s: State, c: nat, statics: bool, parents: bool)
    requires Wf(w, s) && c < |w.infos| && CanInitialize(w, s.classes, c, statics, parents)
    ensures FlagsOk(w, s, c, statics, parents)
    decreases c
  {
    if parents && !statics && w.HasInitSuper(c) {
      EligibleFlags(w, s, w.infos[c].super.value, statics, parents);
    }
  }

  /** A superclass whose subclass may be initialised may be initialised itself. */
  lemma {:induction false} NoStaticsEligible(w: World, s: State, c: nat, statics: bool)
    requires Wf(w, s) && c < |w.infos| && (statics || NoStatics(w, c))
    ensures CanInitialize(w, s.classes, c, statics, true)
    decreases c
  {
    if !statics && w.HasInitSuper(c) {
      NoStaticsEligible(w, s, w.infos[c].super.value, statics);
    }
  }

  /** A move within `InitializeClass` that leaves the class alone. */
  lemma QuietGoto(w: World, s: State, t: nat, f: Frame)
    requires Inv(w, s) && t < |s.stacks| && s.stacks[t] != [] && FrameWf(w, f) && !Awaiting(f)
    requires f.cls == Top(s, t).cls && f.Init? == Top(s, t).Init?
    requires f.Init? ==> f.statics == Top(s, t).statics && f.parents == Top(s, t).parents
    requires forall c: nat :: Holds(w, f, c) ==> Holds(w, Top(s, t), c) || LockFree(w, s, t, c)
    requires ActiveOn(f, f.cls) == ActiveOn(Top(s, t), f.cls) && (MarkedOn(Top(s, t), f.cls) ==> MarkedOn(f, f.cls))
    requires if f.Init? then InitInv(w, s, t, |s.stacks[t]| - 1, f) else VerifyInv(w, s, f)
    ensures Inv(w, Goto(s, t, f))
  {
    SameClass(s, f.cls);
    GotoWf(w, s, t, f);
    var n := |s.stacks[t]| - 1;
    var s' := Goto(s, t, f);
    assert s'.stacks[t][n] == f;
    assert ClassOk(w, s, t, s.classes[f.cls]) by {
      assert ClassInv(w, s, f.cls) && FrameInv(w, s, t, n) && FrameWf(w, Top(s, t));
    }
    if f.Init? && (f.pc.Clinit? || f.pc.Running? || f.pc.Finish?) {
      ReadyAfterGoto(w, s, t, f, f.cls);
    }
    GotoKeeps(w, s, t, s.classes[f.cls], f);
  }

  lemma ReadyAfterGoto(w: World, s: State, t: nat, f: Frame, c: nat)
    requires Wf(w, s) && t < |s.stacks| && s.stacks[t] != [] && Wf(w, Goto(s, t, f)) && c < |w.infos|
    requires SuperReady(w, s, t, |s.stacks[t]| - 1, c)
    ensures SuperReady(w, Goto(s, t, f), t, |s.stacks[t]| - 1, c)
  {
    if w.HasInitSuper(c) && s.classes[w.infos[c].super.value].status != INITIALIZED {
      var j :| 0 <= j < |s.stacks[t]| - 1 && ActiveOn(s.stacks[t][j], w.infos[c].super.value);
      assert Goto(s, t, f).stacks[t][j] == s.stacks[t][j];
    }
  }

  /** `InitializeClass` returns without touching the class. */
  lemma QuietReturn(w: World, s: State, t: nat, result: Result)
    requires Inv(w, s) && t < |s.stacks| && s.stacks[t] != [] && Top(s, t).cls < |s.classes|
    requires !ActiveOn(Top(s, t), Top(s, t).cls) && !MarkedOn(Top(s, t), Top(s, t).cls)
    requires ReturnOk(w, s, t, s.classes[Top(s, t).cls], result)
    ensures Inv(w, Return(s, t, result))
  {
    var c := Top(s, t).cls;
    SameClass(s, c);
    assert ClassOk(w, s, t, s.classes[c]) by {
      assert ClassInv(w, s, c) && FrameInv(w, s, t, |s.stacks[t]| - 1) && FrameWf(w, Top(s, t));
    }
    ReturnKeeps(w, s, t, s.classes[c], result);
  }

  /** What the invariant says about the frame on top. */
  lemma TopInv(w: World, s: State, t: nat)
    requires Inv(w, s) && t < |s.stacks| && s.stacks[t] != []
    ensures Wf(w, s) && Top(s, t).cls < |s.classes| == |w.infos| && FrameWf(w, Top(s, t)) && !Awaiting(Top(s, t))
    ensures FrameInv(w, s, t, |s.stacks[t]| - 1) && ClassInv(w, s, Top(s, t).cls)
  {
    assert FrameWf(w, Top(s, t)) && StackInv(w, s.stacks[t]);
  }

  /** What it says about the frame below. */
  lemma CallerInv(w: World, s: State, t: nat)
    requires Inv(w, s) && t < |s.stacks| && |s.stacks[t]| >= 2
    ensures Wf(w, s) && FrameInv(w, s, t, |s.stacks[t]| - 2) && FrameWf(w, s.stacks[t][|s.stacks[t]| - 2])
    ensures Link(w, s.stacks[t][|s.stacks[t]| - 2], Top(s, t))
  {
    assert StackInv(w, s.stacks[t]);
  }

  lemma EnterKeeps(w: World, s: State, t: nat, ch: Choice)
    requires Inv(w, s) && t < |s.stacks| && s.stacks[t] != [] && Top(s, t).Init? && Top(s, t).pc.Enter?
    ensures Inv(w, InitStep(w, s, t, ch).state)
    ensures !InitStep(w, s, t, ch).event.Abort?
  {
    hide Inv, ClassInv;
    var f := Top(s, t);
    TopInv(w, s, t);
    if s.classes[f.cls].status == INITIALIZED {
      QuietReturn(w, s, t, Done);
    } else {
      QuietGoto(w, s, t, f.(pc := Eligible));
    }
  }

  lemma EligibleKeeps(w: World, s: State, t: nat, ch: Choice)
    requires Inv(w, s) && t < |s.stacks| && s.stacks[t] != [] && Top(s, t).Init? && Top(s, t).pc.Eligible?
    ensures Inv(w, InitStep(w, s, t, ch).state)
    ensures !InitStep(w, s, t, ch).event.Abort?
  {
    hide Inv, ClassInv, CanInitialize;
    var f := Top(s, t);
    TopInv(w, s, t);
    if CanInitialize(w, s.classes, f.cls, f.statics, f.parents) {
      EligibleFlags(w, s, f.cls, f.statics, f.parents);
      QuietGoto(w, s, t, f.(pc := Lock));
    } else {
      RefusedRightly(w, s, t);
      QuietReturn(w, s, t, Quiet);
    }
  }

  /** Only what was asked for with restrictions is refused by `CanWeInitializeClass`, and never a superclass. */
  lemma RefusedRightly(w: World, s: State, t: nat)
    requires Inv(w, s) && t < |s.stacks| && s.stacks[t] != [] && Top(s, t).Init? && Top(s, t).cls < |s.classes| == |w.infos| && w.Valid()
    requires !CanInitialize(w, s.classes, Top(s, t).cls, Top(s, t).statics, Top(s, t).parents)
    ensures !Top(s, t).statics || !Top(s, t).parents
    ensures |s.stacks[t]| >= 2 ==> !(s.stacks[t][|s.stacks[t]| - 2].Init? && s.stacks[t][|s.stacks[t]| - 2].pc.AwaitSuper?)
  {
    hide Inv;
    var n, f := |s.stacks[t]|, Top(s, t);
    if n >= 2 {
      CallerInv(w, s, t);
      if s.stacks[t][n - 2].Init? && s.stacks[t][n - 2].pc.AwaitSuper? {
        NoStaticsEligible(w, s, f.cls, f.statics);
      }
    }
  }

  /** A class whose monitor is held by an `InitializeClass` frame on top is not being verified. */
  lemma NotBeingVerified(w: World, s: State, t: nat, c: nat)
    requires Inv(w, s) && t < |s.stacks| && s.stacks[t] != [] && Holds(w, Top(s, t), c) && c < |s.classes|
    requires Top(s, t).Init? || Top(s, t).cls > c
    ensures !BeingVerified(s.classes[c].status)
  {
    assert StackInv(w, s.stacks[t]);
    forall u, i | 0 <= u < |s.stacks| && 0 <= i < |s.stacks[u]| ensures !MarkedOn(s.stacks[u][i], c) {
      if Holds(w, s.stacks[u][i], c) {
        assert u == t;
      }
    }
    assert ClassInv(w, s, c);
  }

  lemma CalledFrames(w: World, s: State, t: nat, f: Frame, g: Frame)
    requires Wf(w, s) && t < |s.stacks| && s.stacks[t] != [] && Wf(w, Call(s, t, f, g)) && FrameWf(w, f) && FrameWf(w, g)
    requires if f.Init? then InitInv(w, s, t, |s.stacks[t]| - 1, f) else VerifyInv(w, s, f)
    requires if g.Init? then g.pc.Enter? else VerifyInv(w, s, g)
    ensures FrameInv(w, Call(s, t, f, g), t, |s.stacks[t]| - 1) && FrameInv(w, Call(s, t, f, g), t, |s.stacks[t]|)
  {
    var n := |s.stacks[t]| - 1;
    var s' := Call(s, t, f, g);
    assert s'.stacks[t][n] == f && s'.stacks[t][n + 1] == g;
    if f.Init? && SuperReady(w, s, t, n, f.cls) && w.HasInitSuper(f.cls) && s.classes[w.infos[f.cls].super.value].status != INITIALIZED {
      var j :| 0 <= j < n && ActiveOn(s.stacks[t][j], w.infos[f.cls].super.value);
      assert s'.stacks[t][j] == s.stacks[t][j];
    }
  }

  lemma LockKeeps(w: World, s: State, t: nat, ch: Choice)
    requires Inv(w, s) && t < |s.stacks| && s.stacks[t] != [] && Top(s, t).Init? && Top(s, t).pc.Lock?
    ensures Inv(w, InitStep(w, s, t, ch).state)
    ensures !InitStep(w, s, t, ch).event.Abort?
  {
    hide Inv;
    var f := Top(s, t);
    TopInv(w, s, t);
    if LockFree(w, s, t, f.cls) {
      QuietGoto(w, s, t, f.(pc := Locked));
    }
  }

  lemma LockedKeeps(w: World, s: State, t: nat, ch: Choice)
    requires Inv(w, s) && t < |s.stacks| && s.stacks[t] != [] && Top(s, t).Init? && Top(s, t).pc.Locked?
    ensures Inv(w, InitStep(w, s, t, ch).state)
    ensures !InitStep(w, s, t, ch).event.Abort?
  {
    hide Inv;
    var f := Top(s, t);
    TopInv(w, s, t);
    var c, k := f.cls, s.classes[f.cls];
    if k.status == INITIALIZED {
      QuietReturn(w, s, t, Done);
    } else if k.status == ERROR {
      QuietReturn(w, s, t, Thrown);
    } else if k.status < VERIFIED {
      NotBeingVerified(w, s, t, c);
      var f', g := f.(pc := AwaitVerify), Verify(c, VEnter);
      CallWf(w, s, t, f', g);
      CalledFrames(w, s, t, f', g);
      CallKeeps(w, s, t, f', g);
    } else {
      QuietGoto(w, s, t, f.(pc := Claim));
    }
  }

  /** `InitializeClass` is about to return false without an exception to an `EnsureInitialized` that
      forbade nothing: at compile time, for a class that is to be verified again at runtime. */
  ghost predicate RetryRequested(w: World, s: State, t: nat)
    requires t < |s.stacks|
  {
    && w.isCompiler && s.stacks[t] != [] && Top(s, t).Init? && Top(s, t).pc.AfterVerify? && Top(s, t).statics && Top(s, t).parents
    && CalledByEnsure(s, t) && Top(s, t).cls < |s.classes| && s.classes[Top(s, t).cls].status == RETRY
  }

  lemma AfterVerifyKeeps(w: World, s: State, t: nat, ch: Choice)
    requires Inv(w, s) && t < |s.stacks| && s.stacks[t] != [] && Top(s, t).Init? && Top(s, t).pc.AfterVerify?
    ensures Inv(w, InitStep(w, s, t, ch).state)
    ensures InitStep(w, s, t, ch).event.Abort? <==> RetryRequested(w, s, t)
    ensures InitStep(w, s, t, ch).event.Abort? ==> InitStep(w, s, t, ch).event.site == NoException
  {
    hide Inv;
    var f := Top(s, t);
    var n := |s.stacks[t]|;
    TopInv(w, s, t);
    if s.classes[f.cls].status >= VERIFIED {
      QuietGoto(w, s, t, f.(pc := Claim));
    } else if RetryRequested(w, s, t) {
      SameInv(w, s, s.(aborted := Some(NoException)));
    } else {
      QuietReturn(w, s, t, if s.classes[f.cls].status == ERROR then Thrown else Quiet);
    }
  }

  lemma WaitKeeps(w: World, s: State, t: nat, ch: Choice)
    requires Inv(w, s) && t < |s.stacks| && s.stacks[t] != [] && Top(s, t).Init? && Top(s, t).pc.Wait?
    ensures Inv(w, InitStep(w, s, t, ch).state)
    ensures !InitStep(w, s, t, ch).event.Abort?
  {
    hide Inv;
    var f := Top(s, t);
    TopInv(w, s, t);
    var c, k := f.cls, s.classes[f.cls];
    if LockFree(w, s, t, c) && k.status != INITIALIZING {
      QuietReturn(w, s, t, if k.status == INITIALIZED then Done else Thrown);
    }
  }

  lemma ClaimKeeps(w: World, s: State, t: nat, ch: Choice)
    requires Inv(w, s) && t < |s.stacks| && s.stacks[t] != [] && Top(s, t).Init? && Top(s, t).pc.Claim?
    ensures Inv(w, InitStep(w, s, t, ch).state)
    ensures !InitStep(w, s, t, ch).event.Abort?
  {
    hide Inv;
    var f := Top(s, t);
    TopInv(w, s, t);
    var c, k := f.cls, s.classes[f.cls];
    if k.status == INITIALIZING {
      if k.owner == Some(t) {
        QuietReturn(w, s, t, Done);
      } else {
        QuietGoto(w, s, t, f.(pc := Wait));
      }
    } else {
      HeldIsFree(w, s, t, c);
      if !ch.flag {
        ReturnKeeps(w, s, t, k.(status := ERROR), Thrown);
      } else {
        ClaimedKeeps(w, s, t);
      }
    }
  }

  /** The thread becomes the one that initialises the class. */
  lemma ClaimedKeeps(w: World, s: State, t: nat)
    requires Inv(w, s) && t < |s.stacks| && s.stacks[t] != [] && Top(s, t).Init? && Top(s, t).pc.Claim?
    requires Top(s, t).cls < |s.classes| && s.classes[Top(s, t).cls].status != INITIALIZING && LockFree(w, s, t, Top(s, t).cls)
    ensures var f := Top(s, t); var k := s.classes[f.cls];
            k.status == VERIFIED && Inv(w, Goto(SetClass(s, f.cls, k.(status := INITIALIZING, owner := Some(t))), t, f.(pc := Super)))
  {
    hide Inv;
    var f, n := Top(s, t), |s.stacks[t]|;
    TopInv(w, s, t);
    var k' := s.classes[f.cls].(status := INITIALIZING, owner := Some(t));
    GotoWf(w, SetClass(s, f.cls, k'), t, f.(pc := Super));
    assert Goto(SetClass(s, f.cls, k'), t, f.(pc := Super)).stacks[t][n - 1] == f.(pc := Super);
    GotoKeeps(w, s, t, k', f.(pc := Super));
  }

  lemma SuperKeeps(w: World, s: State, t: nat, ch: Choice)
    requires Inv(w, s) && t < |s.stacks| && s.stacks[t] != [] && Top(s, t).Init? && Top(s, t).pc.Super?
    ensures Inv(w, InitStep(w, s, t, ch).state)
    ensures !InitStep(w, s, t, ch).event.Abort?
  {
    hide Inv;
    var f := Top(s, t);
    TopInv(w, s, t);
    var c := f.cls;
    if w.HasInitSuper(c) && s.classes[w.infos[c].super.value].status != INITIALIZED {
      var f', g := f.(pc := AwaitSuper), Init(w.infos[c].super.value, Enter, f.statics, true);
      CallWf(w, s, t, f', g);
      CalledFrames(w, s, t, f', g);
      CallKeeps(w, s, t, f', g);
    } else {
      QuietGoto(w, s, t, f.(pc := Clinit));
    }
  }

  /** The initialisation of a superclass has failed although nothing is wrong with it: at compile time it is
      to be verified again at runtime. */
  ghost predicate RetrySuper(w: World, s: State, t: nat)
    requires t < |s.stacks|
  {
    && w.isCompiler && s.stacks[t] != [] && Top(s, t).Init? && Top(s, t).pc.SuperFailed? && Top(s, t).cls < |w.infos|
    && w.infos[Top(s, t).cls].super.Some? && w.infos[Top(s, t).cls].super.value < |s.classes|
    && s.classes[w.infos[Top(s, t).cls].super.value].status == RETRY
  }

  lemma SuperFailedKeeps(w: World, s: State, t: nat, ch: Choice)
    requires Inv(w, s) && t < |s.stacks| && s.stacks[t] != [] && Top(s, t).Init? && Top(s, t).pc.SuperFailed?
    ensures Inv(w, InitStep(w, s, t, ch).state)
    ensures InitStep(w, s, t, ch).event.Abort? <==> RetrySuper(w, s, t)
    ensures InitStep(w, s, t, ch).event.Abort? ==> InitStep(w, s, t, ch).event.site == SuperNotErroneous
  {
    hide Inv;
    var f := Top(s, t);
    TopInv(w, s, t);
    if RetrySuper(w, s, t) {
      SameInv(w, s, s.(aborted := Some(SuperNotErroneous)));
    } else if LockFree(w, s, t, f.cls) {
      ReturnKeeps(w, s, t, s.classes[f.cls].(status := ERROR), Thrown);
    }
  }

  lemma StartKeeps(w: World, s: State, t: nat)
    requires Inv(w, s) && t < |s.stacks| && s.stacks[t] != [] && Top(s, t).Init? && Top(s, t).pc.Clinit?
    requires Top(s, t).cls < |s.classes| && w.infos[Top(s, t).cls].hasClinit
    ensures var f := Top(s, t); var k := s.classes[f.cls];
            Inv(w, Goto(SetClass(s, f.cls, k.(runs := k.runs + 1)), t, f.(pc := Running)))
  {
    hide Inv;
    var f, n := Top(s, t), |s.stacks[t]|;
    TopInv(w, s, t);
    var k := s.classes[f.cls];
    var f', k' := f.(pc := Running), k.(runs := k.runs + 1);
    var m := SetClass(s, f.cls, k');
    GotoWf(w, m, t, f');
    assert Goto(m, t, f').stacks[t][n - 1] == f';
    assert SuperReady(w, m, t, n - 1, f.cls);
    ReadyAfterGoto(w, m, t, f', f.cls);
    GotoKeeps(w, s, t, k', f');
  }

  lemma ClinitKeeps(w: World, s: State, t: nat, ch: Choice)
    requires Inv(w, s) && t < |s.stacks| && s.stacks[t] != [] && Top(s, t).Init? && Top(s, t).pc.Clinit?
    ensures Inv(w, InitStep(w, s, t, ch).state)
    ensures !InitStep(w, s, t, ch).event.Abort?
  {
    var f := Top(s, t);
    hide Inv, SuperReady, ClassInv, Goto;
    TopInv(w, s, t);
    if w.infos[f.cls].hasClinit {
      StartKeeps(w, s, t);
    } else {
      FinishStartKeeps(w, s, t, !ch.flag);
    }
  }

  /** A class without `<clinit>` goes on to the end. */
  lemma FinishStartKeeps(w: World, s: State, t: nat, threw: bool)
    requires Inv(w, s) && t < |s.stacks| && s.stacks[t] != [] && Top(s, t).Init? && Top(s, t).pc.Clinit?
    requires Top(s, t).cls < |w.infos| && !w.infos[Top(s, t).cls].hasClinit
    ensures Inv(w, Goto(s, t, Top(s, t).(pc := Finish(threw))))
  {
    hide Inv, SuperReady, ClassInv;
    TopInv(w, s, t);
    QuietGoto(w, s, t, Top(s, t).(pc := Finish(threw)));
  }

  lemma RunningKeeps(w: World, s: State, t: nat, ch: Choice)
    requires Inv(w, s) && t < |s.stacks| && s.stacks[t] != [] && Top(s, t).Init? && Top(s, t).pc.Running?
    ensures Inv(w, InitStep(w, s, t, ch).state)
    ensures !InitStep(w, s, t, ch).event.Abort?
  {
    hide Inv;
    var f := Top(s, t);
    TopInv(w, s, t);
    if ch.call.Some? && ch.call.value.Ensure? && ch.call.value.cls < |w.infos| {
      var r := ch.call.value;
      var g := Init(r.cls, Enter, r.statics, r.parents);
      CallWf(w, s, t, f, g);
      CalledFrames(w, s, t, f, g);
      CallKeeps(w, s, t, f, g);
    } else {
      assert ClassInv(w, s, f.cls);
      QuietGoto(w, s, t, f.(pc := Finish(!ch.flag)));
    }
  }

  lemma FinishKeeps(w: World, s: State, t: nat, ch: Choice)
    requires Inv(w, s) && t < |s.stacks| && s.stacks[t] != [] && Top(s, t).Init? && Top(s, t).pc.Finish?
    ensures Inv(w, InitStep(w, s, t, ch).state)
    ensures !InitStep(w, s, t, ch).event.Abort?
  {
    hide Inv;
    var f := Top(s, t);
    TopInv(w, s, t);
    var k := s.classes[f.cls].(status := if f.pc.threw then ERROR else INITIALIZED);
    if LockFree(w, s, t, f.cls) {
      assert ClassOk(w, s, t, k);
      ReturnKeeps(w, s, t, k, if f.pc.threw then Thrown else Done);
    }
  }

  lemma VerifyEntryKeeps(w: World, s: State, t: nat, ch: Choice)
    requires Inv(w, s) && t < |s.stacks| && s.stacks[t] != [] && Top(s, t).Verify? && (Top(s, t).vpc.VEnter? || Top(s, t).vpc.VLocked?)
    ensures Inv(w, VerifyStep(w, s, t, ch).state)
    ensures !VerifyStep(w, s, t, ch).event.Abort?
  {
    hide Inv;
    var f := Top(s, t);
    TopInv(w, s, t);
    var c, k := f.cls, s.classes[f.cls];
    if f.vpc.VEnter? {
      if LockFree(w, s, t, c) {
        FreeIsUnverified(w, s, t);
        QuietGoto(w, s, t, f.(vpc := VLocked));
      }
    } else if k.status >= VERIFIED || (k.status >= RETRY && w.isCompiler) {
      QuietReturn(w, s, t, Done);
    } else if k.status == ERROR {
      QuietReturn(w, s, t, Thrown);
    } else {
      HeldIsFree(w, s, t, c);
      if !w.verificationEnabled {
        ReturnKeeps(w, s, t, k.(status := VERIFIED), Done);
      } else {
        MarkKeeps(w, s, t);
      }
    }
  }

  /** A class whose monitor `VerifyClass` can take is not being verified. */
  lemma FreeIsUnverified(w: World, s: State, t: nat)
    requires Inv(w, s) && t < |s.stacks| && s.stacks[t] != [] && Top(s, t).Verify? && Top(s, t).vpc.VEnter?
    requires Top(s, t).cls < |s.classes| && LockFree(w, s, t, Top(s, t).cls)
    ensures !BeingVerified(s.classes[Top(s, t).cls].status)
  {
    var c := Top(s, t).cls;
    forall u, i | 0 <= u < |s.stacks| && 0 <= i < |s.stacks[u]| ensures !MarkedOn(s.stacks[u][i], c) {
      if u == t && i < |s.stacks[t]| - 1 {
        LowerFrames(w, s, t, i);
      } else if u != t {
        assert !Holds(w, s.stacks[u][i], c);
      }
    }
    assert ClassInv(w, s, c);
  }

  lemma MarkKeeps(w: World, s: State, t: nat)
    requires Inv(w, s) && t < |s.stacks| && s.stacks[t] != [] && Top(s, t).Verify? && Top(s, t).vpc.VLocked?
    requires Top(s, t).cls < |s.classes| && w.verificationEnabled && LockFree(w, s, t, Top(s, t).cls)
    requires var a := s.classes[Top(s, t).cls].status; a == RESOLVED || (a == RETRY && !w.isCompiler)
    ensures var f := Top(s, t); var k := s.classes[f.cls];
            var k' := k.(status := if k.status == RESOLVED then VERIFYING else VERIFYING_AT_RUNTIME);
            Inv(w, Goto(SetClass(s, f.cls, k'), t, f.(vpc := if w.infos[f.cls].super.Some? then VSuperLock else VBody)))
  {
    hide Inv;
    var f, n := Top(s, t), |s.stacks[t]|;
    TopInv(w, s, t);
    var k := s.classes[f.cls];
    var k' := k.(status := if k.status == RESOLVED then VERIFYING else VERIFYING_AT_RUNTIME);
    var f' := f.(vpc := if w.infos[f.cls].super.Some? then VSuperLock else VBody);
    GotoWf(w, SetClass(s, f.cls, k'), t, f');
    assert Goto(SetClass(s, f.cls, k'), t, f').stacks[t][n - 1] == f';
    GotoKeeps(w, s, t, k', f');
  }

  lemma SuperLockKeeps(w: World, s: State, t: nat, ch: Choice)
    requires Inv(w, s) && t < |s.stacks| && s.stacks[t] != [] && Top(s, t).Verify? && Top(s, t).vpc.VSuperLock?
    ensures Inv(w, VerifyStep(w, s, t, ch).state)
    ensures !VerifyStep(w, s, t, ch).event.Abort?
  {
    hide Inv, ClassInv;
    TopInv(w, s, t);
    var f := Top(s, t);
    if LockFree(w, s, t, w.infos[f.cls].super.value) {
      QuietGoto(w, s, t, f.(vpc := VSuperHeld));
    }
  }

  lemma SuperHeldKeeps(w: World, s: State, t: nat, ch: Choice)
    requires Inv(w, s) && t < |s.stacks| && s.stacks[t] != [] && Top(s, t).Verify? && Top(s, t).vpc.VSuperHeld?
    ensures Inv(w, VerifyStep(w, s, t, ch).state)
    ensures !VerifyStep(w, s, t, ch).event.Abort?
  {
    hide Inv, ClassInv;
    TopInv(w, s, t);
    var f := Top(s, t);
    var super := w.infos[f.cls].super.value;
    if s.classes[super].status < VERIFIED && s.classes[super].status != ERROR {
      var f', g := f.(vpc := VAwait), Verify(super, VEnter);
      CallWf(w, s, t, f', g);
      CalledFrames(w, s, t, f', g);
      CallKeeps(w, s, t, f', g);
    } else {
      QuietGoto(w, s, t, f.(vpc := VSuperChecked));
    }
  }

  lemma SuperCheckedKeeps(w: World, s: State, t: nat, ch: Choice)
    requires Inv(w, s) && t < |s.stacks| && s.stacks[t] != [] && Top(s, t).Verify? && Top(s, t).vpc.VSuperChecked?
    ensures Inv(w, VerifyStep(w, s, t, ch).state)
    ensures !VerifyStep(w, s, t, ch).event.Abort?
  {
    hide Inv, Settle, ReturnClassOk;
    TopInv(w, s, t);
    var f := Top(s, t);
    if s.classes[w.infos[f.cls].super.value].status < RETRY {
      SettleKeeps(w, s, t, ERROR, Thrown);
    } else {
      QuietGoto(w, s, t, f.(vpc := VBody));
    }
  }

  /** `VerifyClass` settles the status of a class that it has marked. */
  lemma SettleKeeps(w: World, s: State, t: nat, status: Status, result: Result)
    requires Inv(w, s) && t < |s.stacks| && s.stacks[t] != [] && Top(s, t).Verify? && Marked(Top(s, t).vpc) && Top(s, t).cls < |s.classes|
    requires Settled(w, status) && status <= VERIFIED && (result.Thrown? <==> status == ERROR)
    requires status == RETRY ==> s.classes[Top(s, t).cls].status == VERIFYING
    ensures var o := Settle(s, t, Top(s, t).cls, status, result); Inv(w, o.state) && !o.event.Abort?
  {
    hide Inv;
    TopInv(w, s, t);
    var c := Top(s, t).cls;
    HeldIsFree(w, s, t, c);
    ReturnKeeps(w, s, t, s.classes[c].(status := status), result);
  }

  /** The one CHECK of `VerifyClass` that can fail: the superclass, whose monitor has been released, has become
      erroneous since it was checked. */
  lemma VerifyBodyKeeps(w: World, s: State, t: nat, ch: Choice)
    requires Inv(w, s) && t < |s.stacks| && s.stacks[t] != [] && Top(s, t).Verify? && Top(s, t).vpc.VBody?
    ensures Inv(w, VerifyStep(w, s, t, ch).state)
    ensures Top(s, t).cls < |s.classes| == |w.infos|
    ensures var super := w.infos[Top(s, t).cls].super;
            VerifyStep(w, s, t, ch).event.Abort? <==>
            ch.verdict.NoFailure? && super.Some? && super.value < |s.classes| && s.classes[super.value].status == ERROR
    ensures VerifyStep(w, s, t, ch).event.Abort? ==> VerifyStep(w, s, t, ch).event.site == SuperNotRetry
  {
    hide Inv, Settle, ClassInv;
    TopInv(w, s, t);
    var super := w.infos[Top(s, t).cls].super;
    match ch.verdict
    case OatRejected => SettleKeeps(w, s, t, ERROR, Thrown);
    case HardFailure => SettleKeeps(w, s, t, ERROR, Thrown);
    case SoftFailure => SettleKeeps(w, s, t, if w.isCompiler then RETRY else VERIFIED, Done);
    case NoFailure =>
      if super.None? || s.classes[super.value].status >= VERIFIED {
        SettleKeeps(w, s, t, VERIFIED, Done);
      } else if s.classes[super.value].status == RETRY {
        SettleKeeps(w, s, t, RETRY, Done);
      } else {
        SameInv(w, s, s.(aborted := Some(SuperNotRetry)));
      }
  }

  lemma IdleCallLegal(w: World, s: State, d: Update)
    requires Inv(w, s) && UpdateWf(w, s, d) && s.stacks[d.t] == [] && |d.news| == 1
    requires var g := d.news[0]; if g.Init? then g.pc.Enter? else g.vpc.VEnter?
    ensures LegalStack(w, s, d)
  {
    assert s.stacks[d.t][..d.n] + d.news == d.news;
    assert forall j :: 0 <= j < |d.news| ==> d.news[j] == d.news[0];
    assert forall c: nat :: !Holds(w, d.news[0], c) && !ActiveOn(d.news[0], c);
  }

  lemma IdleCallUpdate(w: World, s: State, t: nat, g: Frame) returns (d: Update)
    requires Wf(w, s) && t < |s.stacks| && s.stacks[t] == [] && g.cls < |w.infos| && (if g.Init? then g.pc.Enter? else g.vpc.VEnter?)
    ensures UpdateWf(w, s, d) && d.t == t && d.n == 0 && d.news == [g] && d.k == s.classes[d.cls]
    ensures Apply(s, d) == s.(stacks := s.stacks[t := [g]]) && Wf(w, Apply(s, d)) && NewFrames(w, s, d)
  {
    d := Update(t, g.cls, s.classes[g.cls], 0, [g]);
    assert s.stacks[t][..0] + d.news == [g];
    SameClass(s, g.cls);
    ApplyWf(w, s, d);
    assert FrameInv(w, Apply(s, d), t, 0);
  }

  /** An idle thread starts an activation. */
  lemma IdleCallKeeps(w: World, s: State, t: nat, g: Frame)
    requires Inv(w, s) && t < |s.stacks| && s.stacks[t] == [] && g.cls < |w.infos| && (if g.Init? then g.pc.Enter? else g.vpc.VEnter?)
    ensures Inv(w, s.(stacks := s.stacks[t := [g]]))
  {
    hide LegalStack, LegalClass, NewFrames, FrameInv, ClassInv;
    var d := IdleCallUpdate(w, s, t, g);
    UnchangedLegal(w, s, d);
    IdleCallLegal(w, s, d);
    Preserve(w, s, d);
  }

  // ---------- Every step keeps the invariant, and three CHECKs can fail ----------

  /** The superclass of a class that has just been verified is erroneous. */
  ghost predicate RaceOnSuper(w: World, s: State, t: nat, ch: Choice)
    requires t < |s.stacks|
  {
    && s.stacks[t] != [] && Top(s, t).Verify? && Top(s, t).vpc.VBody? && ch.verdict.NoFailure?
    && Top(s, t).cls < |w.infos|
    && w.infos[Top(s, t).cls].super.Some? && w.infos[Top(s, t).cls].super.value < |s.classes|
    && s.classes[w.infos[Top(s, t).cls].super.value].status == ERROR
  }

  /** Which CHECK fails, if any. */
  ghost predicate AbortsRightly(w: World, s: State, t: nat, ch: Choice, e: Event)
    requires t < |s.stacks|
  {
    && (e == Abort(SuperNotRetry) <==> RaceOnSuper(w, s, t, ch))
    && (e == Abort(NoException) <==> RetryRequested(w, s, t))
    && (e == Abort(SuperNotErroneous) <==> RetrySuper(w, s, t))
    && (e.Abort? ==> e.site in {SuperNotRetry, NoException, SuperNotErroneous})
  }

  lemma ThreadKeeps(w: World, s: State, t: nat, ch: Choice)
    requires Inv(w, s) && t < |s.stacks| && s.stacks[t] != []
    ensures Inv(w, ThreadStep(w, s, t, ch).state)
    ensures AbortsRightly(w, s, t, ch, ThreadStep(w, s, t, ch).event)
  {
    hide Inv, InitStep, VerifyStep;
    assert !Awaiting(Top(s, t)) by { TopInv(w, s, t); }
    match Top(s, t)
    case Init(_, pc, _, _) => {
      match pc
      case Enter => EnterKeeps(w, s, t, ch);
      case Eligible => EligibleKeeps(w, s, t, ch);
      case Lock => LockKeeps(w, s, t, ch);
      case Locked => LockedKeeps(w, s, t, ch);
      case AfterVerify(_) => AfterVerifyKeeps(w, s, t, ch);
      case Claim => ClaimKeeps(w, s, t, ch);
      case Wait => WaitKeeps(w, s, t, ch);
      case Super => SuperKeeps(w, s, t, ch);
      case SuperFailed(_) => SuperFailedKeeps(w, s, t, ch);
      case Clinit => ClinitKeeps(w, s, t, ch);
      case Running => RunningKeeps(w, s, t, ch);
      case Finish(_) => FinishKeeps(w, s, t, ch);
    }
    case Verify(_, pc) => {
      match pc
      case VEnter => VerifyEntryKeeps(w, s, t, ch);
      case VLocked => VerifyEntryKeeps(w, s, t, ch);
      case VSuperLock => SuperLockKeeps(w, s, t, ch);
      case VSuperHeld => SuperHeldKeeps(w, s, t, ch);
      case VSuperChecked => SuperCheckedKeeps(w, s, t, ch);
      case VBody => VerifyBodyKeeps(w, s, t, ch);
    }
  }

  // ---------- What single steps guarantee ----------

  /** How one class may differ after a step of `t`: its status changes with its monitor held, does
      not go down unless it becomes Error, and does not leave Error or Initialized; a `<clinit>` is
      counted when it starts. */
  ghost predicate LegalMove(w: World, s: State, t: nat, c: nat, o: Outcome)
    requires c < |s.classes|
  {
    && |o.state.classes| == |s.classes|
    && var a, b := s.classes[c], o.state.classes[c];
       && (a.status != b.status ==>
             && a.status != ERROR && a.status != INITIALIZED && (b.status == ERROR || b.status > a.status)
             && LockFree(w, s, t, c))
       && b.runs == (if o.event == Started(c) then a.runs + 1 else a.runs)
  }

  lemma InitMoves(w: World, s: State, t: nat, ch: Choice, c: nat)
    requires Inv(w, s) && t < |s.stacks| && s.stacks[t] != [] && Top(s, t).Init? && c < |s.classes|
    ensures LegalMove(w, s, t, c, InitStep(w, s, t, ch))
  {
    hide Inv, InitStep;
    if IsEntry(Top(s, t).pc) {
      EntryMoves(w, s, t, ch);
    } else {
      ClaimMoves(w, s, t, ch, c);
    }
  }

  /** Until a class is claimed, `InitializeClass` writes nothing. */
  lemma EntryMoves(w: World, s: State, t: nat, ch: Choice)
    requires Inv(w, s) && t < |s.stacks| && s.stacks[t] != [] && Top(s, t).Init? && IsEntry(Top(s, t).pc)
    ensures InitStep(w, s, t, ch).state.classes == s.classes && !InitStep(w, s, t, ch).event.Started?
  {
    hide Inv, CanInitialize, LockFree;
    TopInv(w, s, t);
  }

  lemma ClaimMoves(w: World, s: State, t: nat, ch: Choice, c: nat)
    requires Inv(w, s) && t < |s.stacks| && s.stacks[t] != [] && Top(s, t).Init? && !IsEntry(Top(s, t).pc) && c < |s.classes|
    ensures LegalMove(w, s, t, c, InitStep(w, s, t, ch))
  {
    hide Inv, CanInitialize, SuperReady, FlagsOk, ClassInv;
    TopInv(w, s, t);
    if Holds(w, Top(s, t), c) {
      HeldIsFree(w, s, t, c);
    }
  }

  lemma VerifyMoves(w: World, s: State, t: nat, ch: Choice, c: nat)
    requires Inv(w, s) && t < |s.stacks| && s.stacks[t] != [] && Top(s, t).Verify? && c < |s.classes|
    ensures LegalMove(w, s, t, c, VerifyStep(w, s, t, ch))
  {
    hide Inv, ClassInv;
    TopInv(w, s, t);
    if Holds(w, Top(s, t), c) {
      HeldIsFree(w, s, t, c);
    }
  }

  /** Every call of `SetStatus` respects the checks that `SetStatus` makes. */
  lemma ThreadMoves(w: World, s: State, t: nat, ch: Choice, c: nat)
    requires Inv(w, s) && t < |s.stacks| && s.stacks[t] != [] && c < |s.classes|
    ensures LegalMove(w, s, t, c, ThreadStep(w, s, t, ch))
  {
    if Top(s, t).Init? {
      InitMoves(w, s, t, ch, c);
    } else {
      VerifyMoves(w, s, t, ch, c);
    }
  }

  /** Being initialised, or having been, from the point of view of thread `t`. */
  predicate ReadyFor(k: Class, t: nat) {
    k.status == INITIALIZED || (k.status == INITIALIZING && k.owner == Some(t))
  }

  /** What the result of an `InitializeClass` that returned to `t` says about its class. */
  ghost predicate ResultMeaning(w: World, t: nat, o: Outcome)
    requires t < |o.state.stacks|
  {
    o.event.Returned? ==>
      && o.event.cls < |o.state.classes|
      && var k := o.state.classes[o.event.cls];
         && (o.event.result.Done? ==> ReadyFor(k, t))
         && (o.event.result.Thrown? ==> k.status == ERROR)
         && (o.event.result.Quiet? ==> QuietMeaning(w, o.state, t, o.event.cls, o.event.statics, o.event.parents))
  }

  /** Why `InitializeClass` returns false without an exception: at compile time the class is to be verified
      again, and then, if nothing was forbidden, a subclass had asked; or what it takes was forbidden. */
  ghost predicate QuietMeaning(w: World, s: State, t: nat, c: nat, statics: bool, parents: bool)
    requires t < |s.stacks| && c < |s.classes|
  {
    && w.Valid() && |s.classes| == |w.infos|
    && (|| (&& w.isCompiler && s.classes[c].status == RETRY
            && (statics && parents ==> s.stacks[t] != [] && Top(s, t).Init? && Top(s, t).pc == SuperFailed(false)))
        || !CanInitialize(w, s.classes, c, statics, parents))
  }

  lemma EarlyReturn(w: World, s: State, t: nat, ch: Choice)
    requires Inv(w, s) && t < |s.stacks| && s.stacks[t] != [] && Top(s, t).Init?
    requires IsEntry(Top(s, t).pc)
    ensures ResultMeaning(w, t, InitStep(w, s, t, ch))
  {
    hide Inv, LockFree, CanInitialize, FlagsOk, SuperReady, ClassInv;
    TopInv(w, s, t);
    if Top(s, t).pc.AfterVerify? && !CalledByEnsure(s, t) {
      CallerInv(w, s, t);
    }
  }

  lemma LateReturn(w: World, s: State, t: nat, ch: Choice)
    requires Inv(w, s) && t < |s.stacks| && s.stacks[t] != [] && Top(s, t).Init?
    requires !IsEntry(Top(s, t).pc)
    ensures ResultMeaning(w, t, InitStep(w, s, t, ch))
  {
    hide Inv, LockFree, SuperReady, FlagsOk, ClassInv;
    TopInv(w, s, t);
  }

  /** `InitializeClass` returns true to a thread only for a class that is initialised or that the
      thread itself is initialising, and false with an exception only for an erroneous class; see
      `QuietMeaning` for false without an exception. */
  lemma ThreadReturns(w: World, s: State, t: nat, ch: Choice)
    requires Inv(w, s) && t < |s.stacks| && s.stacks[t] != [] && Top(s, t).Init?
    ensures ResultMeaning(w, t, InitStep(w, s, t, ch))
  {
    if IsEntry(Top(s, t).pc) {
      EarlyReturn(w, s, t, ch);
    } else {
      LateReturn(w, s, t, ch);
    }
  }

  /** The superclass of `c`, if it has one, is verified or erroneous. */
  predicate SuperVerified(w: World, classes: seq<Class>, c: nat)
    requires w.Valid() && c < |w.infos| == |classes|
  {
    w.infos[c].super.Some? ==> var super := classes[w.infos[c].super.value].status; super >= VERIFIED || super == ERROR
  }

  /** Where `VerifyClass` may leave class `c`, given the statuses of the other classes: verified or
      erroneous at runtime; at compile time also for re-verification.  What is settled it leaves alone.
      Otherwise, with verification on, it verifies a class only below a verified or erroneous superclass, and
      leaves it for re-verification, unless it rejects it, below one that is; with verification off it
      verifies everything. */
  ghost predicate VerifyResult(w: World, s: State, c: nat, status: Status)
    requires Wf(w, s) && c < |w.infos|
  {
    var super, before := w.infos[c].super, s.classes[c].status;
    && Settled(w, status)
    && (!w.isCompiler ==> status == ERROR || status >= VERIFIED)
    && if Settled(w, before) then status == before
       else if !w.verificationEnabled then status == VERIFIED
       else (status >= VERIFIED ==> SuperVerified(w, s.classes, c))
            && (super.Some? && s.classes[super.value].status == RETRY ==> status == ERROR || status == RETRY)
  }

  /** What a change of status of `c` has to do with verification: at compile time a class that is to be verified
      again stays so, none becomes so with verification off, and with verification on a class becomes verified
      only below a verified or erroneous superclass. */
  ghost predicate VerificationMove(w: World, classes: seq<Class>, classes': seq<Class>, c: nat)
    requires w.Valid() && c < |w.infos| == |classes| == |classes'|
  {
    var a, b := classes[c].status, classes'[c].status;
    && (w.isCompiler && a == RETRY ==> b == RETRY)
    && (a != RETRY && b == RETRY ==> w.verificationEnabled)
    && (w.verificationEnabled && a < VERIFIED <= b ==> SuperVerified(w, classes, c))
  }

  lemma InitVerification(w: World, s: State, t: nat, ch: Choice, c: nat)
    requires Inv(w, s) && t < |s.stacks| && s.stacks[t] != [] && Top(s, t).Init? && c < |s.classes|
    ensures VerificationMove(w, s.classes, InitStep(w, s, t, ch).state.classes, c)
  {
    hide Inv, CanInitialize, LockFree, SuperReady, FlagsOk, ClassInv;
    TopInv(w, s, t);
  }

  lemma VerifyVerification(w: World, s: State, t: nat, ch: Choice, c: nat)
    requires Inv(w, s) && t < |s.stacks| && s.stacks[t] != [] && Top(s, t).Verify? && c < |s.classes|
    ensures VerificationMove(w, s.classes, VerifyStep(w, s, t, ch).state.classes, c)
  {
    hide Inv, CanInitialize, LockFree, SuperReady, FlagsOk, ClassInv;
    TopInv(w, s, t);
  }

  lemma ThreadVerification(w: World, s: State, t: nat, ch: Choice, c: nat)
    requires Inv(w, s) && t < |s.stacks| && s.stacks[t] != [] && c < |s.classes|
    ensures VerificationMove(w, s.classes, ThreadStep(w, s, t, ch).state.classes, c)
  {
    hide Inv, InitStep, VerifyStep;
    if Top(s, t).Init? {
      InitVerification(w, s, t, ch, c);
    } else {
      VerifyVerification(w, s, t, ch, c);
    }
  }

  lemma BodyResult(w: World, s: State, t: nat, verdict: Verdict)
    requires Inv(w, s) && t < |s.stacks| && s.stacks[t] != [] && Top(s, t).Verify? && Top(s, t).vpc.VBody? && Top(s, t).cls < |w.infos|
    requires VerifyBody(w, s, t, Top(s, t).cls, verdict).event.VerifyReturned?
    ensures VerifyResult(w, s, Top(s, t).cls, VerifyBody(w, s, t, Top(s, t).cls, verdict).state.classes[Top(s, t).cls].status)
  {
    hide Inv;
    TopInv(w, s, t);
  }

  /** Below a superclass that has become erroneous, the last part of `VerifyClass` leaves its class
      verified exactly after a soft failure at runtime, and aborts exactly if there was no failure. */
  lemma ErrorSuperOutcome(w: World, s: State, t: nat, ch: Choice)
    requires Inv(w, s) && t < |s.stacks| && s.stacks[t] != [] && Top(s, t).Verify? && Top(s, t).vpc.VBody? && Top(s, t).cls < |w.infos|
    requires w.infos[Top(s, t).cls].super.Some? && w.infos[Top(s, t).cls].super.value < |s.classes|
    requires s.classes[w.infos[Top(s, t).cls].super.value].status == ERROR
    ensures var o, c := VerifyStep(w, s, t, ch), Top(s, t).cls;
            && |o.state.classes| == |w.infos|
            && (o.event.VerifyReturned? && o.state.classes[c].status == VERIFIED <==> ch.verdict.SoftFailure? && !w.isCompiler)
            && (o.event.Abort? <==> ch.verdict.NoFailure?)
  {
    hide Inv;
    TopInv(w, s, t);
  }

  ghost predicate VerifyOutcomeOk(w: World, s: State, o: Outcome)
    requires Wf(w, s)
  {
    o.event.VerifyReturned? ==>
      && o.event.cls < |o.state.classes| == |w.infos|
      && o.state.classes == s.classes[o.event.cls := o.state.classes[o.event.cls]]
      && VerifyResult(w, s, o.event.cls, o.state.classes[o.event.cls].status)
      && (o.event.thrown <==> o.state.classes[o.event.cls].status == ERROR)
  }

  lemma VerifyStepMeaning(w: World, s: State, t: nat, ch: Choice)
    requires Inv(w, s) && t < |s.stacks| && s.stacks[t] != [] && Top(s, t).Verify?
    ensures VerifyOutcomeOk(w, s, VerifyStep(w, s, t, ch))
  {
    hide Inv, LockFree;
    TopInv(w, s, t);
    if Top(s, t).vpc.VBody? && VerifyStep(w, s, t, ch).event.VerifyReturned? {
      BodyResult(w, s, t, ch.verdict);
    }
  }
}
