/** Reachable situations of the class initialisation protocol that rule out stronger claims. */
module ClassInitWitness {
  import opened Options
  import opened ClassInit
  import opened ClassInitInvariant
  import opened ClassInitSteps
  import opened ClassInitSafety
  import opened ClassInitTransaction
  import opened ClassInitRuns

  /** A path leads from `o` to `s`. */
  ghost predicate From(w: World, o: State, s: State) {
    exists states: seq<State>, actions: seq<Action> :: IsPath(w, states, actions) && states[0] == o && states[|actions|] == s
  }

  ghost predicate Reachable(w: World, s: State) {
    exists o :: Initial(w, o) && From(w, o, s)
  }

  lemma FromItself(w: World, s: State)
    ensures From(w, s, s)
  {
    var states, actions: seq<Action> := [s], [];
    assert IsPath(w, states, actions) && states[0] == s && states[|actions|] == s;
  }

  lemma StepFrom(w: World, o: State, s: State, a: Action)
    requires FullInv(w, o) && From(w, o, s) && a.t < |s.stacks|
    ensures FullInv(w, s) && From(w, o, StepOf(w, s, a).state) && FullInv(w, StepOf(w, s, a).state)
  {
    var states, actions :| IsPath(w, states, actions) && states[0] == o && states[|actions|] == s;
    PathInv(w, states, actions, |actions|);
    StepKeeps(w, s, a.t, a.choice);
    var states', actions' := states + [StepOf(w, s, a).state], actions + [a];
    forall i | 0 <= i < |actions'|
      ensures Wf(w, states'[i]) && actions'[i].t < |states'[i].stacks| && states'[i + 1] == StepOf(w, states'[i], actions'[i]).state
    {
      if i < |actions| {
        assert states[i + 1] == StepOf(w, states[i], actions[i]).state;
      }
    }
    assert IsPath(w, states', actions') && states'[0] == o && states'[|actions'|] == StepOf(w, s, a).state;
  }

  const GO := Choice(true, None, NoFailure)

  function Ask(c: nat): Choice {
    Choice(true, Some(Ensure(c, true, true)), NoFailure)
  }

  /** An activation that may initialise superclasses, and statics if `statics`. */
  function Open(c: nat, pc: InitPc, statics: bool): Frame {
    Init(c, pc, statics, true)
  }

  /** An activation that may initialise statics and superclasses. */
  function Full(c: nat, pc: InitPc): Frame {
    Open(c, pc, true)
  }

  /** State `s` with one class and one stack replaced. */
  function With(s: State, c: nat, k: Class, t: nat, stack: seq<Frame>): State
    requires c < |s.classes| && t < |s.stacks|
  {
    s.(classes := s.classes[c := k], stacks := s.stacks[t := stack])
  }

  /** A state reached from `o` in which thread `t` may go on with the frames `stack`; if it is in a transaction,
      undoing that leads back to `h`. */
  ghost predicate At(w: World, o: State, h: seq<Class>, s: State, t: nat, stack: seq<Frame>) {
    && FullInv(w, o) && From(w, o, s) && FullInv(w, s) && Wf(w, s) && s.aborted.None?
    && t < |s.stacks| && s.stacks[t] == stack && (s.tx.Some? ==> s.tx.value.thread == t && Undone(s.tx.value.log, s.classes) == h)
  }

  /** `s` is `e` apart from what a transaction has logged. */
  ghost predicate Like(s: State, e: State) {
    && s.classes == e.classes && s.stacks == e.stacks && s.aborted == e.aborted
    && (s.tx.Some? <==> e.tx.Some?) && (s.tx.Some? ==> s.tx.value.thread == e.tx.value.thread)
  }

  /** One step of thread `t` whose outcome is known. */
  lemma Advance(w: World, o: State, s: State, t: nat, ch: Choice) returns (s': State)
    requires FullInv(w, o) && From(w, o, s) && FullInv(w, s) && t < |s.stacks|
    ensures s' == StepOf(w, s, Action(t, ch)).state && From(w, o, s') && FullInv(w, s') && Wf(w, s')
    ensures s.tx.Some? && s'.tx.Some? ==> Undone(s'.tx.value.log, s'.classes) == Undone(s.tx.value.log, s.classes)
  {
    StepFrom(w, o, s, Action(t, ch));
    TransactionMoves(w, s, t, ch);
    s' := StepOf(w, s, Action(t, ch)).state;
  }

  /** The frame `f` on top of `base` moves on to `f'` and its class becomes `k`. */
  lemma Move(w: World, o: State, h: seq<Class>, s: State, t: nat, ch: Choice, base: seq<Frame>, f: Frame, f': Frame, k: Class) returns (s': State)
    requires At(w, o, h, s, t, base + [f]) && f.cls < |s.classes|
    requires var r := ThreadStep(w, s, t, ch); r.state == Goto(SetClass(s, f.cls, k), t, f') && !r.event.Returned?
    ensures Like(s', With(s, f.cls, k, t, base + [f'])) && At(w, o, h, s', t, base + [f'])
  {
    hide ThreadStep;
    assert s.stacks[t][..|base|] == base;
    s' := Advance(w, o, s, t, ch);
  }

  /** From entry to holding the monitor. */
  lemma EnterToLocked(w: World, o: State, h: seq<Class>, s: State, t: nat, base: seq<Frame>, c: nat, statics: bool) returns (s': State)
    requires At(w, o, h, s, t, base + [Open(c, Enter, statics)]) && c < |s.classes| && s.classes[c].status != INITIALIZED && LockFree(w, s, t, c)
    requires statics || (c < |w.infos| && NoStatics(w, c))
    ensures Like(s', With(s, c, s.classes[c], t, base + [Open(c, Locked, statics)])) && At(w, o, h, s', t, base + [Open(c, Locked, statics)])
  {
    hide FullInv, From, NoStatics;
    s' := Move(w, o, h, s, t, GO, base, Open(c, Enter, statics), Open(c, Eligible, statics), s.classes[c]);
    NoStaticsEligible(w, s', c, statics);
    s' := Move(w, o, h, s', t, GO, base, Open(c, Eligible, statics), Open(c, Lock, statics), s.classes[c]);
    assert LockFree(w, s', t, c);
    s' := Move(w, o, h, s', t, GO, base, Open(c, Lock, statics), Open(c, Locked, statics), s.classes[c]);
  }

  /** From entry to claiming a verified class. */
  lemma EnterToSuper(w: World, o: State, h: seq<Class>, s: State, t: nat, base: seq<Frame>, c: nat) returns (s': State)
    requires At(w, o, h, s, t, base + [Full(c, Enter)]) && c < |s.classes| && s.classes[c].status == VERIFIED && LockFree(w, s, t, c)
    ensures Like(s', With(s, c, Class(INITIALIZING, Some(t), s.classes[c].runs), t, base + [Full(c, Super)]))
    ensures At(w, o, h, s', t, base + [Full(c, Super)])
  {
    hide FullInv, From;
    s' := EnterToLocked(w, o, h, s, t, base, c, true);
    s' := Move(w, o, h, s', t, GO, base, Full(c, Locked), Full(c, Claim), s.classes[c]);
    s' := Move(w, o, h, s', t, GO, base, Full(c, Claim), Full(c, Super), Class(INITIALIZING, Some(t), s.classes[c].runs));
  }

  /** From entry to running `<clinit>`, when the superclass needs nothing. */
  lemma EnterToRunning(w: World, o: State, h: seq<Class>, s: State, t: nat, base: seq<Frame>, c: nat) returns (s': State)
    requires At(w, o, h, s, t, base + [Full(c, Enter)]) && c < |s.classes| == |w.infos| && s.classes[c].status == VERIFIED && LockFree(w, s, t, c)
    requires w.infos[c].hasClinit && (w.HasInitSuper(c) ==> s.classes[w.infos[c].super.value].status == INITIALIZED)
    ensures Like(s', With(s, c, Class(INITIALIZING, Some(t), s.classes[c].runs + 1), t, base + [Full(c, Running)]))
    ensures At(w, o, h, s', t, base + [Full(c, Running)])
  {
    hide FullInv, From;
    s' := EnterToSuper(w, o, h, s, t, base, c);
    s' := Move(w, o, h, s', t, GO, base, Full(c, Super), Full(c, Clinit), s'.classes[c]);
    s' := Move(w, o, h, s', t, GO, base, Full(c, Clinit), Full(c, Running), Class(INITIALIZING, Some(t), s.classes[c].runs + 1));
  }

  /** `<clinit>` is over, normally or not. */
  lemma RunningToFinish(w: World, o: State, h: seq<Class>, s: State, t: nat, base: seq<Frame>, c: nat, ok: bool) returns (s': State)
    requires At(w, o, h, s, t, base + [Full(c, Running)]) && c < |s.classes|
    ensures Like(s', With(s, c, s.classes[c], t, base + [Full(c, Finish(!ok))])) && At(w, o, h, s', t, base + [Full(c, Finish(!ok))])
  {
    s' := Move(w, o, h, s, t, Choice(ok, None, NoFailure), base, Full(c, Running), Full(c, Finish(!ok)), s.classes[c]);
  }

  /** `<clinit>` completes and control returns to Java code, outside transactions or inside one that goes on. */
  lemma RunningToDone(w: World, o: State, h: seq<Class>, s: State, t: nat, base: seq<Frame>, c: nat, ok: bool) returns (s': State)
    requires At(w, o, h, s, t, base + [Full(c, Running)]) && c < |s.classes| && LockFree(w, s, t, c)
    requires if base == [] then s.tx.None? else base[|base| - 1].Init? && base[|base| - 1].pc.Running?
    ensures Like(s', With(s, c, s.classes[c].(status := if ok then INITIALIZED else ERROR), t, base)) && At(w, o, h, s', t, base)
  {
    var m := RunningToFinish(w, o, h, s, t, base, c, ok);
    assert LockFree(w, m, t, c);
    FinishOutcome(w, m, t, base, c, !ok);
    hide ThreadStep, Inv, TxInv;
    s' := Advance(w, o, m, t, GO);
  }

  /** The last step of `InitializeClass`. */
  lemma FinishOutcome(w: World, s: State, t: nat, base: seq<Frame>, c: nat, threw: bool)
    requires Inv(w, s) && t < |s.stacks| && s.stacks[t] == base + [Full(c, Finish(threw))] && c < |s.classes| && LockFree(w, s, t, c)
    requires base == [] || (base[|base| - 1].Init? && base[|base| - 1].pc.Running?)
    ensures ThreadStep(w, s, t, GO) == Outcome(With(s, c, s.classes[c].(status := if threw then ERROR else INITIALIZED), t, base),
                                               Returned(c, if threw then Thrown else Done, true, true))
  {
    var n := |base| + 1;
    assert FrameInv(w, s, t, n - 1);
    assert n >= 2 ==> s.stacks[t][..n - 2] + [s.stacks[t][n - 2]] == base;
  }

  /** Java code run by an idle thread or by a `<clinit>` asks for class `c`. */
  lemma AskFor(w: World, o: State, h: seq<Class>, s: State, t: nat, base: seq<Frame>, c: nat) returns (s': State)
    requires At(w, o, h, s, t, base) && c < |w.infos|
    requires if base == [] then s.tx.None? else base[|base| - 1].Init? && base[|base| - 1].pc.Running?
    ensures Like(s', s.(stacks := s.stacks[t := base + [Full(c, Enter)]])) && At(w, o, h, s', t, base + [Full(c, Enter)])
  {
    if base == [] {
      assert base + [Full(c, Enter)] == [Full(c, Enter)];
    } else {
      assert base[..|base| - 1] + [base[|base| - 1], Full(c, Enter)] == base + [Full(c, Enter)];
    }
    s' := Advance(w, o, s, t, Ask(c));
  }

  /** A superclass `g` that is not initialised is asked for on behalf of `p`. */
  lemma EnterToAwaitSuper(w: World, o: State, h: seq<Class>, s: State, t: nat, base: seq<Frame>, p: nat, g: nat) returns (s': State)
    requires At(w, o, h, s, t, base + [Full(p, Enter)]) && p < |s.classes| == |w.infos| && s.classes[p].status == VERIFIED && LockFree(w, s, t, p)
    requires w.HasInitSuper(p) && w.infos[p].super == Some(g) && g < p && s.classes[g].status != INITIALIZED
    ensures Like(s', With(s, p, Class(INITIALIZING, Some(t), s.classes[p].runs), t, base + [Full(p, AwaitSuper)] + [Full(g, Enter)]))
    ensures At(w, o, h, s', t, base + [Full(p, AwaitSuper)] + [Full(g, Enter)])
  {
    var m := EnterToSuper(w, o, h, s, t, base, p);
    assert m.stacks[t][..|base|] == base;
    assert base + [Full(p, AwaitSuper)] + [Full(g, Enter)] == base + [Full(p, AwaitSuper), Full(g, Enter)];
    s' := Advance(w, o, m, t, GO);
  }

  /** The superclass turns out to be under initialisation by the same thread. */
  lemma RecursiveRequest(w: World, o: State, h: seq<Class>, s: State, t: nat, base: seq<Frame>, p: nat, g: nat) returns (s': State)
    requires At(w, o, h, s, t, base + [Full(p, AwaitSuper)] + [Full(g, Enter)]) && g < |s.classes| && LockFree(w, s, t, g)
    requires s.classes[g].status == INITIALIZING && s.classes[g].owner == Some(t)
    ensures Like(s', s.(stacks := s.stacks[t := base + [Full(p, Clinit)]])) && At(w, o, h, s', t, base + [Full(p, Clinit)])
  {
    hide FullInv, From;
    var lower := base + [Full(p, AwaitSuper)];
    var m := EnterToLocked(w, o, h, s, t, lower, g, true);
    m := Move(w, o, h, m, t, GO, lower, Full(g, Locked), Full(g, Claim), s.classes[g]);
    assert m.stacks[t][..|base|] == base && m.stacks[t][|base|] == Full(p, AwaitSuper);
    s' := Advance(w, o, m, t, GO);
  }

  /** An unverified class is handed to `VerifyClass`. */
  lemma EnterToVerify(w: World, o: State, h: seq<Class>, s: State, t: nat, base: seq<Frame>, c: nat, statics: bool) returns (s': State)
    requires At(w, o, h, s, t, base + [Open(c, Enter, statics)]) && c < |s.classes| && RESOLVED <= s.classes[c].status < VERIFIED && LockFree(w, s, t, c)
    requires statics || (c < |w.infos| && NoStatics(w, c))
    ensures Like(s', With(s, c, s.classes[c], t, base + [Open(c, AwaitVerify, statics)] + [Verify(c, VEnter)]))
    ensures At(w, o, h, s', t, base + [Open(c, AwaitVerify, statics)] + [Verify(c, VEnter)])
  {
    hide FullInv, From;
    var m := EnterToLocked(w, o, h, s, t, base, c, statics);
    assert m.stacks[t][..|base|] == base;
    assert base + [Open(c, AwaitVerify, statics)] + [Verify(c, VEnter)] == base + [Open(c, AwaitVerify, statics), Verify(c, VEnter)];
    s' := Advance(w, o, m, t, GO);
  }

  /** Only threads 0 and 1 do anything, and the other of the two holds no monitor of `c`. */
  lemma AloneIsFree(w: World, s: State, t: nat, other: nat, c: nat)
    requires (t == 0 && other == 1) || (t == 1 && other == 0)
    requires |s.stacks| > 1 && (forall u :: 2 <= u < |s.stacks| ==> s.stacks[u] == [])
    requires forall j :: 0 <= j < |s.stacks[other]| ==> !Holds(w, s.stacks[other][j], c)
    ensures LockFree(w, s, t, c)
  {
    forall u, j | 0 <= u < |s.stacks| && u != t && 0 <= j < |s.stacks[u]| ensures !Holds(w, s.stacks[u][j], c) {
      assert u == other;
    }
  }

  lemma InitialAt(w: World, s: State, t: nat)
    requires Initial(w, s) && t < |s.stacks|
    ensures At(w, s, s.classes, s, t, [])
  {
    InitialInv(w, s);
    FromItself(w, s);
  }

  // ---------- The whole superclass chain need not be ready ----------

  /** Classes `g`, `p` and `c`, each the superclass of the next, all verified and with a `<clinit>`,
      in a quiescent state with two idle threads. */
  ghost predicate ChainStart(w: World, s: State, g: nat, p: nat, c: nat) {
    && Initial(w, s) && |s.stacks| >= 2 && c < |w.infos| && g < p < c
    && w.infos[c].super == Some(p) && w.infos[p].super == Some(g) && w.infos[g].super.None?
    && !w.infos[c].isInterface && w.infos[c].hasClinit && w.infos[p].hasClinit && w.infos[g].hasClinit
    && s.classes[c].status == s.classes[p].status == s.classes[g].status == VERIFIED
  }

  /** Thread 0 runs the `<clinit>` of `g`. */
  lemma ChainFirst(w: World, s: State, g: nat, p: nat, c: nat) returns (s': State)
    requires ChainStart(w, s, g, p, c)
    ensures At(w, s, s.classes, s', 0, [Full(g, Running)])
    ensures Like(s', With(s, g, Class(INITIALIZING, Some(0), 1), 0, [Full(g, Running)]))
  {
    hide FullInv, From;
    InitialAt(w, s, 0);
    s' := AskFor(w, s, s.classes, s, 0, [], g);
    AloneIsFree(w, s', 0, 1, g);
    s' := EnterToRunning(w, s, s.classes, s', 0, [], g);
    assert [] + [Full(g, Running)] == [Full(g, Running)];
  }

  /** That `<clinit>` asks for `p`, which comes back to `g`. */
  lemma ChainSecond(w: World, s: State, g: nat, p: nat, c: nat) returns (s': State)
    requires ChainStart(w, s, g, p, c)
    ensures At(w, s, s.classes, s', 0, [Full(g, Running)] + [Full(p, Clinit)])
    ensures Like(s', With(With(s, g, Class(INITIALIZING, Some(0), 1), 0, []), p, Class(INITIALIZING, Some(0), 0), 0, [Full(g, Running)] + [Full(p, Clinit)]))
  {
    hide FullInv, From;
    var base := [Full(g, Running)];
    s' := ChainFirst(w, s, g, p, c);
    s' := AskFor(w, s, s.classes, s', 0, base, p);
    AloneIsFree(w, s', 0, 1, p);
    s' := EnterToAwaitSuper(w, s, s.classes, s', 0, base, p, g);
    AloneIsFree(w, s', 0, 1, g);
    s' := RecursiveRequest(w, s, s.classes, s', 0, base, p, g);
  }

  /** So `p` is initialised while `g` still is not. */
  lemma ChainThird(w: World, s: State, g: nat, p: nat, c: nat) returns (s': State)
    requires ChainStart(w, s, g, p, c)
    ensures At(w, s, s.classes, s', 0, [Full(g, Running)])
    ensures Like(s', With(With(s, g, Class(INITIALIZING, Some(0), 1), 0, []), p, Class(INITIALIZED, Some(0), 1), 0, [Full(g, Running)]))
  {
    hide FullInv, From;
    var base := [Full(g, Running)];
    s' := ChainSecond(w, s, g, p, c);
    s' := Move(w, s, s.classes, s', 0, GO, base, Full(p, Clinit), Full(p, Running), Class(INITIALIZING, Some(0), 1));
    AloneIsFree(w, s', 0, 1, p);
    s' := RunningToDone(w, s, s.classes, s', 0, base, p, true);
  }

  /** A thread can run the `<clinit>` of a class while a superclass of its superclass is still being
      initialised by another thread: the guarantee of `ChainReady` cannot go past the first
      initialised superclass. */
  lemma ChainNotReady(w: World, s: State, g: nat, p: nat, c: nat) returns (s': State)
    requires ChainStart(w, s, g, p, c)
    ensures Reachable(w, s') && |s'.stacks| == |s.stacks| && |s'.classes| == |s.classes|
    ensures s'.stacks[1] == [Full(c, Running)]
    ensures s'.classes[p].status == INITIALIZED && !ReadyFor(s'.classes[g], 1) && s'.classes[g].status == INITIALIZING
  {
    s' := ChainThird(w, s, g, p, c);
    s' := AskFor(w, s, s.classes, s', 1, [], c);
    AloneIsFree(w, s', 1, 0, c);
    s' := EnterToRunning(w, s, s.classes, s', 1, [], c);
    assert [] + [Full(c, Running)] == [Full(c, Running)];
  }

  // ---------- The superclass race in VerifyClass ----------

  /** At runtime: a verified class `p` with a `<clinit>`, and a subclass `c` that is only linked. */
  ghost predicate RaceStart(w: World, s: State, p: nat, c: nat) {
    && Initial(w, s) && |s.stacks| >= 2 && c < |w.infos| && p < c && w.verificationEnabled && !w.isCompiler
    && w.infos[c].super == Some(p) && w.infos[p].super.None? && w.infos[p].hasClinit
    && s.classes[c].status == RESOLVED && s.classes[p].status == VERIFIED
  }

  /** Thread 0 has the monitor of `c` in `VerifyClass`. */
  lemma RaceCall(w: World, s: State, p: nat, c: nat) returns (s': State)
    requires RaceStart(w, s, p, c)
    ensures At(w, s, s.classes, s', 0, [Full(c, AwaitVerify)] + [Verify(c, VLocked)])
    ensures Like(s', With(s, c, s.classes[c], 0, [Full(c, AwaitVerify)] + [Verify(c, VLocked)]))
  {
    hide FullInv, From;
    InitialAt(w, s, 0);
    s' := AskFor(w, s, s.classes, s, 0, [], c);
    AloneIsFree(w, s', 0, 1, c);
    s' := EnterToVerify(w, s, s.classes, s', 0, [], c, true);
    assert [] + [Full(c, AwaitVerify)] == [Full(c, AwaitVerify)];
    AloneIsFree(w, s', 0, 1, c);
    s' := Move(w, s, s.classes, s', 0, GO, [Full(c, AwaitVerify)], Verify(c, VEnter), Verify(c, VLocked), s.classes[c]);
  }

  /** `VerifyClass` finds the superclass `p` verified and goes on to verify `c`. */
  lemma VerifyToBody(w: World, o: State, h: seq<Class>, s: State, base: seq<Frame>, p: nat, c: nat) returns (s': State)
    requires At(w, o, h, s, 0, base + [Verify(c, VLocked)]) && p < c < |w.infos| == |s.classes| && w.infos[c].super == Some(p) && w.verificationEnabled
    requires s.classes[c].status == RESOLVED && s.classes[p].status == VERIFIED && LockFree(w, s, 0, p)
    ensures Like(s', With(s, c, s.classes[c].(status := VERIFYING), 0, base + [Verify(c, VBody)])) && At(w, o, h, s', 0, base + [Verify(c, VBody)])
  {
    hide FullInv, From;
    var k := s.classes[c].(status := VERIFYING);
    s' := Move(w, o, h, s, 0, GO, base, Verify(c, VLocked), Verify(c, VSuperLock), k);
    assert LockFree(w, s', 0, p);
    s' := Move(w, o, h, s', 0, GO, base, Verify(c, VSuperLock), Verify(c, VSuperHeld), k);
    s' := Move(w, o, h, s', 0, GO, base, Verify(c, VSuperHeld), Verify(c, VSuperChecked), k);
    s' := Move(w, o, h, s', 0, GO, base, Verify(c, VSuperChecked), Verify(c, VBody), k);
  }

  /** Thread 0 is about to run the verifier on `c`, having found `p` verified. */
  lemma RaceSetUp(w: World, s: State, p: nat, c: nat) returns (s': State)
    requires RaceStart(w, s, p, c)
    ensures At(w, s, s.classes, s', 0, [Full(c, AwaitVerify)] + [Verify(c, VBody)])
    ensures Like(s', With(s, c, s.classes[c].(status := VERIFYING), 0, [Full(c, AwaitVerify)] + [Verify(c, VBody)]))
  {
    hide FullInv, From;
    s' := RaceCall(w, s, p, c);
    AloneIsFree(w, s', 0, 1, p);
    s' := VerifyToBody(w, s, s.classes, s', [Full(c, AwaitVerify)], p, c);
  }

  /** Thread 1 fails to initialise `p` meanwhile. */
  lemma RaceFails(w: World, s: State, p: nat, c: nat) returns (s': State)
    requires RaceStart(w, s, p, c)
    ensures At(w, s, s.classes, s', 0, [Full(c, AwaitVerify)] + [Verify(c, VBody)]) && s'.tx.None?
    ensures |s'.classes| == |s.classes| && s'.classes[p].status == ERROR
  {
    hide FullInv, From;
    s' := RaceSetUp(w, s, p, c);
    s' := AskFor(w, s, s.classes, s', 1, [], p);
    AloneIsFree(w, s', 1, 0, p);
    s' := EnterToRunning(w, s, s.classes, s', 1, [], p);
    AloneIsFree(w, s', 1, 0, p);
    s' := RunningToDone(w, s, s.classes, s', 1, [], p, false);
  }

  /** When the initialiser of `p` fails in thread 1 before thread 0 looks at `p` again, the CHECK in
      `VerifyClass` that the superclass is due for re-verification fails. */
  lemma RaceAborts(w: World, s: State, p: nat, c: nat) returns (s': State)
    requires RaceStart(w, s, p, c)
    ensures Reachable(w, s') && s'.aborted == Some(SuperNotRetry)
  {
    var m := RaceFails(w, s, p, c);
    s' := Advance(w, s, m, 0, GO);
  }

  /** If the verifier finds a soft failure instead, `c` ends up verified below its erroneous superclass. */
  lemma VerifiedBelowError(w: World, s: State, p: nat, c: nat) returns (s': State)
    requires RaceStart(w, s, p, c)
    ensures Reachable(w, s') && |s'.classes| == |s.classes| && s'.aborted.None?
    ensures s'.classes[c].status == VERIFIED && s'.classes[p].status == ERROR
  {
    var m := RaceFails(w, s, p, c);
    assert FrameInv(w, m, 0, 1);
    s' := Advance(w, s, m, 0, Choice(true, None, SoftFailure));
  }

  // ---------- A superclass that is to be verified again ----------

  /** At compile time and with verification off: a class `p` that came to be verified again, and a subclass `c`
      that is only linked. */
  ghost predicate RetrySuperStart(w: World, s: State, p: nat, c: nat, statics: bool) {
    && Initial(w, s) && |s.stacks| >= 2 && w.isCompiler && !w.verificationEnabled && p < c < |w.infos|
    && w.infos[c].super == Some(p) && !w.infos[c].isInterface && (statics || NoStatics(w, c))
    && s.classes[c].status == RESOLVED && s.classes[p].status == RETRY
  }

  /** `VerifyClass` verifies `c` without a look at `p`. */
  lemma SubclassVerified(w: World, s: State, p: nat, c: nat, statics: bool) returns (s': State)
    requires RetrySuperStart(w, s, p, c, statics)
    ensures At(w, s, s.classes, s', 0, [] + [Open(c, AfterVerify(false), statics)])
    ensures Like(s', With(s, c, s.classes[c].(status := VERIFIED), 0, [] + [Open(c, AfterVerify(false), statics)]))
  {
    hide FullInv, From;
    InitialAt(w, s, 0);
    assert [] + [Open(c, Enter, statics)] == [Open(c, Enter, statics)];
    s' := Advance(w, s, s, 0, Choice(true, Some(Ensure(c, statics, true)), NoFailure));
    AloneIsFree(w, s', 0, 1, c);
    s' := EnterToVerify(w, s, s.classes, s', 0, [], c, statics);
    AloneIsFree(w, s', 0, 1, c);
    s' := Move(w, s, s.classes, s', 0, GO, [] + [Open(c, AwaitVerify, statics)], Verify(c, VEnter), Verify(c, VLocked), s.classes[c]);
    s' := VerifiedUnseen(w, s, s', c, statics);
  }

  lemma VerifiedUnseen(w: World, o: State, s: State, c: nat, statics: bool) returns (s': State)
    requires At(w, o, o.classes, s, 0, [] + [Open(c, AwaitVerify, statics)] + [Verify(c, VLocked)]) && s.tx.None?
    requires !w.verificationEnabled && c < |s.classes| && s.classes[c].status == RESOLVED
    ensures At(w, o, o.classes, s', 0, [] + [Open(c, AfterVerify(false), statics)])
    ensures Like(s', With(s, c, s.classes[c].(status := VERIFIED), 0, [] + [Open(c, AfterVerify(false), statics)]))
  {
    hide FullInv, From;
    s' := Advance(w, o, s, 0, GO);
  }

  /** So `c` is claimed, and `p` is asked for. */
  lemma SuperAsked(w: World, s: State, p: nat, c: nat, statics: bool) returns (s': State)
    requires RetrySuperStart(w, s, p, c, statics)
    ensures At(w, s, s.classes, s', 0, [Open(c, AwaitSuper, statics)] + [Open(p, Enter, statics)])
    ensures Like(s', With(s, c, s.classes[c].(status := INITIALIZING, owner := Some(0)), 0, [Open(c, AwaitSuper, statics)] + [Open(p, Enter, statics)]))
  {
    hide FullInv, From;
    var k := s.classes[c];
    s' := SubclassVerified(w, s, p, c, statics);
    s' := Move(w, s, s.classes, s', 0, GO, [], Open(c, AfterVerify(false), statics), Open(c, Claim, statics), k.(status := VERIFIED));
    s' := Move(w, s, s.classes, s', 0, GO, [], Open(c, Claim, statics), Open(c, Super, statics), k.(status := INITIALIZING, owner := Some(0)));
    s' := Advance(w, s, s', 0, GO);
  }

  /** `VerifyClass` leaves `p` alone, its initialisation fails without an exception, and the check on a failed
      superclass fails. */
  lemma RetrySuperAborts(w: World, s: State, p: nat, c: nat, statics: bool) returns (s': State)
    requires RetrySuperStart(w, s, p, c, statics)
    ensures Reachable(w, s') && s'.aborted == Some(SuperNotErroneous)
  {
    hide FullInv, From;
    var base := [Open(c, AwaitSuper, statics)];
    s' := SuperAsked(w, s, p, c, statics);
    AloneIsFree(w, s', 0, 1, p);
    s' := EnterToVerify(w, s, s.classes, s', 0, base, p, statics);
    AloneIsFree(w, s', 0, 1, p);
    s' := Move(w, s, s.classes, s', 0, GO, base + [Open(p, AwaitVerify, statics)], Verify(p, VEnter), Verify(p, VLocked), s.classes[p]);
    s' := SuperRefusedNow(w, s, s', p, c, statics);
  }

  lemma SuperRefusedNow(w: World, o: State, s: State, p: nat, c: nat, statics: bool) returns (s': State)
    requires FullInv(w, o) && From(w, o, s) && FullInv(w, s) && Wf(w, s) && w.isCompiler && s.aborted.None? && s.tx.None? && 0 < |s.stacks|
    requires s.stacks[0] == [Open(c, AwaitSuper, statics)] + [Open(p, AwaitVerify, statics)] + [Verify(p, VLocked)]
    requires c < |w.infos| && w.infos[c].super == Some(p) && p < |s.classes| && s.classes[p].status == RETRY
    ensures From(w, o, s') && s'.aborted == Some(SuperNotErroneous)
  {
    hide FullInv, From, LockFree;
    s' := Advance(w, o, s, 0, GO);
    assert s'.stacks[0] == [Open(c, AwaitSuper, statics), Open(p, AfterVerify(false), statics)];
    s' := Advance(w, o, s', 0, GO);
    assert s'.stacks[0] == [Open(c, SuperFailed(false), statics)];
    s' := Advance(w, o, s', 0, GO);
  }

  // ---------- Transactions ----------

  /** At compile time: a verified class `c` with a `<clinit>` and no superclass. */
  ghost predicate CompileStart(w: World, s: State, c: nat) {
    && Initial(w, s) && |s.stacks| >= 2 && w.isCompiler && c < |w.infos| && w.infos[c].super.None? && w.infos[c].hasClinit
    && s.classes[c].status == VERIFIED
  }

  /** All is quiet and `c` is waiting to be initialised. */
  ghost predicate Quiescent(w: World, s: State, c: nat) {
    && FullInv(w, s) && |s.stacks| >= 2 && w.isCompiler && c < |w.infos| == |s.classes| && w.infos[c].super.None? && w.infos[c].hasClinit
    && s.classes[c].status == VERIFIED && s.classes[c].runs == 0 && AllIdle(s) && s.tx.None? && s.aborted.None?
  }

  /** A transaction begins. */
  lemma TransactionBegins(w: World, o: State, s: State, c: nat) returns (s': State)
    requires FullInv(w, o) && From(w, o, s) && Quiescent(w, s, c)
    ensures At(w, o, s.classes, s', 0, [] + [Full(c, Enter)])
    ensures Like(s', s.(stacks := s.stacks[0 := [] + [Full(c, Enter)]], tx := Some(Transaction(0, map[]))))
  {
    assert [] + [Full(c, Enter)] == [Full(c, Enter)];
    s' := Advance(w, o, s, 0, Choice(true, Some(Transact(c)), NoFailure));
    TransactionMoves(w, s, 0, Choice(true, Some(Transact(c)), NoFailure));
  }

  /** It gets to the point where the `<clinit>` of `c` is started. */
  lemma TransactionToClinit(w: World, o: State, s: State, c: nat) returns (s': State)
    requires FullInv(w, o) && From(w, o, s) && Quiescent(w, s, c)
    ensures At(w, o, s.classes, s', 0, [] + [Full(c, Clinit)])
    ensures Like(s', With(s, c, Class(INITIALIZING, Some(0), 0), 0, [] + [Full(c, Clinit)]).(tx := Some(Transaction(0, map[]))))
  {
    s' := TransactionBegins(w, o, s, c);
    AloneIsFree(w, s', 0, 1, c);
    s' := EnterToSuper(w, o, s.classes, s', 0, [], c);
    s' := Move(w, o, s.classes, s', 0, GO, [], Full(c, Super), Full(c, Clinit), s'.classes[c]);
  }

  /** A state in which thread 0, in a transaction from `h`, is running the `<clinit>` of `c`. */
  ghost predicate InClinit(w: World, o: State, h: seq<Class>, s: State, c: nat) {
    && At(w, o, h, s, 0, [] + [Full(c, Running)]) && s.tx.Some? && |s.stacks| >= 2 && c < |s.classes| == |w.infos|
    && forall u :: 1 <= u < |s.stacks| ==> s.stacks[u] == []
  }

  /** The step that starts it. */
  lemma ClinitStarts(w: World, o: State, h: seq<Class>, s: State, c: nat) returns (s': State)
    requires At(w, o, h, s, 0, [] + [Full(c, Clinit)]) && s.tx.Some? && |s.stacks| >= 2 && c < |s.classes| == |w.infos| && w.infos[c].hasClinit
    ensures StepOf(w, s, Action(0, GO)) == Outcome(s', Started(c)) && InClinit(w, o, h, s', c)
    ensures |s'.stacks| == |s.stacks| && forall d :: 0 <= d < |s.classes| && d != c ==> s'.classes[d] == s.classes[d]
  {
    var k := s.classes[c].(runs := s.classes[c].runs + 1);
    s' := Move(w, o, h, s, 0, GO, [], Full(c, Clinit), Full(c, Running), k);
    s' := Advance(w, o, s, 0, GO);
  }

  /** Its failure takes everything back. */
  lemma ClinitFails(w: World, o: State, h: seq<Class>, s: State, c: nat) returns (s': State)
    requires InClinit(w, o, h, s, c)
    ensures From(w, o, s') && FullInv(w, s') && s'.classes == h && AllIdle(s') && s'.tx.None? && s'.aborted.None? && |s'.stacks| == |s.stacks|
  {
    var m := RunningToFinish(w, o, h, s, 0, [], c, false);
    AloneIsFree(w, m, 0, 1, c);
    FinishOutcome(w, m, 0, [], c, true);
    hide ThreadStep, Inv;
    s' := Advance(w, o, m, 0, GO);
    TransactionMoves(w, m, 0, GO);
  }

  /** Paths one behind the other. */
  lemma Joined(w: World, states: seq<State>, actions: seq<Action>, states': seq<State>, actions': seq<Action>)
    requires IsPath(w, states, actions) && IsPath(w, states', actions') && states[|actions|] == states'[0]
    ensures var all, acts := states + states'[1..], actions + actions';
            && IsPath(w, all, acts) && all[0] == states[0] && all[|acts|] == states'[|actions'|]
            && (forall i :: 0 <= i < |actions| ==> EventAt(w, all, acts, i) == EventAt(w, states, actions, i))
            && (forall i :: 0 <= i < |actions'| ==> EventAt(w, all, acts, |actions| + i) == EventAt(w, states', actions', i))
  {
    hide Step, Wf;
    var all, acts := states + states'[1..], actions + actions';
    forall i | 0 <= i < |acts|
      ensures Wf(w, all[i]) && acts[i].t < |all[i].stacks| && all[i + 1] == StepOf(w, all[i], acts[i]).state
    {
      if i < |actions| {
        assert states[i + 1] == StepOf(w, states[i], actions[i]).state;
      } else {
        var k := i - |actions|;
        assert all[i] == states'[k] && acts[i] == actions'[k] && all[i + 1] == states'[k + 1];
        assert states'[k + 1] == StepOf(w, states'[k], actions'[k]).state;
      }
    }
    forall i | 0 <= i < |actions'| ensures EventAt(w, all, acts, |actions| + i) == EventAt(w, states', actions', i) {
      assert all[|actions| + i] == states'[i];
    }
  }

  /** A path with one more step. */
  lemma Extended(w: World, states: seq<State>, actions: seq<Action>, a: Action)
    requires IsPath(w, states, actions) && FullInv(w, states[0]) && a.t < |states[|actions|].stacks|
    ensures FullInv(w, states[|actions|])
    ensures var all, acts := states + [StepOf(w, states[|actions|], a).state], actions + [a];
            && IsPath(w, all, acts) && all[0] == states[0] && all[|acts|] == StepOf(w, states[|actions|], a).state
            && EventAt(w, all, acts, |actions|) == StepOf(w, states[|actions|], a).event
  {
    PathInv(w, states, actions, |actions|);
    var all, acts := states + [StepOf(w, states[|actions|], a).state], actions + [a];
    forall i | 0 <= i < |acts|
      ensures Wf(w, all[i]) && acts[i].t < |all[i].stacks| && all[i + 1] == StepOf(w, all[i], acts[i]).state
    {
      if i < |actions| {
        assert states[i + 1] == StepOf(w, states[i], actions[i]).state;
      }
    }
  }

  /** A path from `o` that ends with the start of the `<clinit>` of `c` in state `m`. */
  lemma PathToStart(w: World, o: State, m: State, c: nat) returns (states: seq<State>, actions: seq<Action>)
    requires FullInv(w, o) && From(w, o, m) && FullInv(w, m) && 0 < |m.stacks| && StepOf(w, m, Action(0, GO)).event == Started(c)
    ensures IsPath(w, states, actions) && states[0] == o && |actions| > 0 && states[|actions|] == StepOf(w, m, Action(0, GO)).state
    ensures EventAt(w, states, actions, |actions| - 1) == Started(c)
  {
    var st, ac :| IsPath(w, st, ac) && st[0] == o && st[|ac|] == m;
    Extended(w, st, ac, Action(0, GO));
    states, actions := st + [StepOf(w, m, Action(0, GO)).state], ac + [Action(0, GO)];
  }

  /** A `<clinit>` that fails in a transaction can be started again: a run with two starts. */
  lemma ClinitStartsAgain(w: World, s: State, c: nat) returns (states: seq<State>, actions: seq<Action>, i: nat, j: nat)
    requires CompileStart(w, s, c)
    ensures IsRun(w, states, actions) && states[0] == s && i < j < |actions|
    ensures EventAt(w, states, actions, i) == Started(c) && EventAt(w, states, actions, j) == Started(c)
  {
    InitialAt(w, s, 0);
    assert Quiescent(w, s, c);
    hide Inv, TxInv, From, Step;
    var m := TransactionToClinit(w, s, s, c);
    var n := ClinitStarts(w, s, s.classes, m, c);
    var st, ac := PathToStart(w, s, m, c);
    FromItself(w, n);
    var r := ClinitFails(w, n, s.classes, n, c);
    var m' := TransactionToClinit(w, n, r, c);
    var n' := ClinitStarts(w, n, r.classes, m', c);
    var st', ac' := PathToStart(w, n, m', c);
    Joined(w, st, ac, st', ac');
    states, actions := st + st'[1..], ac + ac';
    i, j := |ac| - 1, |ac| + |ac'| - 1;
    assert EventAt(w, states, actions, |ac| + (|ac'| - 1)) == Started(c);
  }

  /** A class `d` that the `<clinit>` of `c` has initialised in a transaction is Initialized, and is not any
      more once the transaction has failed. */
  lemma InitializedTakenBack(w: World, s: State, c: nat, d: nat) returns (m: State, s': State)
    requires CompileStart(w, s, c) && CompileStart(w, s, d) && c != d
    ensures Reachable(w, m) && d < |m.classes| && m.classes[d].status == INITIALIZED
    ensures From(w, m, s') && d < |s'.classes| && s'.classes[d].status == VERIFIED
  {
    InitialAt(w, s, 0);
    assert Quiescent(w, s, c);
    hide Inv, TxInv, From;
    m := TransactionToClinit(w, s, s, c);
    m := ClinitStarts(w, s, s.classes, m, c);
    m := NestedInit(w, s, s.classes, m, c, d);
    FromItself(w, m);
    s' := ClinitFails(w, m, s.classes, m, c);
  }

  /** The `<clinit>` of `c` has `d` initialised. */
  lemma NestedInit(w: World, o: State, h: seq<Class>, s: State, c: nat, d: nat) returns (s': State)
    requires InClinit(w, o, h, s, c) && d < |w.infos| && c != d && s.classes[d].status == VERIFIED && w.infos[d].hasClinit && w.infos[d].super.None?
    ensures InClinit(w, o, h, s', c) && d < |s'.classes| && s'.classes[d].status == INITIALIZED
  {
    hide FullInv, From;
    var base := [] + [Full(c, Running)];
    s' := AskFor(w, o, h, s, 0, base, d);
    AloneIsFree(w, s', 0, 1, d);
    s' := EnterToRunning(w, o, h, s', 0, base, d);
    AloneIsFree(w, s', 0, 1, d);
    s' := RunningToDone(w, o, h, s', 0, base, d, true);
  }

  /** At compile time a `<clinit>` that needs a class `r` which is to be verified again at runtime makes
      `EnsureInitialized` fail without an exception, which it checks for. */
  lemma RetryAborts(w: World, s: State, c: nat, r: nat) returns (s': State)
    requires CompileStart(w, s, c) && r < |w.infos| && s.classes[r].status == RETRY
    ensures Reachable(w, s') && s'.aborted == Some(NoException)
  {
    InitialAt(w, s, 0);
    assert Quiescent(w, s, c);
    hide Inv, TxInv, From;
    s' := TransactionToClinit(w, s, s, c);
    s' := ClinitStarts(w, s, s.classes, s', c);
    var base := [] + [Full(c, Running)];
    s' := AskFor(w, s, s.classes, s', 0, base, r);
    AloneIsFree(w, s', 0, 1, r);
    s' := EnterToVerify(w, s, s.classes, s', 0, base, r, true);
    s' := RetryReturns(w, s, s.classes, s', base, r);
  }

  /** `VerifyClass` leaves it alone, and then the check fails. */
  lemma RetryReturns(w: World, o: State, h: seq<Class>, s: State, base: seq<Frame>, r: nat) returns (s': State)
    requires At(w, o, h, s, 0, base + [Full(r, AwaitVerify)] + [Verify(r, VEnter)]) && w.isCompiler
    requires r < |s.classes| && s.classes[r].status == RETRY && LockFree(w, s, 0, r)
    requires base != [] && base[|base| - 1].Init? && base[|base| - 1].pc.Running?
    ensures From(w, o, s') && s'.aborted == Some(NoException)
  {
    var lower := base + [Full(r, AwaitVerify)];
    var m := Move(w, o, h, s, 0, GO, lower, Verify(r, VEnter), Verify(r, VLocked), s.classes[r]);
    s' := RetryChecked(w, o, m, base, r);
  }

  lemma RetryChecked(w: World, o: State, s: State, base: seq<Frame>, r: nat) returns (s': State)
    requires FullInv(w, o) && From(w, o, s) && FullInv(w, s) && Wf(w, s) && w.isCompiler && s.aborted.None? && 0 < |s.stacks|
    requires s.stacks[0] == base + [Full(r, AwaitVerify)] + [Verify(r, VLocked)] && r < |s.classes| && s.classes[r].status == RETRY
    requires base != [] && base[|base| - 1].Init? && base[|base| - 1].pc.Running?
    ensures From(w, o, s') && s'.aborted == Some(NoException)
  {
    hide FullInv, From, LockFree;
    assert s.stacks[0][..|base|] == base && s.stacks[0][|base|] == Full(r, AwaitVerify);
    var m := Advance(w, o, s, 0, GO);
    assert m.stacks[0] == base + [Full(r, AfterVerify(false))];
    s' := Advance(w, o, m, 0, GO);
  }
}
