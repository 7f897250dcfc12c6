/** Steps of the class initialisation protocol with transactions around them. */
module ClassInitTransaction {
  import opened Options
  import opened ClassInit
  import opened ClassInitInvariant
  import opened ClassInitSteps
  import opened ClassInitSafety

  // ---------- Undoing a log ----------

  /** Whatever is written, undoing the log leads back to the same classes. */
  lemma LoggedUndone(log: map<nat, Class>, old_: seq<Class>, new_: seq<Class>)
    requires |old_| == |new_|
    ensures Undone(Logged(log, old_, new_), new_) == Undone(log, old_)
  {
  }

  // ---------- The invariant ----------

  /** What classes look like while no thread is busy with one. */
  ghost predicate RestOk(w: World, classes: seq<Class>) {
    && w.Valid() && |classes| == |w.infos|
    && forall c {:trigger RestClass(w, classes, c)} :: 0 <= c < |classes| ==> RestClass(w, classes, c)
  }

  ghost predicate RestClass(w: World, classes: seq<Class>, c: nat)
    requires w.Valid() && c < |classes| == |w.infos|
  {
    var k := classes[c];
    && k.status in {ERROR, RESOLVED, RETRY, VERIFIED, INITIALIZED} && k.runs <= 1
    && (k.status != ERROR && k.status < INITIALIZING ==> k.runs == 0)
  }

  lemma RestInv(w: World, s: State)
    requires RestOk(w, s.classes) && AllIdle(s)
    ensures Inv(w, s)
  {
    assert Wf(w, s);
    forall c | 0 <= c < |s.classes| ensures ClassInv(w, s, c) {
      assert RestClass(w, s.classes, c);
    }
  }

  lemma IdleRest(w: World, s: State)
    requires Inv(w, s) && AllIdle(s)
    ensures RestOk(w, s.classes)
  {
    forall c | 0 <= c < |s.classes| ensures RestClass(w, s.classes, c) {
      assert ClassInv(w, s, c);
    }
  }

  /** A transaction is alone, its outermost activation initialises a class without restrictions, and
      undoing it leads back to classes at rest. */
  ghost predicate TxInv(w: World, s: State) {
    s.tx.Some? ==>
      var t := s.tx.value.thread;
      && w.isCompiler && t < |s.stacks| && s.stacks[t] != [] && s.stacks[t][0].Init? && s.stacks[t][0].statics && s.stacks[t][0].parents
      && (forall u {:trigger s.stacks[u]} :: 0 <= u < |s.stacks| && u != t ==> s.stacks[u] == [])
      && RestOk(w, Undone(s.tx.value.log, s.classes))
  }

  ghost predicate FullInv(w: World, s: State) {
    Inv(w, s) && TxInv(w, s)
  }

  // ---------- How stacks change ----------

  /** The activation at the bottom of a stack stays the same one. */
  predicate SameActivation(f: Frame, g: Frame) {
    f.cls == g.cls && f.Init? == g.Init? && (f.Init? ==> f.statics == g.statics && f.parents == g.parents)
  }

  /** From `s` to `s'` only the stack of `t` changes, and its bottom stays or is the frame that returned. */
  ghost predicate Moved(s: State, t: nat, s': State)
    requires t < |s.stacks| && s.stacks[t] != []
  {
    && |s'.stacks| == |s.stacks|
    && (forall u {:trigger s'.stacks[u]} :: 0 <= u < |s.stacks| && u != t ==> s'.stacks[u] == s.stacks[u])
    && (if s'.stacks[t] == [] then |s.stacks[t]| == 1 else SameActivation(s'.stacks[t][0], s.stacks[t][0]))
  }

  ghost predicate StackMoved(s: State, t: nat, o: Outcome)
    requires t < |s.stacks| && s.stacks[t] != []
  {
    Moved(s, t, o.state) && (o.state.stacks[t] == [] && s.stacks[t][0].Init? ==> o.event.Returned?)
  }

  lemma GotoMoved(s: State, t: nat)
    requires t < |s.stacks| && s.stacks[t] != []
    ensures forall m: State, f: Frame {:trigger Goto(m, t, f)} :: m.stacks == s.stacks && SameActivation(f, Top(s, t)) ==> Moved(s, t, Goto(m, t, f)) && Goto(m, t, f).stacks[t] != []
  {
  }

  lemma CallMoved(s: State, t: nat)
    requires t < |s.stacks| && s.stacks[t] != []
    ensures forall m: State, f: Frame, g: Frame {:trigger Call(m, t, f, g)} :: m.stacks == s.stacks && SameActivation(f, Top(s, t)) ==> Moved(s, t, Call(m, t, f, g)) && Call(m, t, f, g).stacks[t] != []
  {
  }

  lemma ReturnMoved(s: State, t: nat)
    requires t < |s.stacks| && s.stacks[t] != []
    ensures forall m: State, r: Result {:trigger Return(m, t, r)} :: m.stacks == s.stacks ==> Moved(s, t, Return(m, t, r))
  {
  }

  lemma ReturnInitMoved(s: State, t: nat, m: State, f: Frame, r: Result)
    requires t < |s.stacks| && s.stacks[t] != [] && m.stacks == s.stacks && f.Init?
    ensures StackMoved(s, t, ReturnInit(m, t, f, r))
  {
    ReturnMoved(s, t);
  }

  /** Every way in which a step of an `InitializeClass` frame leaves the stacks. */
  lemma AllMoved(w: World, s: State, t: nat)
    requires Wf(w, s) && t < |s.stacks| && s.stacks[t] != [] && Top(s, t).Init?
    ensures FrameWf(w, Top(s, t))
    ensures forall m: State, e: Event {:trigger Outcome(m, e)} :: m.stacks == s.stacks ==> StackMoved(s, t, Outcome(m, e))
    ensures forall m: State, f: Frame, e: Event {:trigger Outcome(Goto(m, t, f), e)} :: m.stacks == s.stacks && SameActivation(f, Top(s, t)) ==> StackMoved(s, t, Outcome(Goto(m, t, f), e))
    ensures forall m: State, f: Frame, g: Frame, e: Event {:trigger Outcome(Call(m, t, f, g), e)} :: m.stacks == s.stacks && SameActivation(f, Top(s, t)) ==> StackMoved(s, t, Outcome(Call(m, t, f, g), e))
    ensures forall m: State, r: Result {:trigger ReturnInit(m, t, Top(s, t), r)} :: m.stacks == s.stacks ==> StackMoved(s, t, ReturnInit(m, t, Top(s, t), r))
  {
    GotoMoved(s, t);
    CallMoved(s, t);
    forall m: State, r: Result {:trigger ReturnInit(m, t, Top(s, t), r)} | m.stacks == s.stacks ensures StackMoved(s, t, ReturnInit(m, t, Top(s, t), r)) {
      ReturnInitMoved(s, t, m, Top(s, t), r);
    }
  }

  lemma EarlyStackMoved(w: World, s: State, t: nat, ch: Choice)
    requires Wf(w, s) && t < |s.stacks| && s.stacks[t] != [] && Top(s, t).Init? && IsEntry(Top(s, t).pc)
    ensures StackMoved(s, t, InitStep(w, s, t, ch))
  {
    hide Goto, Call, ReturnInit, CanInitialize, LockFree, StackMoved;
    AllMoved(w, s, t);
  }

  lemma LateStackMoved(w: World, s: State, t: nat, ch: Choice)
    requires Wf(w, s) && t < |s.stacks| && s.stacks[t] != [] && Top(s, t).Init? && !IsEntry(Top(s, t).pc)
    ensures StackMoved(s, t, InitStep(w, s, t, ch))
  {
    hide Goto, Call, ReturnInit, CanInitialize, LockFree, StackMoved;
    AllMoved(w, s, t);
  }

  lemma InitStackMoved(w: World, s: State, t: nat, ch: Choice)
    requires Wf(w, s) && t < |s.stacks| && s.stacks[t] != [] && Top(s, t).Init?
    ensures StackMoved(s, t, InitStep(w, s, t, ch))
  {
    hide InitStep, StackMoved;
    if IsEntry(Top(s, t).pc) {
      EarlyStackMoved(w, s, t, ch);
    } else {
      LateStackMoved(w, s, t, ch);
    }
  }

  lemma VerifyStackMoved(w: World, s: State, t: nat, ch: Choice)
    requires Wf(w, s) && t < |s.stacks| && s.stacks[t] != [] && Top(s, t).Verify?
    ensures StackMoved(s, t, VerifyStep(w, s, t, ch))
  {
    hide Goto, Call, Return, LockFree, Moved;
    assert FrameWf(w, Top(s, t));
    GotoMoved(s, t);
    CallMoved(s, t);
    ReturnMoved(s, t);
    StayedMoved(s, t);
    BottomKind(s, t, VerifyStep(w, s, t, ch).state);
  }

  lemma StayedMoved(s: State, t: nat)
    requires t < |s.stacks| && s.stacks[t] != []
    ensures forall m: State {:trigger Moved(s, t, m)} :: m.stacks == s.stacks ==> Moved(s, t, m)
  {
  }

  lemma BottomKind(s: State, t: nat, s': State)
    requires t < |s.stacks| && s.stacks[t] != []
    ensures Moved(s, t, s') ==> |s'.stacks| == |s.stacks| && (s'.stacks[t] == [] ==> s.stacks[t][0] == Top(s, t))
  {
  }

  lemma ThreadStackMoved(w: World, s: State, t: nat, ch: Choice)
    requires Wf(w, s) && t < |s.stacks| && s.stacks[t] != []
    ensures StackMoved(s, t, ThreadStep(w, s, t, ch))
  {
    hide InitStep, VerifyStep;
    if Top(s, t).Init? {
      InitStackMoved(w, s, t, ch);
    } else {
      VerifyStackMoved(w, s, t, ch);
    }
  }

  // ---------- Every step keeps the invariant ----------

  lemma IdleKeeps(w: World, s: State, t: nat, call: Option<Request>)
    requires FullInv(w, s) && t < |s.stacks| && s.stacks[t] == []
    ensures FullInv(w, IdleStep(w, s, t, call).state)
  {
    if call.Some? && call.value.cls < |w.infos| && s.tx.None? {
      match call.value
      case Ensure(c, statics, parents) => IdleCallKeeps(w, s, t, Init(c, Enter, statics, parents));
      case VerifyOnly(c) => IdleCallKeeps(w, s, t, Verify(c, VEnter));
      case Transact(c) => {
        if w.isCompiler && AllIdle(s) {
          IdleCallKeeps(w, s, t, Init(c, Enter, true, true));
          SameInv(w, s.(stacks := s.stacks[t := [Init(c, Enter, true, true)]]), IdleStep(w, s, t, call).state);
          IdleRest(w, s);
          assert Undone(map[], s.classes) == s.classes;
        }
      }
    }
  }

  /** A step of an activation outside transactions, or inside one that goes on, is committed, or is undone. */
  lemma TransactionKeeps(w: World, s: State, t: nat, o: Outcome)
    requires FullInv(w, s) && t < |s.stacks| && s.stacks[t] != [] && StackMoved(s, t, o) && Inv(w, o.state) && SameSizes(s, o.state)
    ensures FullInv(w, InTransaction(s, t, o).state)
  {
    hide Inv;
    if s.tx.Some? && s.tx.value.thread == t {
      LoggedUndone(s.tx.value.log, s.classes, o.state.classes);
      var s' := InTransaction(s, t, o).state;
      if o.event.Returned? && o.state.stacks[t] == [] && !o.event.result.Done? {
        assert AllIdle(s');
        RestInv(w, s');
      } else {
        SameInv(w, o.state, s');
      }
    } else if s.tx.Some? {
      assert false;
    }
  }

  lemma StepKeeps(w: World, s: State, t: nat, ch: Choice)
    requires FullInv(w, s) && t < |s.stacks|
    ensures FullInv(w, Step(w, s, t, ch).state)
  {
    if s.aborted.None? {
      if s.stacks[t] == [] {
        IdleKeeps(w, s, t, ch.call);
      } else {
        hide ThreadStep, InTransaction;
        ThreadKeeps(w, s, t, ch);
        ThreadStackMoved(w, s, t, ch);
        TransactionKeeps(w, s, t, ThreadStep(w, s, t, ch));
      }
    }
  }

  // ---------- What single steps guarantee ----------

  /** The exact conditions under which a step aborts the process. */
  lemma AbortExactly(w: World, s: State, t: nat, ch: Choice)
    requires FullInv(w, s) && t < |s.stacks|
    ensures s.aborted.None? ==> AbortsRightly(w, s, t, ch, Step(w, s, t, ch).event)
    ensures s.aborted.Some? ==> Step(w, s, t, ch) == Outcome(s, Silent)
  {
    if s.aborted.None? && s.stacks[t] != [] {
      hide Inv, ThreadStep;
      ThreadKeeps(w, s, t, ch);
    }
  }

  /** Every call of `SetStatus` respects the checks that `SetStatus` makes, and only a rollback, which
      writes back what the transaction logged, does not go through it. */
  lemma StatusMoves(w: World, s: State, t: nat, ch: Choice, c: nat)
    requires FullInv(w, s) && t < |s.stacks| && c < |s.classes|
    ensures var o := Step(w, s, t, ch);
            if o.event.RolledBack? then s.tx.Some? && s.tx.value.thread == t && o.state.classes == Undone(s.tx.value.log, s.classes)
            else LegalMove(w, s, t, c, o)
  {
    if s.aborted.None? && s.stacks[t] != [] {
      hide Inv, ThreadStep;
      var o := ThreadStep(w, s, t, ch);
      ThreadMoves(w, s, t, ch, c);
      if s.tx.Some? && s.tx.value.thread == t {
        LoggedUndone(s.tx.value.log, s.classes, o.state.classes);
      }
    }
  }

  /** Outside rollbacks verification goes its way. */
  lemma StatusVerification(w: World, s: State, t: nat, ch: Choice, c: nat)
    requires FullInv(w, s) && t < |s.stacks| && c < |s.classes|
    ensures var o := Step(w, s, t, ch);
            |o.state.classes| == |s.classes| && (o.event.RolledBack? || VerificationMove(w, s.classes, o.state.classes, c))
  {
    hide Inv, ThreadStep, SuperVerified;
    if s.aborted.None? && s.stacks[t] != [] {
      ThreadVerification(w, s, t, ch, c);
    }
  }

  /** A step leads into a transaction with nothing to undo, goes on in one whose undoing still leads back
      to the same classes, or ends it, by committing it or by undoing it. */
  ghost predicate TxMoves(s: State, o: Outcome) {
    match (s.tx, o.state.tx)
    case (None, None) => !o.event.RolledBack?
    case (None, Some(tx)) => !o.event.RolledBack? && o.state.classes == s.classes == Undone(tx.log, s.classes)
    case (Some(a), Some(b)) => !o.event.RolledBack? && Undone(b.log, o.state.classes) == Undone(a.log, s.classes)
    case (Some(a), None) =>
      if o.event.RolledBack? then o.state.classes == Undone(a.log, s.classes) else o.event.Returned? && o.event.result.Done?
  }

  lemma TransactionMoves(w: World, s: State, t: nat, ch: Choice)
    requires FullInv(w, s) && t < |s.stacks|
    ensures TxMoves(s, Step(w, s, t, ch))
  {
    if s.aborted.None? {
      if s.stacks[t] == [] {
        assert Undone(map[], s.classes) == s.classes;
      } else {
        hide Inv, ThreadStep, RestOk;
        if s.tx.Some? {
          assert s.tx.value.thread == t;
          LoggedUndone(s.tx.value.log, s.classes, ThreadStep(w, s, t, ch).state.classes);
        }
      }
    }
  }

  /** What `EnsureInitialized` and `InitializeClass` answer. */
  lemma ReturnMeaning(w: World, s: State, t: nat, ch: Choice)
    requires FullInv(w, s) && t < |s.stacks|
    ensures ResultMeaning(w, t, Step(w, s, t, ch))
  {
    if s.aborted.None? && s.stacks[t] != [] && Top(s, t).Init? {
      hide Inv, InitStep, CanInitialize;
      ThreadReturns(w, s, t, ch);
    }
  }

  /** Where `VerifyClass` leaves its class, in every step of every run, and that it throws exactly if it
      leaves it erroneous. */
  lemma VerifyMeaning(w: World, s: State, t: nat, ch: Choice)
    requires FullInv(w, s) && t < |s.stacks|
    ensures VerifyOutcomeOk(w, s, Step(w, s, t, ch))
  {
    if s.aborted.None? && s.stacks[t] != [] && Top(s, t).Verify? {
      hide Inv, VerifyStep;
      VerifyStepMeaning(w, s, t, ch);
    }
  }
}
