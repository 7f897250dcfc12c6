/** Whole runs of the class initialisation protocol: guarantees over every interleaving, and exactly
    what the rollback of a transaction takes back. */
module ClassInitRuns {
  import opened Options
  import opened ClassInit
  import opened ClassInitInvariant
  import opened ClassInitSteps
  import opened ClassInitSafety
  import opened ClassInitTransaction

  datatype Action = Action(t: nat, choice: Choice)

  /** No thread is initialising anything.  Classes may come resolved, verified, initialised, erroneous or
      due for re-verification, whatever their superclasses are. */
  ghost predicate Initial(w: World, s: State) {
    && Wf(w, s) && s.aborted.None? && s.tx.None?
    && (forall t :: 0 <= t < |s.stacks| ==> s.stacks[t] == [])
    && forall c :: 0 <= c < |s.classes| ==>
         var k := s.classes[c];
         k.status in {ERROR, RESOLVED, RETRY, VERIFIED, INITIALIZED} && k.runs == 0
  }

  /** `states[i + 1]` is the outcome of `actions[i]` in `states[i]`. */
  ghost predicate IsPath(w: World, states: seq<State>, actions: seq<Action>) {
    && |states| == |actions| + 1
    && forall i :: 0 <= i < |actions| ==>
         Wf(w, states[i]) && actions[i].t < |states[i].stacks| && states[i + 1] == StepOf(w, states[i], actions[i]).state
  }

  ghost predicate IsRun(w: World, states: seq<State>, actions: seq<Action>) {
    IsPath(w, states, actions) && Initial(w, states[0])
  }

  function StepOf(w: World, s: State, a: Action): Outcome
    requires Wf(w, s) && a.t < |s.stacks|
  {
    Step(w, s, a.t, a.choice)
  }

  lemma InitialInv(w: World, s: State)
    requires Initial(w, s)
    ensures FullInv(w, s)
  {
    forall c | 0 <= c < |s.classes| ensures RestClass(w, s.classes, c) {
    }
    RestInv(w, s);
  }

  lemma {:induction false} PathInv(w: World, states: seq<State>, actions: seq<Action>, i: nat)
    requires IsPath(w, states, actions) && FullInv(w, states[0]) && i < |states|
    ensures FullInv(w, states[i]) && |states[i].classes| == |states[0].classes|
    decreases i
  {
    if i > 0 {
      PathInv(w, states, actions, i - 1);
      StepKeeps(w, states[i - 1], actions[i - 1].t, actions[i - 1].choice);
      assert states[i] == StepOf(w, states[i - 1], actions[i - 1]).state;
    }
  }

  lemma RunInv(w: World, states: seq<State>, actions: seq<Action>, i: nat)
    requires IsRun(w, states, actions) && i < |states|
    ensures FullInv(w, states[i]) && |states[i].classes| == |states[0].classes|
  {
    InitialInv(w, states[0]);
    PathInv(w, states, actions, i);
  }

  // ---------- Transactions over a run ----------

  /** The event of step `i`. */
  ghost function EventAt(w: World, states: seq<State>, actions: seq<Action>, i: nat): Event
    requires IsPath(w, states, actions) && i < |actions|
  {
    StepOf(w, states[i], actions[i]).event
  }

  /** The transaction that is active in state `m` began in step `b`. */
  ghost predicate Began(states: seq<State>, b: nat, m: nat) {
    b < m < |states| && states[b].tx.None? && forall x :: b < x <= m ==> states[x].tx.Some?
  }

  lemma {:induction false} TxBegan(w: World, states: seq<State>, actions: seq<Action>, m: nat) returns (b: nat)
    requires IsRun(w, states, actions) && m < |states| && states[m].tx.Some?
    ensures Began(states, b, m)
    decreases m
  {
    if states[m - 1].tx.None? {
      b := m - 1;
    } else {
      b := TxBegan(w, states, actions, m - 1);
    }
  }

  /** At any time, undoing what a transaction has logged leads back to the classes it began with. */
  lemma {:induction false} UndoLeadsBack(w: World, states: seq<State>, actions: seq<Action>, b: nat, m: nat)
    requires IsRun(w, states, actions) && Began(states, b, m)
    ensures Undone(states[m].tx.value.log, states[m].classes) == states[b].classes
    decreases m
  {
    hide FullInv, Step, Undone, Initial;
    RunInv(w, states, actions, m - 1);
    TransactionMoves(w, states[m - 1], actions[m - 1].t, actions[m - 1].choice);
    assert states[m] == StepOf(w, states[m - 1], actions[m - 1]).state;
    if b < m - 1 {
      UndoLeadsBack(w, states, actions, b, m - 1);
    }
  }

  /** A rollback restores all classes to what they were when its transaction began. */
  lemma RollbackRestores(w: World, states: seq<State>, actions: seq<Action>, m: nat) returns (b: nat)
    requires IsRun(w, states, actions) && m < |actions| && EventAt(w, states, actions, m).RolledBack?
    ensures Began(states, b, m) && states[m + 1].classes == states[b].classes && states[m + 1].tx.None?
  {
    RunInv(w, states, actions, m);
    TransactionMoves(w, states[m], actions[m].t, actions[m].choice);
    assert states[m + 1] == StepOf(w, states[m], actions[m]).state;
    b := TxBegan(w, states, actions, m);
    UndoLeadsBack(w, states, actions, b, m);
  }

  /** Step `m`, before `j`, rolls back a transaction that began in step `b`, before state `i` was reached, so
      that what happened from there to state `i` is taken back. */
  ghost predicate TakenBack(w: World, states: seq<State>, actions: seq<Action>, i: nat, j: nat, b: nat, m: nat)
    requires IsPath(w, states, actions)
  {
    b < i <= m < j <= |actions| && EventAt(w, states, actions, m).RolledBack? && Began(states, b, m)
  }

  ghost predicate SomeTakenBack(w: World, states: seq<State>, actions: seq<Action>, i: nat, j: nat)
    requires IsPath(w, states, actions)
  {
    exists b: nat, m: nat :: TakenBack(w, states, actions, i, j, b, m)
  }

  predicate Terminal(status: Status) {
    status == ERROR || status == INITIALIZED
  }

  /** From `a` to `b` a class has lost nothing. */
  predicate LostNothing(a: Class, b: Class) {
    (Terminal(a.status) ==> b.status == a.status) && a.runs <= b.runs
  }

  /** Between two states a class loses its terminal status or a start of its `<clinit>` only if a rollback
      takes back what led to the first of them. */
  lemma {:induction false} LostOnlyByRollback(w: World, states: seq<State>, actions: seq<Action>, i: nat, j: nat, c: nat)
    requires IsRun(w, states, actions) && i <= j < |states| && c < |states[0].classes|
    ensures |states[i].classes| == |states[j].classes| == |states[0].classes|
    ensures SomeTakenBack(w, states, actions, i, j) || LostNothing(states[i].classes[c], states[j].classes[c])
    decreases j
  {
    RunInv(w, states, actions, i);
    RunInv(w, states, actions, j);
    if i < j {
      var m := j - 1;
      RunInv(w, states, actions, m);
      assert states[j] == StepOf(w, states[m], actions[m]).state;
      if EventAt(w, states, actions, m).RolledBack? {
        var b := RollbackRestores(w, states, actions, m);
        if b < i {
          assert TakenBack(w, states, actions, i, j, b, m);
        } else {
          LostOnlyByRollback(w, states, actions, i, b, c);
          TakenBackLater(w, states, actions, i, b, j);
        }
      } else {
        StatusMoves(w, states[m], actions[m].t, actions[m].choice, c);
        LostOnlyByRollback(w, states, actions, i, m, c);
        TakenBackLater(w, states, actions, i, m, j);
      }
    }
  }

  lemma TakenBackLater(w: World, states: seq<State>, actions: seq<Action>, i: nat, j: nat, j': nat)
    requires IsPath(w, states, actions) && j <= j' < |states|
    ensures SomeTakenBack(w, states, actions, i, j) ==> SomeTakenBack(w, states, actions, i, j')
  {
    if SomeTakenBack(w, states, actions, i, j) {
      var b: nat, m: nat :| TakenBack(w, states, actions, i, j, b, m);
      assert TakenBack(w, states, actions, i, j', b, m);
    }
  }

  // ---------- Guarantees ----------

  /** No step from state `i` to state `j` is a rollback. */
  ghost predicate NoRollback(w: World, states: seq<State>, actions: seq<Action>, i: nat, j: nat)
    requires IsPath(w, states, actions) && j <= |actions|
  {
    forall m :: i <= m < j ==> !EventAt(w, states, actions, m).RolledBack?
  }

  /** A class that is Initialized or Error stays so, and the number of `<clinit>` starts never goes down,
      while nothing is rolled back: what an unlocked read of `IsInitialized` sees remains true. */
  lemma TerminalStatusStays(w: World, states: seq<State>, actions: seq<Action>, i: nat, j: nat, c: nat)
    requires IsRun(w, states, actions) && i <= j < |states| && c < |states[0].classes| && NoRollback(w, states, actions, i, j)
    ensures |states[i].classes| == |states[j].classes| == |states[0].classes|
    ensures LostNothing(states[i].classes[c], states[j].classes[c])
  {
    LostOnlyByRollback(w, states, actions, i, j, c);
  }

  /** The status of class `c` in state `i` is taken back: the transaction began with another one. */
  ghost predicate StatusTakenBack(w: World, states: seq<State>, actions: seq<Action>, i: nat, j: nat, c: nat)
    requires IsPath(w, states, actions) && HaveClass(states, c) && i < |states|
  {
    exists b: nat, m: nat :: TakenBack(w, states, actions, i, j, b, m) && states[b].classes[c].status != states[i].classes[c].status
  }

  /** The status of class `c` in state `i` is another one in some state up to `j`. */
  ghost predicate StatusLeft(states: seq<State>, i: nat, j: nat, c: nat)
    requires HaveClass(states, c) && i <= j < |states|
  {
    exists x :: i <= x <= j && states[x].classes[c].status != states[i].classes[c].status
  }

  ghost predicate HaveClass(states: seq<State>, c: nat) {
    forall x {:trigger states[x]} :: 0 <= x < |states| ==> c < |states[x].classes|
  }

  lemma RunClass(w: World, states: seq<State>, actions: seq<Action>, c: nat)
    requires IsRun(w, states, actions) && c < |states[0].classes|
    ensures HaveClass(states, c)
  {
    forall x | 0 <= x < |states| ensures c < |states[x].classes| {
      RunInv(w, states, actions, x);
    }
  }

  /** A class that is Initialized or Error in state `i` leaves that status by state `j` if and only if a
      rollback in between takes it back. */
  lemma TerminalLeftExactly(w: World, states: seq<State>, actions: seq<Action>, i: nat, j: nat, c: nat)
    requires IsRun(w, states, actions) && i <= j < |states| && c < |states[0].classes|
    ensures HaveClass(states, c)
    ensures Terminal(states[i].classes[c].status) ==> (StatusLeft(states, i, j, c) <==> StatusTakenBack(w, states, actions, i, j, c))
  {
    RunClass(w, states, actions, c);
    hide Began, EventAt, Initial;
    if Terminal(states[i].classes[c].status) && StatusLeft(states, i, j, c) {
      var x :| i <= x <= j && states[x].classes[c].status != states[i].classes[c].status;
      var y := FirstLeft(states, i, x, c);
      var b, m := LeftBack(w, states, actions, i, y, c);
      assert TakenBack(w, states, actions, i, j, b, m);
    }
    if StatusTakenBack(w, states, actions, i, j, c) {
      var b: nat, m: nat :| TakenBack(w, states, actions, i, j, b, m) && states[b].classes[c].status != states[i].classes[c].status;
      var b' := RollbackRestores(w, states, actions, m);
      SameBegin(states, b, b', m);
      assert i <= m + 1 <= j && states[m + 1].classes[c].status != states[i].classes[c].status;
    }
  }

  lemma SameBegin(states: seq<State>, b: nat, b': nat, m: nat)
    requires Began(states, b, m) && Began(states, b', m)
    ensures b == b'
  {
  }

  /** The first state in which the status of class `c` is not that of state `i`. */
  lemma {:induction false} FirstLeft(states: seq<State>, i: nat, x: nat, c: nat) returns (y: nat)
    requires i <= x < |states| && HaveClass(states, c)
    requires states[x].classes[c].status != states[i].classes[c].status
    ensures i < y <= x && states[y].classes[c].status != states[i].classes[c].status
    ensures forall n :: i <= n < y ==> states[n].classes[c].status == states[i].classes[c].status
  {
    y := i + 1;
    while states[y].classes[c].status == states[i].classes[c].status
      invariant i < y <= x
      invariant forall n :: i <= n < y ==> states[n].classes[c].status == states[i].classes[c].status
      decreases x - y
    {
      y := y + 1;
    }
  }

  /** The step that leaves a terminal status for the first time is such a rollback. */
  lemma LeftBack(w: World, states: seq<State>, actions: seq<Action>, i: nat, y: nat, c: nat) returns (b: nat, m: nat)
    requires IsRun(w, states, actions) && i < y < |states| && HaveClass(states, c)
    requires Terminal(states[i].classes[c].status) && states[y].classes[c].status != states[i].classes[c].status
    requires forall n :: i <= n < y ==> states[n].classes[c].status == states[i].classes[c].status
    ensures TakenBack(w, states, actions, i, y, b, m) && states[b].classes[c].status != states[i].classes[c].status
  {
    m := y - 1;
    RunInv(w, states, actions, m);
    assert states[y] == StepOf(w, states[m], actions[m]).state;
    StatusMoves(w, states[m], actions[m].t, actions[m].choice, c);
    b := RollbackRestores(w, states, actions, m);
  }

  /** The `<clinit>` of a class is started at most once, unless a rollback takes back the first start: its
      transaction began before that start and is rolled back before the second one. */
  lemma ClinitStartsOnce(w: World, states: seq<State>, actions: seq<Action>, i: nat, j: nat, c: nat)
    requires IsRun(w, states, actions) && i < j < |actions| && EventAt(w, states, actions, i) == Started(c)
    ensures EventAt(w, states, actions, j) == Started(c) ==> SomeTakenBack(w, states, actions, i + 1, j)
  {
    if EventAt(w, states, actions, j) == Started(c) {
      StartCounted(w, states, actions, i, c);
      StartCounted(w, states, actions, j, c);
      LostOnlyByRollback(w, states, actions, i + 1, j, c);
    }
  }

  /** A start of `<clinit>` is the first that counts. */
  lemma StartCounted(w: World, states: seq<State>, actions: seq<Action>, i: nat, c: nat)
    requires IsRun(w, states, actions) && i < |actions| && EventAt(w, states, actions, i) == Started(c)
    ensures c < |states[i].classes| == |states[i + 1].classes| == |states[0].classes|
    ensures states[i].classes[c].status == INITIALIZING && states[i].classes[c].runs == 0 && states[i + 1].classes[c].runs == 1
  {
    RunInv(w, states, actions, i);
    RunInv(w, states, actions, i + 1);
    StartedClass(w, states[i], actions[i], c);
    StatusMoves(w, states[i], actions[i].t, actions[i].choice, c);
    assert states[i + 1] == StepOf(w, states[i], actions[i]).state;
    assert ClassInv(w, states[i + 1], c);
  }

  /** Some state between counts no start of the `<clinit>` of class `c`. */
  ghost predicate StartForgotten(states: seq<State>, i: nat, j: nat, c: nat)
    requires HaveClass(states, c) && j < |states|
  {
    exists x :: i <= x <= j && states[x].classes[c].runs == 0
  }

  /** A start of `<clinit>` in step `i` is forgotten by state `j` if and only if a rollback takes it back. */
  lemma StartTakenBackExactly(w: World, states: seq<State>, actions: seq<Action>, i: nat, j: nat, c: nat)
    requires IsRun(w, states, actions) && i < j < |states| && EventAt(w, states, actions, i) == Started(c)
    ensures HaveClass(states, c)
    ensures StartForgotten(states, i + 1, j, c) <==> SomeTakenBack(w, states, actions, i + 1, j)
  {
    StartCounted(w, states, actions, i, c);
    RunClass(w, states, actions, c);
    hide EventAt, Began, Initial;
    if StartForgotten(states, i + 1, j, c) {
      var x :| i + 1 <= x <= j && states[x].classes[c].runs == 0;
      LostOnlyByRollback(w, states, actions, i + 1, x, c);
      TakenBackLater(w, states, actions, i + 1, x, j);
    }
    if SomeTakenBack(w, states, actions, i + 1, j) {
      var b: nat, m: nat :| TakenBack(w, states, actions, i + 1, j, b, m);
      RestoredStart(w, states, actions, i, b, m, c);
      assert i + 1 <= m + 1 <= j && states[m + 1].classes[c].runs == 0;
    }
  }

  /** After such a rollback the class is as before its initialisation: it is neither erroneous nor
      initialised nor being initialised, so that its `<clinit>` can be started again. */
  lemma RestoredStart(w: World, states: seq<State>, actions: seq<Action>, i: nat, b: nat, m: nat, c: nat)
    requires IsRun(w, states, actions) && i < |actions| && EventAt(w, states, actions, i) == Started(c)
    requires b <= i < m < |actions| && EventAt(w, states, actions, m).RolledBack? && Began(states, b, m)
    ensures c < |states[m + 1].classes| && states[m + 1].classes[c].runs == 0 && states[m + 1].classes[c].status in {RESOLVED, RETRY, VERIFIED}
  {
    var b' := RollbackRestores(w, states, actions, m);
    SameBegin(states, b, b', m);
    RunInv(w, states, actions, m + 1);
    RunInv(w, states, actions, b);
    StartCounted(w, states, actions, i, c);
    TxNotNested(w, states, actions, b, i, m);
    LostOnlyByRollback(w, states, actions, b, i, c);
    EndsAtRest(w, states, actions, m);
    assert RestClass(w, states[m + 1].classes, c);
  }

  /** Within a transaction there is no rollback before its end. */
  lemma TxNotNested(w: World, states: seq<State>, actions: seq<Action>, b: nat, i: nat, m: nat)
    requires IsRun(w, states, actions) && Began(states, b, m) && b <= i < m
    ensures !SomeTakenBack(w, states, actions, b, i)
  {
  }

  lemma EndsAtRest(w: World, states: seq<State>, actions: seq<Action>, m: nat)
    requires IsRun(w, states, actions) && m < |actions| && EventAt(w, states, actions, m).RolledBack?
    ensures RestOk(w, states[m + 1].classes)
  {
    RunInv(w, states, actions, m);
    TransactionMoves(w, states[m], actions[m].t, actions[m].choice);
    assert states[m + 1] == StepOf(w, states[m], actions[m]).state;
  }

  lemma StartedClass(w: World, s: State, a: Action, c: nat)
    requires FullInv(w, s) && a.t < |s.stacks| && StepOf(w, s, a).event == Started(c)
    ensures s.stacks[a.t] != [] && Top(s, a.t).Init? && Top(s, a.t).pc.Clinit? && Top(s, a.t).cls == c < |s.classes|
    ensures s.classes[c].status == INITIALIZING
  {
    assert s.stacks[a.t] != [] && FrameWf(w, Top(s, a.t)) && FrameInv(w, s, a.t, |s.stacks[a.t]| - 1);
    hide Inv, TxInv, FrameInv, ThreadStep;
  }

  /** A class that is being initialised has exactly one activation responsible for it, on the stack
      of its recorded owner; and only a class being initialised has one. */
  lemma SingleInitializer(w: World, states: seq<State>, actions: seq<Action>, n: nat, c: nat)
    requires IsRun(w, states, actions) && n < |states| && c < |states[n].classes|
    ensures states[n].classes[c].status == INITIALIZING <==>
            exists t, i :: 0 <= t < |states[n].stacks| && 0 <= i < |states[n].stacks[t]| && ActiveOn(states[n].stacks[t][i], c)
    ensures forall t, i, u, j ::
              (&& 0 <= t < |states[n].stacks| && 0 <= i < |states[n].stacks[t]| && ActiveOn(states[n].stacks[t][i], c)
               && 0 <= u < |states[n].stacks| && 0 <= j < |states[n].stacks[u]| && ActiveOn(states[n].stacks[u][j], c))
              ==> t == u && i == j && states[n].classes[c].owner == Some(t)
  {
    var s := states[n];
    RunInv(w, states, actions, n);
    assert ClassInv(w, s, c);
    forall t, i | 0 <= t < |s.stacks| && 0 <= i < |s.stacks[t]| && ActiveOn(s.stacks[t][i], c)
      ensures s.classes[c].status == INITIALIZING && s.classes[c].owner == Some(t)
    {
      assert FrameInv(w, s, t, i);
    }
    if s.classes[c].status == INITIALIZING {
      var t := s.classes[c].owner.value;
      var i :| 0 <= i < |s.stacks[t]| && ActiveOn(s.stacks[t][i], c);
    }
  }

  /** Going up from `c`, every superclass is being initialised by `t`, up to and including the
      first one that is initialised. */
  ghost predicate ChainReady(w: World, s: State, t: nat, c: nat)
    requires Wf(w, s) && c < |w.infos|
    decreases c
  {
    w.HasInitSuper(c) ==>
      var super := w.infos[c].super.value;
      s.classes[super].status == INITIALIZED || (ReadyFor(s.classes[super], t) && ChainReady(w, s, t, super))
  }

  /** From an activation that waits below another initialisation of the same thread, the chain
      is ready. */
  lemma {:induction false} OwnedChain(w: World, s: State, t: nat, j: nat, i: nat)
    requires Inv(w, s) && t < |s.stacks| && j < i < |s.stacks[t]| && s.stacks[t][i].Init? && s.stacks[t][i].cls > s.stacks[t][j].cls
    requires s.stacks[t][j].Init? && Active(s.stacks[t][j].pc) && s.stacks[t][j].cls < |w.infos|
    ensures ChainReady(w, s, t, s.stacks[t][j].cls)
    decreases s.stacks[t][j].cls
  {
    var stack := s.stacks[t];
    var f := stack[j];
    assert Link(w, f, stack[j + 1]) && FrameInv(w, s, t, j) && StackInv(w, stack) && FrameWf(w, f);
    if w.HasInitSuper(f.cls) {
      var super := w.infos[f.cls].super.value;
      if f.pc.AwaitSuper? {
        assert j + 1 < i && Link(w, stack[j + 1], stack[j + 2]);
        assert Active(stack[j + 1].pc) && FrameInv(w, s, t, j + 1);
        OwnedChain(w, s, t, j + 1, i);
      } else if s.classes[super].status != INITIALIZED {
        var m :| 0 <= m < j && ActiveOn(stack[m], super);
        assert FrameInv(w, s, t, m);
        OwnedChain(w, s, t, m, j);
      }
    }
  }

  /** While a class's `<clinit>` is being started or run by thread `t`, its superclass is
      initialised or being initialised by `t`, and so on up to the first initialised one. */
  lemma SuperclassesReady(w: World, states: seq<State>, actions: seq<Action>, n: nat, t: nat, i: nat)
    requires IsRun(w, states, actions) && n < |states| && t < |states[n].stacks| && i < |states[n].stacks[t]|
    requires var f := states[n].stacks[t][i]; f.Init? && (f.pc.Clinit? || f.pc.Running?)
    ensures Wf(w, states[n]) && states[n].stacks[t][i].cls < |w.infos|
    ensures ChainReady(w, states[n], t, states[n].stacks[t][i].cls)
  {
    var s := states[n];
    RunInv(w, states, actions, n);
    var f := s.stacks[t][i];
    assert FrameInv(w, s, t, i) && FrameWf(w, f);
    if w.HasInitSuper(f.cls) && s.classes[w.infos[f.cls].super.value].status != INITIALIZED {
      var super := w.infos[f.cls].super.value;
      var j :| 0 <= j < i && ActiveOn(s.stacks[t][j], super);
      assert FrameInv(w, s, t, j);
      OwnedChain(w, s, t, j, i);
    }
  }

  /** `ReturnMeaning` in every run, and for good: a class reported initialised to another thread than
      its initialiser never changes again, unless a rollback takes back how it got there. */
  lemma ReportedForGood(w: World, states: seq<State>, actions: seq<Action>, i: nat, j: nat)
    requires IsRun(w, states, actions) && i < |actions| && i < j < |states|
    requires var e := EventAt(w, states, actions, i); e.Returned? && e.result.Done?
    ensures var c := EventAt(w, states, actions, i).cls;
            && c < |states[i + 1].classes| && c < |states[j].classes|
            && ReadyFor(states[i + 1].classes[c], actions[i].t)
            && (states[i + 1].classes[c].owner != Some(actions[i].t) ==>
                  states[j].classes[c].status == INITIALIZED || SomeTakenBack(w, states, actions, i + 1, j))
  {
    RunInv(w, states, actions, i);
    RunInv(w, states, actions, j);
    RunInv(w, states, actions, i + 1);
    ReturnMeaning(w, states[i], actions[i].t, actions[i].choice);
    assert states[i + 1] == StepOf(w, states[i], actions[i]).state;
    LostOnlyByRollback(w, states, actions, i + 1, j, EventAt(w, states, actions, i).cls);
  }

  /** The process aborts in a run exactly in the superclass race, and exactly when at compile time a class
      that is to be verified again is requested without restrictions or for the sake of a subclass. */
  lemma AbortsExactly(w: World, states: seq<State>, actions: seq<Action>, i: nat)
    requires IsRun(w, states, actions) && i < |actions|
    ensures var t, ch := actions[i].t, actions[i].choice;
            var race, retry, super := RaceOnSuper(w, states[i], t, ch), RetryRequested(w, states[i], t), RetrySuper(w, states[i], t);
            && (states[i].aborted != states[i + 1].aborted <==> states[i].aborted.None? && (race || retry || super))
            && (states[i].aborted.None? && race ==> states[i + 1].aborted == Some(SuperNotRetry))
            && (states[i].aborted.None? && retry ==> states[i + 1].aborted == Some(NoException))
            && (states[i].aborted.None? && super ==> states[i + 1].aborted == Some(SuperNotErroneous))
  {
    RunInv(w, states, actions, i);
    AbortExactly(w, states[i], actions[i].t, actions[i].choice);
    assert states[i + 1] == StepOf(w, states[i], actions[i]).state;
    AbortRecorded(w, states[i], actions[i]);
  }

  /** One step of a run that is not a rollback. */
  lemma RunVerification(w: World, states: seq<State>, actions: seq<Action>, i: nat, c: nat)
    requires IsRun(w, states, actions) && i < |actions| && c < |w.infos| && !EventAt(w, states, actions, i).RolledBack?
    ensures w.Valid() && |w.infos| == |states[i].classes| == |states[i + 1].classes| && VerificationMove(w, states[i].classes, states[i + 1].classes, c)
  {
    RunInv(w, states, actions, i);
    StatusVerification(w, states[i], actions[i].t, actions[i].choice, c);
    assert states[i + 1] == StepOf(w, states[i], actions[i]).state;
  }

  /** At compile time and with verification off, the classes that are to be verified again are those that
      were to begin with. */
  lemma {:induction false} RetryFixed(w: World, states: seq<State>, actions: seq<Action>, i: nat, c: nat)
    requires IsRun(w, states, actions) && i < |states| && c < |states[0].classes| && w.isCompiler && !w.verificationEnabled
    ensures c < |states[i].classes| && (states[i].classes[c].status == RETRY <==> states[0].classes[c].status == RETRY)
    decreases i
  {
    if i > 0 {
      RetryFixed(w, states, actions, i - 1, c);
      if EventAt(w, states, actions, i - 1).RolledBack? {
        var b := RollbackRestores(w, states, actions, i - 1);
        RetryFixed(w, states, actions, b, c);
      } else {
        RunVerification(w, states, actions, i - 1, c);
      }
    }
  }

  /** Every verified class has a superclass that is verified or erroneous, or none. */
  ghost predicate ChainOk(w: World, classes: seq<Class>) {
    && w.Valid() && |classes| == |w.infos|
    && forall c {:trigger classes[c]} :: 0 <= c < |classes| && classes[c].status >= VERIFIED ==> SuperVerified(w, classes, c)
  }

  /** With verification on this stays so. */
  lemma {:induction false} ChainKept(w: World, states: seq<State>, actions: seq<Action>, i: nat)
    requires IsRun(w, states, actions) && i < |states| && w.verificationEnabled && ChainOk(w, states[0].classes)
    ensures ChainOk(w, states[i].classes)
    decreases i
  {
    if i > 0 {
      ChainKept(w, states, actions, i - 1);
      if EventAt(w, states, actions, i - 1).RolledBack? {
        var b := RollbackRestores(w, states, actions, i - 1);
        ChainKept(w, states, actions, b);
      } else {
        ChainStep(w, states, actions, i - 1);
      }
    }
  }

  lemma ChainStep(w: World, states: seq<State>, actions: seq<Action>, i: nat)
    requires IsRun(w, states, actions) && i < |actions| && w.verificationEnabled && !EventAt(w, states, actions, i).RolledBack?
    requires ChainOk(w, states[i].classes)
    ensures ChainOk(w, states[i + 1].classes)
  {
    RunInv(w, states, actions, i);
    RunInv(w, states, actions, i + 1);
    var after := states[i + 1].classes;
    forall c | 0 <= c < |after| && after[c].status >= VERIFIED ensures SuperVerified(w, after, c) {
      RunVerification(w, states, actions, i, c);
      if w.infos[c].super.Some? {
        StatusMoves(w, states[i], actions[i].t, actions[i].choice, w.infos[c].super.value);
        StatusMoves(w, states[i], actions[i].t, actions[i].choice, c);
      }
    }
  }

  /** When the check on a failed superclass fails: with verification off exactly where a superclass that was
      to be verified again to begin with is waited for, and with verification on only if at the beginning a
      verified class had a superclass that was not. */
  lemma RetrySuperExactly(w: World, states: seq<State>, actions: seq<Action>, i: nat)
    requires IsRun(w, states, actions) && i < |actions| && w.isCompiler && states[i].stacks[actions[i].t] != []
    ensures var f := Top(states[i], actions[i].t);
            if w.verificationEnabled then RetrySuper(w, states[i], actions[i].t) ==> !ChainOk(w, states[0].classes)
            else RetrySuper(w, states[i], actions[i].t) <==>
                 f.Init? && f.pc.SuperFailed? && f.cls < |w.infos| && w.infos[f.cls].super.Some?
                 && w.infos[f.cls].super.value < |states[0].classes| && states[0].classes[w.infos[f.cls].super.value].status == RETRY
  {
    var t := actions[i].t;
    RunInv(w, states, actions, i);
    var f := Top(states[i], t);
    assert FrameWf(w, f) && FrameInv(w, states[i], t, |states[i].stacks[t]| - 1);
    if w.verificationEnabled {
      if ChainOk(w, states[0].classes) {
        ChainKept(w, states, actions, i);
      }
    } else if w.infos[f.cls].super.Some? {
      RetryFixed(w, states, actions, i, w.infos[f.cls].super.value);
    }
  }

  /** With verification off at compile time, the `<clinit>` of a class whose superclass is to be verified again
      is never started. */
  lemma NeverStarts(w: World, states: seq<State>, actions: seq<Action>, i: nat, c: nat)
    requires IsRun(w, states, actions) && i < |actions| && c < |w.infos| && w.HasInitSuper(c) && w.isCompiler && !w.verificationEnabled
    requires w.infos[c].super.value < |states[0].classes| && states[0].classes[w.infos[c].super.value].status == RETRY
    ensures EventAt(w, states, actions, i) != Started(c)
  {
    RunInv(w, states, actions, i);
    RetryFixed(w, states, actions, i, w.infos[c].super.value);
    if EventAt(w, states, actions, i) == Started(c) {
      StartedClass(w, states[i], actions[i], c);
      ReadySuper(w, states[i], actions[i].t);
    }
  }

  /** When a `<clinit>` is started, the superclass is initialised or being initialised. */
  lemma ReadySuper(w: World, s: State, t: nat)
    requires Inv(w, s) && t < |s.stacks| && s.stacks[t] != [] && Top(s, t).Init? && Top(s, t).pc.Clinit? && Top(s, t).cls < |w.infos|
    ensures w.HasInitSuper(Top(s, t).cls) ==> s.classes[w.infos[Top(s, t).cls].super.value].status >= INITIALIZING
  {
    var n, c := |s.stacks[t]| - 1, Top(s, t).cls;
    assert FrameInv(w, s, t, n) && SuperReady(w, s, t, n, c);
    if w.HasInitSuper(c) && s.classes[w.infos[c].super.value].status != INITIALIZED {
      var j :| 0 <= j < n && ActiveOn(s.stacks[t][j], w.infos[c].super.value);
      assert FrameInv(w, s, t, j);
    }
  }

  ghost predicate RecordsAbort(s: State, o: Outcome) {
    if o.event.Abort? then o.state.aborted == Some(o.event.site) else o.state.aborted == s.aborted
  }

  lemma AbortRecorded(w: World, s: State, a: Action)
    requires FullInv(w, s) && a.t < |s.stacks|
    ensures RecordsAbort(s, StepOf(w, s, a))
  {
    hide Inv, TxInv, ThreadStep;
  }
}
