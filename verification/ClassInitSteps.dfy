/** Every step of the protocol is a legal update. */
module ClassInitSteps {
  import opened Options
  import opened ClassInit
  import opened ClassInitInvariant

  function Top(s: State, t: nat): Frame
    requires t < |s.stacks| && s.stacks[t] != []
  {
    s.stacks[t][|s.stacks[t]| - 1]
  }

  /** The monitors a running thread holds are free of other threads. */
  lemma HeldIsFree(w: World, s: State, t: nat, c: nat)
    requires Inv(w, s) && t < |s.stacks| && s.stacks[t] != [] && Holds(w, Top(s, t), c)
    ensures LockFree(w, s, t, c)
  {
  }

  /** No frame below the top one relies on the status of the top frame's class, other than a
      caller that waits for its verification. */
  lemma LowerFrames(w: World, s: State, t: nat, i: nat)
    requires Inv(w, s) && t < |s.stacks| && i < |s.stacks[t]| - 1
    ensures !MarkedOn(s.stacks[t][i], Top(s, t).cls)
    ensures Top(s, t).Init? ==> s.stacks[t][i].Init? && (s.stacks[t][i].pc.AwaitSuper? || s.stacks[t][i].pc.Running?)
  {
    assert Link(w, s.stacks[t][i], s.stacks[t][i + 1]);
    assert StackInv(w, s.stacks[t]);
  }

  /** The class may become `k` when thread `t`, running a frame for it, holds or can take its
      monitor. */
  ghost predicate ClassOk(w: World, s: State, t: nat, k: Class)
    requires Inv(w, s) && t < |s.stacks| && s.stacks[t] != []
  {
    var f := Top(s, t);
    assert FrameWf(w, f);
    var a := s.classes[f.cls];
    && Moves(w, a, k)
    && (a.status != k.status ==> LockFree(w, s, t, f.cls))
    && (a != k && a.status == INITIALIZING ==> ActiveOn(f, f.cls))
    && (f.Verify? && a != k ==> k.status <= VERIFIED)
    && (k.status == ERROR || k.status >= RESOLVED)
    && k.runs <= 1
    && (k.status != ERROR && k.status < INITIALIZING ==> k.runs == 0)
  }

  ghost function GotoUpdate(s: State, t: nat, k: Class, f: Frame): Update
    requires t < |s.stacks| && s.stacks[t] != []
  {
    Update(t, Top(s, t).cls, k, |s.stacks[t]| - 1, [f])
  }

  /** The top frame of `t` may move on to `f` with its class becoming `k`. */
  ghost predicate GotoOk(w: World, s: State, t: nat, k: Class, f: Frame)
    requires t < |s.stacks| && s.stacks[t] != [] && Top(s, t).cls < |s.classes| == |w.infos|
  {
    var top, status := Top(s, t), s.classes[Top(s, t).cls].status;
    && FrameWf(w, f) && !Awaiting(f) && f.cls == top.cls && f.Init? == top.Init?
    && (f.Init? ==> f.statics == top.statics && f.parents == top.parents)
    && (forall c: nat :: Holds(w, f, c) ==> Holds(w, top, c) || LockFree(w, s, t, c))
    && (ActiveOn(f, f.cls) ==> ActiveOn(top, f.cls) || status != INITIALIZING)
    && (ActiveOn(top, f.cls) ==> ActiveOn(f, f.cls))
    && (MarkedOn(top, f.cls) ==> MarkedOn(f, f.cls))
    && (k.status == INITIALIZING && status != INITIALIZING ==> k.owner == Some(t) && ActiveOn(f, f.cls))
    && (BeingVerified(k.status) && !BeingVerified(status) ==> MarkedOn(f, f.cls))
  }

  lemma GotoLegalClass(w: World, s: State, t: nat, k: Class, f: Frame)
    requires Inv(w, s) && t < |s.stacks| && s.stacks[t] != [] && Top(s, t).cls < |s.classes| && ClassOk(w, s, t, k) && GotoOk(w, s, t, k, f)
    requires UpdateWf(w, s, GotoUpdate(s, t, k, f))
    ensures LegalClass(w, s, GotoUpdate(s, t, k, f))
  {
    var d, stack := GotoUpdate(s, t, k, f), s.stacks[t];
    var n := |stack| - 1;
    assert d.news[0] == f;
    forall i | 0 <= i < n ensures !MarkedOn(stack[i], f.cls) {
      LowerFrames(w, s, t, i);
    }
    forall i | 0 <= i < n && stack[i].Init? && stack[i].cls == f.cls && stack[i].pc.AwaitVerify?
      ensures s.classes[f.cls] != k ==> k.status <= VERIFIED {
      LowerFrames(w, s, t, i);
    }
    if ActiveOn(Top(s, t), f.cls) {
      assert DropsActive(s, d, f.cls);
    }
  }

  lemma GotoLegalStack(w: World, s: State, t: nat, k: Class, f: Frame)
    requires Inv(w, s) && t < |s.stacks| && s.stacks[t] != [] && Top(s, t).cls < |s.classes| && GotoOk(w, s, t, k, f)
    requires UpdateWf(w, s, GotoUpdate(s, t, k, f))
    ensures LegalStack(w, s, GotoUpdate(s, t, k, f))
  {
    var d, stack := GotoUpdate(s, t, k, f), s.stacks[t];
    var n := |stack| - 1;
    var stack' := stack[..n] + [f];
    assert StackInv(w, stack);
    forall i | 0 <= i < |stack'| - 1 ensures Link(w, stack'[i], stack'[i + 1]) {
      assert Link(w, stack[i], stack[i + 1]);
    }
    assert StackInv(w, stack');
    forall c: nat | Holds(w, f, c) ensures LockFree(w, s, t, c) {
      if Holds(w, Top(s, t), c) {
        HeldIsFree(w, s, t, c);
      }
    }
    assert d.news[0] == f;
    forall c: nat | ActiveOn(f, c) ensures c < |s.classes| && (DropsActive(s, d, c) || s.classes[c].status != INITIALIZING) {
      assert c == f.cls;
      if ActiveOn(Top(s, t), c) {
        assert DropsActive(s, d, c);
      }
    }
    forall i, c: nat | n <= i < |stack| && ActiveOn(stack[i], c) ensures AddsActive(d, c) {
      assert ActiveOn(d.news[0], c);
    }
    forall i, c: nat | n <= i < |stack| && MarkedOn(stack[i], c) ensures AddsMarked(d, c) {
      assert MarkedOn(d.news[0], c);
    }
  }

  /** A frame moves on, possibly changing its class. */
  lemma GotoKeeps(w: World, s: State, t: nat, k: Class, f: Frame)
    requires Inv(w, s) && t < |s.stacks| && s.stacks[t] != [] && Top(s, t).cls < |s.classes| && ClassOk(w, s, t, k) && GotoOk(w, s, t, k, f)
    requires Wf(w, Goto(SetClass(s, f.cls, k), t, f))
    requires FrameInv(w, Goto(SetClass(s, f.cls, k), t, f), t, |s.stacks[t]| - 1)
    ensures Inv(w, Goto(SetClass(s, f.cls, k), t, f))
  {
    var d := GotoUpdate(s, t, k, f);
    assert d.news[0] == f;
    assert Apply(s, d) == Goto(SetClass(s, f.cls, k), t, f);
    GotoLegalClass(w, s, t, k, f);
    GotoLegalStack(w, s, t, k, f);
    hide LegalStack, LegalClass, Inv, GotoOk, ClassOk;
    Preserve(w, s, d);
  }

  /** Frame `f` is the top frame of `t` about to call `g`. */
  ghost predicate CallOk(w: World, s: State, t: nat, f: Frame, g: Frame)
    requires t < |s.stacks| && s.stacks[t] != []
  {
    var top := Top(s, t);
    && FrameWf(w, f) && f.cls == top.cls && f.Init? == top.Init?
    && (f.Init? ==> f.statics == top.statics && f.parents == top.parents)
    && FrameWf(w, g) && Link(w, f, g) && (if g.Init? then g.pc.Enter? else g.vpc.VEnter?)
    && (forall c: nat :: Holds(w, f, c) ==> Holds(w, top, c))
    && (ActiveOn(f, f.cls) <==> ActiveOn(top, f.cls))
    && (MarkedOn(top, f.cls) ==> MarkedOn(f, f.cls))
  }

  lemma CalledStack(w: World, s: State, t: nat, f: Frame, g: Frame)
    requires w.Valid() && t < |s.stacks| && s.stacks[t] != [] && StackInv(w, s.stacks[t]) && CallOk(w, s, t, f, g)
    ensures StackInv(w, s.stacks[t][..|s.stacks[t]| - 1] + [f, g])
  {
    hide Holds, ActiveOn, MarkedOn;
    var stack := s.stacks[t];
    var n := |stack| - 1;
    var stack' := stack[..n] + [f, g];
    forall i | 0 <= i < |stack'| - 1 ensures Link(w, stack'[i], stack'[i + 1]) {
      if i < n {
        assert Link(w, stack[i], stack[i + 1]);
      }
    }
    forall i, j | 0 <= i < j < |stack'| && stack'[i].Verify? ensures stack'[j].Verify? && stack'[j].cls < stack'[i].cls {
      if i < n {
        assert stack[i].Verify? && stack[n].Verify?;
      }
    }
  }

  lemma CallLegal(w: World, s: State, t: nat, f: Frame, g: Frame, d: Update)
    requires Inv(w, s) && t < |s.stacks| && s.stacks[t] != [] && CallOk(w, s, t, f, g)
    requires f.cls < |s.classes| && d == Update(t, f.cls, s.classes[f.cls], |s.stacks[t]| - 1, [f, g]) && UpdateWf(w, s, d)
    ensures LegalStack(w, s, d)
  {
    var stack := s.stacks[t];
    var n := |stack| - 1;
    CalledStack(w, s, t, f, g);
    assert d.news[0] == f && d.news[1] == g;
    assert forall c: nat :: !ActiveOn(g, c) && !Holds(w, g, c);
    forall j, c: nat | 0 <= j < |d.news| && Holds(w, d.news[j], c) ensures LockFree(w, s, t, c) {
      assert d.news[j] == f;
      HeldIsFree(w, s, t, c);
    }
    assert forall j :: 0 <= j < |d.news| ==> d.news[j] == f || (j == 1 && d.news[j] == g);
    forall c: nat | ActiveOn(f, c) ensures c < |s.classes| && DropsActive(s, d, c) {
      assert ActiveOn(stack[n], c);
    }
    forall c: nat | ActiveOn(stack[n], c) ensures AddsActive(d, c) {
      assert ActiveOn(d.news[0], c);
    }
    forall c: nat | MarkedOn(stack[n], c) ensures AddsMarked(d, c) {
      assert MarkedOn(d.news[0], c);
    }
  }

  /** Leaving the class alone is legal. */
  lemma UnchangedLegal(w: World, s: State, d: Update)
    requires Inv(w, s) && UpdateWf(w, s, d) && d.k == s.classes[d.cls]
    ensures LegalClass(w, s, d)
  {
    assert ClassInv(w, s, d.cls);
  }

  /** A frame calls another one; no class changes. */
  lemma CallKeeps(w: World, s: State, t: nat, f: Frame, g: Frame)
    requires Inv(w, s) && t < |s.stacks| && s.stacks[t] != [] && CallOk(w, s, t, f, g)
    requires Wf(w, Call(s, t, f, g))
    requires FrameInv(w, Call(s, t, f, g), t, |s.stacks[t]| - 1) && FrameInv(w, Call(s, t, f, g), t, |s.stacks[t]|)
    ensures Inv(w, Call(s, t, f, g))
  {
    var d := Update(t, f.cls, s.classes[f.cls], |s.stacks[t]| - 1, [f, g]);
    assert Apply(s, d) == Call(s, t, f, g);
    CallLegal(w, s, t, f, g, d);
    UnchangedLegal(w, s, d);
    Preserve(w, s, d);
  }

  ghost function ReturnUpdate(s: State, t: nat, k: Class, result: Result): Update
    requires t < |s.stacks| && s.stacks[t] != []
  {
    var n := |s.stacks[t]|;
    if n == 1 then Update(t, Top(s, t).cls, k, 0, [])
    else Update(t, Top(s, t).cls, k, n - 2, [Resume(s.stacks[t][n - 2], result)])
  }

  /** What a callee must leave behind for its caller to go on. */
  ghost predicate ReturnOk(w: World, s: State, t: nat, k: Class, result: Result)
    requires t < |s.stacks| && s.stacks[t] != []
  {
    var f, n := Top(s, t), |s.stacks[t]|;
    && (f.Verify? ==> Settled(w, k.status) && (result.Thrown? <==> k.status == ERROR))
    && (f.Init? && result.Done? ==> k.status == INITIALIZED || (k.status == INITIALIZING && k.owner == Some(t) && !ActiveOn(f, f.cls)))
    && (f.Init? && !result.Done? && n >= 2 && s.stacks[t][n - 2].Init? && s.stacks[t][n - 2].pc.AwaitSuper? ==> SuperRefused(w, k.status, result.Thrown?))
  }

  /** The caller's frame invariant after a return. */
  lemma ResumeInv(w: World, s: State, t: nat, k: Class, result: Result)
    requires Inv(w, s) && t < |s.stacks| && |s.stacks[t]| >= 2 && ClassOk(w, s, t, k) && ReturnOk(w, s, t, k, result)
    requires Top(s, t).cls < |s.classes| && UpdateWf(w, s, ReturnUpdate(s, t, k, result)) && LegalClass(w, s, ReturnUpdate(s, t, k, result))
    requires Wf(w, Apply(s, ReturnUpdate(s, t, k, result)))
    ensures FrameInv(w, Apply(s, ReturnUpdate(s, t, k, result)), t, |s.stacks[t]| - 2)
  {
    var stack, d := s.stacks[t], ReturnUpdate(s, t, k, result);
    var n := |stack|;
    var s' := Apply(s, d);
    var b, f := stack[n - 2], stack[n - 1];
    assert s'.stacks[t][n - 2] == Resume(b, result);
    assert Link(w, b, f) && FrameInv(w, s, t, n - 2) && FrameWf(w, b) && FrameWf(w, f);
    assert StackInv(w, stack);
    if b.Init? && b.pc.Running? {
      assert b.cls == f.cls ==> !ActiveOn(f, f.cls);
      SuperReadyStays(w, s, d, t, n - 2, b.cls);
    } else if b.Init? && b.pc.AwaitSuper? && result.Done? {
      SuperReturned(w, s, t, k);
    }
  }

  /** The initialisation of a superclass that returns true to a subclass leaves it ready. */
  lemma SuperReturned(w: World, s: State, t: nat, k: Class)
    requires Inv(w, s) && t < |s.stacks| && |s.stacks[t]| >= 2 && ClassOk(w, s, t, k) && ReturnOk(w, s, t, k, Done)
    requires Top(s, t).cls < |s.classes| && UpdateWf(w, s, ReturnUpdate(s, t, k, Done)) && LegalClass(w, s, ReturnUpdate(s, t, k, Done))
    requires Wf(w, Apply(s, ReturnUpdate(s, t, k, Done)))
    requires var b := s.stacks[t][|s.stacks[t]| - 2]; b.Init? && b.pc.AwaitSuper?
    ensures var n := |s.stacks[t]|; SuperReady(w, Apply(s, ReturnUpdate(s, t, k, Done)), t, n - 2, s.stacks[t][n - 2].cls)
  {
    var stack, s' := s.stacks[t], Apply(s, ReturnUpdate(s, t, k, Done));
    var n := |stack|;
    var b, f := stack[n - 2], stack[n - 1];
    assert s'.stacks[t][n - 2] == Resume(b, Done);
    assert Link(w, b, f) && FrameWf(w, b) && FrameWf(w, f) && StackInv(w, stack);
    assert b.cls != f.cls;
    if k.status != INITIALIZED {
      assert k == s.classes[f.cls];
      assert ClassInv(w, s, f.cls);
      var i :| 0 <= i < |stack| && ActiveOn(stack[i], f.cls);
      assert i < n - 2;
      assert s'.stacks[t][i] == stack[i];
    }
  }

  /** The class part of a return. */
  lemma ReturnLegalClass(w: World, s: State, t: nat, k: Class, result: Result)
    requires Inv(w, s) && t < |s.stacks| && s.stacks[t] != [] && Top(s, t).cls < |s.classes|
    requires ClassOk(w, s, t, k) && UpdateWf(w, s, ReturnUpdate(s, t, k, result))
    requires k.status == INITIALIZING || BeingVerified(k.status) ==> k == s.classes[Top(s, t).cls]
    ensures LegalClass(w, s, ReturnUpdate(s, t, k, result))
  {
    var stack, d := s.stacks[t], ReturnUpdate(s, t, k, result);
    var n, f := |stack|, Top(s, t);
    forall i | 0 <= i < d.n ensures !MarkedOn(stack[i], f.cls) {
      LowerFrames(w, s, t, i);
    }
    forall i | 0 <= i < d.n && stack[i].Init? && stack[i].cls == f.cls && stack[i].pc.AwaitVerify?
      ensures s.classes[f.cls] != k ==> k.status <= VERIFIED {
      LowerFrames(w, s, t, i);
    }
    if ActiveOn(f, f.cls) {
      assert ActiveOn(stack[n - 1], f.cls);
    }
  }

  /** The stack part of a return to a caller. */
  lemma ReturnLegalStack(w: World, s: State, t: nat, k: Class, result: Result)
    requires Inv(w, s) && t < |s.stacks| && |s.stacks[t]| >= 2 && Top(s, t).cls < |s.classes|
    requires UpdateWf(w, s, ReturnUpdate(s, t, k, result))
    requires ActiveOn(Top(s, t), Top(s, t).cls) ==> k.status != INITIALIZING
    requires MarkedOn(Top(s, t), Top(s, t).cls) ==> !BeingVerified(k.status)
    ensures LegalStack(w, s, ReturnUpdate(s, t, k, result))
  {
    var stack, d := s.stacks[t], ReturnUpdate(s, t, k, result);
    var n := |stack|;
    var b := stack[n - 2];
    var r := Resume(b, result);
    assert d.news == [r] && d.n == n - 2;
    assert Link(w, b, stack[n - 1]);
    ResumedStack(w, stack, result);
    forall c: nat | Holds(w, r, c) ensures LockFree(w, s, t, c) {
      assert Holds(w, stack[n - 2], c);
    }
    forall c: nat | ActiveOn(r, c) ensures c < |s.classes| && DropsActive(s, d, c) {
      assert ActiveOn(stack[n - 2], c) && FrameWf(w, stack[n - 2]);
    }
    ReturnDrops(w, s, t, k, result);
  }

  /** What the popped frame did is done, and what the resumed one did goes on. */
  lemma ReturnDrops(w: World, s: State, t: nat, k: Class, result: Result)
    requires t < |s.stacks| && |s.stacks[t]| >= 2
    requires ActiveOn(Top(s, t), Top(s, t).cls) ==> k.status != INITIALIZING
    requires MarkedOn(Top(s, t), Top(s, t).cls) ==> !BeingVerified(k.status)
    ensures var d, stack := ReturnUpdate(s, t, k, result), s.stacks[t];
            && (forall i, c: nat :: |stack| - 2 <= i < |stack| && ActiveOn(stack[i], c) ==> AddsActive(d, c) || (c == d.cls && d.k.status != INITIALIZING))
            && (forall i, c: nat :: |stack| - 2 <= i < |stack| && MarkedOn(stack[i], c) ==> AddsMarked(d, c) || (c == d.cls && !BeingVerified(d.k.status)))
  {
    var stack, d := s.stacks[t], ReturnUpdate(s, t, k, result);
    var n := |stack|;
    forall i, c: nat | n - 2 <= i < |stack| && ActiveOn(stack[i], c) ensures AddsActive(d, c) || (c == d.cls && d.k.status != INITIALIZING) {
      if i == n - 2 {
        assert ActiveOn(d.news[0], c);
      }
    }
    forall i, c: nat | n - 2 <= i < |stack| && MarkedOn(stack[i], c) ensures AddsMarked(d, c) || (c == d.cls && !BeingVerified(d.k.status)) {
      if i == n - 2 {
        assert MarkedOn(d.news[0], c);
      }
    }
  }

  lemma ResumedStack(w: World, stack: seq<Frame>, result: Result)
    requires StackInv(w, stack) && |stack| >= 2
    ensures StackInv(w, stack[..|stack| - 2] + [Resume(stack[|stack| - 2], result)])
  {
    var n := |stack|;
    var stack' := stack[..n - 2] + [Resume(stack[n - 2], result)];
    forall i | 0 <= i < |stack'| - 1 ensures Link(w, stack'[i], stack'[i + 1]) {
      assert Link(w, stack[i], stack[i + 1]);
    }
    assert Link(w, stack[n - 2], stack[n - 1]);
  }

  ghost predicate ReturnClassOk(w: World, s: State, t: nat, k: Class)
    requires Inv(w, s) && t < |s.stacks| && s.stacks[t] != [] && Top(s, t).cls < |s.classes|
  {
    && ClassOk(w, s, t, k)
    && (ActiveOn(Top(s, t), Top(s, t).cls) ==> k.status != INITIALIZING)
    && (MarkedOn(Top(s, t), Top(s, t).cls) ==> !BeingVerified(k.status))
    && (k.status == INITIALIZING || BeingVerified(k.status) ==> k == s.classes[Top(s, t).cls])
  }

  lemma ReturnKeeps(w: World, s: State, t: nat, k: Class, result: Result)
    requires Inv(w, s) && t < |s.stacks| && s.stacks[t] != [] && Top(s, t).cls < |s.classes|
    requires ReturnClassOk(w, s, t, k) && ReturnOk(w, s, t, k, result)
    ensures Inv(w, Return(SetClass(s, Top(s, t).cls, k), t, result))
  {
    if |s.stacks[t]| == 1 {
      LastReturnKeeps(w, s, t, k, result);
    } else {
      NestedReturnKeeps(w, s, t, k, result);
    }
  }

  lemma NestedReturnKeeps(w: World, s: State, t: nat, k: Class, result: Result)
    requires Inv(w, s) && t < |s.stacks| && |s.stacks[t]| >= 2 && Top(s, t).cls < |s.classes|
    requires ReturnClassOk(w, s, t, k) && ReturnOk(w, s, t, k, result)
    ensures Inv(w, Return(SetClass(s, Top(s, t).cls, k), t, result))
  {
    hide LegalStack, LegalClass, ReturnOk, FrameInv, ClassInv, Link, ClassOk;
    var stack, d := s.stacks[t], ReturnUpdate(s, t, k, result);
    assert Apply(s, d) == Return(SetClass(s, Top(s, t).cls, k), t, result);
    assert UpdateWf(w, s, d) by {
      assert FrameWf(w, stack[|stack| - 2]);
    }
    ReturnLegalClass(w, s, t, k, result);
    ApplyWf(w, s, d);
    ReturnLegalStack(w, s, t, k, result);
    ResumeInv(w, s, t, k, result);
    Preserve(w, s, d);
  }

  lemma LastReturnKeeps(w: World, s: State, t: nat, k: Class, result: Result)
    requires Inv(w, s) && t < |s.stacks| && |s.stacks[t]| == 1 && Top(s, t).cls < |s.classes|
    requires ReturnClassOk(w, s, t, k)
    ensures Inv(w, Return(SetClass(s, Top(s, t).cls, k), t, result))
  {
    var d := ReturnUpdate(s, t, k, result);
    assert Apply(s, d) == Return(SetClass(s, Top(s, t).cls, k), t, result);
    ReturnLegalClass(w, s, t, k, result);
    ApplyWf(w, s, d);
    LastReturnLegal(w, s, t, k, result);
    Preserve(w, s, d);
  }

  /** A thread's outermost frame returns. */
  lemma LastReturnLegal(w: World, s: State, t: nat, k: Class, result: Result)
    requires Inv(w, s) && t < |s.stacks| && |s.stacks[t]| == 1 && Top(s, t).cls < |s.classes|
    requires UpdateWf(w, s, ReturnUpdate(s, t, k, result))
    requires ActiveOn(Top(s, t), Top(s, t).cls) ==> k.status != INITIALIZING
    requires MarkedOn(Top(s, t), Top(s, t).cls) ==> !BeingVerified(k.status)
    ensures LegalStack(w, s, ReturnUpdate(s, t, k, result))
  {
  }
}
