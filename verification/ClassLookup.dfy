/** Threads that look up, find and define classes at the same time (runtime/class_linker.cc: FindClass,
    LookupClass, DefineClass).  A step is what a thread does under one acquisition of the class table
    lock, or its unlocked read of the flag that says whether the image is still to be searched. */
module ClassLookup {
  import opened Options
  import opened ClassTable

  /** A debug build makes more checks. */
  datatype World = World(hash: Hash, image: Image, debug: bool)

  /** The part of the linker that threads share, and whether a check has ended the process. */
  datatype Shared = Shared(table: Table, required: bool, failed: nat, aborted: bool)

  /** Where a thread is.  `finding` says that a lookup is part of `FindClass`, which goes on to define the
      class; `wasRequired` is what the flag was when the table was searched; and `direct` says that a class
      is being defined without a lookup before. */
  datatype Pc =
    | Idle
    | Missed(descriptor: string, loader: nat, finding: bool, wasRequired: bool)
    | Searching(descriptor: string, finding: bool)
    | Caching(descriptor: string, klass: Class)
    | Flushing(descriptor: string, finding: bool)
    | Loading(descriptor: string)
    | Defining(klass: Class, direct: bool)

  datatype State = State(shared: Shared, threads: seq<Pc>)

  /** What a thread chooses to do where it has a choice. */
  datatype Choice = Lookup(descriptor: string, loader: nat, finding: bool) | Flush | Define(klass: Class) | GiveUp

  datatype Event = Silent | Answered(descriptor: string, loader: nat, result: Option<Class>) | Defined(klass: Class, existing: Class) | Aborted

  function Flushed(w: World, sh: Shared): Shared {
    if sh.required then sh.(table := AllMoved(sh.table, w.hash, w.image, |w.image|), required := false) else sh
  }

  function Inserted(w: World, sh: Shared, c: Class): Shared {
    if Find(sh.table, w.hash, c.descriptor, c.loader).Some? then sh else sh.(table := Added(sh.table, w.hash, c))
  }

  /** After a lookup without result: `FindClass` with the boot loader goes on to load the class. */
  function AfterMiss(descriptor: string, finding: bool): Pc {
    if finding then Loading(descriptor) else Idle
  }

  /** A step of a thread: the shared state and its place afterwards, and what it reports. */
  function Step(w: World, sh: Shared, pc: Pc, ch: Choice): (Shared, Pc, Event) {
    if sh.aborted then (sh, pc, Silent)
    else
      match pc
      case Idle =>
        (match ch
         case Lookup(d, l, finding) =>
           var r := Find(sh.table, w.hash, d, l);
           if r.Some? then (sh, Idle, Answered(d, l, r)) else (sh, Missed(d, l, finding, sh.required), Silent)
         case Flush => FlushStep(w, sh, Idle, Silent)
         case Define(c) => (sh, Defining(c, true), Silent)
         case GiveUp => (sh, Idle, Silent))
      case Missed(d, l, finding, _) =>
        if l != BOOT || !sh.required then (sh, if l == BOOT then AfterMiss(d, finding) else Idle, Answered(d, l, None))
        else (sh, Searching(d, finding), Silent)
      case Searching(d, finding) =>
        var r := FindInImage(w.image, d);
        if r.Some? then (sh, Caching(d, r.value), Silent)
        else if sh.failed + 1 > MAX_FAILED_LOOKUPS then (sh.(failed := sh.failed + 1), Flushing(d, finding), Silent)
        else (sh.(failed := sh.failed + 1), AfterMiss(d, finding), Answered(d, BOOT, None))
      case Caching(d, c) =>
        // The answer of InsertClass is ignored.
        (Inserted(w, sh, c), Idle, Answered(d, BOOT, Some(c)))
      case Flushing(d, finding) => FlushStep(w, sh, AfterMiss(d, finding), Answered(d, BOOT, None))
      case Loading(d) =>
        if ch.Define? && Is(ch.klass, d, BOOT) then (sh, Defining(ch.klass, false), Silent) else (sh, Idle, Silent)
      case Defining(c, _) =>
        var existing := Find(sh.table, w.hash, c.descriptor, c.loader);
        if existing.Some? then (sh, Idle, Defined(c, existing.value))
        else if w.debug && Clashes(sh.table, w.hash, w.image, sh.required, c) then (sh.(aborted := true), Idle, Aborted)
        else (Inserted(w, sh, c), Idle, Defined(c, c))
  }

  /** `MoveImageClassesToClassTable`, which checks every class it moves. */
  function FlushStep(w: World, sh: Shared, pc: Pc, e: Event): (Shared, Pc, Event) {
    if sh.required && !Movable(sh.table, w.hash, w.image) then (sh.(aborted := true), pc, Aborted) else (Flushed(w, sh), pc, e)
  }

  // ---------- Invariant ----------

  /** Every image class is in the table, and is the one found there. */
  ghost predicate ImageMoved(w: World, t: Table) {
    Consistent(t, w.hash, w.image) && forall d {:trigger FindInImage(w.image, d)} :: FindInImage(w.image, d).Some? ==> Find(t, w.hash, d, BOOT).Some?
  }

  ghost predicate SharedOk(w: World, sh: Shared) {
    TableOk(sh.table, w.hash) && ImageOk(w.image) && (!sh.required ==> ImageMoved(w, sh.table))
  }

  /** Who is about to define a class of the image, after a lookup, has found the image moved. */
  ghost predicate PcOk(w: World, sh: Shared, pc: Pc) {
    match pc
    case Missed(_, _, _, wasRequired) => sh.required ==> wasRequired
    case Caching(d, c) => FindInImage(w.image, d) == Some(c)
    case Flushing(d, _) => FindInImage(w.image, d) == None
    case Loading(d) => FindInImage(w.image, d).Some? ==> !sh.required
    case Defining(c, direct) => !direct && c.loader == BOOT && FindInImage(w.image, c.descriptor).Some? ==> !sh.required
    case _ => true
  }

  ghost predicate Inv(w: World, s: State) {
    SharedOk(w, s.shared) && forall t {:trigger s.threads[t]} :: 0 <= t < |s.threads| ==> PcOk(w, s.shared, s.threads[t])
  }

  /** Nothing that is found is ever lost or replaced, and the flag is only ever cleared. */
  ghost predicate Grows(w: World, sh: Shared, sh': Shared) {
    && (sh'.required ==> sh.required)
    && (forall d, l {:trigger Find(sh'.table, w.hash, d, l)} {:trigger Find(sh.table, w.hash, d, l)} ::
          Find(sh.table, w.hash, d, l).Some? ==> Find(sh'.table, w.hash, d, l) == Find(sh.table, w.hash, d, l))
  }

  /** A thread is about to insert a class of the boot loader that is not the image's class for its descriptor,
      while the image has not been moved and the descriptor is not in the table. */
  predicate Rogue(w: World, sh: Shared, pc: Pc) {
    !sh.aborted && pc.Defining? && Clashes(sh.table, w.hash, w.image, sh.required, pc.klass)
  }

  /** A rogue definition is never the work of `FindClass`, which looks for the class first. */
  lemma RogueIsDirect(w: World, sh: Shared, pc: Pc)
    requires PcOk(w, sh, pc) && Rogue(w, sh, pc)
    ensures pc.direct
  {
  }

  lemma FlushedOk(w: World, sh: Shared)
    requires SharedOk(w, sh) && (sh.required ==> Consistent(sh.table, w.hash, w.image))
    ensures SharedOk(w, Flushed(w, sh)) && Grows(w, sh, Flushed(w, sh)) && Consistent(Flushed(w, sh).table, w.hash, w.image)
  {
    if sh.required {
      var t' := AllMoved(sh.table, w.hash, w.image, |w.image|);
      AllMovedGrows(sh.table, w.hash, w.image, |w.image|);
      AfterFlush(sh.table, w.hash, w.image);
      GrownConsistent(sh.table, t', w.hash, w.image);
    }
  }

  lemma InsertedOk(w: World, sh: Shared, c: Class)
    requires SharedOk(w, sh)
    ensures SharedOk(w, Inserted(w, sh, c)) && Grows(w, sh, Inserted(w, sh, c))
    ensures Find(Inserted(w, sh, c).table, w.hash, c.descriptor, c.loader).Some?
  {
    if Find(sh.table, w.hash, c.descriptor, c.loader).None? {
      AddedOk(sh.table, w.hash, c);
      var t' := Added(sh.table, w.hash, c);
      FindAdded(sh.table, w.hash, c, c.descriptor, c.loader);
      forall d, l ensures Find(sh.table, w.hash, d, l).Some? ==> Find(t', w.hash, d, l) == Find(sh.table, w.hash, d, l) {
        FindAdded(sh.table, w.hash, c, d, l);
      }
      if !sh.required {
        InsertedConsistent(w, sh, c);
      }
    }
  }

  /** Inserting a class keeps the table consistent with the image exactly unless the class clashes with it. */
  lemma InsertedConsistent(w: World, sh: Shared, c: Class)
    requires SharedOk(w, sh) && Consistent(sh.table, w.hash, w.image)
    ensures Consistent(Inserted(w, sh, c).table, w.hash, w.image) <==> !Clashes(sh.table, w.hash, w.image, sh.required, c)
  {
    if Find(sh.table, w.hash, c.descriptor, c.loader).None? {
      var t' := Added(sh.table, w.hash, c);
      FindAdded(sh.table, w.hash, c, c.descriptor, BOOT);
      if !Clashes(sh.table, w.hash, w.image, sh.required, c) {
        forall d | Find(t', w.hash, d, BOOT).Some? && FindInImage(w.image, d).Some? ensures Find(t', w.hash, d, BOOT) == FindInImage(w.image, d) {
          FindAdded(sh.table, w.hash, c, d, BOOT);
          assert Find(sh.table, w.hash, d, BOOT) == Find(sh.table, w.hash, d, BOOT);
        }
      }
    }
  }

  lemma SameGrows(w: World, sh: Shared, sh': Shared)
    requires SharedOk(w, sh) && sh'.table == sh.table && sh'.required == sh.required
    ensures SharedOk(w, sh') && Grows(w, sh, sh')
  {
  }

  /** A step that moves the image, if it still has to be moved. */
  predicate Flushes(sh: Shared, pc: Pc, ch: Choice) {
    !sh.aborted && sh.required && ((pc.Idle? && ch.Flush?) || pc.Flushing?)
  }

  lemma FlushStepOk(w: World, sh: Shared, pc: Pc, e: Event)
    requires SharedOk(w, sh)
    ensures var (sh', pc', e') := FlushStep(w, sh, pc, e);
            && SharedOk(w, sh') && Grows(w, sh, sh') && pc' == pc
            && (if sh.required && !Consistent(sh.table, w.hash, w.image) then e' == Aborted && sh'.table == sh.table
                else e' == e && Consistent(sh'.table, w.hash, w.image))
  {
    MovableExactly(sh.table, w.hash, w.image);
    SameGrows(w, sh, sh.(aborted := true));
    if !sh.required || Consistent(sh.table, w.hash, w.image) {
      FlushedOk(w, sh);
    }
  }

  /** What every step keeps, and when it aborts: exactly a rogue definition in a debug build, and moving the
      image into a table that is not consistent with it. */
  lemma StepOk(w: World, sh: Shared, pc: Pc, ch: Choice)
    requires SharedOk(w, sh) && PcOk(w, sh, pc)
    ensures var (sh', pc', e) := Step(w, sh, pc, ch);
            && SharedOk(w, sh') && Grows(w, sh, sh') && PcOk(w, sh', pc')
            && (e == Aborted <==> (w.debug && Rogue(w, sh, pc)) || (Flushes(sh, pc, ch) && !Consistent(sh.table, w.hash, w.image)))
            && (sh'.aborted <==> sh.aborted || e == Aborted)
  {
    hide SharedOk, Inserted, Flushed, FlushStep, Consistent;
    SameGrows(w, sh, sh);
    SameGrows(w, sh, sh.(aborted := true));
    match pc
    case Idle => FlushStepOk(w, sh, Idle, Silent); FlushAborted(w, sh, Idle, Silent);
    case Flushing(d, finding) =>
      FlushStepOk(w, sh, AfterMiss(d, finding), Answered(d, BOOT, None));
      FlushAborted(w, sh, AfterMiss(d, finding), Answered(d, BOOT, None));
    case Caching(d, c) => InsertedOk(w, sh, c); InsertedAborted(w, sh, c);
    case Defining(c, _) => InsertedOk(w, sh, c); InsertedAborted(w, sh, c);
    case Searching(_, _) => SameGrows(w, sh, sh.(failed := sh.failed + 1));
    case _ =>
  }

  lemma FlushAborted(w: World, sh: Shared, pc: Pc, e: Event)
    ensures !sh.aborted && e != Aborted ==> (FlushStep(w, sh, pc, e).0.aborted <==> FlushStep(w, sh, pc, e).2 == Aborted)
  {
  }

  lemma InsertedAborted(w: World, sh: Shared, c: Class)
    ensures Inserted(w, sh, c).aborted == sh.aborted
  {
  }

  /** A consistent table stays so, exactly unless a release build carries out a rogue definition; and an
      inconsistent one stays inconsistent. */
  lemma StepConsistent(w: World, sh: Shared, pc: Pc, ch: Choice)
    requires SharedOk(w, sh) && PcOk(w, sh, pc)
    ensures var (sh', pc', e) := Step(w, sh, pc, ch);
            Consistent(sh'.table, w.hash, w.image) <==> Consistent(sh.table, w.hash, w.image) && !(Rogue(w, sh, pc) && !w.debug)
  {
    var (sh', pc', e) := Step(w, sh, pc, ch);
    if Consistent(sh.table, w.hash, w.image) {
      hide Consistent, SharedOk, Inserted, FlushStep;
      match pc
      case Idle => FlushStepOk(w, sh, Idle, Silent);
      case Flushing(d, finding) => FlushStepOk(w, sh, AfterMiss(d, finding), Answered(d, BOOT, None));
      case Caching(d, c) => CachingClashesNot(w, sh, d, c); InsertedConsistent(w, sh, c);
      case Defining(c, _) => InsertedConsistent(w, sh, c); FoundClashesNot(w, sh, c);
      case _ =>
    } else {
      StepOk(w, sh, pc, ch);
      StaysInconsistent(w, sh, sh');
    }
  }

  lemma CachingClashesNot(w: World, sh: Shared, d: string, c: Class)
    requires ImageOk(w.image) && FindInImage(w.image, d) == Some(c)
    ensures !Clashes(sh.table, w.hash, w.image, sh.required, c)
  {
  }

  lemma FoundClashesNot(w: World, sh: Shared, c: Class)
    ensures Find(sh.table, w.hash, c.descriptor, c.loader).Some? ==> !Clashes(sh.table, w.hash, w.image, sh.required, c)
  {
  }

  lemma StaysInconsistent(w: World, sh: Shared, sh': Shared)
    requires Grows(w, sh, sh') && !Consistent(sh.table, w.hash, w.image)
    ensures !Consistent(sh'.table, w.hash, w.image)
  {
    var d :| Find(sh.table, w.hash, d, BOOT).Some? && FindInImage(w.image, d).Some? && Find(sh.table, w.hash, d, BOOT) != FindInImage(w.image, d);
    assert Find(sh'.table, w.hash, d, BOOT) == Find(sh.table, w.hash, d, BOOT);
  }

  lemma PcKept(w: World, sh: Shared, sh': Shared, pc: Pc)
    requires PcOk(w, sh, pc) && Grows(w, sh, sh')
    ensures PcOk(w, sh', pc)
  {
  }

  // ---------- What a step reports ----------

  /** What a lookup was to answer when it searched the table. */
  function Expected(w: World, pc: Pc): Option<Class>
    requires pc.Missed?
  {
    if pc.loader == BOOT && pc.wasRequired then FindInImage(w.image, pc.descriptor) else None
  }

  /** The image was flushed between a lookup's search of the table and its reading of the flag, and the
      class is one of the image. */
  predicate FlushedMeanwhile(w: World, sh: Shared, pc: Pc) {
    pc.Missed? && pc.loader == BOOT && pc.wasRequired && !sh.required && FindInImage(w.image, pc.descriptor).Some?
  }

  /** A lookup that misses the table expects what lookups answer at that moment. */
  lemma ExpectedIsAnswer(w: World, sh: Shared, ch: Choice)
    requires ch.Lookup? && !sh.aborted
    ensures var (sh', pc', e) := Step(w, sh, Idle, ch);
            var answer := View(sh.table, w.hash, w.image, sh.required, ch.descriptor, ch.loader);
            if pc'.Missed? then Expected(w, pc') == answer && e == Silent else e == Answered(ch.descriptor, ch.loader, answer)
  {
  }

  /** Where a missed lookup stops: with what it expected, unless the image was flushed meanwhile. */
  lemma MissedAnswers(w: World, sh: Shared, pc: Pc, ch: Choice)
    requires pc.Missed? && PcOk(w, sh, pc) && !sh.aborted
    ensures var (sh', pc', e) := Step(w, sh, pc, ch);
            if e.Answered? then e.result == None && (e.result == Expected(w, pc) <==> !FlushedMeanwhile(w, sh, pc))
            else pc'.Searching? && pc'.descriptor == pc.descriptor && Expected(w, pc) == FindInImage(w.image, pc'.descriptor)
  {
  }

  /** A lookup that searches the image answers what is there, if it answers. */
  lemma SearchAnswers(w: World, sh: Shared, pc: Pc, ch: Choice)
    requires PcOk(w, sh, pc) && (pc.Searching? || pc.Caching? || pc.Flushing?) && !sh.aborted
    ensures var (sh', pc', e) := Step(w, sh, pc, ch);
            if e.Answered? then e.descriptor == pc.descriptor && e.result == FindInImage(w.image, pc.descriptor)
            else e == Aborted || ((pc'.Caching? || pc'.Flushing?) && pc'.descriptor == pc.descriptor)
  {
  }

  /** A lookup is about to answer a class of the image although the table holds another one. */
  predicate Stray(w: World, sh: Shared, pc: Pc) {
    !sh.aborted && pc.Caching? && Find(sh.table, w.hash, pc.descriptor, BOOT) !in {None, Some(pc.klass)}
  }

  /** The class an event reports for a descriptor and loader. */
  function Reported(e: Event): Option<(string, nat, Class)> {
    match e
    case Answered(d, l, Some(c)) => Some((d, l, c))
    case Defined(k, c) => Some((k.descriptor, k.loader, c))
    case _ => None
  }

  /** A class that is reported, looked up or defined, is the one in the table, exactly unless the answer is
      stray; then it is the image's, and the table keeps the other one. */
  lemma ReportedExactly(w: World, sh: Shared, pc: Pc, ch: Choice)
    requires SharedOk(w, sh) && PcOk(w, sh, pc)
    ensures var (sh', pc', e) := Step(w, sh, pc, ch);
            Reported(e).Some? ==>
              var (d, l, c) := Reported(e).value;
              && Find(sh'.table, w.hash, d, l).Some?
              && (Find(sh'.table, w.hash, d, l) == Some(c) <==> !Stray(w, sh, pc))
              && (Stray(w, sh, pc) ==> l == BOOT && FindInImage(w.image, d) == Some(c))
  {
    hide SharedOk, FlushStep;
    match pc
    case Caching(d, c) =>
      assert c.descriptor == d && c.loader == BOOT by { ImageClass(w, sh, d, c); }
      FindAdded(sh.table, w.hash, c, d, BOOT);
    case Defining(c, _) => FindAdded(sh.table, w.hash, c, c.descriptor, c.loader);
    case Flushing(d, finding) => FlushReports(w, sh, AfterMiss(d, finding), Answered(d, BOOT, None));
    case Idle => FlushReports(w, sh, Idle, Silent);
    case _ =>
  }

  lemma FlushReports(w: World, sh: Shared, pc: Pc, e: Event)
    ensures Reported(e).None? ==> Reported(FlushStep(w, sh, pc, e).2).None?
  {
  }

  lemma ImageClass(w: World, sh: Shared, d: string, c: Class)
    requires SharedOk(w, sh) && FindInImage(w.image, d) == Some(c)
    ensures c.descriptor == d && c.loader == BOOT
  {
  }

  /** Defining a class under a descriptor of the image results in the image's class exactly unless it is a
      rogue definition, while the table is consistent. */
  lemma DefinedImageClass(w: World, sh: Shared, pc: Pc, ch: Choice)
    requires SharedOk(w, sh) && PcOk(w, sh, pc) && !sh.aborted && Consistent(sh.table, w.hash, w.image)
    requires pc.Defining? && pc.klass.loader == BOOT && FindInImage(w.image, pc.klass.descriptor).Some?
    ensures Step(w, sh, pc, ch).2 == Defined(pc.klass, FindInImage(w.image, pc.klass.descriptor).value) <==> !Rogue(w, sh, pc)
  {
    assert Find(sh.table, w.hash, pc.klass.descriptor, BOOT) == Find(sh.table, w.hash, pc.klass.descriptor, BOOT);
  }

  // ---------- Runs ----------

  datatype Move = Move(thread: nat, choice: Choice)

  /** State `s'` and report `e` after a move. */
  ghost predicate Next(w: World, s: State, m: Move, s': State, e: Event) {
    && m.thread < |s.threads|
    && var (sh', pc', e') := Step(w, s.shared, s.threads[m.thread], m.choice);
       s' == State(sh', s.threads[m.thread := pc']) && e == e'
  }

  ghost predicate Initial(w: World, s: State) {
    && SharedOk(w, s.shared) && Consistent(s.shared.table, w.hash, w.image) && !s.shared.aborted
    && forall t {:trigger s.threads[t]} :: 0 <= t < |s.threads| ==> s.threads[t] == Idle
  }

  ghost predicate IsRun(w: World, states: seq<State>, moves: seq<Move>, events: seq<Event>) {
    && |states| == |moves| + 1 && |events| == |moves| && Initial(w, states[0])
    && forall i {:trigger moves[i]} :: 0 <= i < |moves| ==> Next(w, states[i], moves[i], states[i + 1], events[i])
  }

  lemma NextKeeps(w: World, s: State, m: Move, s': State, e: Event)
    requires Inv(w, s) && Next(w, s, m, s', e)
    ensures Inv(w, s') && Grows(w, s.shared, s'.shared)
  {
    StepOk(w, s.shared, s.threads[m.thread], m.choice);
    forall t | 0 <= t < |s'.threads| ensures PcOk(w, s'.shared, s'.threads[t]) {
      if t != m.thread {
        PcKept(w, s.shared, s'.shared, s.threads[t]);
      }
    }
  }

  /** In every state of every run the table holds one class for a descriptor and loader, and once the image
      has been moved, the image's for a descriptor of the image. */
  lemma {:induction false} RunInv(w: World, states: seq<State>, moves: seq<Move>, events: seq<Event>, i: nat)
    requires IsRun(w, states, moves, events) && i < |states|
    ensures Inv(w, states[i])
    decreases i
  {
    if i > 0 {
      RunInv(w, states, moves, events, i - 1);
      assert Next(w, states[i - 1], moves[i - 1], states[i], events[i - 1]);
      NextKeeps(w, states[i - 1], moves[i - 1], states[i], events[i - 1]);
    }
  }

  lemma {:induction false} RunGrows(w: World, states: seq<State>, moves: seq<Move>, events: seq<Event>, i: nat, j: nat)
    requires IsRun(w, states, moves, events) && i <= j < |states|
    ensures Grows(w, states[i].shared, states[j].shared)
    decreases j
  {
    if i < j {
      RunGrows(w, states, moves, events, i, j - 1);
      RunInv(w, states, moves, events, j - 1);
      assert Next(w, states[j - 1], moves[j - 1], states[j], events[j - 1]);
      NextKeeps(w, states[j - 1], moves[j - 1], states[j], events[j - 1]);
    }
  }

  // ---------- What rogue definitions do, exactly ----------

  ghost predicate RogueAt(w: World, states: seq<State>, moves: seq<Move>, i: nat) {
    i < |states| && i < |moves| && moves[i].thread < |states[i].threads| && Rogue(w, states[i].shared, states[i].threads[moves[i].thread])
  }

  ghost predicate RogueBefore(w: World, states: seq<State>, moves: seq<Move>, n: nat) {
    exists i: nat :: i < n && RogueAt(w, states, moves, i)
  }

  /** The table is consistent with the image exactly until a release build carries out a rogue definition. */
  lemma {:induction false} ConsistentExactly(w: World, states: seq<State>, moves: seq<Move>, events: seq<Event>, n: nat)
    requires IsRun(w, states, moves, events) && n < |states|
    ensures Consistent(states[n].shared.table, w.hash, w.image) <==> w.debug || !RogueBefore(w, states, moves, n)
    decreases n
  {
    hide Consistent, Step, Rogue, SharedOk;
    if n > 0 {
      var i := n - 1;
      ConsistentExactly(w, states, moves, events, i);
      RunInv(w, states, moves, events, i);
      assert Next(w, states[i], moves[i], states[n], events[i]);
      StepConsistent(w, states[i].shared, states[i].threads[moves[i].thread], moves[i].choice);
      assert RogueBefore(w, states, moves, n) <==> RogueBefore(w, states, moves, i) || RogueAt(w, states, moves, i);
    }
  }

  /** The process aborts exactly at a rogue definition in a debug build, and in a release build exactly when the
      image is to be moved after one. */
  lemma AbortsExactly(w: World, states: seq<State>, moves: seq<Move>, events: seq<Event>, i: nat)
    requires IsRun(w, states, moves, events) && i < |moves|
    ensures moves[i].thread < |states[i].threads|
    ensures events[i] == Aborted <==>
            if w.debug then RogueAt(w, states, moves, i)
            else Flushes(states[i].shared, states[i].threads[moves[i].thread], moves[i].choice) && RogueBefore(w, states, moves, i)
  {
    RunInv(w, states, moves, events, i);
    assert Next(w, states[i], moves[i], states[i + 1], events[i]);
    StepOk(w, states[i].shared, states[i].threads[moves[i].thread], moves[i].choice);
    ConsistentExactly(w, states, moves, events, i);
  }

  ghost predicate StrayAt(w: World, states: seq<State>, moves: seq<Move>, i: nat) {
    i < |states| && i < |moves| && moves[i].thread < |states[i].threads| && Stray(w, states[i].shared, states[i].threads[moves[i].thread])
  }

  /** Stray answers come only after a rogue definition in a release build. */
  lemma StrayAfterRogue(w: World, states: seq<State>, moves: seq<Move>, events: seq<Event>, i: nat)
    requires IsRun(w, states, moves, events) && StrayAt(w, states, moves, i)
    ensures !w.debug && RogueBefore(w, states, moves, i)
  {
    RunInv(w, states, moves, events, i);
    ConsistentExactly(w, states, moves, events, i);
    assert Next(w, states[i], moves[i], states[i + 1], events[i]);
    assert PcOk(w, states[i].shared, states[i].threads[moves[i].thread]);
    var d := states[i].threads[moves[i].thread].descriptor;
    assert Find(states[i].shared.table, w.hash, d, BOOT) == Find(states[i].shared.table, w.hash, d, BOOT);
  }

  lemma ReportedInRun(w: World, states: seq<State>, moves: seq<Move>, events: seq<Event>, i: nat)
    requires IsRun(w, states, moves, events) && i < |moves| && Reported(events[i]).Some?
    ensures var (d, l, c) := Reported(events[i]).value;
            && Find(states[i + 1].shared.table, w.hash, d, l).Some?
            && (Find(states[i + 1].shared.table, w.hash, d, l) == Some(c) <==> !StrayAt(w, states, moves, i))
            && (StrayAt(w, states, moves, i) ==> FindInImage(w.image, d) == Some(c))
  {
    RunInv(w, states, moves, events, i);
    assert Next(w, states[i], moves[i], states[i + 1], events[i]);
    ReportedExactly(w, states[i].shared, states[i].threads[moves[i].thread], moves[i].choice);
  }

  /** Threads that look up or define a class under the same descriptor and loader, and get one, get the same
      exactly if both or neither of the answers are stray. */
  lemma AgreeExactly(w: World, states: seq<State>, moves: seq<Move>, events: seq<Event>, i: nat, j: nat)
    requires IsRun(w, states, moves, events) && i <= j < |moves| && Reported(events[i]).Some? && Reported(events[j]).Some?
    requires Reported(events[i]).value.0 == Reported(events[j]).value.0 && Reported(events[i]).value.1 == Reported(events[j]).value.1
    ensures Reported(events[i]) == Reported(events[j]) <==> (StrayAt(w, states, moves, i) <==> StrayAt(w, states, moves, j))
  {
    hide IsRun, Grows, StrayAt, Find, FindInImage, Reported;
    RunLength(w, states, moves, events);
    ReportedInRun(w, states, moves, events, i);
    ReportedInRun(w, states, moves, events, j);
    RunGrows(w, states, moves, events, i + 1, j + 1);
    var (d, l, c) := Reported(events[i]).value;
    SameReport(w, states[i + 1].shared, states[j + 1].shared, d, l, c, Reported(events[j]).value.2, StrayAt(w, states, moves, i), StrayAt(w, states, moves, j));
  }

  lemma RunLength(w: World, states: seq<State>, moves: seq<Move>, events: seq<Event>)
    requires IsRun(w, states, moves, events)
    ensures |states| == |moves| + 1 == |events| + 1
  {
  }

  /** Classes `c` and `c'` reported for the same descriptor and loader, one after the other. */
  lemma SameReport(w: World, sh: Shared, sh': Shared, d: string, l: nat, c: Class, c': Class, stray: bool, stray': bool)
    requires Grows(w, sh, sh') && Find(sh.table, w.hash, d, l).Some? && Find(sh'.table, w.hash, d, l).Some?
    requires (Find(sh.table, w.hash, d, l) == Some(c) <==> !stray) && (stray ==> FindInImage(w.image, d) == Some(c))
    requires (Find(sh'.table, w.hash, d, l) == Some(c') <==> !stray') && (stray' ==> FindInImage(w.image, d) == Some(c'))
    ensures c == c' <==> (stray <==> stray')
  {
  }

  /** So whatever threads race, all agree as long as there has been no rogue definition. */
  lemma AllAgree(w: World, states: seq<State>, moves: seq<Move>, events: seq<Event>, i: nat, j: nat)
    requires IsRun(w, states, moves, events) && i <= j < |moves| && Reported(events[i]).Some? && Reported(events[j]).Some?
    requires Reported(events[i]).value.0 == Reported(events[j]).value.0 && Reported(events[i]).value.1 == Reported(events[j]).value.1
    requires w.debug || !RogueBefore(w, states, moves, j)
    ensures Reported(events[i]) == Reported(events[j])
  {
    AgreeExactly(w, states, moves, events, i, j);
    if StrayAt(w, states, moves, i) {
      StrayAfterRogue(w, states, moves, events, i);
    }
    if StrayAt(w, states, moves, j) {
      StrayAfterRogue(w, states, moves, events, j);
    }
  }

  // ---------- Runs that show what can go wrong ----------

  /** A lookup of a class of the image that answers nothing, although the class can be found all along:
      another thread flushes the image between the two reads of the lookup. */
  lemma LookupLosesRace(w: World, c: Class) returns (states: seq<State>, moves: seq<Move>, events: seq<Event>)
    requires ImageOk(w.image) && InImage(w.image, c)
    ensures IsRun(w, states, moves, events) && |moves| == 3 && events[2] == Answered(c.descriptor, BOOT, None)
    ensures forall i {:trigger states[i]} :: 0 <= i < |states| ==>
              View(states[i].shared.table, w.hash, w.image, states[i].shared.required, c.descriptor, BOOT) == Some(c)
  {
    var d := c.descriptor;
    var sh := Shared(map[], true, 0, false);
    var flushed := Flushed(w, sh);
    ImageFindExact(w.image, c);
    EmptyTableOk(w);
    var missed := Missed(d, BOOT, false, true);
    states := [State(sh, [Idle, Idle]), State(sh, [missed, Idle]), State(flushed, [missed, Idle]), State(flushed, [Idle, Idle])];
    moves := [Move(0, Lookup(d, BOOT, false)), Move(1, Flush), Move(0, GiveUp)];
    events := [Silent, Silent, Answered(d, BOOT, None)];
    FlushKeepsView(map[], w.hash, w.image, d, BOOT);
    MovableExactly(map[], w.hash, w.image);
    assert [Idle, Idle][0 := missed] == [missed, Idle];
    assert [missed, Idle][1 := Idle] == [missed, Idle];
    assert [missed, Idle][0 := Idle] == [Idle, Idle];
    assert Next(w, states[0], moves[0], states[1], events[0]);
    assert Next(w, states[1], moves[1], states[2], events[1]);
    assert Next(w, states[2], moves[2], states[3], events[2]);
  }

  lemma EmptyTableOk(w: World)
    requires ImageOk(w.image)
    ensures SharedOk(w, Shared(map[], true, 0, false)) && Consistent(map[], w.hash, w.image)
  {
  }

  /** In a debug build, defining a class under the descriptor of an image class without looking for it aborts. */
  lemma RogueAborts(w: World, k: Class, c: Class) returns (states: seq<State>, moves: seq<Move>, events: seq<Event>)
    requires w.debug && ImageOk(w.image) && InImage(w.image, k) && c != k && Is(c, k.descriptor, BOOT)
    ensures IsRun(w, states, moves, events) && |moves| == 2 && moves[0].choice == Define(c) && events[1] == Aborted
  {
    var sh := Shared(map[], true, 0, false);
    ImageFindExact(w.image, k);
    EmptyTableOk(w);
    states := [State(sh, [Idle]), State(sh, [Defining(c, true)]), State(sh.(aborted := true), [Idle])];
    moves := [Move(0, Define(c)), Move(0, GiveUp)];
    events := [Silent, Aborted];
    assert [Idle][0 := Defining(c, true)] == [Defining(c, true)];
    assert [Defining(c, true)][0 := Idle] == [Idle];
    assert Next(w, states[0], moves[0], states[1], events[0]);
    assert Next(w, states[1], moves[1], states[2], events[1]);
  }

  /** In a release build it succeeds, a lookup that is under way answers another class, and moving the image
      aborts. */
  lemma RogueDisagrees(w: World, k: Class, c: Class) returns (states: seq<State>, moves: seq<Move>, events: seq<Event>)
    requires !w.debug && ImageOk(w.image) && InImage(w.image, k) && c != k && Is(c, k.descriptor, BOOT)
    ensures IsRun(w, states, moves, events) && |moves| == 7
    ensures events[4] == Defined(c, c) && events[5] == Answered(k.descriptor, BOOT, Some(k)) && events[6] == Aborted
  {
    var d := k.descriptor;
    var sh := Shared(map[], true, 0, false);
    var sh' := Inserted(w, sh, c);
    ImageFindExact(w.image, k);
    EmptyTableOk(w);
    FindAdded(map[], w.hash, c, d, BOOT);
    var missed, searching, caching, defining := Missed(d, BOOT, false, true), Searching(d, false), Caching(d, k), Defining(c, true);
    states := [State(sh, [Idle, Idle]), State(sh, [missed, Idle]), State(sh, [searching, Idle]), State(sh, [caching, Idle]),
               State(sh, [caching, defining]), State(sh', [caching, Idle]), State(sh', [Idle, Idle]), State(sh'.(aborted := true), [Idle, Idle])];
    moves := [Move(0, Lookup(d, BOOT, false)), Move(0, GiveUp), Move(0, GiveUp), Move(1, Define(c)), Move(1, GiveUp), Move(0, GiveUp), Move(1, Flush)];
    events := [Silent, Silent, Silent, Silent, Defined(c, c), Answered(d, BOOT, Some(k)), Aborted];
    NotMovable(w, sh'.table, k, c);
    RogueSteps(w, sh, sh', k, c);
    assert [Idle, Idle][0 := missed] == [missed, Idle] && [missed, Idle][0 := searching] == [searching, Idle] && [searching, Idle][0 := caching] == [caching, Idle];
    assert [caching, Idle][1 := defining] == [caching, defining] && [caching, defining][1 := Idle] == [caching, Idle];
    assert [caching, Idle][0 := Idle] == [Idle, Idle] && [Idle, Idle][1 := Idle] == [Idle, Idle];
    hide Step, Initial;
    assert Initial(w, states[0]);
    forall i | 0 <= i < |moves| ensures Next(w, states[i], moves[i], states[i + 1], events[i]) {
    }
  }

  lemma NotMovable(w: World, t: Table, k: Class, c: Class)
    requires ImageOk(w.image) && InImage(w.image, k) && c != k && Find(t, w.hash, k.descriptor, BOOT) == Some(c)
    ensures !Movable(t, w.hash, w.image)
  {
    ImageFindExact(w.image, k);
    MovableExactly(t, w.hash, w.image);
  }

  /** The steps of that run. */
  lemma RogueSteps(w: World, sh: Shared, sh': Shared, k: Class, c: Class)
    requires !w.debug && ImageOk(w.image) && InImage(w.image, k) && c != k && Is(c, k.descriptor, BOOT)
    requires sh == Shared(map[], true, 0, false) && sh' == Inserted(w, sh, c) && !Movable(sh'.table, w.hash, w.image)
    ensures var d := k.descriptor;
            && Step(w, sh, Idle, Lookup(d, BOOT, false)) == (sh, Missed(d, BOOT, false, true), Silent)
            && Step(w, sh, Missed(d, BOOT, false, true), GiveUp) == (sh, Searching(d, false), Silent)
            && Step(w, sh, Searching(d, false), GiveUp) == (sh, Caching(d, k), Silent)
            && Step(w, sh, Idle, Define(c)) == (sh, Defining(c, true), Silent)
            && Step(w, sh, Defining(c, true), GiveUp) == (sh', Idle, Defined(c, c))
            && Step(w, sh', Caching(d, k), GiveUp) == (sh', Idle, Answered(d, BOOT, Some(k)))
            && Step(w, sh', Idle, Flush) == (sh'.(aborted := true), Idle, Aborted)
  {
    ImageFindExact(w.image, k);
    FindAdded(map[], w.hash, c, k.descriptor, BOOT);
  }
}
