# ART: class linking, oat and image files, verified in Dafny

This project models eight parts of the Android runtime (ART) and proves what they are meant to guarantee. Where the code
does not meet the guarantee, the exact condition is proved and a case in which it fails is given.

* **Class initialisation** (`ClassInit*.dfy`). `EnsureInitialized`, `InitializeClass`, `VerifyClass` and
  `WaitForInitializeClass` are a transition system over threads, class statuses, monitors and stacks of activations. A step
  is what a thread does between two points where another thread can intervene. A thread may ask for a class, ask only for
  its verification as the compiler driver does, or initialise it in a transaction that is undone if that fails. The
  theorems are about every run. A class being initialised has one initialiser, and an answer of `true` means what it should.
  Initialized and Error are left, and a `<clinit>` is started twice, if and only if the rollback of a transaction took the
  first back; without rollback they are for good and a `<clinit>` starts once. Three `CHECK`s can fail, each with its exact
  condition and a run that reaches it: `VerifyClass` reads the status of the superclass after it has released its monitor;
  at compile time a class that is to be verified again is refused without the exception that `EnsureInitialized` expects;
  and with verification off at compile time a class below such a superclass is verified and claimed all the same, and
  `InitializeClass` then finds a superclass that failed without being erroneous.
* **Method linking** (`Classes`, `VirtualMethods`, `InterfaceTables`, `InterfaceMethods`, `MethodLinking`). Vtables,
  flattened interface tables, method arrays, the interface method table (IMT) and miranda methods, on objects that are
  updated in place. Every way to fail has an exact condition. An IMT slot is right for an implemented interface method;
  for a miranda it is right exactly if not one implemented method alone enters the slot.
* **Field layout** (`FieldLayout`). `LinkFields` and the independent computation in `SizeOfClass`. The two sizes agree
  exactly unless a descriptor that names no type stands where a narrow field would have filled a hole. The dex file
  verifier rejects such descriptors (`runtime/dex_file_verifier.cc:1485`), so only dex files that were not verified have them.
* **The class table** (`ClassTable`, `ClassLookup`). The hash-bucketed table and the lazy image lookup, first as an object
  run by one thread, then as a transition system of threads that look up, find, define and flush, in debug and in release
  builds. `DexFile.defineClass` defines a class without looking for it first. If that is another class of the boot loader
  under a descriptor of the image, which is still in use and whose class is not in the table, a debug build aborts; a
  release build accepts it, threads may then get different classes, and moving the image aborts. All of this happens
  exactly then: otherwise racing threads agree on one class and no check fails. `LookupClass` alone can answer "none" for a
  class of the image, exactly if the image is flushed between its two reads; `FindClass` behind it still ends with the
  image's class.
* **Oat files** (`Oat*.dfy`). The Init passes assign offsets with deduplication maps, the Write passes decide from
  recorded offsets alone. Writing takes exactly the planned size, every record, table, trampoline and piece of code is
  found where its record says, repeated methods included, and every byte counter is exact. The stream may stand anywhere in
  a file, and what is in front of and behind the part written stays as it was.
* **Boot images** (`LockWord`, `Image*.dfy`). Offsets are kept in lock words, the walk recurses through a cyclic heap,
  equal strings share a slot, and objects are copied and relocated on bytes. The walk aborts exactly if some object is
  locked, apart from locks taken so often that the recursion depth looks like a hash code. Every object is found in the
  image with its own bytes and relocated references, and every string with its text; an object that is not a string has
  exactly its identity hash code, with the same exception.
* **GC maps** (`GcMap`). The open-addressing table of the compiler and the reader of the runtime, on the same bytes. The
  reader finds what was added exactly unless it is a 64-bit one and the offset is 2^31 or more: it shifts a byte as a signed
  `int`, so that such an offset is read with its upper half set and never matches. The builder's own check reads 32 bits and
  does not notice.
* **ELF stripping** (`ElfStripper`). Sections are moved over each other inside one byte array whose section headers are
  read while sections move.

`Options`, `Bytes` and `Buffers` hold what the parts share: little-endian words, alignment, and writing to a part of a
byte array.

Modelling decisions that matter to a reader:

* Class statuses are the integers of `runtime/mirror/class.h`; 32-bit arithmetic in records, displacements and lock words
  is written out modulo 2^32; counters of the writers that the source keeps in `size_t` are unbounded.
* Memory allocation succeeds. Where the source returns false with a pending OutOfMemoryError, the model has no such case.
* `HasSameNameAndSignature` is equality of a key, a class declares no two virtual methods with the same key, and a
  package is a number.
* `NativePcOffsetToReferenceMap::Hash` and the hash of class descriptors are arbitrary functions.
* Deduplication of compiled code relies on the compiler driver: an address determines the bytes at it, code is not empty,
  and an oat file is smaller than 2^32 bytes.
* A transaction is alone: it begins when no thread is busy, and no other thread starts anything before it ends. The compiler
  initialises the classes of an image with one thread for this reason (`compiler/driver/compiler_driver.cc:1703-1706`,
  `compiler/driver/compiler_driver.cc:1750-1753`). Hence no thread ever waits for a class that a rollback sets back to
  Verified, and the branch of `WaitForInitializeClass` for that is never taken.
* The image buffer has room for the header and all objects, each rounded up to 8 bytes: it is as large as the heap
  (`compiler/image_writer.cc:228-232`), and the source has only debug checks for this.
* The class linker starts at status Resolved. A class may come to the protocol resolved,
  verified, initialised, erroneous or due for re-verification, as from an image, whatever its superclass is.

## Model

| member | source | states |
|---|---|---|
| `ClassInitTransaction.StepKeeps` | runtime/class_linker.cc:2573-2705 | Every step of every thread, a rollback and a direct call of `VerifyClass` included, keeps the invariant that ties statuses, owners, monitors, stacks of activations and the log of a transaction together. |
| `ClassInitTransaction.AbortExactly` | runtime/class_linker.cc:3371-3385 | A step fails a `CHECK` if and only if a verified class reaches the end of `VerifyClass` while its superclass is Error, or at compile time a class that is to be verified again is refused, to an unrestricted `EnsureInitialized` or to the initialisation of a subclass; each has its own `CHECK`, and no other one fails. |
| `ClassInitTransaction.StatusMoves` | runtime/mirror/class.cc:59-127 | Every status change happens with the class's monitor held, goes up or to Error, and never leaves Error or Initialized, and the count of `<clinit>` starts changes only when one starts; or it is a rollback, which writes back what was logged. The checks of `SetStatus` on every write, Error on Error included, are part of each step and never fail. |
| `ClassInitTransaction.LoggedUndone` | runtime/transaction.cc:60-66 | Whatever is written while a transaction logs, undoing the log leads back to the same classes. |
| `ClassInitTransaction.TransactionKeeps` | compiler/driver/compiler_driver.cc:1707-1731 | Around a step of an activation: logging, committing or undoing keeps the invariant. |
| `ClassInitTransaction.TransactionMoves` | compiler/driver/compiler_driver.cc:1707-1731 | A step begins a transaction with nothing to undo, goes on in one whose undoing leads back to the same classes, or ends it by committing or undoing. |
| `ClassInitTransaction.ReturnMeaning` | runtime/class_linker.cc:3125-3287 | `InitializeClass` returns true only for a class that is Initialized or being initialised by the same thread, and false with an exception only for an Error class. It returns false without exception only if `CanWeInitializeClass` refuses it or at compile time it is to be verified again; and then, if nothing was forbidden, only to the initialisation of a subclass. |
| `ClassInitTransaction.VerifyMeaning` | runtime/class_linker.cc:2573-2695 | `VerifyClass` leaves its class Verified or Error at runtime, and at compile time also Retry; a settled class it leaves alone. Otherwise, with verification off it verifies every class; with verification on only one without superclass or below one that is at least Verified, or has become Error since it was checked, and below a Retry superclass the class becomes Retry unless it is rejected. It throws exactly if it leaves the class Error, as its callers check. |
| `ClassInitSafety.ErrorSuperOutcome` | runtime/class_linker.cc:2657-2687 | Below a superclass that has become Error in the meantime, a class is left Verified if and only if verification failed softly at runtime, and the process aborts if and only if there was no failure. |
| `ClassInitSafety.EligibleFlags` | runtime/class_linker.cc:3086-3119 | Passing `CanWeInitializeClass` gives facts about statics and superclasses that later steps cannot undo, so that the checks on forbidden initialisers never fail. |
| `ClassInitSafety.LockedKeeps` | runtime/class_linker.cc:3143-3172 | The step under the monitor that decides between returning, verifying and going on keeps the invariant and fails no check. |
| `ClassInitSafety.AfterVerifyKeeps` | runtime/class_linker.cc:3159-3172 | After verification: the checks on what `VerifyClass` left hold, and it aborts exactly if at compile time a class to be verified again is refused to an unrestricted `EnsureInitialized`. |
| `ClassInitSafety.ClaimKeeps` | runtime/class_linker.cc:3173-3202 | The step that claims the class, waits for another thread, or recognises its own recursion keeps the invariant and fails no check. |
| `ClassInitSafety.SuperKeeps` | runtime/class_linker.cc:3204-3226 | Asking for the superclass keeps the invariant; the check that superclasses may be initialised never fails. |
| `ClassInitSafety.SuperFailedKeeps` | runtime/class_linker.cc:3208-3226 | The check on a superclass whose initialisation failed, that it is Error and its exception is pending, fails if and only if at compile time the superclass is to be verified again; otherwise the class becomes Error. |
| `ClassInitSafety.WaitKeeps` | runtime/class_linker.cc:3289-3327 | A waiting thread wakes to a class that is Initialized or Error; the fatal branch is never reached. |
| `ClassInitSafety.VerifyBodyKeeps` | runtime/class_linker.cc:2640-2695 | The last part of `VerifyClass`, run without the superclass's monitor: its outcome keeps the invariant, and it aborts exactly if verification succeeds below an Error superclass. |
| `ClassInitSafety.FreeIsUnverified` | runtime/class_linker.cc:2573-2600 | A thread that calls `VerifyClass` directly and gets the monitor never finds the class being verified by another one. |
| `ClassInitInvariant.Preserve` | runtime/class_linker.cc:3125-3287 | Any change of one stack and one class that respects monitors and ownership keeps the whole invariant, for all other threads and classes too. |
| `ClassInitRuns.RunInv` | runtime/class_linker.cc:3125-3327 | The invariant holds in every state of every run from any settled statuses, with transactions and direct verification. |
| `ClassInitRuns.UndoLeadsBack` | runtime/transaction.cc:119-137 | At any time of a run, undoing the log of the active transaction leads back to the classes it began with. |
| `ClassInitRuns.RollbackRestores` | compiler/driver/compiler_driver.cc:1719-1728 | A rollback restores all classes to what they were when its transaction began, so that the check on the old status holds. |
| `ClassInitRuns.LostOnlyByRollback` | compiler/driver/compiler_driver.cc:1719-1728 | Between any two states of a run a class loses Initialized, Error or a start of its `<clinit>` only to a rollback of a transaction that began before the first. |
| `ClassInitRuns.TerminalLeftExactly` | compiler/driver/compiler_driver.cc:1719-1728 | A class that is Initialized or Error leaves that status if and only if a rollback takes it back. |
| `ClassInitRuns.TerminalStatusStays` | runtime/class_linker.cc:3371-3385 | While nothing is rolled back, Initialized stays Initialized and Error stays Error, so that the unlocked fast path is sound; starts of `<clinit>` are never undone. |
| `ClassInitRuns.ClinitStartsOnce` | runtime/class_linker.cc:3252-3256 | In every interleaving the `<clinit>` of a class is started at most once, unless a rollback takes back the first start. |
| `ClassInitRuns.StartTakenBackExactly` | compiler/driver/compiler_driver.cc:1719-1728 | A start of a `<clinit>` is forgotten if and only if a rollback takes it back. |
| `ClassInitRuns.RestoredStart` | compiler/driver/compiler_driver.cc:1719-1728 | After such a rollback the class is as before its initialisation, and its `<clinit>` can be started again. |
| `ClassInitRuns.SingleInitializer` | runtime/class_linker.cc:3174-3200 | A class is Initializing exactly while some activation is responsible for it; there is only one, on the stack of the recorded thread. |
| `ClassInitRuns.SuperclassesReady` | runtime/class_linker.cc:3204-3256 | While a `<clinit>` is started or run by a thread, every superclass is being initialised by that thread, up to and including the first one that is Initialized. |
| `ClassInitRuns.ReportedForGood` | runtime/class_linker.cc:3320-3322 | A class reported initialised to another thread than its initialiser stays Initialized for the rest of the run, unless a rollback takes back how it got there. |
| `ClassInitRuns.AbortsExactly` | runtime/class_linker.cc:3371-3385 | In every run the process aborts exactly in the race on the superclass, and when at compile time a class to be verified again is requested without restrictions or for a subclass, each with its own check. |
| `ClassInitRuns.RetryFixed` | runtime/class_linker.cc:2579-2604 | With verification off at compile time, the classes to be verified again are in every state of a run those that came so. |
| `ClassInitRuns.ChainKept` | runtime/class_linker.cc:2606-2640 | With verification on, if at first every verified class has a verified or erroneous superclass, that is so in every state of a run, rollbacks included. |
| `ClassInitRuns.RetrySuperExactly` | runtime/class_linker.cc:3208-3216 | When the check on a failed superclass fails in a run: with verification off exactly where a superclass is waited for that came to be verified again, and with verification on only if at first some verified class had a superclass that was neither verified nor erroneous. |
| `ClassInitRuns.NeverStarts` | runtime/class_linker.cc:3204-3256 | With verification off at compile time, the `<clinit>` of a class whose superclass came to be verified again is never started. |
| `ClassInitWitness.ChainNotReady` | runtime/class_linker.cc:3204-3256 | A reachable state in which a `<clinit>` runs below an initialised superclass whose own superclass another thread is still initialising. |
| `ClassInitWitness.RaceAborts` | runtime/class_linker.cc:2669-2672 | A reachable state in which the check on the superclass's status has failed. |
| `ClassInitWitness.VerifiedBelowError` | runtime/class_linker.cc:2657-2687 | A reachable state in which a class is Verified below an Error superclass. |
| `ClassInitWitness.ClinitStartsAgain` | compiler/driver/compiler_driver.cc:1707-1731 | A run in which the same `<clinit>` is started twice, because a transaction failed in between. |
| `ClassInitWitness.InitializedTakenBack` | compiler/driver/compiler_driver.cc:1707-1731 | A run in which a class is Initialized and later Verified again. |
| `ClassInitWitness.RetryAborts` | runtime/class_linker.cc:3378-3383 | A reachable state in which the check on the pending exception has failed. |
| `ClassInitWitness.RetrySuperAborts` | runtime/class_linker.cc:3208-3216 | For every such superclass and subclass, with and without permission to initialise statics, a reachable state in which the check on a failed superclass has failed. |
| `VirtualMethods.FirstMatch` | runtime/class_linker.cc:3564-3585 | The first slot from an index that a method overrides: same name and signature, and accessible. |
| `VirtualMethods.FindOverridden` | runtime/class_linker.cc:3564-3585 | The loop over slots finds exactly that slot, or the end of the table. |
| `VirtualMethods.NextTarget` | runtime/class_linker.cc:3560-3592 | In the table built so far a method overrides the slot it would override in the superclass's table, although slots have been replaced and appended. |
| `VirtualMethods.BuildVtable` | runtime/class_linker.cc:3549-3606 | It fails exactly when a method overrides a final one, or the table does not fit 16 bits; otherwise every slot comes from the superclass or from one method placed there. |
| `VirtualMethods.OneSlot` | runtime/class_linker.cc:3560-3592 | A new method is in one slot only. |
| `VirtualMethods.BuiltExtends` | runtime/class_linker.cc:3547-3628 | Superclass slots keep index, name and signature, and hold the old method or a method allowed to override it; every method of the class is in the one slot its index names. |
| `VirtualMethods.StaysIndexed` | runtime/class_linker.cc:3547-3628 | If all methods of the superclass's table are where their index says, so are all of the new one. |
| `VirtualMethods.LinkVirtualMethods` | runtime/class_linker.cc:3547-3628 | Root or not, and whatever the superclass's size, the new vtable extends the inherited one as above, each failure has its exact condition, and indexes stay right if the inherited ones are. |
| `VirtualMethods.RootVtable` | runtime/class_linker.cc:3607-3626 | The root class's methods fill the table in order, each at its index. |
| `InterfaceTables.AddInterface` | runtime/class_linker.cc:3711-3729 | Adding an interface adds it and exactly those of its table that are missing, each once, within the room counted for it. |
| `InterfaceTables.StaysClosed` | runtime/class_linker.cc:3711-3729 | A table stays closed under super-interfaces when an interface comes with its closed table. |
| `InterfaceTables.Flatten` | runtime/class_linker.cc:3675-3742 | The table has no duplicates, begins with the superclass's, holds exactly the inherited, direct and indirect interfaces, is closed although duplicates skip their parents, and fits its allocation; it fails exactly if a direct interface is a class. |
| `MethodLinking.CountInterfaces` | runtime/class_linker.cc:3634-3652 | The room set aside is what flattening may need. |
| `InterfaceMethods.FindImplementation` | runtime/class_linker.cc:3780-3783 | The search from the end of the vtable finds the last method with the name and signature. |
| `InterfaceMethods.SlotStep` | runtime/class_linker.cc:3792-3799 | After any number of methods an IMT slot is empty, the implementation of the one method that entered it, or the conflict method. |
| `InterfaceMethods.EnterImt` | runtime/class_linker.cc:3792-3799 | Entering one implementation keeps that for all slots. |
| `InterfaceMethods.FindMiranda` | runtime/class_linker.cc:3803-3824 | A miranda with the same name and signature is reused, and otherwise a fresh one is appended. |
| `InterfaceMethods.MirandasStep` | runtime/class_linker.cc:3803-3824 | The miranda list has one method for every missing name and signature, no other, and none twice. |
| `InterfaceMethods.LinkInterfaceMethod` | runtime/class_linker.cc:3768-3825 | One interface method: it fails exactly if the implementation found is neither abstract nor public, and otherwise array entry, IMT and mirandas stay right. |
| `MethodLinking.LinkRows` | runtime/class_linker.cc:3748-3827 | All interfaces: the method arrays, IMT and mirandas for all their methods, failing exactly if some implementation is hidden. |
| `MethodLinking.FinishImt` | runtime/class_linker.cc:3828-3837 | The final IMT holds an implementation exactly in slots that one method entered, and the conflict method elsewhere, also when nothing was entered. |
| `MethodLinking.InstallMirandas` | runtime/class_linker.cc:3838-3873 | Mirandas go behind the virtual methods and the vtable, marked, with their index cut to 16 bits. |
| `MethodLinking.IndexedExactly` | runtime/class_linker.cc:3867-3867 | With mirandas the vtable is indexed by its methods if and only if it has at most 2^16 slots. |
| `MethodLinking.MarkersLinked` | runtime/class_linker.cc:3659-3674 | Sharing the superclass's table when no interface in it has methods gives what linking would. |
| `MethodLinking.LinkInterfaceMethods` | runtime/class_linker.cc:3630-3882 | The flattened table, method arrays, IMT and mirandas together; it fails exactly if a direct interface is a class or an implementation is hidden. |
| `MethodLinking.ArraysInVtable` | runtime/class_linker.cc:3756-3873 | Every entry of a method array has the interface method's name and signature and is in the final vtable at its own index. |
| `MethodLinking.ImtSound` | runtime/class_linker.cc:3792-3837 | The IMT slot of an implemented interface method holds its implementation or the conflict method. |
| `MethodLinking.MirandaImtSlot` | runtime/class_linker.cc:3792-3837 | The slot of a method that becomes a miranda is the conflict method if and only if not exactly one implemented method enters it; otherwise it holds a method with another name or signature. |
| `MethodLinking.MirandaMisdirected` | runtime/class_linker.cc:3792-3837 | Two interface methods of one slot, one of them implemented: the slot of the other leads to the first one's implementation. |
| `MethodLinking.LinkClassMethods` | runtime/class_linker.cc:3526-3546 | Linking a class below any superclass: vtable, interface table, IMT and mirandas as above, with the exact condition of each failure, in the order in which they are detected; indexes stay right if the superclass's are. |
| `MethodLinking.LinkInterfaceClass` | runtime/class_linker.cc:3526-3546 | Linking an interface numbers its methods and builds its table of interfaces only; it fails exactly on more than 65535 methods or a direct interface that is a class. |
| `MethodLinking.LinkedIndexes` | runtime/class_linker.cc:3859-3875 | The final vtable is indexed by its methods if and only if it has at most 2^16 slots. |
| `MethodLinking.SubclassMayLink` | runtime/class_linker.cc:3526-3882 | A linked class is what linking a subclass asks of its superclass, and its methods are where their index says if and only if its vtable has at most 2^16 slots. |
| `MethodLinking.InterfaceMayJoin` | runtime/class_linker.cc:3630-3742 | A linked interface is what linking asks of a direct interface of a class that is linked after it. |
| `FieldLayout.NameLessOrders` | runtime/class_linker.cc:3920-3923 | Comparing names is a strict order. |
| `FieldLayout.NameLessTotal` | runtime/class_linker.cc:3920-3923 | Only equal names are incomparable. |
| `FieldLayout.LessOrders` | runtime/class_linker.cc:3898-3925 | The comparator is a strict weak order, incomparability being transitive: references, 64-bit fields, others, by name within them. |
| `FieldLayout.SortFields` | runtime/class_linker.cc:3951-3960 | Sorting gives a sorted permutation. |
| `FieldLayout.ArrangedPermutes` | runtime/class_linker.cc:3980-4018 | Moving one narrow field into the hole still gives a permutation that begins with the references. |
| `FieldLayout.PlaceReferences` | runtime/class_linker.cc:3962-3978 | The loop over references places exactly them, four bytes apart. |
| `FieldLayout.FillHole` | runtime/class_linker.cc:3980-4000 | If there is a hole, the first narrow field fills it, or four bytes stay empty. |
| `FieldLayout.PlaceRest` | runtime/class_linker.cc:4002-4018 | The loop over what is left places it without gaps. |
| `FieldLayout.LinkFields` | runtime/class_linker.cc:3927-4068 | The field array becomes the arrangement of a sorted permutation, every field has the offset the arrangement gives it, and the number of references and the size reached are returned. |
| `FieldLayout.ReferencesFirst` | runtime/class_linker.cc:3962-3978 | Exactly the first fields are references, at consecutive words. |
| `FieldLayout.FieldsApart` | runtime/class_linker.cc:3962-4018 | Fields never overlap. |
| `FieldLayout.WideAligned` | runtime/class_linker.cc:3980-4018 | Every 64-bit field is at a multiple of 8. |
| `FieldLayout.PaddingExactly` | runtime/class_linker.cc:3980-4000 | Four bytes stay empty if and only if there are 64-bit fields, the references end off an 8-byte boundary, and there is no narrow field; otherwise none. |
| `FieldLayout.LinkedSize` | runtime/class_linker.cc:4064-4068 | The size reached depends only on how many references, narrow and 64-bit fields there are. |
| `FieldLayout.SizeOfClass` | runtime/class_linker.cc:1508-1546 | The precomputed size, from the counts of descriptors as `SizeOfClass` sorts them. |
| `FieldLayout.SizesAgreeExactly` | runtime/class_linker.cc:1508-1546 | The precomputed size is the size that the layout reaches if and only if no descriptor of unknown type stands in for the narrow field that would fill a hole before 64-bit fields. |
| `FieldLayout.SizesDiffer` | runtime/class_linker.cc:1519-1540 | Such a class, which only a dex file that was not verified can have: its precomputed size is 4 bytes short. |
| `FieldLayout.KnownSizesAgree` | runtime/class_linker.cc:1508-1546 | With descriptors that name types the two sizes are always equal. |
| `ClassTable.FoundExactly` | runtime/class_linker.cc:2459-2483 | In a well-formed table a class is found under its descriptor and loader if and only if it is there. |
| `ClassTable.Unique` | runtime/class_linker.cc:2468-2478 | A well-formed table never holds two classes with the same descriptor and loader. |
| `ClassTable.FindAdded` | runtime/class_linker.cc:2380-2411 | What every lookup answers after a class is added. |
| `ClassTable.AddedOk` | runtime/class_linker.cc:2380-2411 | Adding a class that is not found keeps the table well formed. |
| `ClassTable.ImageFindExact` | runtime/class_linker.cc:2529-2554 | The search of the dex caches finds a class of the image if and only if it is there. |
| `ClassTable.FlushKeepsView` | runtime/class_linker.cc:2493-2527 | Moving the image into the table changes no answer, for any descriptor and loader. |
| `ClassTable.CacheStep` | runtime/class_linker.cc:2443-2445 | Caching one class of the image changes no answer. |
| `ClassTable.MovedGrows` | runtime/class_linker.cc:2502-2524 | Moving a dex cache keeps what was found and adds classes of the image only. |
| `ClassTable.MovableExactly` | runtime/class_linker.cc:2502-2524 | The checks of the move hold if and only if the table has no other class under a descriptor of the image. |
| `ClassTable.AgreesStays` | runtime/class_linker.cc:2502-2524 | Moving some classes of the image makes no later check hold or fail. |
| `ClassTable.LoadedClasses.LookupClassFromTableLocked` | runtime/class_linker.cc:2459-2483 | The loop over a bucket answers the only match; the debug check on a second one holds. |
| `ClassTable.LoadedClasses.InsertClass` | runtime/class_linker.cc:2380-2411 | The class already there is returned and nothing changes, or the new one is added and found from then on; a debug build aborts exactly if the new class would stand beside the image's. |
| `ClassTable.LoadedClasses.LookupClassFromImage` | runtime/class_linker.cc:2529-2554 | The class of the first dex cache that has the descriptor. |
| `ClassTable.LoadedClasses.MoveImageClassesToClassTable` | runtime/class_linker.cc:2493-2527 | It aborts if and only if the table holds another class under a descriptor of the image; otherwise all classes of the image are in the table afterwards, the image is not needed any more, and no answer has changed. |
| `ClassTable.LoadedClasses.LookupClass` | runtime/class_linker.cc:2429-2457 | Without interference it gives the right answer and changes none, also when it flushes after too many misses. |
| `ClassLookup.StepOk` | runtime/class_linker.cc:2429-2457 | Every step of every thread keeps the table well formed and loses nothing; it aborts if and only if a debug build carries out a rogue definition or the image is to be moved into a table that is not consistent with it. |
| `ClassLookup.StepConsistent` | runtime/class_linker.cc:2397-2404 | A step keeps the table consistent with the image if and only if it is not a rogue definition in a release build; inconsistent it stays. |
| `ClassLookup.RogueIsDirect` | runtime/native/dalvik_system_DexFile.cc:168-194 | A rogue definition never comes from `FindClass`, which looks for the class first. |
| `ClassLookup.ExpectedIsAnswer` | runtime/class_linker.cc:2431-2438 | A lookup that hits the table answers right; one that misses is to answer what lookups answer at that moment. |
| `ClassLookup.MissedAnswers` | runtime/class_linker.cc:2439-2443 | A missed lookup that gives up is right if and only if the image was not flushed since it searched the table, or does not have the class. |
| `ClassLookup.SearchAnswers` | runtime/class_linker.cc:2443-2456 | A lookup that searches the image answers what the image has. |
| `ClassLookup.ReportedExactly` | runtime/class_linker.cc:2443-2445 | A class that is looked up or defined is the one in the table, exactly unless a lookup had already found the image's class when a rogue definition took its place. |
| `ClassLookup.DefinedImageClass` | runtime/class_linker.cc:1463-1471 | While the table is consistent, defining a class that the image has ends with the image's class if and only if the definition is not rogue. |
| `ClassLookup.RunInv` | runtime/class_linker.cc:2380-2527 | In every state of every run the table has one class for a descriptor and loader, and once the image is moved the image's for its descriptors. |
| `ClassLookup.RunGrows` | runtime/class_linker.cc:2380-2527 | Over every run nothing that is found is lost or replaced. |
| `ClassLookup.ConsistentExactly` | runtime/native/dalvik_system_DexFile.cc:168-194 | In every run the table is consistent with the image exactly until a release build carries out a rogue definition. |
| `ClassLookup.AbortsExactly` | runtime/class_linker.cc:2512-2515 | In every run the process aborts exactly at a rogue definition in a debug build, and when the image is to be moved after one in a release build. |
| `ClassLookup.StrayAfterRogue` | runtime/class_linker.cc:2443-2445 | An answer that is not in the table comes only after a rogue definition in a release build. |
| `ClassLookup.AgreeExactly` | runtime/class_linker.cc:1425-1505 | Two answers for the same descriptor and loader are the same if and only if both or neither are such. |
| `ClassLookup.AllAgree` | runtime/class_linker.cc:1425-1505 | All threads that look up or define a class under the same descriptor and loader, and get one, get the same, as long as there has been no rogue definition in a release build. |
| `ClassLookup.LookupLosesRace` | runtime/class_linker.cc:2431-2441 | A run in which a lookup of a class of the image answers nothing although it can be found in every state. |
| `ClassLookup.RogueAborts` | runtime/class_linker.cc:2397-2404 | A run of a debug build in which a direct definition aborts. |
| `ClassLookup.RogueDisagrees` | runtime/class_linker.cc:2443-2515 | A run of a release build in which one thread defines a class, another looks up a different one under the same descriptor, and moving the image aborts. |
| `OatDedupe.FreshExactlyHere` | compiler/oat_writer.cc:570-628 | An item's place is the current aligned offset if and only if it is a first occurrence; otherwise it ends before. |
| `OatDedupe.PlacesDisjoint` | compiler/oat_writer.cc:381-393 | Items with different keys never overlap. |
| `OatDedupe.TrackHit` | compiler/oat_writer.cc:381-393 | A key found in the map maps to the place of its first occurrence, and the map stays right. |
| `OatDedupe.TrackMiss` | compiler/oat_writer.cc:381-393 | A new key is placed at the aligned offset, and the map stays right. |
| `OatModel.KeyLessOrders` | compiler/oat_writer.h:303-317 | The comparator of deduplicated code is a strict weak order whose equivalence is equality of the three addresses. |
| `OatModel.DisplacementReadsBack` | compiler/oat_writer.cc:152-194 | A displacement stored modulo 2^32 decodes to the table's offset before and after the code is placed, and is 0 only for no table. |
| `OatModel.OffsetsReadBack` | compiler/oat_writer.cc:152-194 | For every method and table the recorded offset reads back, before and after the code pass. |
| `OatModel.FinalFields` | compiler/oat_writer.cc:377-445 | What the record of a method says after all passes. |
| `OatModel.SharedHeaders` | compiler/oat_writer.cc:381-393 | Methods with the same key have the same code offset and identical headers. |
| `OatModel.SharedTable` | compiler/oat_writer.cc:459-485 | Methods with the same table have the same offset for it. |
| `OatModel.TableRange` | compiler/oat_writer.cc:459-485 | Every table lies behind the header and in front of the code. |
| `OatModel.CodeRange` | compiler/oat_writer.cc:326-376 | Every code lies behind the tables and within 32 bits. |
| `OatFile.VisitsDistinct` | compiler/oat_writer.cc:240-263 | Every visited method has a slot of its own among the method offsets of its class. |
| `OatFile.PlanLayoutOk` | compiler/oat_writer.cc:93-118 | A file smaller than 2^32 bytes has a layout in which every offset reads back. |
| `OatFile.RecordFilled` | compiler/oat_writer.cc:240-263 | Filling in the record of one visit leaves those of all others alone. |
| `OatStream.OutputStream.WriteFully` | compiler/output_stream.h:34-50 | The bytes stand at the old position, everything in front and behind stays, or nothing changes and the stream is full. |
| `OatStream.OutputStream.SeekTo` | compiler/output_stream.h:34-50 | Seeking changes no byte of the file, and going forward none behind the position. |
| `OatEmit.WriteMapVisit` | compiler/oat_writer.cc:650-678 | A table is written if and only if its recorded offset is the current one. |
| `OatEmit.TableDecision` | compiler/oat_writer.cc:650-678 | That is the case exactly for first occurrences. |
| `OatEmit.WriteMapPass` | compiler/oat_writer.cc:998-1023 | After the pass every method finds its table at its recorded offset, and the pass ends where the next begins. |
| `OatEmit.TableScript` | compiler/oat_writer.cc:641-688 | What the Init pass recorded is what the Write pass needs. |
| `OatEmit.WriteCodeVisit` | compiler/oat_writer.cc:570-628 | Padding, and header and code if the recorded code offset is not behind the current one; the counters say what was written. |
| `OatEmit.CodeDecision` | compiler/oat_writer.cc:570-628 | The comparison, even with the Thumb bit in the recorded offset, holds exactly for first occurrences. |
| `OatEmit.WriteCodePass` | compiler/oat_writer.cc:1069-1086 | After the pass every Quick method finds its header and code, and the counters of padding, headers and code are exact. |
| `OatEmit.CodeScriptHolds` | compiler/oat_writer.cc:561-638 | What the Init pass recorded is what the Write pass needs. |
| `OatRecords.WriteDexRecord` | compiler/oat_writer.cc:1115-1147 | The encoded record stands at its offset, and each counter grows by its field. |
| `OatRecords.WriteClassRecord` | compiler/oat_writer.cc:1241-1275 | The encoded record stands at its offset, and each counter grows by its field. |
| `OatRecords.WriteDexRecords` | compiler/oat_writer.cc:965-972 | All dex file records stand one behind the other at their offsets. |
| `OatRecords.WriteClassRecords` | compiler/oat_writer.cc:989-994 | All class records stand one behind the other at their offsets. |
| `OatRecords.WriteCopies` | compiler/oat_writer.cc:973-988 | Every dex file stands where its record says, after seeking there. |
| `OatSections.WriteTrampolines` | compiler/oat_writer.cc:1025-1067 | Every trampoline stands at its aligned offset, and padding and sizes are counted. |
| `OatSections.WriteMaps` | compiler/oat_writer.cc:998-1023 | The three table sections follow each other, every table is found, and the sizes are those of the sections. |
| `OatPlanFacts.FinalAgrees` | compiler/oat_writer.cc:381-445 | The final record of a method agrees with the layout of headers and tables. |
| `OatPlanFacts.AllMethodsFound` | compiler/oat_writer.cc:561-688 | Once the sections stand, every method, repeated or not, finds its header, code and tables through its record. |
| `OatWriter.OatWriter.constructor` | compiler/oat_writer.cc:49-125 | The Init passes end in the planned layout: sizes, header, dex file, class and method records. |
| `OatWriter.OatWriter.InitOatDexFiles` | compiler/oat_writer.cc:745-755 | Every dex file record gets its offset. |
| `OatWriter.OatWriter.InitDexFiles` | compiler/oat_writer.cc:757-772 | Every dex file gets its 4-aligned offset, and the padding is counted. |
| `OatWriter.OatWriter.NewOatClass` | compiler/oat_writer.cc:1149-1205 | Kind, bitmap and slot offsets of a class record, from which of its methods are compiled. |
| `OatWriter.OatWriter.InitOatClasses` | compiler/oat_writer.cc:774-794 | Every class record gets its offset, and every dex file record those of its classes. |
| `OatWriter.OatWriter.VisitDexMethods` | compiler/oat_writer.cc:691-730 | The compiled methods of all classes in file order, with class and slot. |
| `OatWriter.OatWriter.InitMapVisit` | compiler/oat_writer.cc:459-485 | One visit keeps the deduplication map right and stores the table's offset. |
| `OatWriter.OatWriter.InitOatMaps` | compiler/oat_writer.cc:796-812 | After the three passes every record holds its tables' offsets. |
| `OatWriter.OatWriter.InitOatCode` | compiler/oat_writer.cc:814-855 | Page-aligned executable code, and the trampolines of a boot image in the header. |
| `OatWriter.OatWriter.InitCodeVisit` | compiler/oat_writer.cc:326-445 | One visit keeps the deduplication map right and completes the record. |
| `OatWriter.OatWriter.InitOatCodeDexFiles` | compiler/oat_writer.cc:857-874 | After the pass every record is final. |
| `OatWriter.OatWriter.WriteTables` | compiler/oat_writer.cc:965-996 | Dex file records, dex files and class records stand at their planned offsets; the counters are exact. |
| `OatWriter.OatWriter.WriteCode` | compiler/oat_writer.cc:1025-1067 | Seeks to executable code and writes the trampolines of a boot image where the header says. |
| `OatWriter.OatWriter.Write` | compiler/oat_writer.cc:876-963 | Wherever the stream stands, the file takes exactly `size` bytes there and nothing in front or behind changes, all counters are exact and sum to `size`, the header, dex files, class records, methods and trampolines are found through their records, and it succeeds if there is room. |
| `LockWord.ForwardingReadsBack` | runtime/lock_word.h:91-94 | An aligned offset stored as forwarding address reads back, and the state is that of a forwarding address. |
| `LockWord.ForwardingIsShift` | runtime/lock_word-inl.h:41-44 | Reading it is a shift in 32 bits. |
| `LockWord.HashReadsBack` | runtime/lock_word.h:96-99 | A hash code stored in a lock word reads back. |
| `LockWord.AcceptedExactly` | runtime/monitor.cc:575-615 | After deflation an object is accepted if and only if it is not locked, or its recursion depth fills the state bits of a thin lock with those of a hash code. |
| `LockWord.DeflatedKeepsHash` | runtime/monitor.cc:575-615 | Deflation keeps the identity hash code of an unlocked object. |
| `LockWord.KeptExactly` | compiler/image_writer.cc:174-205 | What is kept of an accepted object says exactly what its identity hash code is, if and only if no recursion depth is taken for one. |
| `LockWord.LockedAccepted` | runtime/monitor.cc:594-601 | A locked object without hash code that is taken for a hashed one. |
| `ImageLayout.SlotsDisjoint` | compiler/image_writer.cc:207-212 | Two objects have the same offset if and only if they are the same or equal strings; otherwise their ranges are disjoint. |
| `ImageLayout.SlotInBounds` | compiler/image_writer.cc:174-212 | Offsets are multiples of 8 between the header and the end. |
| `ImageLayout.PlaceKeepsLayout` | compiler/image_writer.cc:207-212 | Giving the next slot to an object keeps the layout and all earlier offsets. |
| `ImageLayout.ShareKeepsLayout` | compiler/image_writer.cc:385-396 | Giving a string the slot of the interned one keeps the layout. |
| `ImageWriter.ImageWriter.SetImageOffset` | compiler/image_writer.cc:174-205 | The offset is in the lock word, the bitmap marks it, and a hash code is set aside; it aborts exactly on an object that is locked by its original lock word and whose recursion depth is not taken for a hash code. |
| `ImageWriter.ImageWriter.AssignImageOffset` | compiler/image_writer.cc:207-212 | The object gets the next 8-aligned slot, in bounds; all earlier offsets stay. |
| `ImageWriter.ImageWriter.InternWeak` | runtime/intern_table.cc:185-240 | The interned string is the one that stands for the text before, or the new one. |
| `ImageWriter.ImageWriter.CalculateObjectOffsets` | compiler/image_writer.cc:376-401 | A string gets the slot of the interned one, which gets one first; other objects their own. |
| `ImageWriter.ImageWriter.WalkFieldsInOrder` | compiler/image_writer.cc:460-492 | The walk terminates on every graph, cyclic or not, and gives the object and everything it visits offsets that stay. |
| `ImageWriter.ImageWriter.CalculateNewObjectOffsets` | compiler/image_writer.cc:500-520 | After the heap visit every object has an offset; it aborts if and only if some object is locked by its original lock word and its recursion depth is not taken for a hash code. |
| `ImageWriter.RefusedExactly` | compiler/image_writer.cc:174-205 | All deflated lock words are accepted if and only if no original one is that of a refused object. |
| `ImageWriter.ImageWriter.FixupObject` | compiler/image_writer.cc:610-626 | Every reference of the copy is the image address of its target; no other byte changes. |
| `ImageWriter.ImageWriter.CopyAndFixupObject` | compiler/image_writer.cc:565-581 | The slot of the object holds its relocated copy with an empty lock word; nothing outside changes. |
| `ImageWriter.ImageWriter.RestoreHashes` | compiler/image_writer.cc:557-561 | Every slot ends up with the last hash code set aside for it, or none. |
| `ImageWriter.ImageWriter.CopyAndFixupObjects` | compiler/image_writer.cc:547-563 | Every slot holds the relocated copy of an object with that offset, and the header is untouched. |
| `ImageWriter.PlaceStep` | compiler/image_writer.cc:174-212 | The bounds checks on the end of the image hold, whatever the order of the walk. |
| `ImageWriter.SavedStep` | compiler/image_writer.cc:181-203 | No hash code is lost and each is set aside for the slot of its object. |
| `ImageWriter.FillStep` | compiler/image_writer.cc:565-581 | Copying one object leaves all other slots as they were. |
| `ImageWriter.RestoreStep` | compiler/image_writer.cc:557-561 | Restoring one hash code changes the lock word of one slot only. |
| `ImageResult.OffsetsGood` | compiler/image_writer.cc:500-520 | All objects have aligned offsets within the image, disjoint unless they are equal strings. |
| `ImageResult.ObjectRelocated` | compiler/image_writer.cc:547-626 | The image copy of an object that is not a string has its own bytes and relocated references, and a lock word that says exactly what its identity hash code was, if and only if no recursion depth was taken for one. |
| `ImageResult.AddressExact` | compiler/image_writer.h:73-86 | A relocated reference is the beginning of the image plus the offset of its target; null stays null. |
| `ImageResult.OwnHashRestored` | compiler/image_writer.cc:557-561 | An object that is not a string gets its own hash code back, or none if it had none. |
| `ImageResult.StringRelocated` | compiler/image_writer.cc:376-401 | Every string of the heap, interned or not, finds its text in the image through its slot. |
| `GcMap.WidthFits` | compiler/gc_map_builder.h:31-34 | The byte width holds the greatest offset, and one byte less does not. |
| `GcMap.HeaderReadsBack` | compiler/gc_map_builder.h:36-45 | The packed header decodes to the widths and the count. |
| `GcMap.Pigeonhole` | compiler/gc_map_builder.h:50-52 | Fewer entries than slots leave one slot free. |
| `GcMap.ProbedStep` | compiler/gc_map_builder.h:48-57 | Taking the first free slot on its path keeps every entry reachable along paths of entries added before it. |
| `GcMap.EntriesStep` | compiler/gc_map_builder.h:73-83 | Writing one slot leaves all entries in others alone. |
| `GcMap.StoreOffset` | compiler/gc_map_builder.h:73-78 | The bytes of an offset, least significant first. |
| `GcMap.LoadOffset` | runtime/gc_map.h:46-53 | Reading them back, into a word of 32 bits, or of 64 bits whose upper half the sign of the fourth byte fills. |
| `GcMap.ReadExactly` | runtime/gc_map.h:46-53 | Whatever the bytes of a slot, the word read from them is an offset if and only if they hold it and it is not lost to the sign. |
| `GcMap.GcMapBuilder.constructor` | compiler/gc_map_builder.h:29-46 | An empty table with its header. |
| `GcMap.GcMapBuilder.HasRoomWhile` | compiler/gc_map_builder.h:48-52 | There is a free slot while fewer entries were added than announced. |
| `GcMap.GcMapBuilder.FindFree` | compiler/gc_map_builder.h:48-52 | The probe terminates at the first free slot on its path. |
| `GcMap.GcMapBuilder.AddEntry` | compiler/gc_map_builder.h:48-57 | The entry is added and all earlier ones stay; the offset reads back. |
| `GcMap.GcMapBuilder.Readable` | compiler/gc_map_builder.h:29-57 | The table can be read at any time. |
| `GcMap.EntryRead` | runtime/gc_map.h:39-53 | The bytes of a slot in use are those of the offset and bitmap that were added. |
| `GcMap.FindBitMap` | runtime/gc_map.h:65-76 | Linear probing from the hash slot finds the bitmap that was added first for the offset if and only if the reader is a 32-bit one or the offset is below 2^31; otherwise the debug check on misses fails. |
| `GcMap.FindSlot` | runtime/gc_map.h:65-76 | The probe ends at the slot of that entry, or after missing every slot, exactly under that condition. |
| `GcMap.HighOffsetLost` | runtime/gc_map.h:46-76 | A map whose one entry, at 2^31, a 64-bit reader does not find. |
| `ElfStripper.RoundUpLeast` | compiler/elf_stripper.cc:101-103 | Rounding up never passes an aligned place that is not below. |
| `ElfStripper.MoveDown` | compiler/elf_stripper.cc:109-112 | An overlapping move to an earlier place copies the old bytes. |
| `ElfStripper.PlacedEarlier` | compiler/elf_stripper.cc:95-115 | No kept section moves to a later place, and the new place is aligned. |
| `ElfStripper.SectionUntouched` | compiler/elf_stripper.cc:95-115 | A section that has not been moved yet still has its bytes. |
| `ElfStripper.HeaderUntouched` | compiler/elf_stripper.cc:99-100 | The section headers read while sections move are the original ones. |
| `ElfStripper.CompactStep` | compiler/elf_stripper.cc:97-115 | Moving one section keeps the moved ones and the rest of the file. |
| `ElfStripper.Compact` | compiler/elf_stripper.cc:95-115 | All kept sections have their original bytes at their new places; nothing behind or in front changes. |
| `ElfStripper.IndexesExactly` | compiler/elf_stripper.cc:75-91 | The indexes kept are exactly those of needed sections, in order. |
| `ElfStripper.Select` | compiler/elf_stripper.cc:69-93 | The selection loop keeps exactly the null section and those that are not debug, string or symbol tables. |
| `ElfStripper.ChosenOk` | compiler/elf_stripper.cc:69-96 | Kept sections are ordered, apart and aligned because all sections are. |
| `ElfStripper.HeaderReadsBack` | compiler/elf_stripper.cc:117-119 | An encoded section header reads back. |
| `ElfStripper.Strip` | compiler/elf_stripper.cc:69-124 | The stripped file: every kept section has its bytes where its new header says, aligned and not later than before, the headers and counts of the ELF header describe them, and the rest of the front is unchanged. |

## Left out

- The loading of classes before they are Resolved, circularity errors, and Java code that runs during verification.
- Deadlock freedom of class initialisation; exceptions thrown by initialisers beyond success and failure; values of static fields.
- Transactions: what they log besides the statuses and initialising threads of classes (fields of other objects, arrays, interned strings), and what makes an initialiser fail in one.
- The exception branch of `WaitForInitializeClass`: the wait ignores interrupts, so it is not reached.
- Linking: OutOfMemoryError, proxies, `LinkSuperClass`, default interface methods (not in this version), and logging.
- `RemoveClass`, which only image pruning uses, dex caches that change at run time, and the table as a root of the garbage collector.
- Field layout: the adjustment for the `referent` field of `java.lang.ref.Reference`, and the reference offset bitmaps.
- Oat files: checksums, debug frame information, the image method visitor, the relocation list of Portable code, and sums of a stream position and an offset that exceed 32 bits.
- Images: the contents of the image header, which fields the walk visits (an object's children are an arbitrary set), method entry points, code patching, the lookup in an earlier image when interning, and the cached hash of `java.lang.String`.
- ImageResult.StringRelocated: it says nothing about the identity hash code of strings, because equal strings share one slot and the last hash code wins.
- GC maps: `HasEntry`, and lookups of offsets that were never added, for which the source makes no promise.
- ELF stripping: `e_shstrndx` and `sh_link`, which the source does not update, section header entries of another size than 40 bytes, failure to truncate, and program headers.
- ElfStripper.Strip: it demands that sections do not overlap, each taken with its full size. A section without file space (`SHT_NOBITS`) that overlaps what follows it is not covered: the source counts and moves its size as if the file held it, and moves the sections behind it to later places.
- ImageWriter.ImageWriter.CalculateNewObjectOffsets: it says nothing about a heap that does not fit the image buffer.
- ClassInitRuns.SuperclassesReady: it does not say that the whole chain of superclasses is ready, because that is false; see ClassInitWitness.ChainNotReady.
- FieldLayout.SortFields: the source calls `std::sort`; the model sorts by insertion, and fields that compare equal may come in another order.
- The `ElfWriter` back ends, disassemblers, command-line tools and JNI checks.
