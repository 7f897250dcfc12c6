/** Lock words (runtime/lock_word.h, runtime/lock_word-inl.h) and monitor deflation
    (runtime/monitor.cc).  The two most significant bits of a word are its state. */
module LockWord {
  import opened Options
  import opened Bytes

  datatype LockState = Unlocked | ThinLocked | FatLocked | Hashed | Forwarded

  const TWO30 := 0x4000_0000

  function GetState(w: uint32): LockState {
    if w == 0 then Unlocked
    else if w < TWO30 then ThinLocked
    else if w < 2 * TWO30 then FatLocked
    else if w < 3 * TWO30 then Hashed
    else Forwarded
  }

  /** An offset that is a multiple of 4, shifted right to make room for the state. */
  function FromForwardingAddress(target: uint32): uint32 {
    target / 4 + 3 * TWO30
  }

  /** The word shifted left in 32 bits: the state falls off. */
  function ForwardingAddress(w: uint32): uint32 {
    4 * (if w < TWO30 then w else if w < 2 * TWO30 then w - TWO30 else if w < 3 * TWO30 then w - 2 * TWO30 else w - 3 * TWO30)
  }

  lemma ForwardingIsShift(w: uint32)
    ensures ForwardingAddress(w) == 4 * w % TWO32
  {
  }

  lemma ForwardingReadsBack(target: uint32)
    requires target % 4 == 0
    ensures GetState(FromForwardingAddress(target)) == Forwarded
    ensures ForwardingAddress(FromForwardingAddress(target)) == target
  {
  }

  lemma AlignedReadsBack(target: uint32, w: uint32)
    requires target % 8 == 0 && w == FromForwardingAddress(target)
    ensures GetState(w) == Forwarded && ForwardingAddress(w) == target
  {
    ForwardingReadsBack(target);
  }

  function FromHashCode(hash: uint32): uint32
    requires hash < TWO30
  {
    hash + 2 * TWO30
  }

  function GetHashCode(w: uint32): (h: uint32)
    ensures h < TWO30
  {
    w % TWO30
  }

  lemma HashReadsBack(hash: uint32)
    requires hash < TWO30
    ensures GetState(FromHashCode(hash)) == Hashed && GetHashCode(FromHashCode(hash)) == hash
  {
  }

  lemma HashWord(w: uint32)
    requires GetState(w) == Hashed
    ensures FromHashCode(GetHashCode(w)) == w
  {
  }

  // ---------- Monitors ----------

  const MAX_THIN_COUNT := 0xFFFF

  /** An inflated lock; `hash` is 0 when it has none. */
  datatype Monitor = Monitor(waiters: nat, owner: Option<nat>, lockCount: nat, hash: nat) {
    predicate Valid() {
      hash < TWO30 && (owner.Some? ==> 0 < owner.value <= 0xFFFF)
    }
  }

  /** The thin lock of a thread; a count that needs more than 14 bits runs into the state. */
  function FromThinLockId(thread: nat, count: nat): uint32
    requires thread <= 0xFFFF && count <= MAX_THIN_COUNT
  {
    thread + 0x1_0000 * count
  }

  /** The lock word after `Monitor::Deflate`, where `m` is the monitor of a fat lock. */
  function Deflated(w: uint32, m: Monitor): uint32
    requires m.Valid()
  {
    if GetState(w) != FatLocked then w
    else if m.waiters > 0 then w
    else if m.owner.Some? then
      if m.hash != 0 || m.lockCount > MAX_THIN_COUNT then w else FromThinLockId(m.owner.value, m.lockCount)
    else if m.hash != 0 then FromHashCode(m.hash)
    else 0
  }

  /** The identity hash code an object has been given, if any. */
  function IdentityHash(w: uint32, m: Monitor): Option<nat> {
    match GetState(w)
    case Hashed => Some(GetHashCode(w))
    case FatLocked => if m.hash != 0 then Some(m.hash) else None
    case _ => None
  }

  predicate Locked(w: uint32, m: Monitor) {
    GetState(w) == ThinLocked || (GetState(w) == FatLocked && (m.owner.Some? || m.waiters > 0))
  }

  /** What the image writer accepts: an object that, once deflated, has a hash code or nothing. */
  predicate Accepted(w: uint32, m: Monitor)
    requires m.Valid()
  {
    GetState(Deflated(w, m)) in {Unlocked, Hashed}
  }

  /** A recursion depth that fills the bits of a hash state once it is in a thin lock. */
  predicate CountLooksLikeHash(w: uint32, m: Monitor) {
    GetState(w) == FatLocked && m.waiters == 0 && m.owner.Some? && m.hash == 0 && 0x8000 <= m.lockCount < 0xC000
  }

  /** Deflation tells the unlocked objects from the locked ones, except for a recursion depth that
      runs into the state bits. */
  lemma AcceptedExactly(w: uint32, m: Monitor)
    requires m.Valid() && GetState(w) != Forwarded
    ensures Accepted(w, m) <==> !Locked(w, m) || CountLooksLikeHash(w, m)
  {
  }

  /** Deflation keeps the hash code of an unlocked object. */
  lemma DeflatedKeepsHash(w: uint32, m: Monitor)
    requires m.Valid() && !Locked(w, m) && GetState(w) != Forwarded
    ensures Deflated(w, m) == IdentityWord(w, m)
  {
  }

  /** The lock word that says just what identity hash code an object has been given. */
  function IdentityWord(w: uint32, m: Monitor): uint32
    requires m.Valid()
  {
    match IdentityHash(w, m) case None => 0 case Some(h) => FromHashCode(h)
  }

  /** What is kept of an accepted object is its identity hash code exactly unless a recursion depth is taken
      for one. */
  lemma KeptExactly(w: uint32, m: Monitor)
    requires m.Valid() && GetState(w) != Forwarded && Accepted(w, m)
    ensures Deflated(w, m) == IdentityWord(w, m) <==> !CountLooksLikeHash(w, m)
  {
    AcceptedExactly(w, m);
    if !Locked(w, m) {
      DeflatedKeepsHash(w, m);
    }
  }

  /** A locked object without a hash code is accepted, as if it had one. */
  lemma LockedAccepted(monitorId: nat, thread: nat)
    requires monitorId < TWO30 && 0 < thread <= 0xFFFF
    ensures var w, m := monitorId + TWO30, Monitor(0, Some(thread), 0x8000, 0);
            && Locked(w, m) && IdentityHash(w, m) == None
            && Accepted(w, m) && GetState(Deflated(w, m)) == Hashed
  {
  }
}
