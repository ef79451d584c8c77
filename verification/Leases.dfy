/** The run slots and namespaces of the test tier, leased by processes that may crash at any point. */
module Leases {
  const SLOTS := 6
  const FIRST_ORIGIN := 8770
  const NAMESPACES := 10000

  /** The ports of the tier's own services. */
  const PORTS := {8760, 8761, 8762, 8763, 8764, 8765, 8766, 8767, 8768, 8769, 8788}

  type Pid = nat

  // ---------------------------------------------------------------- what a lease owns

  /** A slot's three origins. */
  function Origins(slot: nat): set<nat> {
    var first := FIRST_ORIGIN + 3 * slot;
    {first, first + 1, first + 2}
  }

  /** Runs share out the databases from 1 on. */
  function RedisDatabase(slot: nat): nat { slot + 1 }

  function Digit(n: nat): char
    requires n < 10
  {
    ['0', '1', '2', '3', '4', '5', '6', '7', '8', '9'][n]
  }

  /** The namespace as four digits. */
  function FourDigits(n: nat): string
    requires n < NAMESPACES
  {
    [Digit(n / 10 / 10 / 10), Digit(n / 10 / 10 % 10), Digit(n / 10 % 10), Digit(n % 10)]
  }

  function Bucket(namespace: nat): string
    requires namespace < NAMESPACES
  {
    "e2e-" + FourDigits(namespace)
  }

  lemma DigitsDiffer(a: nat, b: nat)
    requires a < 10 && b < 10 && Digit(a) == Digit(b)
    ensures a == b
  {
  }

  /** Different slots share no port and no database, and no slot shares one with the tier's services. */
  lemma SlotsShareNothing(s: nat, t: nat)
    requires s < SLOTS && t < SLOTS && s != t
    ensures Origins(s) !! Origins(t) && RedisDatabase(s) != RedisDatabase(t)
    ensures Origins(s) !! PORTS && RedisDatabase(s) != 0 && |Origins(s)| == 3
  {
  }

  lemma ByDigit(n: nat)
    ensures n == 10 * (n / 10) + n % 10
  {
  }

  lemma DigitsTell(n: nat, m: nat)
    requires n < NAMESPACES && m < NAMESPACES && FourDigits(n) == FourDigits(m)
    ensures n == m
  {
    assert FourDigits(n)[0] == FourDigits(m)[0] && FourDigits(n)[1] == FourDigits(m)[1];
    assert FourDigits(n)[2] == FourDigits(m)[2] && FourDigits(n)[3] == FourDigits(m)[3];
    DigitsDiffer(n / 10 / 10 / 10, m / 10 / 10 / 10);
    DigitsDiffer(n / 10 / 10 % 10, m / 10 / 10 % 10);
    DigitsDiffer(n / 10 % 10, m / 10 % 10);
    DigitsDiffer(n % 10, m % 10);
    hide Digit, FourDigits;
    ByDigit(n);
    ByDigit(m);
    ByDigit(n / 10);
    ByDigit(m / 10);
    ByDigit(n / 10 / 10);
    ByDigit(m / 10 / 10);
  }

  lemma NamespacesShareNoBucket(n: nat, m: nat)
    requires n < NAMESPACES && m < NAMESPACES && n != m
    ensures Bucket(n) != Bucket(m)
  {
    hide FourDigits;
    if Bucket(n) == Bucket(m) {
      var p := |"e2e-"|;
      assert Bucket(n)[p..] == FourDigits(n) && Bucket(m)[p..] == FourDigits(m);
      DigitsTell(n, m);
      assert false;
    }
  }

  // ---------------------------------------------------------------- the protocol

  /** Where a process is in its lease, or in probing a lock. */
  datatype Pc =
    | Idle
    | Drawing(slot: nat)
    | Tested(slot: nat, namespace: nat)
    | Leased(slot: nat, namespace: nat)
    | Ending(slot: nat, namespace: nat)
    | Closing(slot: nat)
    | ProbingSlot(slot: nat)
    | ProbingNamespace(namespace: nat)
    | Gone

  /** Locks by who holds them; records by who registered them. A crashed process keeps its record only. */
  datatype World = World(pcs: map<Pid, Pc>, slots: map<nat, Pid>, namespaces: map<nat, Pid>, records: map<nat, Pid>)

  datatype Action =
    | TakeSlot(p: Pid, slot: nat)
    | Test(p: Pid, namespace: nat)
    | Claim(p: Pid)
    | Register(p: Pid)
    | Unregister(p: Pid)
    | FreeNamespace(p: Pid)
    | FreeSlot(p: Pid)
    | ProbeSlot(p: Pid, slot: nat)
    | ProbeNamespace(p: Pid, namespace: nat)
    | EndProbe(p: Pid)
    | Crash(p: Pid)

  function PcOf(w: World, p: Pid): Pc { if p in w.pcs then w.pcs[p] else Idle }

  function At(w: World, p: Pid, pc: Pc): World { w.(pcs := w.pcs[p := pc]) }

  function Released(locks: map<nat, Pid>, p: Pid): map<nat, Pid> { map n | n in locks && locks[n] != p :: locks[n] }

  /** Whether the record test and the claim are one step is up to the flag. */
  function Step(w: World, atomic: bool, a: Action): World {
    var pc := PcOf(w, a.p);
    match a
    case TakeSlot(p, slot) =>
      if pc.Idle? && slot < SLOTS && slot !in w.slots then At(w, p, Drawing(slot)).(slots := w.slots[slot := p]) else w
    case Test(p, namespace) =>
      if pc.Drawing? && namespace < NAMESPACES && namespace !in w.records then
        if atomic then Claimed(w, p, pc.slot, namespace) else At(w, p, Tested(pc.slot, namespace))
      else w
    case Claim(p) => if pc.Tested? then Claimed(w, p, pc.slot, pc.namespace) else w
    case Register(p) => if pc.Leased? then w.(records := w.records[pc.namespace := p]) else w
    case Unregister(p) =>
      if pc.Leased? then At(w, p, Ending(pc.slot, pc.namespace)).(records := w.records - {pc.namespace}) else w
    case FreeNamespace(p) =>
      if pc.Ending? then At(w, p, Closing(pc.slot)).(namespaces := w.namespaces - {pc.namespace}) else w
    case FreeSlot(p) => if pc.Drawing? || pc.Closing? then At(w, p, Idle).(slots := w.slots - {pc.slot}) else w
    case ProbeSlot(p, slot) =>
      if pc.Idle? && slot !in w.slots then At(w, p, ProbingSlot(slot)).(slots := w.slots[slot := p]) else w
    case ProbeNamespace(p, namespace) =>
      if pc.Idle? && namespace !in w.namespaces
      then At(w, p, ProbingNamespace(namespace)).(namespaces := w.namespaces[namespace := p])
      else w
    case EndProbe(p) =>
      if pc.ProbingSlot? then At(w, p, Idle).(slots := w.slots - {pc.slot})
      else if pc.ProbingNamespace? then At(w, p, Idle).(namespaces := w.namespaces - {pc.namespace})
      else w
    case Crash(p) => At(w, p, Gone).(slots := Released(w.slots, p), namespaces := Released(w.namespaces, p))
  }

  /** The namespace lock taken if it is free; drawing goes on if it is not. */
  function Claimed(w: World, p: Pid, slot: nat, namespace: nat): World {
    if namespace !in w.namespaces
    then At(w, p, Leased(slot, namespace)).(namespaces := w.namespaces[namespace := p])
    else At(w, p, Drawing(slot))
  }

  const START := World(map[], map[], map[], map[])

  function Run(atomic: bool, actions: seq<Action>): World {
    if actions == [] then START
    else Step(Run(atomic, actions[..|actions| - 1]), atomic, actions[|actions| - 1])
  }

  // ---------------------------------------------------------------- what every interleaving keeps

  predicate NeedsSlot(pc: Pc, slot: nat) {
    match pc
    case Drawing(s) => s == slot
    case Tested(s, _) => s == slot
    case Leased(s, _) => s == slot
    case Ending(s, _) => s == slot
    case Closing(s) => s == slot
    case ProbingSlot(s) => s == slot
    case _ => false
  }

  predicate NeedsNamespace(pc: Pc, namespace: nat) {
    match pc
    case Leased(_, n) => n == namespace
    case Ending(_, n) => n == namespace
    case ProbingNamespace(n) => n == namespace
    case _ => false
  }

  predicate InRange(pc: Pc) {
    match pc
    case Drawing(s) => s < SLOTS
    case Tested(s, n) => s < SLOTS && n < NAMESPACES
    case Leased(s, n) => s < SLOTS && n < NAMESPACES
    case Ending(s, n) => s < SLOTS && n < NAMESPACES
    case Closing(s) => s < SLOTS
    case _ => true
  }

  /** The process holds the locks its place needs. */
  ghost predicate HasLocks(w: World, p: Pid) {
    && InRange(PcOf(w, p))
    && (forall s :: NeedsSlot(PcOf(w, p), s) ==> s in w.slots && w.slots[s] == p)
    && (forall n :: NeedsNamespace(PcOf(w, p), n) ==> n in w.namespaces && w.namespaces[n] == p)
  }

  ghost predicate Locked(w: World) {
    forall p: Pid :: HasLocks(w, p)
  }

  predicate Occupies(pc: Pc, namespace: nat) { (pc.Leased? || pc.Ending?) && pc.namespace == namespace }

  /** A leased namespace has no record but the lessee's own. */
  ghost predicate OwnRecords(w: World) {
    forall p: Pid, n <- w.records :: Occupies(PcOf(w, p), n) ==> w.records[n] == p
  }

  predicate OwnerStays(w: World, n: nat)
    requires n in w.records
  {
    var pc := PcOf(w, w.records[n]);
    pc.Gone? || (pc.Leased? && pc.namespace == n)
  }

  /** Who registered a record is still in that lease, or crashed. */
  ghost predicate RecordsHaveOwners(w: World) {
    forall n <- w.records :: OwnerStays(w, n)
  }

  lemma StepKeepsLocked(w: World, atomic: bool, a: Action)
    requires Locked(w)
    ensures Locked(Step(w, atomic, a))
  {
    forall p: Pid
      ensures HasLocks(Step(w, atomic, a), p)
    {
      assert HasLocks(w, p) && HasLocks(w, a.p);
      if p == a.p {
        ActorHasLocks(w, atomic, a);
      } else {
        OthersHaveLocks(w, atomic, a, p);
      }
    }
  }

  lemma ActorHasLocks(w: World, atomic: bool, a: Action)
    requires HasLocks(w, a.p)
    ensures HasLocks(Step(w, atomic, a), a.p)
  {
  }

  lemma OthersHaveLocks(w: World, atomic: bool, a: Action, p: Pid)
    requires HasLocks(w, a.p) && HasLocks(w, p) && p != a.p
    ensures HasLocks(Step(w, atomic, a), p)
  {
  }

  lemma {:induction false} EveryRunIsLocked(atomic: bool, actions: seq<Action>)
    ensures Locked(Run(atomic, actions))
  {
    if actions != [] {
      EveryRunIsLocked(atomic, actions[..|actions| - 1]);
      StepKeepsLocked(Run(atomic, actions[..|actions| - 1]), atomic, actions[|actions| - 1]);
    }
  }

  /** Each lock is held by a process whose place needs it. */
  ghost predicate LocksNeeded(w: World) {
    && (forall slot <- w.slots :: NeedsSlot(PcOf(w, w.slots[slot]), slot))
    && (forall n <- w.namespaces :: NeedsNamespace(PcOf(w, w.namespaces[n]), n))
  }

  lemma {:induction false} ActorSlotsNeeded(w: World, atomic: bool, a: Action, slot: nat)
    requires HasLocks(w, a.p) && (slot in w.slots ==> NeedsSlot(PcOf(w, w.slots[slot]), slot))
    requires slot in Step(w, atomic, a).slots
    requires Step(w, atomic, a).slots[slot] == a.p
    ensures NeedsSlot(PcOf(Step(w, atomic, a), Step(w, atomic, a).slots[slot]), slot)
  {
  }

  lemma {:induction false} OthersSlotsNeeded(w: World, atomic: bool, a: Action, slot: nat)
    requires HasLocks(w, a.p) && (slot in w.slots ==> NeedsSlot(PcOf(w, w.slots[slot]), slot))
    requires slot in Step(w, atomic, a).slots
    requires Step(w, atomic, a).slots[slot] != a.p
    ensures NeedsSlot(PcOf(Step(w, atomic, a), Step(w, atomic, a).slots[slot]), slot)
  {
  }

  lemma {:induction false} StepKeepsSlotsNeeded(w: World, atomic: bool, a: Action, slot: nat)
    requires HasLocks(w, a.p) && (slot in w.slots ==> NeedsSlot(PcOf(w, w.slots[slot]), slot))
    requires slot in Step(w, atomic, a).slots
    ensures NeedsSlot(PcOf(Step(w, atomic, a), Step(w, atomic, a).slots[slot]), slot)
  {
    if Step(w, atomic, a).slots[slot] == a.p {
      ActorSlotsNeeded(w, atomic, a, slot);
    } else {
      OthersSlotsNeeded(w, atomic, a, slot);
    }
  }

  lemma {:induction false} ActorNamespacesNeeded(w: World, atomic: bool, a: Action, n: nat)
    requires HasLocks(w, a.p) && (n in w.namespaces ==> NeedsNamespace(PcOf(w, w.namespaces[n]), n))
    requires n in Step(w, atomic, a).namespaces
    requires Step(w, atomic, a).namespaces[n] == a.p
    ensures NeedsNamespace(PcOf(Step(w, atomic, a), Step(w, atomic, a).namespaces[n]), n)
  {
  }

  lemma {:induction false} OthersNamespacesNeeded(w: World, atomic: bool, a: Action, n: nat)
    requires HasLocks(w, a.p) && (n in w.namespaces ==> NeedsNamespace(PcOf(w, w.namespaces[n]), n))
    requires n in Step(w, atomic, a).namespaces
    requires Step(w, atomic, a).namespaces[n] != a.p
    ensures NeedsNamespace(PcOf(Step(w, atomic, a), Step(w, atomic, a).namespaces[n]), n)
  {
  }

  lemma {:induction false} StepKeepsNamespacesNeeded(w: World, atomic: bool, a: Action, n: nat)
    requires HasLocks(w, a.p) && (n in w.namespaces ==> NeedsNamespace(PcOf(w, w.namespaces[n]), n))
    requires n in Step(w, atomic, a).namespaces
    ensures NeedsNamespace(PcOf(Step(w, atomic, a), Step(w, atomic, a).namespaces[n]), n)
  {
    if Step(w, atomic, a).namespaces[n] == a.p {
      ActorNamespacesNeeded(w, atomic, a, n);
    } else {
      OthersNamespacesNeeded(w, atomic, a, n);
    }
  }

  /** However the steps interleave, no lock outlives its use: once a lease or a probe ends or crashes it is free. */
  lemma {:induction false} EveryLockIsNeeded(atomic: bool, actions: seq<Action>)
    ensures LocksNeeded(Run(atomic, actions))
  {
    if actions != [] {
      var w, a := Run(atomic, actions[..|actions| - 1]), actions[|actions| - 1];
      EveryLockIsNeeded(atomic, actions[..|actions| - 1]);
      EveryRunIsLocked(atomic, actions[..|actions| - 1]);
      assert HasLocks(w, a.p);
      forall slot | slot in Step(w, atomic, a).slots
        ensures NeedsSlot(PcOf(Step(w, atomic, a), Step(w, atomic, a).slots[slot]), slot)
      {
        StepKeepsSlotsNeeded(w, atomic, a, slot);
      }
      forall n | n in Step(w, atomic, a).namespaces
        ensures NeedsNamespace(PcOf(Step(w, atomic, a), Step(w, atomic, a).namespaces[n]), n)
      {
        StepKeepsNamespacesNeeded(w, atomic, a, n);
      }
    }
  }

  /** However the steps interleave, two live leases share no slot, namespace, port, database or bucket. */
  lemma LeasesShareNothing(atomic: bool, actions: seq<Action>, p: Pid, q: Pid)
    requires p != q && PcOf(Run(atomic, actions), p).Leased? && PcOf(Run(atomic, actions), q).Leased?
    ensures var a, b := PcOf(Run(atomic, actions), p), PcOf(Run(atomic, actions), q);
            a.slot != b.slot && a.namespace != b.namespace
            && a.slot < SLOTS && b.slot < SLOTS && a.namespace < NAMESPACES && b.namespace < NAMESPACES
            && Origins(a.slot) !! Origins(b.slot) && RedisDatabase(a.slot) != RedisDatabase(b.slot)
            && Bucket(a.namespace) != Bucket(b.namespace)
  {
    EveryRunIsLocked(atomic, actions);
    var w := Run(atomic, actions);
    var a, b := PcOf(w, p), PcOf(w, q);
    assert HasLocks(w, p) && HasLocks(w, q);
    assert NeedsSlot(a, a.slot) && NeedsSlot(b, b.slot) && NeedsNamespace(a, a.namespace) && NeedsNamespace(b, b.namespace);
    SlotsShareNothing(a.slot, b.slot);
    NamespacesShareNoBucket(a.namespace, b.namespace);
  }

  // ---------------------------------------------------------------- crashed runs' namespaces

  /** A claim of a free namespace that by then has a record: it was tested before its run registered and ended. */
  predicate Late(w: World, a: Action) {
    a.Claim? && PcOf(w, a.p).Tested? && PcOf(w, a.p).namespace !in w.namespaces && PcOf(w, a.p).namespace in w.records
  }

  lemma {:induction false} StepKeepsOwnRecords(w: World, atomic: bool, a: Action)
    requires Locked(w) && OwnRecords(w) && !Late(w, a)
    ensures OwnRecords(Step(w, atomic, a))
  {
    var after := Step(w, atomic, a);
    forall p: Pid, n | n in after.records && Occupies(PcOf(after, p), n)
      ensures after.records[n] == p
    {
      assert HasLocks(w, p) && HasLocks(w, a.p);
      if p == a.p {
        ActorOwnsRecords(w, atomic, a, n);
      } else {
        OthersOwnRecords(w, atomic, a, p, n);
      }
    }
  }

  lemma {:induction false} ActorOwnsRecords(w: World, atomic: bool, a: Action, n: nat)
    requires n in w.records && Occupies(PcOf(w, a.p), n) ==> w.records[n] == a.p
    requires !Late(w, a)
    requires n in Step(w, atomic, a).records && Occupies(PcOf(Step(w, atomic, a), a.p), n)
    ensures Step(w, atomic, a).records[n] == a.p
  {
  }

  lemma {:induction false} OthersOwnRecords(w: World, atomic: bool, a: Action, p: Pid, n: nat)
    requires HasLocks(w, p) && HasLocks(w, a.p) && p != a.p
    requires n in w.records && Occupies(PcOf(w, p), n) ==> w.records[n] == p
    requires n in Step(w, atomic, a).records && Occupies(PcOf(Step(w, atomic, a), p), n)
    ensures Step(w, atomic, a).records[n] == p
  {
    assert NeedsNamespace(PcOf(w, p), n);
    assert PcOf(w, a.p).Leased? ==> NeedsNamespace(PcOf(w, a.p), PcOf(w, a.p).namespace);
  }

  lemma {:induction false} StepKeepsOwners(w: World, atomic: bool, a: Action)
    requires Locked(w) && RecordsHaveOwners(w)
    ensures RecordsHaveOwners(Step(w, atomic, a))
  {
    var after := Step(w, atomic, a);
    forall n | n in after.records
      ensures OwnerStays(after, n)
    {
      assert HasLocks(w, a.p);
      if n in w.records && w.records[n] != a.p {
        assert OwnerStays(w, n) && HasLocks(w, w.records[n]);
        OthersStayOwners(w, atomic, a, n);
      } else {
        ActorStaysOwner(w, atomic, a, n);
      }
    }
  }

  lemma {:induction false} ActorStaysOwner(w: World, atomic: bool, a: Action, n: nat)
    requires n in w.records ==> w.records[n] == a.p && OwnerStays(w, n)
    requires n in Step(w, atomic, a).records
    ensures OwnerStays(Step(w, atomic, a), n)
  {
  }

  lemma {:induction false} OthersStayOwners(w: World, atomic: bool, a: Action, n: nat)
    requires n in w.records && w.records[n] != a.p && OwnerStays(w, n)
    requires HasLocks(w, a.p) && HasLocks(w, w.records[n])
    requires n in Step(w, atomic, a).records
    ensures OwnerStays(Step(w, atomic, a), n)
  {
  }

  /** In every run the locks fit and the records have owners, with separate steps too. */
  lemma {:induction false} EveryRunHasOwners(atomic: bool, actions: seq<Action>)
    ensures RecordsHaveOwners(Run(atomic, actions))
  {
    if actions != [] {
      var init := actions[..|actions| - 1];
      EveryRunHasOwners(atomic, init);
      EveryRunIsLocked(atomic, init);
      StepKeepsOwners(Run(atomic, init), atomic, actions[|actions| - 1]);
    }
  }

  /** No claim of a run was late. */
  ghost predicate NoneLate(atomic: bool, actions: seq<Action>) {
    forall k :: 0 <= k < |actions| ==> !Late(Run(atomic, actions[..k]), actions[k])
  }

  lemma {:induction false} RunOwnsRecords(atomic: bool, actions: seq<Action>)
    requires NoneLate(atomic, actions)
    ensures OwnRecords(Run(atomic, actions))
  {
    if actions != [] {
      var n := |actions| - 1;
      var init := actions[..n];
      assert forall k :: 0 <= k < n ==> init[..k] == actions[..k];
      RunOwnsRecords(atomic, init);
      EveryRunIsLocked(atomic, init);
      StepKeepsOwnRecords(Run(atomic, init), atomic, actions[n]);
    }
  }

  /** With test and claim in one step no process is ever between them, so no claim is late. */
  lemma {:induction false} OneStepIsNeverLate(actions: seq<Action>)
    ensures forall p: Pid :: !PcOf(Run(true, actions), p).Tested?
  {
    if actions != [] {
      var init := actions[..|actions| - 1];
      OneStepIsNeverLate(init);
      forall p: Pid
        ensures !PcOf(Run(true, actions), p).Tested?
      {
        assert !PcOf(Run(true, init), p).Tested?;
        StepNeverStopsTested(Run(true, init), actions[|actions| - 1], p);
      }
    }
  }

  lemma StepNeverStopsTested(w: World, a: Action, p: Pid)
    requires !PcOf(w, p).Tested?
    ensures !PcOf(Step(w, true, a), p).Tested?
  {
  }

  lemma OneStepOwnsRecords(actions: seq<Action>)
    ensures OwnRecords(Run(true, actions))
  {
    forall k | 0 <= k < |actions|
      ensures !Late(Run(true, actions[..k]), actions[k])
    {
      OneStepIsNeverLate(actions[..k]);
    }
    RunOwnsRecords(true, actions);
  }

  /** With test and claim in one step, a namespace is never leased while another's record of it is there. */
  lemma RecordKeepsOthersOut(actions: seq<Action>, crashed: Pid, namespace: nat, p: Pid)
    requires namespace in Run(true, actions).records && Run(true, actions).records[namespace] == crashed && p != crashed
    ensures !Occupies(PcOf(Run(true, actions), p), namespace)
  {
    OneStepOwnsRecords(actions);
  }

  /** Someone leases a namespace that a crashed run left a record of. */
  ghost predicate LeasedOverCrash(w: World) {
    exists namespace <- w.records, p: Pid :: PcOf(w, w.records[namespace]).Gone? && Occupies(PcOf(w, p), namespace)
  }

  lemma OwnRecordsKeepCrashed(w: World)
    requires OwnRecords(w)
    ensures !LeasedOverCrash(w)
  {
  }

  /** With test and claim in one step nobody leases what a crashed process left. */
  lemma CrashedNamespaceStaysFree(actions: seq<Action>)
    ensures !LeasedOverCrash(Run(true, actions))
  {
    OneStepOwnsRecords(actions);
    OwnRecordsKeepCrashed(Run(true, actions));
  }

  lemma {:induction false} StepKeepsCrashedRecord(w: World, a: Action, n: nat, p: Pid)
    requires OwnRecords(w) && n in w.records && w.records[n] == p && PcOf(w, p).Gone?
    ensures var after := Step(w, true, a); n in after.records && after.records[n] == p && PcOf(after, p).Gone?
  {
    if a.p != p && PcOf(w, a.p).Leased? {
      assert Occupies(PcOf(w, a.p), PcOf(w, a.p).namespace);
    }
  }

  /** With test and claim in one step, what a crashed run registered stays on record, whatever comes. */
  lemma {:induction false} CrashedRecordStays(actions: seq<Action>, more: seq<Action>, n: nat, p: Pid)
    requires var w := Run(true, actions); n in w.records && w.records[n] == p && PcOf(w, p).Gone?
    ensures var w := Run(true, actions + more); n in w.records && w.records[n] == p && PcOf(w, p).Gone?
    decreases |more|
  {
    hide Step, OwnRecords;
    if more == [] {
      assert actions + more == actions;
    } else {
      var init := actions + more[..|more| - 1];
      CrashedRecordStays(actions, more[..|more| - 1], n, p);
      OneStepOwnsRecords(init);
      StepKeepsCrashedRecord(Run(true, init), more[|more| - 1], n, p);
      assert (actions + more)[..|actions + more| - 1] == init;
    }
  }

  /** Registering puts a lease on record, and only its own ending or another's registering takes that off. */
  lemma {:induction false} RegisteredUntilEnded(w: World, atomic: bool, a: Action, n: nat)
    ensures a.Register? && PcOf(w, a.p).Leased? && PcOf(w, a.p).namespace == n ==>
              n in Step(w, atomic, a).records && Step(w, atomic, a).records[n] == a.p
    ensures n in w.records
            && !((a.Unregister? || a.Register?) && PcOf(w, a.p).Leased? && PcOf(w, a.p).namespace == n) ==>
              n in Step(w, atomic, a).records && Step(w, atomic, a).records[n] == w.records[n]
    ensures a.Unregister? && PcOf(w, a.p).Leased? && PcOf(w, a.p).namespace == n ==> n !in Step(w, atomic, a).records
  {
  }

  /** A late claim leases a namespace with the record of a run that crashed. */
  lemma {:induction false} LateClaimLeasesCrashed(w: World, atomic: bool, a: Action)
    requires Locked(w) && RecordsHaveOwners(w) && Late(w, a)
    ensures LeasedOverCrash(Step(w, atomic, a))
  {
    var n := PcOf(w, a.p).namespace;
    var owner := w.records[n];
    var after := Step(w, atomic, a);
    assert HasLocks(w, owner) && OwnerStays(w, n);
    assert PcOf(w, owner).Leased? ==> NeedsNamespace(PcOf(w, owner), n);
    assert PcOf(after, owner).Gone? && Occupies(PcOf(after, a.p), n) && n in after.records;
  }

  /** With separate steps, a run never leases what a crashed one left exactly when none of its claims was late. */
  lemma CrashedNamespaceStaysFreeIff(actions: seq<Action>)
    ensures (forall k :: 0 <= k <= |actions| ==> !LeasedOverCrash(Run(false, actions[..k]))) <==> NoneLate(false, actions)
  {
    if NoneLate(false, actions) {
      forall k | 0 <= k <= |actions|
        ensures !LeasedOverCrash(Run(false, actions[..k]))
      {
        assert forall j :: 0 <= j < k ==> actions[..k][..j] == actions[..j];
        RunOwnsRecords(false, actions[..k]);
        OwnRecordsKeepCrashed(Run(false, actions[..k]));
      }
    } else {
      var k :| 0 <= k < |actions| && Late(Run(false, actions[..k]), actions[k]);
      EveryRunIsLocked(false, actions[..k]);
      EveryRunHasOwners(false, actions[..k]);
      LateClaimLeasesCrashed(Run(false, actions[..k]), false, actions[k]);
      assert actions[..k + 1][..k] == actions[..k];
      assert LeasedOverCrash(Run(false, actions[..k + 1]));
    }
  }

  // ---------------------------------------------------------------- whole leases

  ghost function StepsFrom(w: World, atomic: bool, actions: seq<Action>): World
    decreases |actions|
  {
    if actions == [] then w else StepsFrom(Step(w, atomic, actions[0]), atomic, actions[1..])
  }

  lemma StepsOne(w: World, atomic: bool, a: Action, rest: seq<Action>)
    ensures StepsFrom(w, atomic, [a] + rest) == StepsFrom(Step(w, atomic, a), atomic, rest)
  {
    assert ([a] + rest)[1..] == rest;
  }

  lemma StepsNone(w: World, atomic: bool)
    ensures StepsFrom(w, atomic, []) == w
  {
  }

  /** An idle process, and a slot and a namespace that are free. */
  ghost predicate MayLease(w: World, p: Pid, slot: nat, namespace: nat) {
    && PcOf(w, p).Idle? && slot < SLOTS && namespace < NAMESPACES
    && slot !in w.slots && namespace !in w.namespaces && namespace !in w.records
  }

  /** Then it leases both, and is on record. */
  lemma LeaseIsTaken(w: World, atomic: bool, p: Pid, slot: nat, namespace: nat)
    requires MayLease(w, p, slot, namespace)
    ensures StepsFrom(w, atomic, [TakeSlot(p, slot), Test(p, namespace), Claim(p), Register(p)])
         == World(w.pcs[p := Leased(slot, namespace)], w.slots[slot := p], w.namespaces[namespace := p], w.records[namespace := p])
  {
    var a, b, c, d := TakeSlot(p, slot), Test(p, namespace), Claim(p), Register(p);
    assert [a, b, c, d] == [a] + [b, c, d] && [b, c, d] == [b] + [c, d] && [c, d] == [c] + [d] && [d] == [d] + [];
    var m1 := Step(w, atomic, a);
    var m2 := Step(m1, atomic, b);
    var m3 := Step(m2, atomic, c);
    var m4 := Step(m3, atomic, d);
    assert m1 == World(w.pcs[p := Drawing(slot)], w.slots[slot := p], w.namespaces, w.records);
    assert m3 == World(w.pcs[p := Leased(slot, namespace)], w.slots[slot := p], w.namespaces[namespace := p], w.records);
    hide Step, StepsFrom;
    StepsOne(w, atomic, a, [b, c, d]);
    StepsOne(m1, atomic, b, [c, d]);
    StepsOne(m2, atomic, c, [d]);
    StepsOne(m3, atomic, d, []);
    StepsNone(m4, atomic);
  }

  /** And ending the lease gives everything back. */
  lemma LeaseIsGivenBack(w: World, atomic: bool, p: Pid, slot: nat, namespace: nat, leased: World)
    requires MayLease(w, p, slot, namespace)
    requires leased == World(w.pcs[p := Leased(slot, namespace)], w.slots[slot := p], w.namespaces[namespace := p],
                             w.records[namespace := p])
    ensures StepsFrom(leased, atomic, [Unregister(p), FreeNamespace(p), FreeSlot(p)]) == w.(pcs := w.pcs[p := Idle])
  {
    var a, b, c := Unregister(p), FreeNamespace(p), FreeSlot(p);
    assert [a, b, c] == [a] + [b, c] && [b, c] == [b] + [c] && [c] == [c] + [];
    var m1 := World(w.pcs[p := Ending(slot, namespace)], w.slots[slot := p], w.namespaces[namespace := p], w.records);
    var m2 := World(w.pcs[p := Closing(slot)], w.slots[slot := p], w.namespaces, w.records);
    var m3 := w.(pcs := w.pcs[p := Idle]);
    EndsAre(w, atomic, p, slot, namespace, leased);
    hide Step, StepsFrom;
    StepsOne(leased, atomic, a, [b, c]);
    StepsOne(m1, atomic, b, [c]);
    StepsOne(m2, atomic, c, []);
    StepsNone(m3, atomic);
  }

  /** The three steps of ending a lease. */
  lemma EndsAre(w: World, atomic: bool, p: Pid, slot: nat, namespace: nat, leased: World)
    requires MayLease(w, p, slot, namespace)
    requires leased == World(w.pcs[p := Leased(slot, namespace)], w.slots[slot := p], w.namespaces[namespace := p],
                             w.records[namespace := p])
    ensures Step(leased, atomic, Unregister(p))
         == World(w.pcs[p := Ending(slot, namespace)], w.slots[slot := p], w.namespaces[namespace := p], w.records)
    ensures Step(World(w.pcs[p := Ending(slot, namespace)], w.slots[slot := p], w.namespaces[namespace := p], w.records), atomic,
                 FreeNamespace(p))
         == World(w.pcs[p := Closing(slot)], w.slots[slot := p], w.namespaces, w.records)
    ensures Step(World(w.pcs[p := Closing(slot)], w.slots[slot := p], w.namespaces, w.records), atomic, FreeSlot(p))
         == w.(pcs := w.pcs[p := Idle])
  {
    hide Released, Claimed;
    TakenAndFreed(w.slots, slot, p);
    TakenAndFreed(w.namespaces, namespace, p);
    TakenAndFreed(w.records, namespace, p);
    MovesOn(w.pcs, p, Leased(slot, namespace), Ending(slot, namespace));
    MovesOn(w.pcs, p, Ending(slot, namespace), Closing(slot));
    MovesOn(w.pcs, p, Closing(slot), Idle);
  }

  lemma MovesOn(pcs: map<Pid, Pc>, p: Pid, from: Pc, to: Pc)
    ensures pcs[p := from][p := to] == pcs[p := to]
  {
  }

  /** A free lock is found so by taking it and giving it back; so is a slot without a namespace to go with it. */
  lemma ProbesGiveBack(w: World, atomic: bool, p: Pid, slot: nat, namespace: nat)
    requires MayLease(w, p, slot, namespace)
    ensures Step(w, atomic, ProbeSlot(p, slot)) == w.(pcs := w.pcs[p := ProbingSlot(slot)], slots := w.slots[slot := p])
    ensures StepsFrom(w, atomic, [ProbeSlot(p, slot), EndProbe(p)]) == w.(pcs := w.pcs[p := Idle])
    ensures Step(w, atomic, ProbeNamespace(p, namespace))
         == w.(pcs := w.pcs[p := ProbingNamespace(namespace)], namespaces := w.namespaces[namespace := p])
    ensures StepsFrom(w, atomic, [ProbeNamespace(p, namespace), EndProbe(p)]) == w.(pcs := w.pcs[p := Idle])
    ensures StepsFrom(w, atomic, [TakeSlot(p, slot), FreeSlot(p)]) == w.(pcs := w.pcs[p := Idle])
  {
    TakenAndFreed(w.slots, slot, p);
    TakenAndFreed(w.namespaces, namespace, p);
    MovesOn(w.pcs, p, ProbingSlot(slot), Idle);
    MovesOn(w.pcs, p, ProbingNamespace(namespace), Idle);
    MovesOn(w.pcs, p, Drawing(slot), Idle);
    hide Released, Claimed, StepsFrom;
    TwoSteps(w, atomic, ProbeSlot(p, slot), EndProbe(p));
    TwoSteps(w, atomic, ProbeNamespace(p, namespace), EndProbe(p));
    TwoSteps(w, atomic, TakeSlot(p, slot), FreeSlot(p));
  }

  lemma TakenAndFreed(locks: map<nat, Pid>, n: nat, p: Pid)
    requires n !in locks
    ensures locks[n := p] - {n} == locks
  {
  }

  lemma TwoSteps(w: World, atomic: bool, a: Action, b: Action)
    ensures StepsFrom(w, atomic, [a, b]) == Step(Step(w, atomic, a), atomic, b)
  {
    assert [a, b] == [a] + [b] && [b] == [b] + [];
    StepsOne(w, atomic, a, [b]);
    StepsOne(Step(w, atomic, a), atomic, b, []);
    StepsNone(Step(Step(w, atomic, a), atomic, b), atomic);
  }

  lemma OneMore(atomic: bool, actions: seq<Action>, a: Action)
    ensures Run(atomic, actions + [a]) == Step(Run(atomic, actions), atomic, a)
  {
    assert (actions + [a])[..|actions|] == actions;
  }

  /** Two runs of which one tested a namespace, and the other tested, claimed and registered it. */
  lemma OneTestedOneRegistered() returns (actions: seq<Action>)
    ensures Run(false, actions)
         == World(map[1 := Tested(0, 7), 2 := Leased(1, 7)], map[0 := 1, 1 := 2], map[7 := 2], map[7 := 2])
  {
    actions := [];
    OneMore(false, actions, TakeSlot(1, 0));
    actions := actions + [TakeSlot(1, 0)];
    OneMore(false, actions, TakeSlot(2, 1));
    actions := actions + [TakeSlot(2, 1)];
    OneMore(false, actions, Test(1, 7));
    actions := actions + [Test(1, 7)];
    OneMore(false, actions, Test(2, 7));
    actions := actions + [Test(2, 7)];
    OneMore(false, actions, Claim(2));
    actions := actions + [Claim(2)];
    OneMore(false, actions, Register(2));
    actions := actions + [Register(2)];
  }

  /** With separate steps, the other crashes and the first leases the namespace with that run's record. */
  lemma CrashedNamespaceMayBeLeased()
    ensures exists actions :: LeasedOverCrash(Run(false, actions))
  {
    var actions := OneTestedOneRegistered();
    OneMore(false, actions, Crash(2));
    OneMore(false, actions + [Crash(2)], Claim(1));
    var w := Run(false, actions + [Crash(2)] + [Claim(1)]);
    assert PcOf(w, 1) == Leased(0, 7) && w.records[7] == 2 && PcOf(w, 2).Gone?;
    assert Occupies(PcOf(w, 1), 7);
  }
}
