/** Holding the shared test tier: who may rebuild it, and what its users may rely on meanwhile. */
module Tier {
  import opened Results

  type Pid = nat

  type Fingerprint = map<string, string>

  /** A process's checkout: what its code fingerprints to, and which parts of that it needs. */
  datatype Checkout = Checkout(full: Fingerprint, needs: set<string>)

  datatype Command = Hold | Up | Reset | Down

  /** Where a process is; the locks it has there follow from this. */
  datatype Pc =
    | Outside
    | Refreshing(command: Command)
    | Swapping(command: Command, found: Fingerprint)
    | Entered(command: Command)
    | Waiting(command: Command)
    | Alone(command: Command)
    | Destroyed(command: Command)
    | Starting(command: Command)
    | Built(command: Command)
    | Dropped
    | Checking(command: Command)
    | Holding

  /** The tier lock by its holders, the recorded fingerprint, and where each process is. */
  datatype World = World(pcs: map<Pid, Pc>, exclusive: Option<Pid>, shared: set<Pid>, recorded: Option<Fingerprint>)

  /** Whether turning the exclusive lock into a shared one, and swapping scripts in, are one step each. */
  datatype Atomicity = Atomicity(downgrade: bool, refresh: bool)

  const BOTH := Atomicity(true, true)

  const SCRIPTS := "scripts"
  const NEVER_STARTED := "the tier has never been started"

  // ---------------------------------------------------------------- fingerprints

  function Differences(current: Fingerprint, found: Option<Fingerprint>): set<string> {
    match found
    case None => {NEVER_STARTED}
    case Some(f) => set name <- current | name !in f || f[name] != current[name]
  }

  /** What a process compares: a hold the parts it needs, a command all of them. */
  function Current(c: Checkout, command: Command): Fingerprint {
    if command.Hold? then map name | name in c.full && name in c.needs :: c.full[name] else c.full
  }

  /** The recorded fingerprint is the current one on every part but the scripts. */
  predicate Agrees(current: Fingerprint, found: Option<Fingerprint>) {
    found.Some? && forall name <- current :: name != SCRIPTS ==> name in found.value && found.value[name] == current[name]
  }

  // ---------------------------------------------------------------- the protocol

  datatype Action =
    | Enter(p: Pid, command: Command, up: bool)
    | ReadRecorded(p: Pid)
    | WriteScripts(p: Pid)
    | TryAlone(p: Pid)
    | Share(p: Pid)
    | Check(p: Pid)
    | Decide(p: Pid, up: bool, well: bool)
    | Begin(p: Pid)
    | Started(p: Pid)
    | Settle(p: Pid)
    | ShareAgain(p: Pid)
    | Leave(p: Pid)

  function PcOf(w: World, p: Pid): Pc { if p in w.pcs then w.pcs[p] else Outside }

  function At(w: World, p: Pid, pc: Pc): World { w.(pcs := w.pcs[p := pc]) }

  function Unlocked(w: World, p: Pid): World {
    w.(exclusive := if w.exclusive == Some(p) then None else w.exclusive, shared := w.shared - {p})
  }

  function WithScripts(found: Fingerprint, scripts: Fingerprint): Fingerprint
    requires SCRIPTS in scripts
  {
    found[SCRIPTS := scripts[SCRIPTS]]
  }

  /** Before any lock: changed scripts alone are swapped in, in one step or several. */
  function EnterOf(w: World, c: Checkout, atomic: Atomicity, p: Pid, command: Command, up: bool): World
    requires SCRIPTS in c.full
  {
    if (command.Hold? || command.Up?) && Differences(Current(c, command), w.recorded) == {SCRIPTS} && up then
      if atomic.refresh then At(w, p, Entered(command)).(recorded := Some(WithScripts(Found(w.recorded), c.full)))
      else At(w, p, Refreshing(command))
    else At(w, p, Entered(command))
  }

  function Found(recorded: Option<Fingerprint>): Fingerprint { if recorded.Some? then recorded.value else map[] }

  /** Alone with the lock: the tier is taken down, built or kept. */
  function DecideOf(w: World, c: Checkout, p: Pid, command: Command, up: bool, well: bool): World {
    var stale := Differences(Current(c, command), w.recorded) != {};
    if command.Down? || command.Reset? || (stale && up) then At(w, p, Destroyed(command)).(recorded := None)
    else if stale || !well then At(w, p, Starting(command))
    else At(w, p, Built(command))
  }

  /** The tier is as the process wants it: a hold keeps it with others, a command is done. */
  function SettleOf(w: World, atomic: Atomicity, p: Pid, command: Command): World {
    if !command.Hold? then At(Unlocked(w, p), p, Outside)
    else if atomic.downgrade then At(w, p, Holding).(exclusive := None, shared := w.shared + {p})
    else At(Unlocked(w, p), p, Dropped)
  }

  function Step(w: World, checkouts: map<Pid, Checkout>, atomic: Atomicity, a: Action): World
    requires Checkouts(checkouts)
  {
    if a.p !in checkouts then w
    else
      var c, pc := checkouts[a.p], PcOf(w, a.p);
      match a
      case Enter(p, command, up) => if pc.Outside? then EnterOf(w, c, atomic, p, command, up) else w
      case ReadRecorded(p) => if pc.Refreshing? then At(w, p, Swapping(pc.command, Found(w.recorded))) else w
      case WriteScripts(p) =>
        if pc.Swapping? then At(w, p, Entered(pc.command)).(recorded := Some(WithScripts(pc.found, c.full))) else w
      case TryAlone(p) =>
        if !pc.Entered? then w
        else if w.exclusive == None && w.shared == {} then At(w, p, Alone(pc.command)).(exclusive := Some(p))
        else if pc.command.Hold? || pc.command.Up? then At(w, p, Waiting(pc.command))
        else At(w, p, Outside)
      case Share(p) =>
        if pc.Waiting? && w.exclusive == None then At(w, p, Checking(pc.command)).(shared := w.shared + {p}) else w
      case Check(p) =>
        if !pc.Checking? then w
        else if Differences(Current(c, pc.command), w.recorded) == {} && pc.command.Hold? then At(w, p, Holding)
        else At(Unlocked(w, p), p, Outside)
      case Decide(p, up, well) => if pc.Alone? then DecideOf(w, c, p, pc.command, up, well) else w
      case Begin(p) =>
        if !pc.Destroyed? then w
        else if pc.command.Down? then At(Unlocked(w, p), p, Outside)
        else At(w, p, Starting(pc.command))
      case Started(p) => if pc.Starting? then At(w, p, Built(pc.command)).(recorded := Some(c.full)) else w
      case Settle(p) => if pc.Built? then SettleOf(w, atomic, p, pc.command) else w
      case ShareAgain(p) =>
        if pc.Dropped? && w.exclusive == None then At(w, p, Holding).(shared := w.shared + {p}) else w
      case Leave(p) => At(Unlocked(w, p), p, Outside)
  }

  /** Every fingerprint has its scripts. */
  predicate Checkouts(checkouts: map<Pid, Checkout>) { forall p <- checkouts :: SCRIPTS in checkouts[p].full }

  function Start(recorded: Option<Fingerprint>): World { World(map[], None, {}, recorded) }

  /** A run may start with any fingerprint on record, left by earlier processes. */
  function Run(checkouts: map<Pid, Checkout>, atomic: Atomicity, recorded: Option<Fingerprint>, actions: seq<Action>): World
    requires Checkouts(checkouts)
  {
    if actions == [] then Start(recorded)
    else Step(Run(checkouts, atomic, recorded, actions[..|actions| - 1]), checkouts, atomic, actions[|actions| - 1])
  }

  // ---------------------------------------------------------------- what every interleaving keeps

  predicate HasExclusive(pc: Pc) { pc.Alone? || pc.Destroyed? || pc.Starting? || pc.Built? }

  predicate HasShared(pc: Pc) { pc.Checking? || pc.Holding? }

  /** The process has exactly the locks that its place says. */
  predicate LockedAt(w: World, p: Pid) {
    (HasExclusive(PcOf(w, p)) <==> w.exclusive == Some(p)) && (HasShared(PcOf(w, p)) <==> p in w.shared)
  }

  /** Locks are where they should be, and the exclusive one excludes. */
  ghost predicate Locked(w: World) {
    (forall p: Pid :: LockedAt(w, p)) && (w.exclusive.Some? ==> w.shared == {})
  }

  /** A process that uses the tier, or is about to, finds on record what it needs. */
  predicate SuitedAt(w: World, checkouts: map<Pid, Checkout>, p: Pid) {
    p in checkouts && (PcOf(w, p).Holding? || PcOf(w, p).Dropped? || PcOf(w, p) == Built(Hold)) ==>
      Agrees(Current(checkouts[p], Hold), w.recorded)
  }

  ghost predicate Suited(w: World, checkouts: map<Pid, Checkout>) {
    forall p: Pid :: SuitedAt(w, checkouts, p) && (p !in checkouts ==> PcOf(w, p).Outside?)
  }

  /** No process is in the middle of a step that is atomic. */
  ghost predicate NoneBetween(w: World, atomic: Atomicity) {
    forall p: Pid ::
      (PcOf(w, p).Refreshing? || PcOf(w, p).Swapping? ==> !atomic.refresh) && (PcOf(w, p).Dropped? ==> !atomic.downgrade)
  }

  lemma StepKeepsLocked(w: World, checkouts: map<Pid, Checkout>, atomic: Atomicity, a: Action)
    requires Checkouts(checkouts) && Locked(w)
    ensures Locked(Step(w, checkouts, atomic, a))
  {
    hide Differences, Current, WithScripts, Found;
    assert LockedAt(w, a.p);
    var after := Step(w, checkouts, atomic, a);
    forall p: Pid
      ensures LockedAt(after, p)
    {
      assert LockedAt(w, p);
    }
  }

  lemma {:induction false} EveryRunIsLocked(
      checkouts: map<Pid, Checkout>, atomic: Atomicity, recorded: Option<Fingerprint>, actions: seq<Action>)
    requires Checkouts(checkouts)
    ensures Locked(Run(checkouts, atomic, recorded, actions))
    decreases |actions|
  {
    if actions != [] {
      var init := actions[..|actions| - 1];
      EveryRunIsLocked(checkouts, atomic, recorded, init);
      StepKeepsLocked(Run(checkouts, atomic, recorded, init), checkouts, atomic, actions[|actions| - 1]);
    }
  }

  /** While a process takes the tier down or builds it, no other holds it, however the steps interleave. */
  lemma RebuildsAlone(
      checkouts: map<Pid, Checkout>, atomic: Atomicity, recorded: Option<Fingerprint>, actions: seq<Action>, p: Pid, q: Pid)
    requires Checkouts(checkouts) && p != q
    requires var pc := PcOf(Run(checkouts, atomic, recorded, actions), p); pc.Destroyed? || pc.Starting?
    ensures !PcOf(Run(checkouts, atomic, recorded, actions), q).Holding?
  {
    EveryRunIsLocked(checkouts, atomic, recorded, actions);
    assert LockedAt(Run(checkouts, atomic, recorded, actions), p) && LockedAt(Run(checkouts, atomic, recorded, actions), q);
  }

  /** On every part that the process compares, the record says what its own code does. */
  predicate IsOwn(c: Checkout, command: Command, recorded: Option<Fingerprint>) {
    recorded.Some?
    && forall part <- c.full :: !command.Hold? || part in c.needs ==>
         part in recorded.value && recorded.value[part] == c.full[part]
  }

  lemma NothingDiffersIff(c: Checkout, command: Command, recorded: Option<Fingerprint>)
    ensures Differences(Current(c, command), recorded) == {} <==> IsOwn(c, command, recorded)
  {
    if Differences(Current(c, command), recorded) == {} {
      assert recorded.Some?;
      forall part | part in c.full && (!command.Hold? || part in c.needs)
        ensures part in recorded.value && recorded.value[part] == c.full[part]
      {
        assert part in Current(c, command);
        assert part !in Differences(Current(c, command), recorded);
      }
    }
  }

  /**
   * Alone with the lock, a tier is kept exactly when it is wanted, well and of the process's own code; it is taken down
   * exactly when that is asked for or it runs with other code; otherwise it is started.
   */
  lemma DecideIs(w: World, checkouts: map<Pid, Checkout>, atomic: Atomicity, p: Pid, up: bool, well: bool)
    requires Checkouts(checkouts) && p in checkouts && PcOf(w, p).Alone?
    ensures var command, after := PcOf(w, p).command, Step(w, checkouts, atomic, Decide(p, up, well));
            var own, wanted := IsOwn(checkouts[p], command, w.recorded), command.Hold? || command.Up?;
            && (PcOf(after, p) == Built(command) <==> wanted && well && own)
            && (PcOf(after, p) == Destroyed(command) <==> !wanted || (up && !own))
            && (PcOf(after, p) == Starting(command) <==> wanted && if own then !well else !up)
            && after.recorded == if PcOf(after, p).Destroyed? then None else w.recorded
  {
    NothingDiffersIff(checkouts[p], PcOf(w, p).command, w.recorded);
    hide Differences, Current, IsOwn;
  }

  /** A process only comes to have a tier by starting it, or by finding it well and its own while alone. */
  lemma {:induction false} StepToBuilt(w: World, checkouts: map<Pid, Checkout>, atomic: Atomicity, a: Action, p: Pid)
    requires Checkouts(checkouts)
    requires PcOf(Step(w, checkouts, atomic, a), p).Built? && !PcOf(w, p).Built?
    ensures (a == Started(p) && PcOf(w, p).Starting?)
         || (a.Decide? && a.p == p && a.well && PcOf(w, p).Alone? && IsOwn(checkouts[p], PcOf(w, p).command, w.recorded))
  {
    if a.Decide? && PcOf(w, a.p).Alone? && a.p in checkouts {
      DecideIs(w, checkouts, atomic, a.p, a.up, a.well);
    }
    hide Differences, Current, IsOwn, WithScripts, Found;
  }

  /** And to use it by settling on such a tier, or by finding it its own while sharing it. */
  lemma {:induction false} StepToHolding(w: World, checkouts: map<Pid, Checkout>, atomic: Atomicity, a: Action, p: Pid)
    requires Checkouts(checkouts)
    requires PcOf(Step(w, checkouts, atomic, a), p).Holding? && !PcOf(w, p).Holding?
    ensures a.p == p
    ensures match PcOf(w, p)
            case Built(command) => a.Settle? && command.Hold? && atomic.downgrade
            case Dropped => a.ShareAgain?
            case Checking(command) => a.Check? && command.Hold? && IsOwn(checkouts[p], Hold, w.recorded)
            case _ => false
  {
    if a.p in checkouts {
      NothingDiffersIff(checkouts[a.p], Hold, w.recorded);
    }
    hide Differences, Current, IsOwn, WithScripts, Found;
  }

  /** The records agree on all but the scripts. */
  predicate SameButScripts(before: Option<Fingerprint>, after: Option<Fingerprint>) {
    before == after
    || (before.Some? && after.Some?
        && (forall name <- before.value :: name != SCRIPTS ==> name in after.value && after.value[name] == before.value[name])
        && (forall name <- after.value :: name != SCRIPTS ==> name in before.value))
  }

  /** What a step puts on record: only a process alone with the lock, or a refresh of several steps, changes more. */
  lemma {:induction false} StepRecords(w: World, checkouts: map<Pid, Checkout>, atomic: Atomicity, a: Action)
    requires Checkouts(checkouts) && Locked(w) && NoneBetween(w, atomic)
    ensures w.exclusive == Some(a.p) || SameButScripts(w.recorded, Step(w, checkouts, atomic, a).recorded)
         || (!atomic.refresh && Step(w, checkouts, atomic, a).recorded.Some?)
  {
    assert LockedAt(w, a.p) && (PcOf(w, a.p).Swapping? ==> !atomic.refresh);
    hide Current;
  }

  lemma NoDifferenceAgrees(current: Fingerprint, found: Option<Fingerprint>)
    requires Differences(current, found) == {}
    ensures Agrees(current, found)
  {
    forall name | name in current
      ensures found.Some? && name in found.value && found.value[name] == current[name]
    {
      assert found.Some? ==> name !in Differences(current, found);
    }
  }

  lemma OwnBuildAgrees(c: Checkout, command: Command)
    ensures Agrees(Current(c, command), Some(c.full))
  {
  }

  lemma AgreesStill(current: Fingerprint, before: Option<Fingerprint>, after: Option<Fingerprint>)
    requires Agrees(current, before) && SameButScripts(before, after)
    ensures Agrees(current, after)
  {
  }

  /** The process needs a part of its own besides the scripts. */
  predicate NeedsMore(c: Checkout) { exists part <- Current(c, Hold) :: part != SCRIPTS }

  /** Wherever there is another process, the downgrade is atomic, and so is the refresh unless only scripts are needed. */
  predicate Safe(checkouts: map<Pid, Checkout>, atomic: Atomicity) {
    forall p <- checkouts, q <- checkouts ::
      p != q ==> atomic.downgrade && (atomic.refresh || !NeedsMore(checkouts[q]))
  }

  lemma {:induction false} StepKeepsNoneBetween(w: World, checkouts: map<Pid, Checkout>, atomic: Atomicity, a: Action)
    requires Checkouts(checkouts) && NoneBetween(w, atomic)
    ensures NoneBetween(Step(w, checkouts, atomic, a), atomic)
  {
    hide Differences, Current, WithScripts, Found;
    var after := Step(w, checkouts, atomic, a);
    forall p: Pid
      ensures PcOf(after, p).Refreshing? || PcOf(after, p).Swapping? ==> !atomic.refresh
      ensures PcOf(after, p).Dropped? ==> !atomic.downgrade
    {
      assert (PcOf(w, p).Refreshing? || PcOf(w, p).Swapping? ==> !atomic.refresh)
          && (PcOf(w, p).Dropped? ==> !atomic.downgrade);
    }
  }

  /** The acting process finds what it needs when it comes to use the tier. */
  lemma {:induction false} ActorIsSuited(w: World, checkouts: map<Pid, Checkout>, atomic: Atomicity, a: Action)
    requires Checkouts(checkouts) && a.p in checkouts && SuitedAt(w, checkouts, a.p)
    ensures SuitedAt(Step(w, checkouts, atomic, a), checkouts, a.p)
  {
    hide Differences, Current, Agrees, WithScripts, Found;
    var c := checkouts[a.p];
    OwnBuildAgrees(c, Hold);
    if Differences(Current(c, Hold), w.recorded) == {} {
      NoDifferenceAgrees(Current(c, Hold), w.recorded);
    }
  }

  lemma OnlyScriptsAgree(c: Checkout, found: Option<Fingerprint>)
    requires !NeedsMore(c)
    ensures Agrees(Current(c, Hold), found) <==> found.Some?
  {
  }

  lemma {:induction false} OthersStaySuited(
      w: World, checkouts: map<Pid, Checkout>, atomic: Atomicity, a: Action, p: Pid)
    requires Checkouts(checkouts) && Safe(checkouts, atomic) && Locked(w) && NoneBetween(w, atomic)
    requires p != a.p && a.p in checkouts && p in checkouts && SuitedAt(w, checkouts, p)
    ensures SuitedAt(Step(w, checkouts, atomic, a), checkouts, p)
  {
    StepRecords(w, checkouts, atomic, a);
    assert LockedAt(w, p) && LockedAt(w, a.p) && !PcOf(w, p).Dropped?;
    assert atomic.refresh || !NeedsMore(checkouts[p]);
    hide Differences, Current, Agrees, WithScripts, Found, SameButScripts, NeedsMore, Safe;
    var after := Step(w, checkouts, atomic, a);
    assert PcOf(after, p) == PcOf(w, p);
    if w.exclusive != Some(a.p) && Agrees(Current(checkouts[p], Hold), w.recorded) {
      if SameButScripts(w.recorded, after.recorded) {
        AgreesStill(Current(checkouts[p], Hold), w.recorded, after.recorded);
      } else {
        OnlyScriptsAgree(checkouts[p], after.recorded);
      }
    }
  }

  lemma {:induction false} StepKeepsSuited(w: World, checkouts: map<Pid, Checkout>, atomic: Atomicity, a: Action)
    requires Checkouts(checkouts) && Safe(checkouts, atomic)
    requires Locked(w) && NoneBetween(w, atomic) && Suited(w, checkouts)
    ensures Suited(Step(w, checkouts, atomic, a), checkouts)
  {
    hide Differences, Current, Agrees, WithScripts, Found, SuitedAt, Safe;
    var after := Step(w, checkouts, atomic, a);
    forall p: Pid
      ensures SuitedAt(after, checkouts, p) && (p !in checkouts ==> PcOf(after, p).Outside?)
    {
      assert SuitedAt(w, checkouts, p) && (p !in checkouts ==> PcOf(w, p).Outside?);
      if a.p in checkouts {
        if p == a.p {
          ActorIsSuited(w, checkouts, atomic, a);
        } else if p in checkouts {
          OthersStaySuited(w, checkouts, atomic, a, p);
        } else {
          OutsidersAreSuited(after, checkouts, p);
        }
      }
    }
  }

  lemma OutsidersAreSuited(w: World, checkouts: map<Pid, Checkout>, p: Pid)
    requires p !in checkouts
    ensures SuitedAt(w, checkouts, p)
  {
  }

  lemma {:induction false} EveryRunIsSuited(
      checkouts: map<Pid, Checkout>, atomic: Atomicity, recorded: Option<Fingerprint>, actions: seq<Action>)
    requires Checkouts(checkouts) && Safe(checkouts, atomic)
    ensures Suited(Run(checkouts, atomic, recorded, actions), checkouts)
    ensures NoneBetween(Run(checkouts, atomic, recorded, actions), atomic)
    decreases |actions|
  {
    if actions != [] {
      var init := actions[..|actions| - 1];
      var before := Run(checkouts, atomic, recorded, init);
      EveryRunIsSuited(checkouts, atomic, recorded, init);
      EveryRunIsLocked(checkouts, atomic, recorded, init);
      StepKeepsSuited(before, checkouts, atomic, actions[|actions| - 1]);
      StepKeepsNoneBetween(before, checkouts, atomic, actions[|actions| - 1]);
    }
  }

  /** A process inside its hold, and a tier that was not built from what it needs. */
  ghost predicate HoldsForeignTier(w: World, checkouts: map<Pid, Checkout>) {
    exists p <- checkouts :: PcOf(w, p).Holding? && !Agrees(Current(checkouts[p], Hold), w.recorded)
  }

  lemma {:induction false} SafeHoldersKeepTheirTier(
      checkouts: map<Pid, Checkout>, atomic: Atomicity, recorded: Option<Fingerprint>, actions: seq<Action>)
    requires Checkouts(checkouts) && Safe(checkouts, atomic)
    ensures !HoldsForeignTier(Run(checkouts, atomic, recorded, actions), checkouts)
  {
    EveryRunIsSuited(checkouts, atomic, recorded, actions);
    assert forall p <- checkouts :: SuitedAt(Run(checkouts, atomic, recorded, actions), checkouts, p);
  }

  /** With both steps atomic, every process inside its hold keeps seeing the tier it needs, but for the scripts. */
  lemma {:induction false} HoldersKeepTheirTier(
      checkouts: map<Pid, Checkout>, recorded: Option<Fingerprint>, actions: seq<Action>)
    requires Checkouts(checkouts)
    ensures !HoldsForeignTier(Run(checkouts, BOTH, recorded, actions), checkouts)
  {
    SafeHoldersKeepTheirTier(checkouts, BOTH, recorded, actions);
  }

  // ---------------------------------------------------------------- when a step is not atomic

  function StepsFrom(w: World, checkouts: map<Pid, Checkout>, atomic: Atomicity, actions: seq<Action>): World
    requires Checkouts(checkouts)
    decreases |actions|
  {
    if actions == [] then w else StepsFrom(Step(w, checkouts, atomic, actions[0]), checkouts, atomic, actions[1..])
  }

  lemma {:induction false} StepsAfter(
      w: World, checkouts: map<Pid, Checkout>, atomic: Atomicity, actions: seq<Action>, more: seq<Action>)
    requires Checkouts(checkouts)
    ensures StepsFrom(w, checkouts, atomic, actions + more)
         == StepsFrom(StepsFrom(w, checkouts, atomic, actions), checkouts, atomic, more)
    decreases |actions|
  {
    if actions == [] {
      assert actions + more == more;
    } else {
      assert (actions + more)[1..] == actions[1..] + more;
      StepsAfter(Step(w, checkouts, atomic, actions[0]), checkouts, atomic, actions[1..], more);
    }
  }

  lemma {:induction false} RunIsSteps(
      checkouts: map<Pid, Checkout>, atomic: Atomicity, recorded: Option<Fingerprint>, actions: seq<Action>)
    requires Checkouts(checkouts)
    ensures Run(checkouts, atomic, recorded, actions)
         == StepsFrom(Start(recorded), checkouts, atomic, actions)
    decreases |actions|
  {
    if actions != [] {
      var init, last := actions[..|actions| - 1], actions[|actions| - 1];
      RunIsSteps(checkouts, atomic, recorded, init);
      StepsAfter(Start(recorded), checkouts, atomic, init, [last]);
      assert actions == init + [last];
      assert [last][1..] == [];
    }
  }

  lemma StepsBegin(w: World, checkouts: map<Pid, Checkout>, atomic: Atomicity, a: Action, rest: seq<Action>)
    requires Checkouts(checkouts)
    ensures StepsFrom(w, checkouts, atomic, [a] + rest) == StepsFrom(Step(w, checkouts, atomic, a), checkouts, atomic, rest)
  {
    assert ([a] + rest)[1..] == rest;
  }

  lemma OneStep(w: World, checkouts: map<Pid, Checkout>, atomic: Atomicity, a: Action)
    requires Checkouts(checkouts)
    ensures StepsFrom(w, checkouts, atomic, [a]) == Step(w, checkouts, atomic, a)
  {
    assert [a][1..] == [];
  }

  lemma NothingDiffers(c: Checkout)
    ensures Differences(Current(c, Hold), Some(c.full)) == {}
  {
  }

  /** Scripts alone differ, of what the process compares. */
  ghost predicate OnlyScripts(c: Checkout, command: Command, recorded: Option<Fingerprint>) {
    recorded.Some? && (command.Hold? ==> SCRIPTS in c.needs) && SCRIPTS in c.full
    && !(SCRIPTS in recorded.value && recorded.value[SCRIPTS] == c.full[SCRIPTS])
    && forall part <- c.full :: part != SCRIPTS && (command.Hold? ==> part in c.needs) ==>
         part in recorded.value && recorded.value[part] == c.full[part]
  }

  lemma OnlyScriptsIff(c: Checkout, command: Command, recorded: Option<Fingerprint>)
    ensures Differences(Current(c, command), recorded) == {SCRIPTS} <==> OnlyScripts(c, command, recorded)
  {
    var differ := Differences(Current(c, command), recorded);
    if recorded == None {
      assert NEVER_STARTED in differ;
    } else {
      assert forall part :: part in differ <==>
        part in c.full && (command.Hold? ==> part in c.needs)
        && (part !in recorded.value || recorded.value[part] != c.full[part]);
      if differ == {SCRIPTS} {
        assert SCRIPTS in differ;
        forall part | part in c.full && part != SCRIPTS && (command.Hold? ==> part in c.needs)
          ensures part in recorded.value && recorded.value[part] == c.full[part]
        {
          assert part !in differ;
        }
      }
    }
  }

  /** On entering, scripts are refreshed exactly if the command uses the tier, it runs, and they alone differ. */
  lemma EnterIs(w: World, checkouts: map<Pid, Checkout>, atomic: Atomicity, p: Pid, command: Command, up: bool)
    requires Checkouts(checkouts) && p in checkouts && PcOf(w, p).Outside?
    ensures var c, after := checkouts[p], Step(w, checkouts, atomic, Enter(p, command, up));
            if (command.Hold? || command.Up?) && up && OnlyScripts(c, command, w.recorded) then
              (if atomic.refresh then
                 PcOf(after, p) == Entered(command) && after.recorded == Some(w.recorded.value[SCRIPTS := c.full[SCRIPTS]])
               else PcOf(after, p) == Refreshing(command) && after.recorded == w.recorded)
            else PcOf(after, p) == Entered(command) && after.recorded == w.recorded
  {
    OnlyScriptsIff(checkouts[p], command, w.recorded);
    hide Differences, Current, OnlyScripts;
  }

  /** A tier in use is shared when it is the process's own, and not when it is not. */
  lemma Shares(w: World, checkouts: map<Pid, Checkout>, atomic: Atomicity, p: Pid)
    requires Checkouts(checkouts) && p in checkouts && PcOf(w, p).Outside?
    requires w.exclusive == None && w.shared != {} && p !in w.shared
    ensures StepsFrom(w, checkouts, atomic, [Enter(p, Hold, false)] + ([TryAlone(p)] + ([Share(p)] + [Check(p)])))
         == if IsOwn(checkouts[p], Hold, w.recorded) then w.(pcs := w.pcs[p := Holding], shared := w.shared + {p})
            else w.(pcs := w.pcs[p := Outside])
  {
    NothingDiffersIff(checkouts[p], Hold, w.recorded);
    hide Differences, Current, StepsFrom, IsOwn;
    var w1, w2 := At(w, p, Entered(Hold)), At(At(w, p, Entered(Hold)), p, Waiting(Hold));
    var w3 := At(w2, p, Checking(Hold)).(shared := w.shared + {p});
    assert Step(w, checkouts, atomic, Enter(p, Hold, false)) == w1;
    assert Step(w1, checkouts, atomic, TryAlone(p)) == w2;
    assert Step(w2, checkouts, atomic, Share(p)) == w3;
    var w4 := Step(w3, checkouts, atomic, Check(p));
    assert w3.shared - {p} == w.shared;
    assert w4.pcs == if IsOwn(checkouts[p], Hold, w.recorded) then w.pcs[p := Holding] else w.pcs[p := Outside];
    StepsBegin(w, checkouts, atomic, Enter(p, Hold, false), [TryAlone(p)] + ([Share(p)] + [Check(p)]));
    StepsBegin(w1, checkouts, atomic, TryAlone(p), [Share(p)] + [Check(p)]);
    StepsBegin(w2, checkouts, atomic, Share(p), [Check(p)]);
    OneStep(w3, checkouts, atomic, Check(p));
  }

  /** While a tier is in use, bringing it up waits and goes, and nobody resets it or takes it down. */
  lemma InUse(w: World, checkouts: map<Pid, Checkout>, atomic: Atomicity, p: Pid, command: Command)
    requires Checkouts(checkouts) && p in checkouts && PcOf(w, p) == Entered(command) && w.exclusive == None && w.shared != {}
    ensures Step(w, checkouts, atomic, TryAlone(p))
         == At(w, p, if command.Hold? || command.Up? then Waiting(command) else Outside)
  {
  }

  lemma ResetSteps(w: World, checkouts: map<Pid, Checkout>, atomic: Atomicity, p: Pid)
    requires Checkouts(checkouts) && p in checkouts && PcOf(w, p).Outside? && w.exclusive == None && w.shared == {}
    ensures var w1, w2 := At(w, p, Entered(Reset)), At(At(w, p, Entered(Reset)), p, Alone(Reset)).(exclusive := Some(p));
            var w3 := At(w2, p, Destroyed(Reset)).(recorded := None);
            var w4 := At(w3, p, Starting(Reset));
            && Step(w, checkouts, atomic, Enter(p, Reset, true)) == w1
            && Step(w1, checkouts, atomic, TryAlone(p)) == w2
            && Step(w2, checkouts, atomic, Decide(p, true, true)) == w3
            && Step(w3, checkouts, atomic, Begin(p)) == w4
            && Step(w4, checkouts, atomic, Started(p)) == At(w4, p, Built(Reset)).(recorded := Some(checkouts[p].full))
  {
    hide Differences, Current, StepsFrom;
  }

  /** Nobody using it, a reset takes the tier down and builds it of the process's own code. */
  lemma Resets(w: World, checkouts: map<Pid, Checkout>, atomic: Atomicity, p: Pid)
    requires Checkouts(checkouts) && p in checkouts && PcOf(w, p).Outside? && w.exclusive == None && w.shared == {}
    ensures StepsFrom(w, checkouts, atomic,
                      [Enter(p, Reset, true)]
                      + ([TryAlone(p)] + ([Decide(p, true, true)] + ([Begin(p)] + ([Started(p)] + [Settle(p)])))))
         == w.(pcs := w.pcs[p := Outside], recorded := Some(checkouts[p].full))
  {
    var w1, w2 := At(w, p, Entered(Reset)), At(At(w, p, Entered(Reset)), p, Alone(Reset)).(exclusive := Some(p));
    var w3 := At(w2, p, Destroyed(Reset)).(recorded := None);
    var w4, w5 := At(w3, p, Starting(Reset)), At(At(w3, p, Starting(Reset)), p, Built(Reset)).(recorded := Some(checkouts[p].full));
    ResetSteps(w, checkouts, atomic, p);
    var w6 := Step(w5, checkouts, atomic, Settle(p));
    assert w6 == w.(pcs := w.pcs[p := Outside], recorded := Some(checkouts[p].full)) by {
      hide Differences, Current, StepsFrom;
      assert w6.pcs == w.pcs[p := Outside] && w6.shared == {};
    }
    hide StepsFrom;
    hide Step;
    StepsBegin(w, checkouts, atomic, Enter(p, Reset, true),
               [TryAlone(p)] + ([Decide(p, true, true)] + ([Begin(p)] + ([Started(p)] + [Settle(p)]))));
    StepsBegin(w1, checkouts, atomic, TryAlone(p), [Decide(p, true, true)] + ([Begin(p)] + ([Started(p)] + [Settle(p)])));
    StepsBegin(w2, checkouts, atomic, Decide(p, true, true), [Begin(p)] + ([Started(p)] + [Settle(p)]));
    StepsBegin(w3, checkouts, atomic, Begin(p), [Started(p)] + [Settle(p)]);
    StepsBegin(w4, checkouts, atomic, Started(p), [Settle(p)]);
    OneStep(w5, checkouts, atomic, Settle(p));
  }

  function Keeping(p: Pid): seq<Action> {
    [Enter(p, Hold, false)] + ([TryAlone(p)] + ([Decide(p, false, true)] + [Settle(p)]))
  }

  /** A process that finds the tier its own lets the lock go to share it. */
  lemma {:induction false} Keeps(checkouts: map<Pid, Checkout>, atomic: Atomicity, p: Pid)
    requires Checkouts(checkouts) && p in checkouts && !atomic.downgrade
    ensures StepsFrom(Start(Some(checkouts[p].full)), checkouts, atomic, Keeping(p))
         == World(map[p := Dropped], None, {}, Some(checkouts[p].full))
  {
    NothingDiffers(checkouts[p]);
    var w := Start(Some(checkouts[p].full));
    var w1 := Step(w, checkouts, atomic, Enter(p, Hold, false));
    var w2 := Step(w1, checkouts, atomic, TryAlone(p));
    var w3 := Step(w2, checkouts, atomic, Decide(p, false, true));
    var w4 := Step(w3, checkouts, atomic, Settle(p));
    hide Differences, Current, Step, StepsFrom;
    StepsBegin(w, checkouts, atomic, Enter(p, Hold, false), [TryAlone(p)] + ([Decide(p, false, true)] + [Settle(p)]));
    StepsBegin(w1, checkouts, atomic, TryAlone(p), [Decide(p, false, true)] + [Settle(p)]);
    StepsBegin(w2, checkouts, atomic, Decide(p, false, true), [Settle(p)]);
    OneStep(w3, checkouts, atomic, Settle(p));
    assert w4.pcs == map[p := Dropped];
  }

  function TakingDown(q: Pid): seq<Action> {
    [Enter(q, Down, false)] + ([TryAlone(q)] + ([Decide(q, false, false)] + [Begin(q)]))
  }

  /** Nobody holding the tier, a process takes it down. */
  lemma {:induction false} TakesDown(w: World, checkouts: map<Pid, Checkout>, atomic: Atomicity, q: Pid)
    requires Checkouts(checkouts) && q in checkouts && PcOf(w, q).Outside? && w.exclusive == None && w.shared == {}
    ensures StepsFrom(w, checkouts, atomic, TakingDown(q)) == w.(pcs := w.pcs[q := Outside], recorded := None)
  {
    hide Differences, Current, StepsFrom;
    var w1, w2 := At(w, q, Entered(Down)), At(At(w, q, Entered(Down)), q, Alone(Down)).(exclusive := Some(q));
    var w3 := At(w2, q, Destroyed(Down)).(recorded := None);
    assert Step(w, checkouts, atomic, Enter(q, Down, false)) == w1;
    assert Step(w1, checkouts, atomic, TryAlone(q)) == w2;
    assert Step(w2, checkouts, atomic, Decide(q, false, false)) == w3;
    var w4 := Step(w3, checkouts, atomic, Begin(q));
    assert w4.pcs == w.pcs[q := Outside] && w4.shared == {};
    StepsBegin(w, checkouts, atomic, Enter(q, Down, false), [TryAlone(q)] + ([Decide(q, false, false)] + [Begin(q)]));
    StepsBegin(w1, checkouts, atomic, TryAlone(q), [Decide(q, false, false)] + [Begin(q)]);
    StepsBegin(w2, checkouts, atomic, Decide(q, false, false), [Begin(q)]);
    OneStep(w3, checkouts, atomic, Begin(q));
  }

  /** A process lets its lock go to share it, another takes the tier down, and the first holds nothing. */
  lemma {:induction false} DowngradeMatters(checkouts: map<Pid, Checkout>, atomic: Atomicity, p: Pid, q: Pid)
    requires Checkouts(checkouts) && p in checkouts && q in checkouts && p != q && !atomic.downgrade
    ensures exists recorded, actions :: HoldsForeignTier(Run(checkouts, atomic, recorded, actions), checkouts)
  {
    hide StepsFrom;
    var recorded := Some(checkouts[p].full);
    var w0 := Start(recorded);
    Keeps(checkouts, atomic, p);
    var w1 := StepsFrom(w0, checkouts, atomic, Keeping(p));
    TakesDown(w1, checkouts, atomic, q);
    var w2 := StepsFrom(w1, checkouts, atomic, TakingDown(q));
    var w3 := Step(w2, checkouts, atomic, ShareAgain(p));
    OneStep(w2, checkouts, atomic, ShareAgain(p));
    StepsAfter(w0, checkouts, atomic, Keeping(p), TakingDown(q) + [ShareAgain(p)]);
    StepsAfter(w1, checkouts, atomic, TakingDown(q), [ShareAgain(p)]);
    var actions := Keeping(p) + (TakingDown(q) + [ShareAgain(p)]);
    RunIsSteps(checkouts, atomic, recorded, actions);
    assert PcOf(w3, p).Holding? && w3.recorded == None;
    assert HoldsForeignTier(Run(checkouts, atomic, recorded, actions), checkouts);
  }

  function BuildingAfresh(q: Pid): seq<Action> {
    [Enter(q, Hold, false)] + ([TryAlone(q)] + ([Decide(q, false, false)] + ([Started(q)] + [Settle(q)])))
  }

  /** Nobody holding the tier and nothing on record, a process builds it and holds it. */
  lemma {:induction false} BuildsAfresh(w: World, checkouts: map<Pid, Checkout>, atomic: Atomicity, q: Pid)
    requires Checkouts(checkouts) && q in checkouts && PcOf(w, q).Outside? && atomic.downgrade
    requires w.exclusive == None && w.shared == {} && w.recorded == None
    ensures StepsFrom(w, checkouts, atomic, BuildingAfresh(q))
         == w.(pcs := w.pcs[q := Holding], shared := {q}, recorded := Some(checkouts[q].full))
  {
    hide Current, StepsFrom;
    var w1, w2 := At(w, q, Entered(Hold)), At(At(w, q, Entered(Hold)), q, Alone(Hold)).(exclusive := Some(q));
    var w3, w4 := At(w2, q, Starting(Hold)), At(At(w2, q, Starting(Hold)), q, Built(Hold)).(recorded := Some(checkouts[q].full));
    assert Step(w, checkouts, atomic, Enter(q, Hold, false)) == w1;
    assert Step(w1, checkouts, atomic, TryAlone(q)) == w2;
    assert NEVER_STARTED in Differences(Current(checkouts[q], Hold), None);
    hide Differences;
    assert Step(w2, checkouts, atomic, Decide(q, false, false)) == w3;
    assert Step(w3, checkouts, atomic, Started(q)) == w4;
    var w5 := Step(w4, checkouts, atomic, Settle(q));
    assert w5.pcs == w.pcs[q := Holding] && w5.shared == {q};
    StepsBegin(w, checkouts, atomic, Enter(q, Hold, false),
               [TryAlone(q)] + ([Decide(q, false, false)] + ([Started(q)] + [Settle(q)])));
    StepsBegin(w1, checkouts, atomic, TryAlone(q), [Decide(q, false, false)] + ([Started(q)] + [Settle(q)]));
    StepsBegin(w2, checkouts, atomic, Decide(q, false, false), [Started(q)] + [Settle(q)]);
    StepsBegin(w3, checkouts, atomic, Started(q), [Settle(q)]);
    OneStep(w4, checkouts, atomic, Settle(q));
  }

  lemma OnlyScriptsDiffer(c: Checkout, scripts: string)
    requires SCRIPTS in c.full && c.full[SCRIPTS] != scripts
    ensures Differences(Current(c, Up), Some(c.full[SCRIPTS := scripts])) == {SCRIPTS}
  {
  }

  /** A process that swaps scripts in beside a rebuild leaves a record of scripts alone under the one that rebuilt. */
  lemma {:induction false} RefreshMatters(checkouts: map<Pid, Checkout>, atomic: Atomicity, p: Pid, q: Pid)
    requires Checkouts(checkouts) && p in checkouts && q in checkouts && p != q
    requires atomic.downgrade && !atomic.refresh && NeedsMore(checkouts[q])
    ensures exists recorded, actions :: HoldsForeignTier(Run(checkouts, atomic, recorded, actions), checkouts)
  {
    hide StepsFrom, Current;
    var scripts := checkouts[p].full[SCRIPTS] + "'";
    var recorded := Some(checkouts[p].full[SCRIPTS := scripts]);
    OnlyScriptsDiffer(checkouts[p], scripts);
    hide Differences;
    var w0 := Start(recorded);
    var w1 := At(w0, p, Refreshing(Up));
    assert Step(w0, checkouts, atomic, Enter(p, Up, true)) == w1;
    TakesDown(w1, checkouts, atomic, q);
    var w2 := StepsFrom(w1, checkouts, atomic, TakingDown(q));
    var w3 := At(w2, p, Swapping(Up, map[]));
    assert Step(w2, checkouts, atomic, ReadRecorded(p)) == w3;
    BuildsAfresh(w3, checkouts, atomic, q);
    var w4 := StepsFrom(w3, checkouts, atomic, BuildingAfresh(q));
    var w5 := Step(w4, checkouts, atomic, WriteScripts(p));
    var last := BuildingAfresh(q) + [WriteScripts(p)];
    StepsBegin(w0, checkouts, atomic, Enter(p, Up, true), TakingDown(q) + ([ReadRecorded(p)] + last));
    StepsAfter(w1, checkouts, atomic, TakingDown(q), [ReadRecorded(p)] + last);
    StepsBegin(w2, checkouts, atomic, ReadRecorded(p), last);
    StepsAfter(w3, checkouts, atomic, BuildingAfresh(q), [WriteScripts(p)]);
    OneStep(w4, checkouts, atomic, WriteScripts(p));
    var actions := [Enter(p, Up, true)] + (TakingDown(q) + ([ReadRecorded(p)] + last));
    RunIsSteps(checkouts, atomic, recorded, actions);
    assert PcOf(w5, q).Holding? && w5.recorded == Some(map[SCRIPTS := checkouts[p].full[SCRIPTS]]);
    assert HoldsForeignTier(Run(checkouts, atomic, recorded, actions), checkouts);
  }

  /** No run lets a process hold a foreign tier exactly when this is safe: the exact condition for each atomicity. */
  lemma {:induction false} NeverForeignIff(checkouts: map<Pid, Checkout>, atomic: Atomicity)
    requires Checkouts(checkouts)
    ensures (forall recorded, actions :: !HoldsForeignTier(Run(checkouts, atomic, recorded, actions), checkouts))
       <==> Safe(checkouts, atomic)
  {
    hide HoldsForeignTier, Run, NeedsMore;
    if Safe(checkouts, atomic) {
      forall recorded, actions
        ensures !HoldsForeignTier(Run(checkouts, atomic, recorded, actions), checkouts)
      {
        SafeHoldersKeepTheirTier(checkouts, atomic, recorded, actions);
      }
    } else {
      var p, q :| p in checkouts && q in checkouts && p != q
               && !(atomic.downgrade && (atomic.refresh || !NeedsMore(checkouts[q])));
      if !atomic.downgrade {
        DowngradeMatters(checkouts, atomic, p, q);
      } else {
        RefreshMatters(checkouts, atomic, p, q);
      }
    }
  }

  /** As the lock and the refresh are written, a foreign tier can be held as soon as there are two processes. */
  lemma {:induction false} NeverForeignAlone(checkouts: map<Pid, Checkout>, refresh: bool)
    requires Checkouts(checkouts)
    ensures (forall recorded, actions ::
               !HoldsForeignTier(Run(checkouts, Atomicity(false, refresh), recorded, actions), checkouts))
       <==> |checkouts| <= 1
  {
    hide HoldsForeignTier, Run, NeedsMore;
    NeverForeignIff(checkouts, Atomicity(false, refresh));
    var ps := checkouts.Keys;
    if |ps| <= 1 {
      forall p, q | p in ps && q in ps
        ensures p == q
      {
        assert |ps - {p}| == |ps| - 1;
        assert ps - {p} == {};
      }
    } else {
      var p :| p in ps;
      assert |ps - {p}| >= 1;
      var q :| q in ps - {p};
    }
  }
}
