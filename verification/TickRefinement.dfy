/**
 The steps of the service, run without interruption, are one tick of the processor: the invariants
 proved of the service's steps are about the code that is specified one whole item at a time.
 */
module TickRefinement {
  import opened Common
  import opened FileSystem
  import opened Transit
  import opened Items
  import opened Queue
  import opened Processor
  import opened SystemRuns
  import opened Recovery
  import opened RecoverySteps
  import opened Recoverability

  // --- Where the processor will end ----------------------------------------------------------

  /** What a tick of the processor sees of the service. */
  function PlantOf(x: State): Plant { Plant(x.disk, x.sys.q) }

  /** The disk and the queue once the strategy has ended with `r` and the file was dealt with. */
  function Settled(p: Service, q: QueueState, r: Step, f: Effort): Plant
  {
    var d := if r.ok then AfterSuccess(p.setup, r.world, q, r.item, f)
             else AfterFailure(p.setup, p.settings, r.world, q, r.item, f);
    Plant(d.world, d.q)
  }

  /** The rest of the strategy when the file is encrypted. */
  function KeySaved(w: World, it: ItemRec, ciphertext: string, f: Effort): Step
  {
    var k := Written(w, it.keyPath, ciphertext, f.saveKey);
    Step(k.world, it, k.ok)
  }

  /** The rest of the strategy after the checksum. */
  function Encrypted(p: Service, w: World, it: ItemRec, f: Effort): Step
  {
    var e := CryptStep(p.setup.vault, p.setup.cipher, w, it, f);
    if e.ciphertext.None? then Step(e.world, it, false) else KeySaved(e.world, it, e.ciphertext.value, f)
  }

  function Summed(p: Service, w: World, it: ItemRec, path: string, f: Effort): Step
  {
    EncryptProcess(p.setup.vault, p.setup.cipher, p.setup.calculateChecksum, w, it, path, f)
  }

  /** In order, and with an item for an encryption in hand when there should be one. */
  predicate Steady(p: Service, x: State, f: Effort)
  {
    && Holding(x) == x.sys.hand.Some?
    && (x.phase.Summing? || x.phase.Encrypting? ==> Lawful(p, x, f))
    && (Holding(x) ==> x.sys.hand.value.operation.Encrypt? && x.sys.clock <= f.finish)
  }

  /** Where the processor ends if it goes on without interruption. */
  function Outlook(p: Service, x: State, f: Effort): Plant
    requires Steady(p, x, f)
  {
    var q := x.sys.q;
    match x.phase
    case Idle => PlantOf(x)
    case Summing => Settled(p, q, Summed(p, x.disk, x.sys.hand.value, SumPath(x.sys.hand.value), f), f)
    case Encrypting => Settled(p, q, Encrypted(p, x.disk, x.sys.hand.value, f), f)
    case SavingKey(ciphertext) => Settled(p, q, KeySaved(x.disk, x.sys.hand.value, ciphertext, f), f)
    case Settling(ok) => Settled(p, q, Step(x.disk, x.sys.hand.value, ok), f)
    case IntoDlq(path) => Plant(ToFailed(Handlings(p), ToDlq(Handlings(p), x.disk, path, f.dlq), path, f.failed), q)
    case IntoFailed(path) => Plant(ToFailed(Handlings(p), x.disk, path, f.failed), q)
    case Disposing(path) => Plant(Dispose(Handlings(p), x.disk, path, f.dispose), q)
  }

  /** An upper bound on the steps to come. */
  function Rank(x: State): nat
  {
    match x.phase
    case Idle => 0
    case IntoFailed(_) => 1
    case Disposing(_) => 1
    case IntoDlq(_) => 2
    case Settling(_) => 3
    case SavingKey(_) => 4
    case Encrypting => 5
    case Summing => 6
  }

  predicate GoesOn(p: Service, x: State, y: State, f: Effort)
  {
    Steady(p, x, f) && Steady(p, y, f) && Rank(y) < Rank(x) && Outlook(p, y, f) == Outlook(p, x, f)
  }

  lemma SumHand(p: Service, x: State, path: string, f: Effort)
    requires x.sys.hand.Some?
    ensures var r := SumStep(p.setup.cipher, p.setup.calculateChecksum, x.disk, x.sys.hand.value, path, f);
            var y := WorkSum(p, x, path, f);
              && y == x.(sys := x.sys.(hand := Some(r.item)), disk := r.world, phase := y.phase)
              && r.item.operation == x.sys.hand.value.operation && r.item.source == x.sys.hand.value.source
              && y.phase == (if r.ok then Encrypting else Settling(false))
              && Summed(p, x.disk, x.sys.hand.value, path, f)
                 == if r.ok then Encrypted(p, r.world, r.item, f) else r
  {
    SumChanges(p.setup.cipher, p.setup.calculateChecksum, x.disk, x.sys.hand.value, path, f);
  }

  lemma SumKeepsSource(c: Cipher, on: bool, w: World, it: ItemRec, path: string, f: Effort)
    ensures it.source in w.files ==> it.source in SumStep(c, on, w, it, path, f).world.files
  {
    if on && !f.sum && it.source in w.files { WrittenFiles(w, path, c.hash(w.files[it.source]), f.saveSum); }
  }

  lemma SumFollows(p: Service, x: State, y: State, path: string, f: Effort)
    requires Steady(p, x, f) && x.phase.Summing? && y == WorkSum(p, x, path, f)
    ensures Steady(p, y, f) && Rank(y) < Rank(x)
    ensures Outlook(p, y, f) == Settled(p, x.sys.q, Summed(p, x.disk, x.sys.hand.value, path, f), f)
  {
    SumHand(p, x, path, f);
    SumKeepsSource(p.setup.cipher, p.setup.calculateChecksum, x.disk, x.sys.hand.value, path, f);
  }

  lemma SumGoesOn(p: Service, x: State, f: Effort)
    requires Steady(p, x, f) && x.phase.Summing?
    ensures GoesOn(p, x, WorkSum(p, x, SumPath(x.sys.hand.value), f), f)
  {
    SumFollows(p, x, WorkSum(p, x, SumPath(x.sys.hand.value), f), SumPath(x.sys.hand.value), f);
  }

  lemma EncryptGoesOn(p: Service, x: State, f: Effort)
    requires Steady(p, x, f) && x.phase.Encrypting?
    ensures GoesOn(p, x, WorkEncrypt(p, x, f), f)
  {
  }

  lemma KeyGoesOn(p: Service, x: State, ciphertext: string, f: Effort)
    requires Steady(p, x, f) && x.phase == SavingKey(ciphertext)
    ensures GoesOn(p, x, WorkKey(x, ciphertext, f), f)
  {
  }

  lemma SettleGoesOn(p: Service, x: State, ok: bool, f: Effort)
    requires Steady(p, x, f) && x.phase == Settling(ok)
    ensures GoesOn(p, x, WorkSettle(p, x, ok, f), f)
  {
  }

  lemma AsideGoesOn(p: Service, x: State, f: Effort)
    requires Steady(p, x, f) && (x.phase.IntoDlq? || x.phase.IntoFailed? || x.phase.Disposing?)
    ensures GoesOn(p, x, Worked(p, x, f), f)
  {
  }

  /** A step of the processor that is not idle brings it nearer to the end foreseen. */
  lemma WorkGoesOn(p: Service, x: State, f: Effort)
    requires Steady(p, x, f) && !x.phase.Idle?
    ensures GoesOn(p, x, Worked(p, x, f), f)
  {
    match x.phase
    case Summing => SumGoesOn(p, x, f);
    case Encrypting => EncryptGoesOn(p, x, f);
    case SavingKey(ciphertext) => KeyGoesOn(p, x, ciphertext, f);
    case Settling(ok) => SettleGoesOn(p, x, ok, f);
    case _ => AsideGoesOn(p, x, f);
  }

  // --- As a history --------------------------------------------------------------------------

  function Repeat(h: Happening, n: nat): seq<Happening>
  {
    if n == 0 then [] else Repeat(h, n - 1) + [h]
  }

  /** The happenings of one tick: a poll and as many steps as an item can need. */
  function TickOf(now: int, f: Effort): seq<Happening>
  {
    [Take(now, f.start)] + Repeat(Work(f), 6)
  }

  /** `n` steps on, or at the end. */
  predicate Nearer(p: Service, x: State, y: State, f: Effort, n: nat)
  {
    Steady(p, x, f) && Steady(p, y, f) && Rank(y) <= Max(0, Rank(x) - n) && Outlook(p, y, f) == Outlook(p, x, f)
  }

  lemma NextIsNearer(p: Service, x: State, y: State, f: Effort, n: nat)
    requires Nearer(p, x, y, f, n)
    ensures Nearer(p, x, Next(p, y, Work(f)), f, n + 1)
  {
    if !y.phase.Idle? { WorkGoesOn(p, y, f); }
  }

  lemma {:induction false} WorksAreNearer(p: Service, x: State, hs: seq<Happening>, f: Effort, n: nat)
    requires Steady(p, History(p, x, hs), f)
    ensures Nearer(p, History(p, x, hs), History(p, x, hs + Repeat(Work(f), n)), f, n)
  {
    if n == 0 {
      assert hs + Repeat(Work(f), 0) == hs;
    } else {
      WorksAreNearer(p, x, hs, f, n - 1);
      var before := hs + Repeat(Work(f), n - 1);
      NextIsNearer(p, History(p, x, hs), History(p, x, before), f, n - 1);
      HistorySnoc(p, x, before, Work(f));
      assert hs + Repeat(Work(f), n) == before + [Work(f)];
    }
  }

  lemma HandForesees(p: Service, x: State, path: string, it: ItemRec, f: Effort)
    requires Steady(p, x, f) && x.phase.Summing? && it.operation.Encrypt?
    requires x.sys.hand == Some(AsProcessing(it, f.start))
    requires path == SumPath(AsProcessing(it, f.start))
    ensures var r := ProcessSpec(p.setup, p.settings, x.disk, x.sys.q, it, f);
              Plant(r.world, r.q) == Settled(p, x.sys.q, Summed(p, x.disk, x.sys.hand.value, path, f), f)
  {
  }

  /** What goes wrong in the tick is what can: unless the cipher leaks, it writes nothing without the file. */
  predicate LawfulTick(p: Service, x: Plant, now: int, f: Effort)
  {
    var d := DequeueSpec(x.q, now);
    p.leaks || Quiet(f.crypt) || (d.item.Some? ==> d.item.value.source in x.world.files)
  }

  /** After the poll the outlook is the tick. */
  lemma PollForesees(p: Service, x: State, y: State, now: int, f: Effort)
    requires x.phase.Idle? && x.sys.hand.None? && x.sys.clock <= now <= f.start <= f.finish
    requires IndexAgrees(x.sys.q) && AllBelong(p, x) && y == Taken(p, x, now, f.start)
    requires LawfulTick(p, PlantOf(x), now, f)
    ensures Steady(p, y, f) && Outlook(p, y, f) == TickSpec(p.setup, p.settings, PlantOf(x), now, f)
  {
    PollFacts(x.sys.q, now);
    var d := DequeueSpec(x.sys.q, now);
    if d.item.Some? {
      HandForesees(p, y, SumPath(y.sys.hand.value), d.item.value, f);
    }
  }

  lemma NextIsTaken(p: Service, x: State, now: int, start: int)
    requires x.phase.Idle? && x.sys.clock <= now <= start && x.sys.hand.None?
    ensures Next(p, x, Take(now, start)) == Taken(p, x, now, start)
  {
  }

  lemma HandIsEmpty(p: Service, x: State)
    requires Orderly(p, x) && x.phase.Idle?
    ensures x.sys.hand.None? && AllBelong(p, x)
  {
  }

  lemma PollOfHistory(p: Service, x0: State, hs: seq<Happening>, now: int, f: Effort, x: State)
    requires x == History(p, x0, hs) && Orderly(p, x) && IndexAgrees(x.sys.q)
    requires x.phase.Idle? && x.sys.clock <= now <= f.start <= f.finish && LawfulTick(p, PlantOf(x), now, f)
    ensures var y := History(p, x0, hs + [Take(now, f.start)]);
              Steady(p, y, f) && Outlook(p, y, f) == TickSpec(p.setup, p.settings, PlantOf(x), now, f)
  {
    HandIsEmpty(p, x);
    NextIsTaken(p, x, now, f.start);
    HistorySnoc(p, x0, hs, Take(now, f.start));
    PollForesees(p, x, Taken(p, x, now, f.start), now, f);
  }

  /** Six steps on from a state with outlook `r`, the service is at `r`. */
  lemma StepsReach(p: Service, x0: State, hs: seq<Happening>, x: State, f: Effort, r: Plant)
    requires x == History(p, x0, hs) && Steady(p, x, f) && Outlook(p, x, f) == r
    ensures var y := History(p, x0, hs + Repeat(Work(f), 6));
              y.phase.Idle? && PlantOf(y) == r
  {
    WorksAreNearer(p, x0, hs, f, 6);
  }

  lemma TickSplits(hs: seq<Happening>, now: int, f: Effort)
    ensures hs + TickOf(now, f) == hs + [Take(now, f.start)] + Repeat(Work(f), 6)
  {
  }

  lemma TickFrom(p: Service, x0: State, hs: seq<Happening>, x: State, polled: seq<Happening>, now: int, f: Effort)
    requires x == History(p, x0, hs) && polled == hs + [Take(now, f.start)]
    requires Orderly(p, x) && IndexAgrees(x.sys.q) && LawfulTick(p, PlantOf(x), now, f)
    requires x.phase.Idle? && x.sys.clock <= now <= f.start <= f.finish
    ensures var y := History(p, x0, polled + Repeat(Work(f), 6));
              y.phase.Idle? && PlantOf(y) == TickSpec(p.setup, p.settings, PlantOf(x), now, f)
  {
    PollOfHistory(p, x0, hs, now, f, x);
    var y := History(p, x0, polled);
    StepsReach(p, x0, polled, y, f, Outlook(p, y, f));
  }

  /**
   In any reachable state in which the processor is idle, going on with a poll and the steps of the
   processor arrives where the processor's tick does, disk and queue.
   */
  lemma TickIsHistory(p: Service, files: Files, clock: int, hs: seq<Happening>, now: int, f: Effort)
    requires Sound(p)
    requires var x := History(p, Boot(files, clock), hs);
               x.phase.Idle? && x.sys.clock <= now <= f.start <= f.finish && LawfulTick(p, PlantOf(x), now, f)
    ensures var x := History(p, Boot(files, clock), hs);
            var y := History(p, Boot(files, clock), hs + TickOf(now, f));
              y.phase.Idle? && PlantOf(y) == TickSpec(p.setup, p.settings, PlantOf(x), now, f)
  {
    HistoryOrderly(p, files, clock, hs);
    TickSplits(hs, now, f);
    TickFrom(p, Boot(files, clock), hs, History(p, Boot(files, clock), hs), hs + [Take(now, f.start)], now, f);
  }
}
