/** Scheduling writes of account files so that none is lost. */
module DiskSyncs {
  import opened TxTypes

  type Account = nat

  /** The two files of an account. */
  datatype File = WalletFile(a: Account) | TxStoreFile(a: Account)

  /** The flush timer: none, running, or expired. */
  datatype Timer = NoTimer | Running | Expired

  type Versions = map<File, nat>

  function VersionOf(vs: Versions, f: File): nat {
    if f in vs then vs[f] else 0
  }

  /** Every file that is not scheduled is on disk at least as new as when it was
      last scheduled. */
  ghost predicate NoneLost(disk: Versions, asked: Versions, schedule: set<File>) {
    forall f :: f in asked && f !in schedule ==> f in disk && asked[f] <= disk[f]
  }

  function Files(wallets: set<Account>, txs: set<Account>): (s: set<File>)
    ensures forall f :: f in s <==> match f case WalletFile(a) => a in wallets case TxStoreFile(a) => a in txs
  {
    (set a | a in wallets :: WalletFile(a)) + (set a | a in txs :: TxStoreFile(a))
  }

  class DiskSyncer {
    var wallets: set<Account>
    var txs: set<Account>
    var timer: Timer
    var sem: bool              // waiting for the account manager's semaphore

    ghost var memory: Versions // how often each file's contents have changed
    ghost var disk: Versions   // the version of each file on disk
    ghost var asked: Versions  // the version when the file was last scheduled
    ghost var failures: nat    // writes that failed

    ghost function Schedule(): set<File>
      reads `wallets, `txs
    {
      Files(wallets, txs)
    }

    /** No write is lost, nothing asked for is newer than what is in memory, and
        after the timer expired the semaphore is awaited. */
    ghost predicate Valid()
      reads this
    {
      && NoneLost(disk, asked, Schedule())
      && (forall f :: f in asked ==> asked[f] <= VersionOf(memory, f))
      && (timer == Expired ==> sem)
    }

    /** A flush of what is scheduled is on its way: the timer runs or the
        semaphore is awaited. */
    ghost predicate Waiting()
      reads this
    {
      Schedule() != {} ==> timer == Running || sem
    }

    constructor ()
      ensures Valid() && Waiting() && Schedule() == {} && disk == map[] && asked == map[] && memory == map[]
      ensures failures == 0
    {
      wallets, txs, timer, sem := {}, {}, NoTimer, false;
      memory, disk, asked, failures := map[], map[], map[], 0;
    }

    /** The contents of a file change in memory. */
    ghost method Touch(f: File)
      requires Valid()
      modifies `memory
      ensures Valid() && memory == old(memory)[f := VersionOf(old(memory), f) + 1]
    {
      memory := memory[f := VersionOf(memory, f) + 1];
    }

    /** Writes a file; it may fail. */
    method WriteFile(f: File) returns (ok: bool)
      modifies `disk, `failures
      ensures disk == if ok then old(disk)[f := VersionOf(memory, f)] else old(disk)
      ensures failures == old(failures) + if ok then 0 else 1
    {
      ok := *;
      if ok { disk := disk[f := VersionOf(memory, f)]; } else { failures := failures + 1; }
    }

    // -------------------------------------------------------------- scheduling

    method ScheduleWallet(a: Account)
      requires Valid()
      modifies `wallets, `timer, `asked
      ensures Valid() && Schedule() == old(Schedule()) + {WalletFile(a)}
      ensures asked == old(asked)[WalletFile(a) := VersionOf(memory, WalletFile(a))]
      ensures Waiting() && timer == if old(timer) == NoTimer then Running else old(timer)
    {
      wallets := wallets + {a};
      asked := asked[WalletFile(a) := VersionOf(memory, WalletFile(a))];
      if timer == NoTimer { timer := Running; }
    }

    method ScheduleTxStore(a: Account)
      requires Valid()
      modifies `txs, `timer, `asked
      ensures Valid() && Schedule() == old(Schedule()) + {TxStoreFile(a)}
      ensures asked == old(asked)[TxStoreFile(a) := VersionOf(memory, TxStoreFile(a))]
      ensures Waiting() && timer == if old(timer) == NoTimer then Running else old(timer)
    {
      txs := txs + {a};
      asked := asked[TxStoreFile(a) := VersionOf(memory, TxStoreFile(a))];
      if timer == NoTimer { timer := Running; }
    }

    // ----------------------------------------------------------------- flushing

    method FlushTxStores() returns (ok: bool)
      requires Valid()
      modifies `txs, `disk, `failures
      ensures Valid() && txs <= old(txs) && (ok <==> txs == {}) && (ok <==> failures == old(failures))
      ensures old(failures) <= failures
      ensures forall f :: f in old(Schedule()) && f !in Schedule() ==> f in disk && disk[f] == VersionOf(memory, f)
    {
      while txs != {}
        invariant Valid() && txs <= old(txs) && failures == old(failures)
        invariant forall f :: f in old(Schedule()) && f !in Schedule() ==> f in disk && disk[f] == VersionOf(memory, f)
        decreases txs
      {
        var a :| a in txs;
        ok := WriteFile(TxStoreFile(a));
        if !ok { return; }
        txs := txs - {a};
      }
      ok := true;
    }

    method FlushWallets() returns (ok: bool)
      requires Valid()
      modifies `wallets, `disk, `failures
      ensures Valid() && wallets <= old(wallets) && (ok <==> wallets == {}) && (ok <==> failures == old(failures))
      ensures old(failures) <= failures
      ensures forall f :: f in old(Schedule()) && f !in Schedule() ==> f in disk && disk[f] == VersionOf(memory, f)
      ensures forall f :: f in old(disk) && f !in old(Schedule()) ==> f in disk && disk[f] == old(disk)[f]
    {
      while wallets != {}
        invariant Valid() && wallets <= old(wallets) && failures == old(failures)
        invariant forall f :: f in old(Schedule()) && f !in Schedule() ==> f in disk && disk[f] == VersionOf(memory, f)
        invariant forall f :: f in old(disk) && f !in old(Schedule()) ==> f in disk && disk[f] == old(disk)[f]
        decreases wallets
      {
        var a :| a in wallets;
        ok := WriteFile(WalletFile(a));
        if !ok { return; }
        wallets := wallets - {a};
      }
      ok := true;
    }

    /** Writes every scheduled file, stopping at the first failure. */
    method Flush() returns (ok: bool)
      requires Valid()
      modifies `wallets, `txs, `disk, `failures
      ensures Valid() && Schedule() <= old(Schedule())
      ensures (ok <==> Schedule() == {}) && (ok <==> failures == old(failures)) && old(failures) <= failures
      ensures forall f :: f in old(Schedule()) && f !in Schedule() ==> f in disk && disk[f] == VersionOf(memory, f)
    {
      hide NoneLost;
      NoFiles();
      ok := FlushTxStores();
      if !ok {
        var a :| a in txs;
        assert TxStoreFile(a) in Schedule();
        return;
      }
      ok := FlushWallets();
      if !ok {
        var a :| a in wallets;
        assert WalletFile(a) in Schedule();
      }
    }

    /** Writes f, which is scheduled, and takes it off the schedule. */
    method FlushFile(f: File) returns (ok: bool)
      requires Valid() && f in Schedule()
      modifies `wallets, `txs, `disk, `failures
      ensures Valid() && Schedule() == if ok then old(Schedule()) - {f} else old(Schedule())
      ensures if ok then failures == old(failures) && f in disk && disk[f] == VersionOf(memory, f)
        else failures == old(failures) + 1
      ensures forall g :: g in old(disk) && g != f ==> g in disk && disk[g] == old(disk)[g]
    {
      ok := WriteFile(f);
      if !ok { return; }
      match f {
        case TxStoreFile(a) => txs := txs - {a};
        case WalletFile(a) => wallets := wallets - {a};
      }
    }

    /** Writes the scheduled files of one account. */
    method FlushAccount(a: Account) returns (ok: bool)
      requires Valid()
      modifies `wallets, `txs, `disk, `failures
      ensures Valid() && Schedule() <= old(Schedule())
      ensures (ok <==> failures == old(failures)) && old(failures) <= failures
      ensures ok ==> Schedule() == old(Schedule()) - {WalletFile(a), TxStoreFile(a)}
      ensures forall f :: f in old(Schedule()) && f !in Schedule() ==> f in disk && disk[f] == VersionOf(memory, f)
      ensures old(Waiting()) ==> Waiting()
    {
      hide NoneLost;
      ok := true;
      if a in txs { ok := FlushFile(TxStoreFile(a)); }
      if ok && a in wallets { ok := FlushFile(WalletFile(a)); }
    }

    // ------------------------------------------------------------------- events

    /** The timer expires: wait for the semaphore. */
    method TimerExpired()
      requires Valid() && timer == Running
      modifies `timer, `sem
      ensures Valid() && Waiting() && sem
    {
      timer, sem := Expired, true;
    }

    /** The semaphore was taken: everything scheduled is written.  A flush stays
        on its way exactly if none of the writes failed. */
    method SemaphoreTaken()
      requires Valid() && sem
      modifies `wallets, `txs, `disk, `timer, `sem, `failures
      ensures Valid() && timer == NoTimer && !sem
      ensures (Waiting() <==> Schedule() == {}) && (Schedule() == {} <==> failures == old(failures))
      ensures old(failures) <= failures
      ensures forall f :: f in old(Schedule()) && f !in Schedule() ==> f in disk && disk[f] == VersionOf(memory, f)
    {
      var ok := Flush();
      timer, sem := NoTimer, false;
    }

    /** Replaces the directory by fresh files of the given accounts; files of
        other accounts are gone.  No write is lost exactly if every account
        that was ever scheduled is given. */
    method WriteBatch(accounts: set<Account>) returns (ok: bool)
      requires Valid()
      modifies `wallets, `txs, `disk, `timer, `failures
      ensures failures == old(failures) + if ok then 0 else 1
      ensures !ok ==> Valid() && disk == old(disk) && Schedule() == old(Schedule()) && timer == old(timer)
      ensures ok ==> Schedule() == {} && timer == NoTimer && (old(Waiting()) ==> Waiting())
      ensures ok ==>
                forall f: File :: (f in disk <==> f.a in accounts) && (f in disk ==> disk[f] == VersionOf(memory, f))
      ensures ok ==> (Valid() <==> forall f :: f in asked ==> f.a in accounts)
    {
      hide Files;
      ghost var fresh_: Versions := map[];
      var rest := accounts;
      while rest != {}
        invariant rest <= accounts && disk == old(disk) && wallets == old(wallets) && txs == old(txs)
        invariant timer == old(timer) && failures == old(failures)
        invariant forall f: File :: f in fresh_ <==> f.a in accounts && f.a !in rest
        invariant forall f :: f in fresh_ ==> fresh_[f] == VersionOf(memory, f)
        decreases rest
      {
        var a :| a in rest;
        ok := *;
        if !ok { failures := failures + 1; return; }
        fresh_ := fresh_[TxStoreFile(a) := VersionOf(memory, TxStoreFile(a))];
        fresh_ := fresh_[WalletFile(a) := VersionOf(memory, WalletFile(a))];
        rest := rest - {a};
      }
      ok := *;
      if !ok { failures := failures + 1; return; }
      disk := fresh_;
      wallets, txs, timer := {}, {}, NoTimer;
      NoFiles();
    }

    /** On quitting everything scheduled is written; if no write fails, every
        file is on disk as new as last asked. */
    method Quit() returns (ok: bool)
      requires Valid()
      modifies `wallets, `txs, `disk, `failures
      ensures Valid() && (ok <==> Schedule() == {}) && (ok <==> failures == old(failures)) && old(failures) <= failures
      ensures old(Waiting()) ==> Waiting()
      ensures ok ==> forall f :: f in asked ==> f in disk && asked[f] <= disk[f]
    {
      ok := Flush();
    }
  }

  lemma NoFiles()
    ensures Files({}, {}) == {}
  {
  }

  // --------------------------------------------------------------- whole runs

  datatype Event =
    | WalletChanged(a: Account) | TxStoreChanged(a: Account)
    | AskWallet(a: Account) | AskTxStore(a: Account)
    | Expires | Taken | FlushOne(a: Account) | Batch(accounts: set<Account>)

  /** The file an event changes in memory, or schedules. */
  function Changes(e: Event): set<File> {
    match e
    case WalletChanged(a) => {WalletFile(a)}
    case TxStoreChanged(a) => {TxStoreFile(a)}
    case _ => {}
  }

  function Asks(e: Event): set<File> {
    match e
    case AskWallet(a) => {WalletFile(a)}
    case AskTxStore(a) => {TxStoreFile(a)}
    case _ => {}
  }

  /** How often f changed in the events. */
  function Current(events: seq<Event>, f: File): nat {
    if events == [] then 0 else
    Current(events[..|events|-1], f) + if f in Changes(events[|events|-1]) then 1 else 0
  }

  /** How often f had changed when it was last scheduled, if ever. */
  function LastAsked(events: seq<Event>, f: File): Option<nat> {
    if events == [] then None else
    var n := |events| - 1;
    if f in Asks(events[n]) then Some(Current(events[..n], f)) else LastAsked(events[..n], f)
  }

  /** What memory and the schedule have seen is what the events say. */
  ghost predicate Reflects(d: DiskSyncer, events: seq<Event>)
    reads d`memory, d`asked
  {
    && (forall f :: VersionOf(d.memory, f) == Current(events, f))
    && (forall f :: f in d.asked <==> LastAsked(events, f).Some?)
    && (forall f :: f in d.asked ==> LastAsked(events, f) == Some(d.asked[f]))
  }

  /** A batch holds every account that was ever scheduled. */
  ghost predicate Complete(e: Event, before: seq<Event>) {
    e.Batch? ==> forall f :: LastAsked(before, f).Some? ==> f.a in e.accounts
  }

  /** One event.  The schedule is left without a flush on its way only by a
      flush that fails, and only until something is scheduled again. */
  method Handle(d: DiskSyncer, e: Event, ghost before: seq<Event>) returns (failed: bool)
    requires d.Valid() && Reflects(d, before) && Complete(e, before)
    modifies d
    ensures d.Valid() && Reflects(d, before + [e])
    ensures (old(d.Waiting()) && !failed) || Asks(e) != {} ==> d.Waiting()
    ensures failed <==> e.Taken? && old(d.sem) && d.Schedule() != {}
    ensures old(d.failures) <= d.failures && (failed ==> old(d.failures) < d.failures)
    ensures e.Taken? ==> !d.sem && (old(d.sem) ==> d.timer == NoTimer)
    ensures e.Expires? && old(d.timer) == Running ==> d.sem
    ensures Asks(e) != {} ==> d.Schedule() == old(d.Schedule()) + Asks(e)
    ensures e.WalletChanged? || e.TxStoreChanged? || e.Expires? ==>
      d.Schedule() == old(d.Schedule()) && d.disk == old(d.disk)
    ensures e.FlushOne? && d.failures == old(d.failures) ==>
      d.Schedule() == old(d.Schedule()) - {WalletFile(e.a), TxStoreFile(e.a)}
    ensures e.Batch? && d.failures == old(d.failures) ==>
      d.Schedule() == {} && forall f: File :: f.a in e.accounts ==> f in d.disk && d.disk[f] == VersionOf(d.memory, f)
    ensures e.FlushOne? || (e.Taken? && old(d.sem)) ==> forall f :: f in old(d.Schedule()) && f !in d.Schedule() ==>
      f in d.disk && d.disk[f] == VersionOf(d.memory, f)
  {
    NoFiles();
    EventNext(before, e);
    hide NoneLost, Files, Current, LastAsked;
    failed := false;
    match e {
      case WalletChanged(a) => d.Touch(WalletFile(a));
      case TxStoreChanged(a) => d.Touch(TxStoreFile(a));
      case AskWallet(a) => d.ScheduleWallet(a);
      case AskTxStore(a) => d.ScheduleTxStore(a);
      case Expires => if d.timer == Running { d.TimerExpired(); }
      case Taken =>
        if d.sem {
          d.SemaphoreTaken();
          failed := d.wallets != {} || d.txs != {};
          ScheduleEmpty(d.wallets, d.txs);
        }
      case FlushOne(a) => var done := d.FlushAccount(a);
      case Batch(accounts) => var done := d.WriteBatch(accounts);
    }
  }

  lemma ScheduleEmpty(wallets: set<Account>, txs: set<Account>)
    ensures Files(wallets, txs) == {} <==> wallets == {} && txs == {}
  {
    if a :| a in wallets { assert WalletFile(a) in Files(wallets, txs); }
    if a :| a in txs { assert TxStoreFile(a) in Files(wallets, txs); }
  }

  lemma EventNext(before: seq<Event>, e: Event)
    ensures forall f :: Current(before + [e], f) == Current(before, f) + if f in Changes(e) then 1 else 0
    ensures forall f ::
              LastAsked(before + [e], f) == if f in Asks(e) then Some(Current(before, f)) else LastAsked(before, f)
  {
    assert (before + [e])[..|before|] == before;
  }

  /** A flush failed at some event, and nothing was scheduled since. */
  ghost predicate Stuck(events: seq<Event>, failed: seq<bool>)
    requires |failed| == |events|
  {
    exists i :: 0 <= i < |events| && events[i].Taken? && failed[i] && forall j :: i < j < |events| ==>
          Asks(events[j]) == {}
  }

  /** In any run of events whose batches hold every account scheduled before, no
      write is lost; a non-empty schedule has a flush on its way unless the last
      flush failed and nothing was scheduled since; and quitting, if its flush
      succeeds, leaves every file that was ever scheduled on disk at least as
      new as when it was last scheduled.  failed tells the events whose flush
      failed; without a failing write there is none. */
  method Run(events: seq<Event>) returns (d: DiskSyncer, failed: seq<bool>, written: bool)
    requires forall i :: 0 <= i < |events| ==> Complete(events[i], events[..i])
    ensures d.Valid() && Reflects(d, events) && |failed| == |events| && (d.Waiting() || Stuck(events, failed))
    ensures d.failures == 0 ==> written && d.Waiting() && forall i :: 0 <= i < |failed| ==> !failed[i]
    ensures written <==> d.Schedule() == {}
    ensures written ==> forall f :: LastAsked(events, f).Some? ==>
              f in d.disk && LastAsked(events, f).value <= d.disk[f]
  {
    hide DiskSyncer.Valid, DiskSyncer.Waiting, Complete, Reflects, LastAsked, Current;
    d := new DiskSyncer();
    NothingYet(d);
    failed := [];
    var i := 0;
    while i < |events|
      invariant 0 <= i <= |events| && fresh(d) && d.Valid() && Reflects(d, events[..i]) && |failed| == i
      invariant d.Waiting() || Stuck(events[..i], failed)
      invariant d.failures == 0 ==> forall j :: 0 <= j < i ==> !failed[j]
    {
      assert events[..i+1] == events[..i] + [events[i]];
      ghost var waiting := d.Waiting();
      var f := Handle(d, events[i], events[..i]);
      if !waiting && Asks(events[i]) == {} { StuckStays(events[..i], failed, events[i], f); }
      if f { JustStuck(events[..i], failed, events[i]); }
      failed := failed + [f];
      i := i + 1;
    }
    assert events[..i] == events;
    written := d.Quit();
    AskedIs(d, events);
    NotStuck(events, failed);
  }

  lemma StuckStays(events: seq<Event>, failed: seq<bool>, e: Event, f: bool)
    requires |failed| == |events| && Stuck(events, failed) && Asks(e) == {}
    ensures Stuck(events + [e], failed + [f])
  {
    hide Asks;
    var i :| 0 <= i < |events| && events[i].Taken? && failed[i] && forall j :: i < j < |events| ==>
          Asks(events[j]) == {};
    assert (events + [e])[i].Taken? && (failed + [f])[i];
  }

  lemma JustStuck(events: seq<Event>, failed: seq<bool>, e: Event)
    requires |failed| == |events| && e.Taken?
    ensures Stuck(events + [e], failed + [true])
  {
    hide Asks;
    assert (events + [e])[|events|].Taken? && (failed + [true])[|events|];
  }

  lemma NotStuck(events: seq<Event>, failed: seq<bool>)
    requires |failed| == |events|
    ensures (forall i :: 0 <= i < |failed| ==> !failed[i]) ==> !Stuck(events, failed)
  {
  }

  lemma AskedIs(d: DiskSyncer, events: seq<Event>)
    requires Reflects(d, events)
    ensures forall f :: LastAsked(events, f).Some? ==> f in d.asked && d.asked[f] == LastAsked(events, f).value
  {
  }

  lemma NothingYet(d: DiskSyncer)
    requires d.asked == map[] && d.memory == map[]
    ensures Reflects(d, [])
  {
  }
}
