/** Batching rescan jobs: one rescan runs at a time, and jobs that arrive while
    it runs wait together for the next. */
module Rescans {
  import opened TxTypes

  type Account = nat
  type Address = nat

  /** What to rescan for and from where. */
  datatype RescanJob = RescanJob(addresses: map<Account, seq<Address>>, outpoints: seq<OutPoint>, startHeight: int)

  /** The work of a rescan: addresses, outpoints and starting height. */
  datatype Work = Work(addrs: map<Account, seq<Address>>, outpoints: set<OutPoint>, height: int)

  const NO_WORK := Work(map[], {}, -1)

  /** Doing w does all that job asks. */
  ghost predicate Covers(w: Work, job: RescanJob) {
    && (forall a :: a in job.addresses ==> a in w.addrs && forall x :: x in job.addresses[a] ==> x in w.addrs[a])
    && (forall op :: op in job.outpoints ==> op in w.outpoints)
    && w.height <= job.startHeight
  }

  /** v does all that w does. */
  ghost predicate Includes(v: Work, w: Work) {
    && (forall a :: a in w.addrs ==> a in v.addrs && forall x :: x in w.addrs[a] ==> x in v.addrs[a])
    && w.outpoints <= v.outpoints && v.height <= w.height
  }

  /** The job asks for exactly w. */
  ghost predicate Asks(job: RescanJob, w: Work) {
    job.addresses == w.addrs && job.startHeight == w.height && forall op :: op in w.outpoints <==> op in job.outpoints
  }

  /** What callers submit: some account, and a known height. */
  predicate Proper(j: RescanJob) {
    j.addresses != map[] && 0 <= j.startHeight
  }

  function MergedAddresses(m: map<Account, seq<Address>>,
      k: map<Account, seq<Address>>): (r: map<Account, seq<Address>>)
    ensures r.Keys == m.Keys + k.Keys
  {
    map a | a in m.Keys + k.Keys :: (if a in m then m[a] else []) + (if a in k then k[a] else [])
  }

  /** The work w once job has been merged in. */
  function WithJob(w: Work, job: RescanJob): Work {
    Work(MergedAddresses(w.addrs, job.addresses),
         w.outpoints + (set op | op in job.outpoints),
         if w.height == -1 || job.startHeight < w.height then job.startHeight else w.height)
  }

  /** Work of an empty batch, or of one with a known height. */
  predicate WorkOk(w: Work) {
    if w.addrs == map[] then w == NO_WORK else 0 <= w.height
  }

  /** A proper job merged in is covered, with all that was covered before; if
      there was no work, it is all the work. */
  lemma WithJobCovers(w: Work, job: RescanJob)
    requires WorkOk(w) && Proper(job)
    ensures var v := WithJob(w, job);
            && WorkOk(v) && v.addrs != map[] && Covers(v, job)
            && (w.addrs != map[] ==> Includes(v, w)) && (w.addrs == map[] ==> Asks(job, v))
  {
    var v := WithJob(w, job);
    assert v.addrs == map[] ==> job.addresses.Keys == {};
    assert job.addresses.Keys == {} ==> job.addresses == map[];
    if w.addrs == map[] {
      forall a | a in v.addrs
        ensures v.addrs[a] == job.addresses[a]
      {
        assert [] + job.addresses[a] == job.addresses[a];
      }
      assert v.addrs == job.addresses;
    }
  }

  /** The merged work holds what w and the job hold and nothing more: for each
      account the addresses of w and then the job's, every outpoint of either,
      and the smaller height of the two - the job's if w has none. */
  lemma WithJobIs(w: Work, job: RescanJob)
    ensures var v := WithJob(w, job);
            && (forall a :: a in v.addrs <==> a in w.addrs || a in job.addresses)
            && (forall a :: a in w.addrs && a in job.addresses ==> v.addrs[a] == w.addrs[a] + job.addresses[a])
            && (forall a :: a in w.addrs && a !in job.addresses ==> v.addrs[a] == w.addrs[a])
            && (forall a :: a !in w.addrs && a in job.addresses ==> v.addrs[a] == job.addresses[a])
            && (forall op :: op in v.outpoints <==> op in w.outpoints || op in job.outpoints)
            && (w.height == -1 ==> v.height == job.startHeight)
            && (w.height != -1 ==>
                  v.height <= w.height && v.height <= job.startHeight && v.height in {w.height, job.startHeight})
  {
  }

  /** A batch stays in order exactly when the job's height is known and the
      batch has some account in the end. */
  lemma WithJobOkIff(w: Work, job: RescanJob)
    requires WorkOk(w) && 0 <= job.startHeight
    ensures WorkOk(WithJob(w, job)) <==> job.addresses != map[] || w.addrs != map[]
    ensures w.addrs == map[] && job.addresses == map[] ==> WithJob(w, job).addrs == map[]
  {
    var v := WithJob(w, job);
    assert v.addrs == map[] <==> v.addrs.Keys == {};
    assert job.addresses == map[] <==> job.addresses.Keys == {};
    assert w.addrs == map[] <==> w.addrs.Keys == {};
  }

  /** Adds the addresses of k to m, account by account. */
  method MergeAddresses(m: map<Account, seq<Address>>,
      k: map<Account, seq<Address>>) returns (r: map<Account, seq<Address>>)
    ensures r == MergedAddresses(m, k)
  {
    r := m;
    var rest := k.Keys;
    while rest != {}
      invariant rest <= k.Keys && r.Keys == m.Keys + (k.Keys - rest)
      invariant forall a :: a in r ==>
                  r[a] == (if a in m then m[a] else []) + (if a in k && a !in rest then k[a] else [])
      decreases rest
    {
      var a :| a in rest;
      r := r[a := (if a in r then r[a] else []) + k[a]];
      rest := rest - {a};
    }
  }

  class RescanBatch {
    var addrs: map<Account, seq<Address>>
    var outpoints: set<OutPoint>
    var height: int
    const complete: nat    // the channel closed when the batch is done

    constructor (channel: nat)
      ensures addrs == map[] && outpoints == {} && height == -1 && complete == channel
    {
      addrs, outpoints, height, complete := map[], {}, -1, channel;
    }

    predicate Empty()
      reads `addrs
    {
      addrs == map[]
    }

    ghost function Content(): Work
      reads this
    {
      Work(addrs, outpoints, height)
    }

    /** An empty batch has nothing to do; any other has a known height. */
    ghost predicate Valid()
      reads this
    {
      WorkOk(Content())
    }

    /** The batch as one job. */
    method Job() returns (j: RescanJob)
      ensures Asks(j, Content())
    {
      var ops: seq<OutPoint> := [];
      var rest := outpoints;
      while rest != {}
        invariant rest <= outpoints && forall op :: op in outpoints <==> op in ops || op in rest
        decreases rest
      {
        var op :| op in rest;
        ops := ops + [op];
        rest := rest - {op};
      }
      return RescanJob(addrs, ops, height);
    }

    /** Adds a job. */
    method Merge(job: RescanJob)
      modifies this
      ensures Content() == WithJob(old(Content()), job)
    {
      ghost var was := Content();
      addrs := MergeAddresses(addrs, job.addresses);
      ghost var now := addrs;
      var i := 0;
      while i < |job.outpoints|
        invariant 0 <= i <= |job.outpoints| && addrs == now && height == was.height
        invariant forall op :: op in outpoints <==> op in was.outpoints || op in job.outpoints[..i]
      {
        assert job.outpoints[..i+1] == job.outpoints[..i] + [job.outpoints[i]];
        outpoints := outpoints + {job.outpoints[i]};
        i := i + 1;
      }
      assert job.outpoints[..i] == job.outpoints;
      if height == -1 || job.startHeight < height { height := job.startHeight; }
    }
  }

  /** A submitted job, the channel its caller waits on, and how many rescans had
      finished when it was submitted. */
  datatype Ticket = Ticket(job: RescanJob, channel: nat, finished: nat)

  /** The k-th finished rescan closed t's channel, covered its job, and was at
      most the second to finish after t was submitted. */
  ghost predicate Served(closed: seq<nat>, rescans: seq<Work>, t: Ticket, k: int) {
    0 <= k < |closed| <= |rescans| && closed[k] == t.channel && t.finished <= k <= t.finished + 1
    && Covers(rescans[k], t.job)
  }

  ghost predicate WasServed(closed: seq<nat>, rescans: seq<Work>, t: Ticket) {
    exists k :: Served(closed, rescans, t, k)
  }

  /** t was served in time, or waits on the batch that covers it. */
  ghost predicate TicketOk(closed: seq<nat>, rescans: seq<Work>, c: nat, cur: Work, n: nat, next: Work, t: Ticket) {
    || WasServed(closed, rescans, t)
    || (t.channel == c && t.finished <= |closed| <= t.finished + 1 && cur.addrs != map[] && Covers(cur, t.job))
    || (t.channel == n && t.finished == |closed| && next.addrs != map[] && Covers(next, t.job))
  }

  ghost predicate AllOk(closed: seq<nat>, rescans: seq<Work>, c: nat, cur: Work, n: nat, next: Work, ts: seq<Ticket>) {
    forall i :: 0 <= i < |ts| ==> TicketOk(closed, rescans, c, cur, n, next, ts[i])
  }

  // ------------------------------------------------- exactly the jobs' work

  /** The jobs whose callers wait on this channel, in order. */
  function JobsOn(ts: seq<Ticket>, channel: nat): seq<RescanJob> {
    if ts == [] then [] else
    JobsOn(ts[..|ts|-1], channel) + if ts[|ts|-1].channel == channel then [ts[|ts|-1].job] else []
  }

  lemma JobsNext(ts: seq<Ticket>, t: Ticket)
    ensures forall c: nat :: JobsOn(ts + [t], c) == JobsOn(ts, c) + if t.channel == c then [t.job] else []
  {
    assert (ts + [t])[..|ts|] == ts;
  }

  lemma {:induction false} NoJobsOn(ts: seq<Ticket>, c: nat)
    requires forall i :: 0 <= i < |ts| ==> ts[i].channel != c
    ensures JobsOn(ts, c) == []
  {
    if ts != [] { NoJobsOn(ts[..|ts|-1], c); }
  }

  /** The work of these jobs together. */
  function Merged(jobs: seq<RescanJob>): Work {
    if jobs == [] then NO_WORK else WithJob(Merged(jobs[..|jobs|-1]), jobs[|jobs|-1])
  }

  lemma MergedNext(jobs: seq<RescanJob>, job: RescanJob)
    ensures Merged(jobs + [job]) == WithJob(Merged(jobs), job) && jobs + [] == jobs
  {
    assert (jobs + [job])[..|jobs|] == jobs;
  }

  /** The addresses that the jobs ask for account a, job after job. */
  function AddressesFor(jobs: seq<RescanJob>, a: Account): seq<Address> {
    if jobs == [] then [] else
    var last := jobs[|jobs|-1].addresses;
    AddressesFor(jobs[..|jobs|-1], a) + if a in last then last[a] else []
  }

  ghost predicate AsksFor(jobs: seq<RescanJob>, a: Account) {
    exists i :: 0 <= i < |jobs| && a in jobs[i].addresses
  }

  ghost predicate AsksAbout(jobs: seq<RescanJob>, op: OutPoint) {
    exists i :: 0 <= i < |jobs| && op in jobs[i].outpoints
  }

  /** h is the lowest of the jobs' heights. */
  ghost predicate Lowest(jobs: seq<RescanJob>, h: int) {
    && (exists i :: 0 <= i < |jobs| && jobs[i].startHeight == h)
    && forall i :: 0 <= i < |jobs| ==> h <= jobs[i].startHeight
  }

  /** For account a m holds the addresses that the jobs ask for. */
  ghost predicate HoldsFor(jobs: seq<RescanJob>, m: map<Account, seq<Address>>, a: Account) {
    (a in m <==> AsksFor(jobs, a)) && AddressesFor(jobs, a) == if a in m then m[a] else []
  }

  ghost predicate HoldsAddresses(jobs: seq<RescanJob>, m: map<Account, seq<Address>>) {
    forall a :: HoldsFor(jobs, m, a)
  }

  lemma AccountNext(jobs: seq<RescanJob>, job: RescanJob, a: Account)
    ensures AsksFor(jobs + [job], a) <==> AsksFor(jobs, a) || a in job.addresses
    ensures AddressesFor(jobs + [job], a) ==
      (AddressesFor(jobs, a) + if a in job.addresses then job.addresses[a] else [])
  {
    var all := jobs + [job];
    assert all[|jobs|] == job && all[..|jobs|] == jobs;
    if a in job.addresses {
      assert a in all[|jobs|].addresses;
    } else if AsksFor(jobs, a) {
      var i :| 0 <= i < |jobs| && a in jobs[i].addresses;
      assert a in all[i].addresses;
    }
  }

  lemma AddressesNext(jobs: seq<RescanJob>, job: RescanJob, m: map<Account, seq<Address>>)
    requires HoldsAddresses(jobs, m)
    ensures HoldsAddresses(jobs + [job], MergedAddresses(m, job.addresses))
  {
    hide AsksFor, AddressesFor;
    forall a ensures HoldsFor(jobs + [job], MergedAddresses(m, job.addresses), a) {
      assert HoldsFor(jobs, m, a);
      AccountNext(jobs, job, a);
    }
  }

  lemma OutpointsNext(jobs: seq<RescanJob>, job: RescanJob, ops: set<OutPoint>)
    requires forall op :: op in ops <==> AsksAbout(jobs, op)
    ensures forall op :: op in ops + (set op | op in job.outpoints) <==> AsksAbout(jobs + [job], op)
  {
    var all, r := jobs + [job], ops + set op | op in job.outpoints;
    assert all[|jobs|] == job;
    forall op ensures op in r <==> AsksAbout(all, op) {
      if op in job.outpoints {
        assert op in all[|jobs|].outpoints;
      } else if AsksAbout(jobs, op) {
        var i :| 0 <= i < |jobs| && op in jobs[i].outpoints;
        assert op in all[i].outpoints;
      }
    }
  }

  lemma LowestNext(jobs: seq<RescanJob>, job: RescanJob, h: int)
    requires if jobs == [] then h == -1 else Lowest(jobs, h) && h != -1
    ensures Lowest(jobs + [job], if h == -1 || job.startHeight < h then job.startHeight else h)
  {
    var all := jobs + [job];
    assert all[|jobs|] == job;
    if jobs != [] && h <= job.startHeight {
      var i :| 0 <= i < |jobs| && jobs[i].startHeight == h;
      assert all[i].startHeight == h;
    }
  }

  /** Merged work holds exactly what some job asks for, and starts at the lowest
      of the jobs' heights. */
  lemma {:induction false} MergedIs(jobs: seq<RescanJob>)
    requires forall i :: 0 <= i < |jobs| ==> 0 <= jobs[i].startHeight
    ensures HoldsAddresses(jobs, Merged(jobs).addrs)
    ensures forall op :: op in Merged(jobs).outpoints <==> AsksAbout(jobs, op)
    ensures if jobs == [] then Merged(jobs).height == -1 else Lowest(jobs, Merged(jobs).height)
    ensures jobs != [] ==> 0 <= Merged(jobs).height
  {
    if jobs != [] {
      var n := |jobs| - 1;
      var front, job := jobs[..n], jobs[n];
      assert front + [job] == jobs;
      MergedIs(front);
      hide HoldsAddresses, AsksFor, AsksAbout, Lowest, AddressesFor;
      AddressesNext(front, job, Merged(front).addrs);
      OutpointsNext(front, job, Merged(front).outpoints);
      LowestNext(front, job, Merged(front).height);
    }
  }

  /** The batches and the finished rescans are exactly the work of the jobs on
      their channels. */
  ghost predicate Exactly(closed: seq<nat>, rescans: seq<Work>, c: nat, cur: Work, n: nat, next: Work, fresh_: nat,
      ts: seq<Ticket>)
  {
    && cur == Merged(JobsOn(ts, c)) && next == Merged(JobsOn(ts, n))
    && (forall i :: 0 <= i < |ts| ==> ts[i].channel < fresh_)
    && |closed| <= |rescans|
    && forall k :: 0 <= k < |closed| ==> rescans[k] == Merged(JobsOn(ts, closed[k]))
  }

  lemma ExactlyAdds(closed: seq<nat>, rescans: seq<Work>, rescans': seq<Work>, c: nat, cur: Work, n: nat, next: Work,
      fresh_: nat, ts: seq<Ticket>, t: Ticket)
    requires Exactly(closed, rescans, c, cur, n, next, fresh_, ts) && c != n && t.channel < fresh_
    requires c !in closed && n !in closed && (t.channel == c || t.channel == n) && rescans <= rescans'
    ensures Exactly(closed, rescans', c, if t.channel == c then WithJob(cur, t.job) else cur, n,
              if t.channel == n then WithJob(next, t.job) else next, fresh_, ts + [t])
  {
    hide WithJob, Merged;
    JobsNext(ts, t);
    MergedNext(JobsOn(ts, t.channel), t.job);
    forall k | 0 <= k < |closed| ensures rescans'[k] == Merged(JobsOn(ts + [t], closed[k])) {
      assert closed[k] in closed && rescans'[k] == rescans[k];
      MergedNext(JobsOn(ts, closed[k]), t.job);
    }
    MergedNext(JobsOn(ts, c), t.job);
    MergedNext(JobsOn(ts, n), t.job);
  }

  lemma ExactlyMoves(closed: seq<nat>, rescans: seq<Work>, rescans': seq<Work>, c: nat, cur: Work, n: nat, next: Work,
      fresh_: nat, ts: seq<Ticket>)
    requires Exactly(closed, rescans, c, cur, n, next, fresh_, ts)
    requires |rescans| == |closed| + 1 && rescans[|closed|] == cur && rescans <= rescans'
    ensures Exactly(closed + [c], rescans', n, next, fresh_, NO_WORK, fresh_ + 1, ts)
  {
    hide WithJob;
    NoJobsOn(ts, fresh_);
    forall k | 0 <= k < |closed| + 1 ensures rescans'[k] == Merged(JobsOn(ts, (closed + [c])[k])) {
      assert rescans'[k] == rescans[k];
    }
  }

  class RescanManager {
    var curBatch: RescanBatch
    var nextBatch: RescanBatch
    var channels: nat                  // channels made so far

    ghost var rescans: seq<Work>       // the rescans started
    ghost var closed: seq<nat>         // the channels closed, one per finished rescan
    ghost var tickets: seq<Ticket>

    /** The jobs submitted are served in time. */
    ghost predicate Serving()
      reads this, curBatch, nextBatch
    {
      AllOk(closed, rescans, curBatch.complete, curBatch.Content(), nextBatch.complete, nextBatch.Content(), tickets)
    }

    /** One rescan runs while the current batch is not empty, and none else; no
        channel is closed twice. */
    ghost predicate Valid()
      reads this, curBatch, nextBatch
    {
      && curBatch != nextBatch && curBatch.complete != nextBatch.complete
      && curBatch.complete < channels && nextBatch.complete < channels
      && curBatch.Valid() && nextBatch.Valid() && (curBatch.Empty() ==> nextBatch.Empty())
      && |rescans| == |closed| + (if curBatch.Empty() then 0 else 1)
      && (!curBatch.Empty() ==> rescans[|closed|] == curBatch.Content())
      && NoDup(closed) && (forall c :: c in closed ==>
            c < channels && c != curBatch.complete && c != nextBatch.complete)
      && Serving()
    }

    /** Every batch and every finished rescan does exactly the work of the jobs
        whose callers wait on its channel. */
    ghost predicate Exact()
      reads this, curBatch, nextBatch
    {
      Exactly(closed, rescans, curBatch.complete, curBatch.Content(), nextBatch.complete, nextBatch.Content(), channels,
        tickets)
    }

    constructor ()
      ensures Exact()
      ensures Valid() && tickets == [] && closed == [] && rescans == [] && fresh(curBatch) && fresh(nextBatch)
    {
      var a := new RescanBatch(0);
      var b := new RescanBatch(1);
      curBatch, nextBatch, channels := a, b, 2;
      rescans, closed, tickets := [], [], [];
    }

    /** Takes a job; the caller waits on the returned channel.  A rescan is
        started if none seems to be running.  For jobs without accounts that is
        a mistake: a started one does not show, and a waiting one is forgotten,
        so all stays in order just when other jobs wait already. */
    method AddJob(job: RescanJob) returns (channel: nat, started: Option<RescanJob>)
      requires Valid() && 0 <= job.startHeight
      modifies this, curBatch, nextBatch
      ensures curBatch == old(curBatch) && nextBatch == old(nextBatch)
      ensures Valid() <==> Proper(job) || old(!nextBatch.Empty())
      ensures closed == old(closed) && tickets == old(tickets) + [Ticket(job, channel, |closed|)]
      ensures started == if old(curBatch.Empty()) then Some(job) else None
      ensures rescans == if old(curBatch.Empty()) then old(rescans) + [curBatch.Content()] else old(rescans)
      ensures old(curBatch.Empty()) ==> (curBatch.Empty() <==> job.addresses == map[]) && nextBatch.Empty()
      ensures old(curBatch.Empty()) ==> (Proper(job) ==> Asks(job, curBatch.Content()))
      ensures !old(curBatch.Empty()) ==> !curBatch.Empty() && (Valid() ==> !nextBatch.Empty())
      ensures curBatch.Content() == if started.Some? then WithJob(old(curBatch.Content()), job)
              else old(curBatch.Content())
      ensures nextBatch.Content() == if started.Some? then old(nextBatch.Content())
              else WithJob(old(nextBatch.Content()), job)
      ensures channel == (if started.Some? then curBatch.complete else nextBatch.complete)
      ensures old(Exact()) ==> Exact()
    {
      hide WithJob, WorkOk, Covers, Asks, Includes, AllOk, TicketOk, Exactly, NoDup;
      ghost var cur, next := curBatch.Content(), nextBatch.Content();
      if Proper(job) { WithJobCovers(cur, job); }
      WithJobOkIff(cur, job);
      WithJobOkIff(next, job);
      if curBatch.Empty() {
        curBatch.Merge(job);
        started, channel := Some(job), curBatch.complete;
        rescans := rescans + [curBatch.Content()];
      } else {
        nextBatch.Merge(job);
        started, channel := None, nextBatch.complete;
      }
      ghost var t := Ticket(job, channel, |closed|);
      ghost var ok := Proper(job) || next.addrs != map[];
      if ok {
        Waits(closed, rescans, curBatch.complete, cur, nextBatch.complete, next, job, t);
        TicketsStay(closed, old(rescans), rescans, curBatch.complete, cur, curBatch.Content(), nextBatch.complete, next,
          nextBatch.Content(), tickets, t);
      } else {
        Unserved(closed, rescans, curBatch.complete, curBatch.Content(), nextBatch.complete, nextBatch.Content(),
          tickets, t);
      }
      if old(Exact()) {
        ExactlyAdds(closed, old(rescans), rescans, curBatch.complete, cur, nextBatch.complete, next, channels, tickets,
          t);
      }
      tickets := tickets + [t];
    }

    /** The running rescan finished: its channel is closed, and what waited is
        started next. */
    method Finished() returns (channel: nat, started: Option<RescanJob>)
      requires Valid() && !curBatch.Empty()
      modifies this
      ensures Valid() && curBatch == old(nextBatch) && fresh(nextBatch) && nextBatch.Empty() && tickets == old(tickets)
      ensures closed == old(closed) + [channel] && channel == old(curBatch.complete) && channel !in old(closed)
      ensures started.Some? <==> !curBatch.Empty()
      ensures rescans == old(rescans) + (if started.Some? then [curBatch.Content()] else [])
      ensures started.Some? ==> Asks(started.value, curBatch.Content())
      ensures old(Exact()) ==> Exact()
    {
      hide Exactly, Covers, Asks, Includes, AllOk, WithJob, NoDup;
      OneMore(closed, curBatch.complete);
      ghost var cur, next, c, n := curBatch.Content(), nextBatch.Content(), curBatch.complete, nextBatch.complete;
      channel := curBatch.complete;
      closed := closed + [channel];
      var fresh_ := new RescanBatch(channels);
      channels := channels + 1;
      curBatch, nextBatch := nextBatch, fresh_;
      started := None;
      if !curBatch.Empty() {
        var job := curBatch.Job();
        started := Some(job);
        rescans := rescans + [curBatch.Content()];
      }
      TicketsMove(old(closed), old(rescans), rescans, c, cur, n, next, nextBatch.complete, tickets);
      if old(Exact()) {
        ExactlyMoves(old(closed), old(rescans), rescans, c, cur, n, next, nextBatch.complete, tickets);
      }
    }
  }

  lemma OneMore(closed: seq<nat>, c: nat)
    requires NoDup(closed) && c !in closed
    ensures NoDup(closed + [c]) && forall x :: x in closed + [c] <==> x in closed || x == c
  {
  }

  /** A batch that has accounts covers whatever is merged into it. */
  lemma JobWaits(w: Work, job: RescanJob)
    requires WorkOk(w) && 0 <= job.startHeight && (w.addrs != map[] || job.addresses != map[])
    ensures var v := WithJob(w, job);
            v.addrs != map[] && WorkOk(v) && Covers(v, job) && (w.addrs != map[] ==> Includes(v, w))
  {
    WithJobOkIff(w, job);
    if w.addrs == map[] { WithJobCovers(w, job); }
    assert WithJob(w, job).addrs == map[] ==> w.addrs.Keys == {};
  }

  /** The ticket of a job merged into the batch that takes it. */
  lemma Waits(closed: seq<nat>, rescans: seq<Work>, c: nat, cur: Work, n: nat, next: Work, job: RescanJob, t: Ticket)
    requires WorkOk(cur) && WorkOk(next) && 0 <= job.startHeight
    requires (Proper(job) || (next.addrs != map[] && cur.addrs != map[]))
    requires t.job == job && t.finished == |closed| && t.channel == if cur.addrs == map[] then c else n
    ensures if cur.addrs == map[] then TicketOk(closed, rescans, c, WithJob(cur, job), n, next, t)
            else TicketOk(closed, rescans, c, cur, n, WithJob(next, job), t)
    ensures cur.addrs != map[] ==> WithJob(next, job).addrs != map[]
    ensures cur.addrs != map[] ==> (next.addrs != map[] ==> Includes(WithJob(next, job), next))
  {
    if cur.addrs == map[] { JobWaits(cur, job); } else { JobWaits(next, job); }
  }

  /** A ticket on a batch without accounts is never in order. */
  lemma Unserved(closed: seq<nat>, rescans: seq<Work>, c: nat, cur: Work, n: nat, next: Work, ts: seq<Ticket>,
      t: Ticket)
    requires (t.channel == c && c != n && cur.addrs == map[]) || (t.channel == n && c != n && next.addrs == map[])
    requires t.channel !in closed
    ensures !AllOk(closed, rescans, c, cur, n, next, ts + [t])
  {
    assert (ts + [t])[|ts|] == t && !TicketOk(closed, rescans, c, cur, n, next, t);
  }

  /** A job added to a batch leaves every ticket in order. */
  lemma TicketStays(closed: seq<nat>, rescans: seq<Work>, rescans': seq<Work>, c: nat, cur: Work, cur': Work, n: nat,
      next: Work, next': Work, t: Ticket)
    requires TicketOk(closed, rescans, c, cur, n, next, t) && |rescans| <= |rescans'|
    requires rescans'[..|rescans|] == rescans
    requires cur' == cur || cur.addrs == map[]
    requires next' == next || next.addrs == map[] || (Includes(next', next) && next'.addrs != map[])
    ensures TicketOk(closed, rescans', c, cur', n, next', t)
  {
    if k :| Served(closed, rescans, t, k) {
      assert rescans'[k] == rescans'[..|rescans|][k];
      assert Served(closed, rescans', t, k);
    }
  }

  /** A finished rescan serves the tickets of its batch, and those of the next
      batch move up. */
  lemma TicketMoves(closed: seq<nat>, rescans: seq<Work>, rescans': seq<Work>, c: nat, cur: Work, n: nat, next: Work,
      fresh_: nat, t: Ticket)
    requires TicketOk(closed, rescans, c, cur, n, next, t)
    requires |rescans| == |closed| + 1 && rescans[|closed|] == cur
    requires rescans' == rescans + (if next.addrs != map[] then [next] else [])
    ensures TicketOk(closed + [c], rescans', n, next, fresh_, NO_WORK, t)
  {
    if k :| Served(closed, rescans, t, k) {
      assert Served(closed + [c], rescans', t, k);
    } else if t.channel == c && t.finished <= |closed| <= t.finished + 1 && cur.addrs != map[] && Covers(cur, t.job) {
      assert Served(closed + [c], rescans', t, |closed|);
    }
  }

  lemma TicketsStay(closed: seq<nat>, rescans: seq<Work>, rescans': seq<Work>, c: nat, cur: Work, cur': Work, n: nat,
      next: Work, next': Work, ts: seq<Ticket>, t: Ticket)
    requires AllOk(closed, rescans, c, cur, n, next, ts) && TicketOk(closed, rescans', c, cur', n, next', t)
    requires |rescans| <= |rescans'| && rescans'[..|rescans|] == rescans && (cur' == cur || cur.addrs == map[])
    requires next' == next || next.addrs == map[] || (Includes(next', next) && next'.addrs != map[])
    ensures AllOk(closed, rescans', c, cur', n, next', ts + [t])
  {
    forall i | 0 <= i < |ts| ensures TicketOk(closed, rescans', c, cur', n, next', ts[i]) {
      TicketStays(closed, rescans, rescans', c, cur, cur', n, next, next', ts[i]);
    }
    hide TicketOk;
  }

  lemma TicketsMove(closed: seq<nat>, rescans: seq<Work>, rescans': seq<Work>, c: nat, cur: Work, n: nat, next: Work,
      fresh_: nat, ts: seq<Ticket>)
    requires AllOk(closed, rescans, c, cur, n, next, ts)
    requires |rescans| == |closed| + 1 && rescans[|closed|] == cur
    requires rescans' == rescans + (if next.addrs != map[] then [next] else [])
    ensures AllOk(closed + [c], rescans', n, next, fresh_, NO_WORK, ts)
  {
    forall i | 0 <= i < |ts| ensures TicketOk(closed + [c], rescans', n, next, fresh_, NO_WORK, ts[i]) {
      TicketMoves(closed, rescans, rescans', c, cur, n, next, fresh_, ts[i]);
    }
  }

  // -------------------------------------------------------------- whole runs

  datatype Event = Submit(job: RescanJob) | Finish

  /** Whether a rescan runs, whether jobs wait for the next, and how many
      rescans have finished. */
  datatype Progress = Progress(running: bool, waiting: bool, finished: nat)

  ghost function ProgressOf(m: RescanManager): Progress
    reads m, m.curBatch, m.nextBatch
  {
    Progress(!m.curBatch.Empty(), !m.nextBatch.Empty(), |m.closed|)
  }

  /** A submitted job runs or waits; a finish counts only while one runs, and
      starts what waits. */
  function Advance(p: Progress, e: Event): Progress {
    match e
    case Submit(_) => if p.running then p.(waiting := true) else p.(running := true)
    case Finish => if p.running then Progress(p.waiting, false, p.finished + 1) else p
  }

  function AdvanceAll(p: Progress, events: seq<Event>): Progress {
    if events == [] then p else Advance(AdvanceAll(p, events[..|events|-1]), events[|events|-1])
  }

  /** The jobs submitted, in order, each with the finishes before it. */
  function Submitted(p: Progress, events: seq<Event>): seq<(RescanJob, nat)> {
    if events == [] then [] else
    var n := |events| - 1;
    Submitted(p, events[..n]) + if events[n].Submit? then [(events[n].job, AdvanceAll(p, events[..n]).finished)] else []
  }

  /** The tickets of the jobs submitted, on these channels. */
  function TicketsOf(subs: seq<(RescanJob, nat)>, channels: seq<nat>): (ts: seq<Ticket>)
    requires |subs| == |channels|
  {
    seq(|subs|, i requires 0 <= i < |subs| => Ticket(subs[i].0, channels[i], subs[i].1))
  }

  /** One event; the caller of a submission gets its channel. */
  method Handle(m: RescanManager, e: Event) returns (channel: Option<nat>)
    requires m.Valid() && (e.Submit? ==> Proper(e.job))
    modifies m, m.curBatch, m.nextBatch
    ensures m.Valid() && ProgressOf(m) == Advance(old(ProgressOf(m)), e) && (channel.Some? <==> e.Submit?)
    ensures m.tickets == old(m.tickets) + if e.Submit? then [Ticket(e.job, channel.value, |old(m.closed)|)] else []
    ensures old(m.closed) <= m.closed && old(m.rescans) <= m.rescans
    ensures (m.curBatch == old(m.curBatch) || m.curBatch == old(m.nextBatch))
    ensures (m.nextBatch == old(m.nextBatch) || fresh(m.nextBatch))
    ensures old(m.Exact()) ==> m.Exact()
  {
    hide WithJob, WorkOk, Asks, NoDup, AllOk, Exactly;
    channel := None;
    match e {
      case Submit(job) =>
        var c, s := m.AddJob(job);
        channel := Some(c);
      case Finish =>
        if !m.curBatch.Empty() { var c, s := m.Finished(); }
    }
  }

  /** Any run of submissions and finishes leaves a ticket for each submitted job,
      in order, on the channel its caller got, and every ticket served in time
      or waiting for a rescan that will; a rescan finishes for every finish that
      comes while one runs. */
  method Run(m: RescanManager, events: seq<Event>) returns (channels: seq<nat>)
    requires m.Valid() && forall i :: 0 <= i < |events| && events[i].Submit? ==> Proper(events[i].job)
    modifies m, m.curBatch, m.nextBatch
    ensures m.Valid() && ProgressOf(m) == AdvanceAll(old(ProgressOf(m)), events)
    ensures |channels| == |Submitted(old(ProgressOf(m)), events)|
    ensures m.tickets == old(m.tickets) + TicketsOf(Submitted(old(ProgressOf(m)), events), channels)
    ensures old(m.closed) <= m.closed && old(m.rescans) <= m.rescans
    ensures old(m.Exact()) ==> m.Exact()
  {
    hide RescanManager.Valid, Advance, TicketsOf, Exactly;
    ghost var p := ProgressOf(m);
    ghost var before := m.tickets;
    channels := [];
    NoTickets();
    var i := 0;
    while i < |events|
      invariant 0 <= i <= |events| && m.Valid() && ProgressOf(m) == AdvanceAll(p, events[..i])
      invariant |channels| == |Submitted(p, events[..i])|
      invariant m.tickets == before + TicketsOf(Submitted(p, events[..i]), channels)
      invariant old(m.closed) <= m.closed && old(m.rescans) <= m.rescans && (old(m.Exact()) ==> m.Exact())
      invariant (m.curBatch == old(m.curBatch) || m.curBatch == old(m.nextBatch) || fresh(m.curBatch))
      invariant (m.nextBatch == old(m.nextBatch) || fresh(m.nextBatch))
    {
      assert events[..i+1][..i] == events[..i];
      if events[i].Submit? { TicketsNext(Submitted(p, events[..i]), channels, events[i].job, |m.closed|); }
      var c := Handle(m, events[i]);
      if c.Some? {
        channels := channels + [c.value];
      } else {
        assert Submitted(p, events[..i]) + [] == Submitted(p, events[..i]);
      }
      i := i + 1;
    }
    assert events[..i] == events;
  }

  lemma NoTickets()
    ensures TicketsOf([], []) == []
  {
  }

  lemma TicketsNext(subs: seq<(RescanJob, nat)>, channels: seq<nat>, job: RescanJob, finished: nat)
    requires |subs| == |channels|
    ensures forall c: nat :: TicketsOf(subs + [(job, finished)], channels + [c])
              == TicketsOf(subs, channels) + [Ticket(job, c, finished)]
  {
  }

  /** However many jobs wait, two finishes later every channel is closed. */
  method Drain(m: RescanManager)
    requires m.Valid()
    modifies m
    ensures m.Valid() && m.tickets == old(m.tickets) && |m.closed| <= |old(m.closed)| + 2
    ensures forall i :: 0 <= i < |m.tickets| ==> WasServed(m.closed, m.rescans, m.tickets[i])
    ensures old(m.Exact()) ==> m.Exact()
  {
    hide Exactly;
    if !m.curBatch.Empty() {
      var c, s := m.Finished();
      if !m.curBatch.Empty() {
        c, s := m.Finished();
      }
    }
    forall i | 0 <= i < |m.tickets| ensures WasServed(m.closed, m.rescans, m.tickets[i]) {
      assert TicketOk(m.closed, m.rescans, m.curBatch.complete, m.curBatch.Content(), m.nextBatch.complete,
          m.nextBatch.Content(), m.tickets[i]);
    }
  }

  /** After any run and two more finishes every submitted job's channel has been
      closed, in time and after a rescan that covers the job. */
  method RunAndDrain(m: RescanManager, events: seq<Event>) returns (channels: seq<nat>)
    requires m.Valid() && forall i :: 0 <= i < |events| && events[i].Submit? ==> Proper(events[i].job)
    modifies m, m.curBatch, m.nextBatch
    ensures m.Valid() && |channels| == |Submitted(old(ProgressOf(m)), events)|
    ensures forall t :: t in TicketsOf(Submitted(old(ProgressOf(m)), events), channels) ==>
              WasServed(m.closed, m.rescans, t)
    ensures old(m.Exact()) ==> m.Exact()
  {
    hide RescanManager.Valid, WasServed, TicketsOf, Exactly;
    ghost var p, before := ProgressOf(m), |m.tickets|;
    channels := Run(m, events);
    ghost var ts := TicketsOf(Submitted(p, events), channels);
    Drain(m);
    forall t | t in ts ensures WasServed(m.closed, m.rescans, t) {
      var i :| 0 <= i < |ts| && ts[i] == t;
      assert m.tickets[before + i] == t;
    }
  }
}
