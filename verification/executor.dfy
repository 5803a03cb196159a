/** `AsyncDatabase`: one worker, one owner, and every way their critical sections can interleave. */
module Executors {
  import opened Bytes

  datatype Fate = Waiting | Ran | Cancelled

  datatype Job = Job(id: nat, bytes: nat, fate: Fate)

  datatype StopMode = Drain | CancelQueued

  function Total(js: seq<Job>): nat { if js == [] then 0 else js[0].bytes + Total(js[1..]) }

  lemma {:induction false} TotalConcat(a: seq<Job>, b: seq<Job>)
    ensures Total(a + b) == Total(a) + Total(b)
    decreases a
  {
    if a == [] {
      assert a + b == b;
    } else {
      assert (a + b)[1..] == a[1..] + b;
      TotalConcat(a[1..], b);
    }
  }

  /** The admission numbers of a queue. */
  function Ids(js: seq<Job>): (r: seq<nat>)
    ensures |r| == |js|
  {
    if js == [] then [] else [js[0].id] + Ids(js[1..])
  }

  lemma {:induction false} IdsConcat(a: seq<Job>, b: seq<Job>)
    ensures Ids(a + b) == Ids(a) + Ids(b)
    decreases a
  {
    if a == [] {
      assert a + b == b;
    } else {
      assert (a + b)[1..] == a[1..] + b;
      IdsConcat(a[1..], b);
      assert Ids(a) + Ids(b) == [a[0].id] + (Ids(a[1..]) + Ids(b));
    }
  }

  function Range(n: nat): seq<nat> { seq(n, i => i) }

  predicate AllFated(js: seq<Job>, f: Fate) { forall i :: 0 <= i < |js| ==> js[i].fate == f }

  function Fated(js: seq<Job>, f: Fate): (r: seq<Job>)
    ensures |r| == |js| && Ids(r) == Ids(js) && Total(r) == Total(js) && AllFated(r, f)
  {
    if js == [] then [] else [js[0].(fate := f)] + Fated(js[1..], f)
  }

  lemma FrontIds(js: seq<Job>)
    requires js != []
    ensures Ids([js[0]]) + Ids(js[1..]) == Ids(js) && Total([js[0]]) + Total(js[1..]) == Total(js)
  {
    assert [js[0]][1..] == [];
  }

  lemma OneJob(job: Job)
    ensures Ids([job]) == [job.id] && Total([job]) == job.bytes && Ids([]) == [] && Total([]) == 0
  {
    assert [job][1..] == [];
  }

  /** What owner and worker may do next; operations and callbacks are the caller's. */
  datatype Step = Submit(bytes: nat) | Take | Execute | Finish | Exit | Stop(mode: StopMode) | Join | Poll

  class Executor {
    const jobs: nat
    const limit: nat
    var queued: seq<Job>
    var active: seq<Job>         // the worker's own list: empty, or the job it holds
    var completed: seq<Job>
    var abandoned: seq<Job>      // taken from the queue by a cancelling stop, not yet handed back
    var count: nat
    var bytes: nat
    var stopped: bool
    var exited: bool             // the worker has left its loop
    var admitted: nat            // how many jobs were ever accepted; their operations are told apart by these numbers
    ghost var runs: seq<nat>     // the operations that were run, in order
    ghost var finished: seq<Job> // every job ever handed back, in order
    ghost var polled: nat        // how many of those completions were delivered
    ghost var good: nat          // how many of the finished ones ran; the rest were cancelled
    ghost var cancelled: bool    // a stop has asked for cancellation

    /** Every accepted job is in exactly one place, in admission order. */
    ghost predicate InPlace()
      reads this
    {
      && Ids(finished) + Ids(active) + Ids(abandoned) + Ids(queued) == Range(admitted)
      && polled <= |finished| && completed == finished[polled..] && |active| <= 1
      && (abandoned != [] ==> stopped && queued == []) && (exited ==> stopped && active == [] && queued == [])
    }

    /** The counters are the sums over the places and stay within the limits. */
    ghost predicate Accounted()
      reads this
    {
      && count == |completed| + |active| + |abandoned| + |queued| <= jobs
      && bytes == Total(completed) + Total(active) + Total(abandoned) + Total(queued) <= limit
    }

    /** The operations that ran are those of the first jobs, once each and in order; nothing cancelled was run. */
    ghost predicate RunInOrder()
      reads this
    {
      && good <= |finished| && AllFated(finished[..good], Ran) && AllFated(finished[good..], Cancelled)
      && (active != [] || abandoned != [] || queued != [] || !stopped || !cancelled ==> good == |finished|)
      && (!cancelled ==> abandoned == [])
      && AllFated(queued, Waiting) && AllFated(abandoned, Cancelled) && (active != [] ==> active[0].fate != Cancelled)
      && runs == Range(good + (if active != [] && active[0].fate == Ran then 1 else 0))
    }

    ghost predicate Valid()
      reads this
    {
      InPlace() && Accounted() && RunInOrder()
    }

    constructor (jobs: nat, limit: nat)
      ensures Valid() && admitted == 0 && polled == 0 && !stopped && !cancelled && this.jobs == jobs
      ensures this.limit == limit
    {
      this.jobs, this.limit := jobs, limit;
      queued, active, completed, abandoned, count, bytes, stopped, exited := [], [], [], [], 0, 0, false, false;
      admitted, runs, finished, polled, good, cancelled := 0, [], [], 0, 0, false;
    }

    /** `submit`. */
    method Submit(size: nat) returns (accepted: bool)
      requires Valid()
      modifies `queued, `admitted, `count, `bytes
      ensures Valid()
      ensures accepted <==> !old(stopped) && old(count) < jobs && size <= limit - old(bytes)
      ensures if accepted then
                admitted == old(admitted) + 1 && queued == old(queued) + [Job(old(admitted), size, Waiting)]
              else unchanged(this)
    {
      hide Ids, Total;
      if stopped || count >= jobs || size > limit - bytes { return false; }
      ghost var job := Job(admitted, size, Waiting);
      IdsConcat(queued, [job]);
      TotalConcat(queued, [job]);
      OneJob(job);
      assert Ids(finished) + Ids(active) + Ids(abandoned) + (Ids(queued) + [admitted])
          == Ids(finished) + Ids(active) + Ids(abandoned) + Ids(queued) + [admitted];
      assert Range(admitted + 1) == Range(admitted) + [admitted];
      queued := queued + [Job(admitted, size, Waiting)];
      admitted, count, bytes := admitted + 1, count + 1, bytes + size;
      accepted := true;
    }

    /** The worker takes the front of the queue. */
    method Take()
      requires Valid()
      modifies `active, `queued
      ensures Valid()
      ensures if old(exited || active != [] || queued == []) then unchanged(this)
              else active == [old(queued)[0]] && queued == old(queued)[1..]
    {
      hide Ids, Total, Range;
      if exited || active != [] || queued == [] { return; }
      FrontIds(queued);
      OneJob(queued[0]);
      assert abandoned == [] && finished[..good] == finished;
      assert Ids(finished) + [] + [] + (Ids([queued[0]]) + Ids(queued[1..]))
        == Ids(finished) + Ids([queued[0]]) + [] + Ids(queued[1..]);
      active, queued := [queued[0]], queued[1..];
    }

    /** The worker runs the operation it holds, outside the lock; it never ran before. */
    method Execute()
      requires Valid()
      modifies `active, `runs
      ensures Valid()
      ensures if old(active == [] || active[0].fate != Waiting) then unchanged(this)
              else
                && active == [old(active)[0].(fate := Ran)]
                && runs == old(runs) + [old(active)[0].id] && old(active)[0].id !in old(runs)
    {
      hide Ids, Total;
      if active == [] || active[0].fate != Waiting { return; }
      assert active == [active[0]];
      assert Ids(finished) + Ids(active) + (Ids(abandoned) + Ids(queued))
        == Ids(finished) + Ids(active) + Ids(abandoned) + Ids(queued);
      ActiveNumber(finished, active[0], Ids(abandoned) + Ids(queued), admitted);
      OneJob(active[0]);
      OneJob(active[0].(fate := Ran));
      assert Range(good + 1) == Range(good) + [good];
      active := [active[0].(fate := Ran)];
      runs := runs + [good];
    }

    /** The worker hands the job back. */
    method Finish()
      requires Valid()
      modifies `active, `completed, `finished, `good
      ensures Valid()
      ensures if old(active == [] || active[0].fate != Ran) then unchanged(this)
              else active == [] && completed == old(completed) + old(active) && finished == old(finished) + old(active)
    {
      hide Ids, Total, Range;
      if active == [] || active[0].fate != Ran { return; }
      OneJob(active[0]);
      assert Ids(finished) + Ids(active) + Ids(abandoned) + Ids(queued)
        == Ids(finished) + Ids(active) + [] + Ids(abandoned) + Ids(queued);
      IdsConcat(finished, active);
      TotalConcat(completed, active);
      assert (finished + active)[polled..] == completed + active;
      assert (finished + active)[..|finished| + 1] == finished + active && finished[..good] == finished;
      completed, finished, good := completed + active, finished + active, good + 1;
      active := [];
    }

    /** The worker leaves its loop only once it was told to stop and nothing is queued. */
    method Exit()
      requires Valid()
      modifies `exited
      ensures Valid() && (exited <==> old(exited) || (stopped && queued == [] && active == []))
    {
      if stopped && active == [] && queued == [] { exited := true; }
    }

    /** The first half of `stop`. */
    method Stop(mode: StopMode)
      requires Valid()
      modifies `stopped, `abandoned, `queued, `cancelled
      ensures Valid() && (old(abandoned) != [] ==> unchanged(this))
      ensures old(abandoned) == [] && mode == Drain ==>
        stopped && unchanged(`queued) && unchanged(`abandoned) && unchanged(`cancelled)
      ensures old(abandoned) == [] && mode == CancelQueued ==>
        stopped && cancelled && queued == [] && abandoned == Fated(old(queued), Cancelled)
    {
      hide Ids, Total, Range;
      if abandoned != [] { return; }
      stopped := true;
      if mode == CancelQueued {
        OneJob(Job(0, 0, Ran));
        assert Ids(finished) + Ids(active) + [] + Ids(queued) == Ids(finished) + Ids(active) + Ids(queued) + [];
        abandoned, queued, cancelled := Fated(queued, Cancelled), [], true;
      }
    }

    /** The second half, once the worker has exited: the cancelled jobs follow the last one that ran. Nothing accepted
        is lost, and without a cancellation every accepted operation has run. */
    method Join()
      requires Valid()
      modifies `completed, `finished, `abandoned
      ensures Valid() && (!exited ==> unchanged(this))
      ensures exited ==>
        abandoned == [] && completed == old(completed) + old(abandoned) && finished == old(finished) + old(abandoned)
      ensures exited ==> Ids(finished) == Range(admitted) && (!cancelled ==> runs == Range(admitted))
    {
      hide Ids, Total, Range;
      if !exited { return; }
      OneJob(Job(0, 0, Ran));
      IdsConcat(finished, abandoned);
      TotalConcat(completed, abandoned);
      assert (finished + abandoned)[polled..] == completed + abandoned;
      assert (finished + abandoned)[..good] == finished[..good];
      assert (finished + abandoned)[good..] == finished[good..] + abandoned;
      assert Ids(finished) + [] + Ids(abandoned) + [] == Ids(finished) + Ids(abandoned) + [] + [] + [];
      completed, finished := completed + abandoned, finished + abandoned;
      abandoned := [];
      assert Ids(finished) + [] + [] + [] == Ids(finished);
      assert |Range(admitted)| == admitted by { RangeLength(admitted); }
    }

    /** One turn of `poll`: delivers the oldest completion. */
    method PollOne() returns (job: Option<Job>)
      requires Valid()
      modifies `completed, `polled, `count, `bytes
      ensures Valid()
      ensures job.None? ==> old(completed) == [] && unchanged(this)
      ensures job.Some? ==> polled == old(polled) + 1 && old(polled) < |finished| && job.value == finished[old(polled)]
      ensures job.Some? ==> job.value.id == old(polled) && completed == old(completed)[1..]
    {
      hide Ids, Total, Range;
      if completed == [] { return None; }
      OneJob(completed[0]);
      FrontIds(completed);
      job := Some(completed[0]);
      assert Ids(finished) + (Ids(active) + Ids(abandoned) + Ids(queued))
        == Ids(finished) + Ids(active) + Ids(abandoned) + Ids(queued);
      NumberOf(finished, Ids(active) + Ids(abandoned) + Ids(queued), admitted, polled);
      completed, polled := completed[1..], polled + 1;
      count, bytes := count - 1, bytes - job.value.bytes;
    }

    /** What validity says at any moment: the operations ran once each in admission order, and all of them did when the
        worker has exited without a cancellation. */
    lemma InOrder()
      requires Valid()
      ensures runs == Range(|runs|) && count <= jobs && bytes <= limit
      ensures (exited && !cancelled ==> runs == Range(admitted))
    {
      RangeLength(good);
      RangeLength(good + 1);
      if exited && !cancelled {
        assert Ids(finished) + [] + [] + [] == Ids(finished);
        RangeLength(admitted);
      }
    }

    /** Any interleaving of the owner's and the worker's steps: operations run at most once and in admission order,
        completions are delivered in admission order and once each, and the counters never leave their limits. */
    method Interleave(steps: seq<Step>) returns (delivered: seq<nat>)
      requires Valid()
      modifies this
      ensures Valid() && runs == Range(|runs|) && old(polled) + |delivered| == polled
      ensures forall i :: 0 <= i < |delivered| ==> delivered[i] == old(polled) + i
      ensures count <= jobs && bytes <= limit && (exited && !cancelled ==> runs == Range(admitted))
    {
      hide Valid, Range, Fated, Ids;
      delivered := [];
      for n := 0 to |steps|
        invariant Valid() && old(polled) + |delivered| == polled
        invariant forall i :: 0 <= i < |delivered| ==> delivered[i] == old(polled) + i
      {
        match steps[n] {
          case Submit(size) => var accepted := Submit(size);
          case Take => Take();
          case Execute => Execute();
          case Finish => Finish();
          case Exit => Exit();
          case Stop(mode) => Stop(mode);
          case Join => Join();
          case Poll =>
            var job := PollOne();
            if job.Some? { delivered := delivered + [job.value.id]; }
        }
      }
      InOrder();
    }
  }

  lemma RangeLength(n: nat)
    ensures |Range(n)| == n
  {
  }

  /** The job the worker holds is numbered by how many were handed back before it. */
  lemma ActiveNumber(front: seq<Job>, job: Job, rest: seq<nat>, n: nat)
    requires Ids(front) + Ids([job]) + rest == Range(n)
    ensures job.id == |front|
  {
    OneJob(job);
    assert (Ids(front) + [job.id] + rest)[|front|] == job.id;
  }

  lemma {:induction false} IdsAt(js: seq<Job>, i: nat)
    requires i < |js|
    ensures Ids(js)[i] == js[i].id
    decreases js
  {
    if i > 0 { IdsAt(js[1..], i - 1); }
  }

  lemma NumberOf(front: seq<Job>, rest: seq<nat>, n: nat, i: nat)
    requires Ids(front) + rest == Range(n) && i < |front|
    ensures front[i].id == i
  {
    IdsAt(front, i);
    assert (Ids(front) + rest)[i] == Ids(front)[i];
  }
}
