/** Entity timers: one timer's arithmetic near INT64_MAX, and the keyed list an entity persists. */
module TimerState {
  import opened Bytes

  datatype Missed = Coalesce | CatchUp

  /** `EntityTimer`; `G` is the type of generation marks. */
  datatype Timer<G> = Timer(
    key: bytes, method_: bytes, payload: bytes, generation: G, due: int, interval: int, remaining: nat, missed: Missed,
    fixedDelay: bool)

  /** `EntityTimerState`, its entries in key order. */
  datatype Timers<G> = Timers(sequence: nat, token: G, entries: seq<Timer<G>>)

  /** The numeric part of `valid`. */
  predicate ValidTimes<G>(t: Timer<G>) {
    && 0 <= t.due <= INT64_MAX && 0 <= t.interval <= INT64_MAX && t.remaining <= INT64_MAX
    && (t.interval == 0 ==> t.remaining == 1) && (t.fixedDelay ==> t.missed.Coalesce?)
  }

  // ---- advance_entity_timer ----

  /** The timer will not be due again: it is a single shot, or this was its last counted callback. */
  predicate Exhausted<G>(t: Timer<G>) { t.interval == 0 || t.remaining == 1 }

  /** The due time after this one, before asking whether it can be represented. */
  function NextDue<G>(t: Timer<G>, now: int): int
    requires t.interval > 0
  {
    if t.fixedDelay then now + t.interval
    else if t.missed.CatchUp? then t.due + t.interval
    else t.due + ((now - t.due) / t.interval + 1) * t.interval
  }

  /** The timer after one firing; `None` is the source's `false`. */
  function Advanced<G>(t: Timer<G>, now: int): Option<Timer<G>> {
    if Exhausted(t) || t.interval <= 0 || NextDue(t, now) > INT64_MAX then None
    else Some(t.(due := NextDue(t, now), remaining := if t.remaining == 0 then 0 else t.remaining - 1))
  }

  /** Nothing but the due time and the count has changed. */
  predicate OnlyTimes<G(==)>(was: Timer<G>, now: Timer<G>) {
    && now.key == was.key && now.method_ == was.method_ && now.payload == was.payload
    && now.generation == was.generation && now.interval == was.interval && now.missed == was.missed
    && now.fixedDelay == was.fixedDelay
  }

  class TimerCell<G(==)> {
    var timer: Timer<G>

    constructor (timer: Timer<G>)
      ensures this.timer == timer
    {
      this.timer := timer;
    }

    /** Advances in place, every intermediate value within its C++ type: the 64-bit quantities are asserted where they
        are formed. */
    method Advance(now: int) returns (r: Result<bool>)
      requires now <= INT64_MAX
      modifies this
      ensures r.Err? <==> !ValidTimes(old(timer)) || now < old(timer.due)
      ensures r.Err? ==> timer == old(timer)
      ensures r.Ok? ==> r.value == Advanced(old(timer), now).Some?
      ensures r.Ok? && r.value ==> timer == Advanced(old(timer), now).value
      ensures r.Ok? && r.value ==> OnlyTimes(old(timer), timer) && old(timer.due) < timer.due
      ensures r.Ok? && r.value ==> (if old(timer.remaining) == 0 then timer.remaining == 0
                                    else 0 < timer.remaining == old(timer.remaining) - 1)
      ensures r.Ok? && old(timer.remaining) == 1 ==> !r.value
    {
      if !ValidTimes(timer) || now < timer.due { return Err(Invalid); }
      if timer.interval == 0 { return Ok(false); }
      if timer.remaining != 0 {
        timer := timer.(remaining := timer.remaining - 1);
        if timer.remaining == 0 { return Ok(false); }
      }
      var base := if timer.fixedDelay then now else timer.due;
      assert 0 <= now - timer.due <= INT64_MAX;
      var steps := if timer.fixedDelay || timer.missed.CatchUp? then 1 else (now - timer.due) / timer.interval + 1;
      QuotientBound(now - timer.due, timer.interval);
      assert 0 < steps < U64;
      var available := (INT64_MAX - base) / timer.interval;
      StepsFit(steps, INT64_MAX - base, timer.interval);
      if steps > available { return Ok(false); }
      assert 0 <= steps * timer.interval <= INT64_MAX - base;
      Scale(1, steps, timer.interval);
      timer := timer.(due := base + steps * timer.interval);
      r := Ok(true);
    }
  }

  lemma QuotientBound(a: int, b: int)
    requires 0 <= a && 0 < b
    ensures 0 <= a / b <= a
  {
    var q := a / b;
    assert a == q * b + a % b;
    if q > a { Scale(1, b, q); }
    if q < 0 { Scale(q, -1, b); }
  }

  lemma StepsFit(steps: int, room: int, interval: int)
    requires 0 < interval && 0 <= room && 0 <= steps
    ensures steps <= room / interval <==> steps * interval <= room
  {
    if steps <= room / interval {
      assert steps * interval <= room / interval * interval;
    } else {
      assert steps * interval >= (room / interval + 1) * interval;
    }
  }

  /** Every advance moves the due time strictly forward and stays representable; waiting timers land strictly after
      `now`. */
  lemma AdvanceForward<G>(t: Timer<G>, now: int)
    requires ValidTimes(t) && t.due <= now && Advanced(t, now).Some?
    ensures t.due < Advanced(t, now).value.due <= INT64_MAX && ValidTimes(Advanced(t, now).value)
    ensures t.fixedDelay || t.missed.Coalesce? ==> now < Advanced(t, now).value.due
    ensures OnlyTimes(t, Advanced(t, now).value)
  {
    if !t.fixedDelay && t.missed.Coalesce? { LandsAfter(now - t.due, t.interval); }
  }

  lemma LandsAfter(gap: int, interval: int)
    requires 0 <= gap && 0 < interval
    ensures gap < (gap / interval + 1) * interval
    ensures forall k: nat :: k * interval > gap ==> gap / interval + 1 <= k
  {
    assert gap == gap / interval * interval + gap % interval;
    forall k: nat ensures k <= gap / interval ==> k * interval <= gap {
      if k <= gap / interval { Scale(k, gap / interval, interval); }
    }
  }

  /** A coalescing fixed-rate timer lands on the least due + k * interval after `now`. */
  lemma CoalesceLeast<G>(t: Timer<G>, now: int, k: nat)
    requires ValidTimes(t) && t.due <= now && !t.fixedDelay && t.missed.Coalesce? && Advanced(t, now).Some?
    ensures Advanced(t, now).value.due == t.due + ((now - t.due) / t.interval + 1) * t.interval
    ensures now < t.due + k * t.interval ==> Advanced(t, now).value.due <= t.due + k * t.interval
  {
    LandsAfter(now - t.due, t.interval);
    if now < t.due + k * t.interval {
      assert ((now - t.due) / t.interval + 1) * t.interval <= k * t.interval by {
        Scale((now - t.due) / t.interval + 1, k, t.interval);
      }
    }
  }

  /** The timer after one firing at each of these times, if it is still there. */
  function Fired<G>(t: Timer<G>, times: seq<int>): Option<Timer<G>>
    decreases times
  {
    if times == [] then Some(t)
    else match Advanced(t, times[0])
      case None => None
      case Some(next) => Fired(next, times[1..])
  }

  /** A counted timer has one callback less after each firing and none after its last; an unlimited one never counts. */
  lemma {:induction false} CountedEnds<G>(t: Timer<G>, times: seq<int>)
    requires Fired(t, times).Some?
    ensures var now := Fired(t, times).value;
      && OnlyTimes(t, now) && (t.remaining == 0 ==> now.remaining == 0)
      && (t.remaining > 0 ==> |times| < t.remaining && now.remaining == t.remaining - |times|)
    ensures t.remaining == |times| + 1 ==> forall at :: Advanced(Fired(t, times).value, at).None?
    decreases times
  {
    hide NextDue;
    if times != [] { CountedEnds(Advanced(t, times[0]).value, times[1..]); }
  }

  lemma Scale(a: int, b: int, c: int)
    requires a <= b && 0 <= c
    ensures a * c <= b * c
  {
  }

  /** `n` catch-up firings in a row. */
  function Repeated<G>(t: Timer<G>, now: int, n: nat): Option<Timer<G>>
    decreases n
  {
    if n == 0 then Some(t)
    else match Advanced(t, now)
      case None => None
      case Some(next) => Repeated(next, now, n - 1)
  }

  lemma {:induction false} RepeatedDue<G>(t: Timer<G>, now: int, n: nat)
    requires ValidTimes(t) && t.interval > 0 && t.remaining == 0 && t.missed.CatchUp?
    requires t.due + n * t.interval <= INT64_MAX
    ensures Repeated(t, now, n) == Some(t.(due := t.due + n * t.interval))
    decreases n
  {
    if n > 0 {
      Scale(1, n, t.interval);
      var next := t.(due := t.due + t.interval);
      assert next.due + (n - 1) * t.interval == t.due + n * t.interval;
      RepeatedDue(next, now, n - 1);
    }
  }

  /** An unlimited catch-up timer reaches the due time of its coalescing twin in exactly (now - due) / interval + 1
      firings, every earlier firing being due no later than `now`, when that due time can be represented. */
  lemma CatchUpMeetsCoalesce<G>(t: Timer<G>, now: int)
    requires ValidTimes(t) && t.interval > 0 && t.remaining == 0 && t.missed.CatchUp? && t.due <= now
    requires Advanced(t.(missed := Coalesce), now).Some?
    ensures var n := (now - t.due) / t.interval + 1;
      && n > 0 && Repeated(t, now, n) == Some(t.(due := Advanced(t.(missed := Coalesce), now).value.due))
      && (forall i: nat :: i < n ==> Repeated(t, now, i).Some? && Repeated(t, now, i).value.due <= now)
  {
    var n := (now - t.due) / t.interval + 1;
    QuotientBound(now - t.due, t.interval);
    RepeatedDue(t, now, n);
    forall i: nat | i < n ensures Repeated(t, now, i).Some? && Repeated(t, now, i).value.due <= now {
      Scale(i, n, t.interval);
      RepeatedDue(t, now, i);
      Scale(i, (now - t.due) / t.interval, t.interval);
      Floor(now - t.due, t.interval);
    }
  }

  lemma Floor(a: int, b: int)
    requires 0 <= a && 0 < b
    ensures a / b * b <= a
  {
  }

  /** When `false` is returned. An exhausted timer always gives it. Otherwise INT64_MAX decides: a coalescing timer
      fails if no due + k * interval lies between `now` and there, a catching-up one if due + interval is beyond it, one
      with a fixed delay if now + interval is. */
  lemma AdvanceFails<G>(t: Timer<G>, now: int)
    requires ValidTimes(t) && t.due <= now
    ensures t.interval == 0 || t.remaining == 1 ==> Advanced(t, now).None?
    ensures t.interval > 0 && t.remaining != 1 && !t.fixedDelay && t.missed.Coalesce? ==>
      (Advanced(t, now).None? <==>
       forall k: nat :: t.due + k * t.interval <= now || t.due + k * t.interval > INT64_MAX)
    ensures t.interval > 0 && t.remaining != 1 && !t.fixedDelay && t.missed.CatchUp? ==>
      (Advanced(t, now).None? <==> t.due + t.interval > INT64_MAX)
    ensures t.interval > 0 && t.remaining != 1 && t.fixedDelay ==>
      (Advanced(t, now).None? <==> now + t.interval > INT64_MAX)
  {
    if t.interval > 0 && !t.fixedDelay && t.missed.Coalesce? {
      var n := (now - t.due) / t.interval + 1;
      QuotientBound(now - t.due, t.interval);
      LandsAfter(now - t.due, t.interval);
      if NextDue(t, now) > INT64_MAX {
        forall k: nat ensures t.due + k * t.interval <= now || t.due + k * t.interval > INT64_MAX {
          if t.due + k * t.interval > now { Scale(n, k, t.interval); }
        }
      } else {
        var k: nat := n;
        assert !(t.due + k * t.interval <= now || t.due + k * t.interval > INT64_MAX);
      }
    }
  }

  // ---- the keyed list ----

  function Find<G>(es: seq<Timer<G>>, key: bytes): Option<Timer<G>> {
    if es == [] then None else if es[0].key == key then Some(es[0]) else Find(es[1..], key)
  }

  /** `insert_or_assign`. */
  function Insert<G>(es: seq<Timer<G>>, t: Timer<G>): seq<Timer<G>> {
    if es == [] || Less(t.key, es[0].key) then [t] + es
    else if es[0].key == t.key then [t] + es[1..]
    else [es[0]] + Insert(es[1..], t)
  }

  function Remove<G>(es: seq<Timer<G>>, key: bytes): seq<Timer<G>> {
    if es == [] then [] else (if es[0].key == key then [] else [es[0]]) + Remove(es[1..], key)
  }

  lemma {:induction false} FindInsert<G>(es: seq<Timer<G>>, t: Timer<G>, key: bytes)
    ensures Find(Insert(es, t), key) == if key == t.key then Some(t) else Find(es, key)
    decreases es
  {
    hide Less;
    if es != [] { FindInsert(es[1..], t, key); }
  }

  lemma {:induction false} FindRemove<G>(es: seq<Timer<G>>, gone: bytes, key: bytes)
    ensures Find(Remove(es, gone), key) == if key == gone then None else Find(es, key)
    decreases es
  {
    if es != [] {
      FindRemove(es[1..], gone, key);
      assert es[0].key == gone ==> Remove(es, gone) == Remove(es[1..], gone);
      assert es[0].key != gone ==> Remove(es, gone)[1..] == Remove(es[1..], gone);
    }
  }

  // ---- next_entity_timer ----

  function Earliest<G>(es: seq<Timer<G>>): (due: int)
    ensures due <= INT64_MAX
  {
    if es == [] then INT64_MAX
    else var rest := Earliest(es[1..]); if es[0].due < rest then es[0].due else rest
  }

  /** No timer is due before the returned time, and some timer is due then unless none is due before INT64_MAX. */
  method NextTimer<G>(es: seq<Timer<G>>) returns (due: int)
    ensures due == Earliest(es)
    ensures forall i :: 0 <= i < |es| ==> due <= es[i].due
    ensures due == INT64_MAX || exists i :: 0 <= i < |es| && es[i].due == due
  {
    due := INT64_MAX;
    var i := 0;
    assert es[0..] == es;
    while i < |es|
      invariant 0 <= i <= |es| && due <= INT64_MAX
      invariant forall j :: 0 <= j < i ==> due <= es[j].due
      invariant due == INT64_MAX || exists j :: 0 <= j < i && es[j].due == due
      invariant Earliest(es) == if due < Earliest(es[i..]) then due else Earliest(es[i..])
    {
      assert es[i..][0] == es[i] && es[i..][1..] == es[i + 1..];
      if es[i].due < due { due := es[i].due; }
      i := i + 1;
    }
    assert es[i..] == [];
  }
}
