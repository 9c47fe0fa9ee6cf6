/**
 * The main dispatch queue and run loop, as seen by the controllers: every closure they post
 * with `DispatchQueue.main.async`, `asyncAfter` or `Timer.scheduledTimer` is an entry with
 * a deadline in whole milliseconds and a status. Cancelling a `DispatchWorkItem` and
 * invalidating a `Timer` both turn a pending entry into a cancelled one, which runs as a no-op.
 */
module MainQueue {
  import opened Wrappers

  datatype Status = Pending | Cancelled | Fired

  datatype Entry<K> = Entry(kind: K, deadline: nat, status: Status)

  /** The deadline of a closure posted at `now` for `delayMs` later; a deadline already past means "as soon as possible". */
  function After(now: nat, delayMs: int): (t: nat)
    ensures delayMs >= 0 ==> t == now + delayMs
    ensures delayMs < 0 ==> t == now
  {
    if delayMs < 0 then now else now + delayMs
  }

  /** Entry `i` has not run yet (it may have been cancelled). */
  predicate Waiting<K>(q: seq<Entry<K>>, i: int) {
    0 <= i < |q| && q[i].status != Fired
  }

  /** Entry `e` is the next one the queue runs: no waiting entry is due earlier. */
  ghost predicate IsNext<K>(q: seq<Entry<K>>, e: int) {
    Waiting(q, e) && forall j :: Waiting(q, j) ==> q[e].deadline <= q[j].deadline
  }

  /** No waiting entry is overdue at time `now`. */
  ghost predicate NotBefore<K>(q: seq<Entry<K>>, now: nat) {
    forall j :: Waiting(q, j) ==> now <= q[j].deadline
  }

  /** `slot` names an entry of the queue of the given kind, or nothing. */
  predicate SlotOfKind<K(==)>(q: seq<Entry<K>>, slot: Option<nat>, kind: K) {
    slot.Some? ==> slot.value < |q| && q[slot.value].kind == kind
  }

  /** Every pending entry of the given kind is the one `slot` names. */
  predicate SoleLive<K(==)>(q: seq<Entry<K>>, kind: K, slot: Option<nat>) {
    forall i :: 0 <= i < |q| && q[i].kind == kind && q[i].status == Pending ==> slot == Some(i)
  }

  /** `cancel()`/`invalidate()` on the entry `slot` names: pending becomes cancelled; anything else is left alone. */
  function CancelSlot<K>(q: seq<Entry<K>>, slot: Option<nat>): (r: seq<Entry<K>>)
    ensures |r| == |q|
    ensures forall i :: 0 <= i < |q| ==> r[i].kind == q[i].kind && r[i].deadline == q[i].deadline
    ensures forall i :: 0 <= i < |q| && slot != Some(i) ==> r[i] == q[i]
    ensures slot.Some? && slot.value < |q| ==> r[slot.value].status != Pending
    ensures slot.Some? && slot.value < |q| && q[slot.value].status != Pending ==> r[slot.value] == q[slot.value]
  {
    if slot.Some? && slot.value < |q| && q[slot.value].status == Pending then
      q[slot.value := q[slot.value].(status := Cancelled)]
    else q
  }

  /** Runs entry `e`: it is marked as run and nothing else changes (the caller moves the clock). */
  function Run<K>(q: seq<Entry<K>>, e: int): (r: seq<Entry<K>>)
    requires 0 <= e < |q|
    ensures |r| == |q| && r[e].status == Fired
    ensures forall i :: 0 <= i < |q| && i != e ==> r[i] == q[i]
    ensures forall i :: 0 <= i < |q| ==> r[i].kind == q[i].kind && r[i].deadline == q[i].deadline
  {
    q[e := q[e].(status := Fired)]
  }

  /** The number of pending entries of a kind. */
  function LiveCount<K(==)>(q: seq<Entry<K>>, kind: K): nat {
    if |q| == 0 then 0
    else LiveCount(q[..|q| - 1], kind) + (if q[|q| - 1].kind == kind && q[|q| - 1].status == Pending then 1 else 0)
  }

  /** Posting a closure adds one pending entry of its kind and leaves the others' counts alone. */
  lemma {:induction false} LiveCountAppend<K>(q: seq<Entry<K>>, e: Entry<K>, kind: K)
    ensures LiveCount(q + [e], kind) == LiveCount(q, kind) + (if e.kind == kind && e.status == Pending then 1 else 0)
  {
    assert (q + [e])[..|q + [e]| - 1] == q;
  }

  /**
   * When `slot` is the only pending entry of its kind, at most one such entry is pending:
   * none when `slot` is empty or names a settled entry, exactly one when it names a pending one.
   */
  lemma {:induction false} SoleLiveCount<K>(q: seq<Entry<K>>, kind: K, slot: Option<nat>)
    requires SoleLive(q, kind, slot)
    ensures LiveCount(q, kind) <= 1
    ensures slot.None? ==> LiveCount(q, kind) == 0
    ensures slot.Some? && slot.value < |q| && q[slot.value].kind == kind && q[slot.value].status == Pending
      ==> LiveCount(q, kind) == 1
    ensures slot.Some? && slot.value < |q| && q[slot.value].status != Pending ==> LiveCount(q, kind) == 0
  {
    if |q| > 0 {
      var p := q[..|q| - 1];
      var last := q[|q| - 1];
      if last.kind == kind && last.status == Pending {
        assert slot == Some(|q| - 1);
        NoneLiveBelow(p, kind);
      } else {
        assert SoleLive(p, kind, slot);
        SoleLiveCount(p, kind, slot);
        if slot.Some? && slot.value < |q| {
          if q[slot.value].kind == kind && q[slot.value].status == Pending {
            assert slot.value < |p| && p[slot.value] == q[slot.value];
          } else if slot.value < |p| {
            assert p[slot.value] == q[slot.value];
          } else {
            NoneLiveBelow(p, kind);
          }
        }
      }
    }
  }

  /** A prefix with no pending entry of a kind counts none. */
  lemma {:induction false} NoneLiveBelow<K>(q: seq<Entry<K>>, kind: K)
    requires forall i :: 0 <= i < |q| ==> !(q[i].kind == kind && q[i].status == Pending)
    ensures LiveCount(q, kind) == 0
  {
    if |q| > 0 {
      NoneLiveBelow(q[..|q| - 1], kind);
    }
  }
}
