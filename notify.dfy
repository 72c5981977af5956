/**
  The status-notification queue: a list of toasts, each with a message, a
  tint and a countdown. Pushing appends a fresh toast; once per frame the
  sweep subtracts the frame time from every countdown and drops the toasts
  whose countdown has run out, keeping the order of the rest.

  Countdowns are integers in milliseconds (the source's 3.0 seconds is
  3000 here); the source's float arithmetic is not modelled.
 */
module Notify {
  import opened Palette

  /** The countdown a fresh notification starts with: 3.0 seconds. */
  const InitialTimer: int := 3000

  datatype Notif = Notif(msg: string, col: Tint, timer: int)

  /** The entry PushNotif appends. */
  function Fresh(msg: string, col: Tint): (n: Notif)
    ensures n.msg == msg && n.col == col
    ensures n.timer > 0
  {
    Notif(msg, col, InitialTimer)
  }

  /** Every countdown in the queue is still running. */
  predicate AllLive(q: seq<Notif>)
  {
    forall i :: 0 <= i < |q| ==> q[i].timer > 0
  }

  /** Appending a fresh entry keeps every countdown running. */
  lemma PushKeepsLive(q: seq<Notif>, msg: string, col: Tint)
    requires AllLive(q)
    ensures AllLive(q + [Fresh(msg, col)])
  {
    var r := q + [Fresh(msg, col)];
    assert forall i :: 0 <= i < |q| ==> r[i] == q[i];
  }

  /** Every countdown lowered by `dt`; nothing else changes. */
  function Decremented(q: seq<Notif>, dt: int): (r: seq<Notif>)
    ensures |r| == |q|
  {
    seq(|q|, i requires 0 <= i < |q| => q[i].(timer := q[i].timer - dt))
  }

  /** Each entry keeps its message and tint and loses `dt` from its countdown. */
  lemma DecrementedEntries(q: seq<Notif>, dt: int)
    ensures forall i :: 0 <= i < |q| ==>
              var r := Decremented(q, dt);
              r[i].msg == q[i].msg && r[i].col == q[i].col && r[i].timer == q[i].timer - dt
  {
  }

  /** The entries whose countdown is still positive, in their original order. */
  function Survivors(q: seq<Notif>): (r: seq<Notif>)
    ensures |r| <= |q|
    ensures AllLive(r)
  {
    if q == [] then []
    else
      var last := q[|q| - 1];
      Survivors(q[..|q| - 1]) + (if last.timer > 0 then [last] else [])
  }

  /** The queue after one sweep with frame time `dt`. */
  function Swept(q: seq<Notif>, dt: int): (r: seq<Notif>)
    ensures AllLive(r)
    ensures |r| <= |q|
  {
    Survivors(Decremented(q, dt))
  }

  /** Filtering a concatenation filters each part and keeps them in order. */
  lemma {:induction false} SurvivorsAppend(a: seq<Notif>, b: seq<Notif>)
    ensures Survivors(a + b) == Survivors(a) + Survivors(b)
  {
    if b == [] {
      assert a + b == a;
    } else {
      var b' := b[..|b| - 1];
      assert (a + b)[..|a + b| - 1] == a + b';
      assert (a + b)[|a + b| - 1] == b[|b| - 1];
      SurvivorsAppend(a, b');
    }
  }

  /** A queue whose countdowns are all running loses nothing to the filter. */
  lemma {:induction false} SurvivorsOfLive(q: seq<Notif>)
    requires AllLive(q)
    ensures Survivors(q) == q
  {
    if q != [] {
      SurvivorsOfLive(q[..|q| - 1]);
    }
  }

  /** A queue whose countdowns have all run out is emptied by the filter. */
  lemma {:induction false} SurvivorsOfExpired(q: seq<Notif>)
    requires forall i :: 0 <= i < |q| ==> q[i].timer <= 0
    ensures Survivors(q) == []
  {
    if q != [] {
      SurvivorsOfExpired(q[..|q| - 1]);
    }
  }

  /**
    A sweep treats the parts of a queue independently and keeps them in
    order: the survivors keep their relative order.
   */
  lemma SweptAppend(a: seq<Notif>, b: seq<Notif>, dt: int)
    ensures Swept(a + b, dt) == Swept(a, dt) + Swept(b, dt)
  {
    assert Decremented(a + b, dt) == Decremented(a, dt) + Decremented(b, dt);
    SurvivorsAppend(Decremented(a, dt), Decremented(b, dt));
  }

  /** One entry survives a sweep exactly when its lowered countdown is positive. */
  lemma SweptSingle(n: Notif, dt: int)
    ensures Swept([n], dt) == if n.timer - dt > 0 then [n.(timer := n.timer - dt)] else []
  {
    assert Decremented([n], dt) == [n.(timer := n.timer - dt)];
    assert [n.(timer := n.timer - dt)][..0] == [];
  }

  /** A sweep with no elapsed time changes nothing between sweeps. */
  lemma SweptZero(q: seq<Notif>)
    requires AllLive(q)
    ensures Swept(q, 0) == q
  {
    assert Decremented(q, 0) == q;
    SurvivorsOfLive(q);
  }

  /** Two sweeps of one entry are one sweep over their total time. */
  lemma SweptComposeSingle(n: Notif, a: int, b: int)
    requires 0 <= b
    ensures Swept(Swept([n], a), b) == Swept([n], a + b)
  {
    SweptSingle(n, a);
    SweptSingle(n, a + b);
    if n.timer - a > 0 {
      SweptSingle(n.(timer := n.timer - a), b);
    }
  }

  /**
    Two sweeps are one sweep over their total time, provided the second
    does not run the clock backwards: an entry gone after the first stays
    gone, and one present after both has lost both amounts.
   */
  lemma {:induction false} SweptCompose(q: seq<Notif>, a: int, b: int)
    requires 0 <= b
    ensures Swept(Swept(q, a), b) == Swept(q, a + b)
  {
    if q != [] {
      var p, n := q[..|q| - 1], q[|q| - 1];
      assert q == p + [n];
      calc {
        Swept(Swept(q, a), b);
        { SweptAppend(p, [n], a); }
        Swept(Swept(p, a) + Swept([n], a), b);
        { SweptAppend(Swept(p, a), Swept([n], a), b); }
        Swept(Swept(p, a), b) + Swept(Swept([n], a), b);
        { SweptCompose(p, a, b); SweptComposeSingle(n, a, b); }
        Swept(p, a + b) + Swept([n], a + b);
        { SweptAppend(p, [n], a + b); }
        Swept(q, a + b);
      }
    }
  }

  /** A fresh entry outlives any sweep shorter than its countdown and goes last. */
  lemma SweptAfterPush(q: seq<Notif>, msg: string, col: Tint, dt: int)
    requires dt < InitialTimer
    ensures Swept(q + [Fresh(msg, col)], dt) == Swept(q, dt) + [Fresh(msg, col).(timer := InitialTimer - dt)]
  {
    var n := Fresh(msg, col);
    SweptAppend(q, [n], dt);
    SweptSingle(n, dt);
    assert Swept([n], dt) == [n.(timer := InitialTimer - dt)];
  }

  /** Three fresh notifications are all gone after a 3.1 second frame. */
  lemma ScenarioThreeExpire(a: string, b: string, c: string, col: Tint)
    ensures Swept([Fresh(a, col), Fresh(b, col), Fresh(c, col)], 3100) == []
  {
    var q := [Fresh(a, col), Fresh(b, col), Fresh(c, col)];
    SurvivorsOfExpired(Decremented(q, 3100));
  }
}
