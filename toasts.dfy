/**
 * The client's toast queue: a provider holding the visible toasts and an id
 * counter. Adding appends a toast with the next id and keeps only the newest
 * three; removing filters out every toast with a given id. The five-second
 * auto-dismiss timer is not part of this model; its effect is a later call
 * of `RemoveToast`.
 */
module Toasts {
  datatype ToastType = Success | Error | Info

  datatype ToastMessage = ToastMessage(id: nat, message: string, kind: ToastType)

  const MaxToasts: nat := 3

  /** The `addToast` updater: append, then keep the last three when there are more. */
  function WithToast(current: seq<ToastMessage>, t: ToastMessage): seq<ToastMessage> {
    var updated := current + [t];
    if |updated| > MaxToasts then updated[|updated| - MaxToasts..] else updated
  }

  /** The `removeToast` updater: `filter((toast) => toast.id !== id)`. */
  function WithoutToast(current: seq<ToastMessage>, id: nat): (r: seq<ToastMessage>)
    ensures |r| <= |current|
  {
    if |current| == 0 then []
    else (if current[0].id != id then [current[0]] else []) + WithoutToast(current[1..], id)
  }

  /** Ids strictly increase from the oldest toast to the newest. */
  predicate IdsIncreasing(ts: seq<ToastMessage>) {
    forall i, j :: 0 <= i < j < |ts| ==> ts[i].id < ts[j].id
  }

  class ToastProvider {
    var toasts: seq<ToastMessage>
    var toastId: nat

    /** At most three toasts, in issue order, all with ids already handed out. */
    ghost predicate Valid()
      reads this
    {
      && |toasts| <= MaxToasts
      && IdsIncreasing(toasts)
      && forall k :: 0 <= k < |toasts| ==> toasts[k].id < toastId
    }

    constructor()
      ensures Valid()
      ensures toasts == [] && toastId == 0
    {
      toasts := [];
      toastId := 0;
    }

    /** `addToast`: the id is the counter's old value (`toastId++`). */
    method AddToast(message: string, kind: ToastType) returns (id: nat)
      requires Valid()
      modifies this
      ensures Valid()
      ensures id == old(toastId) && toastId == old(toastId) + 1
      ensures toasts == WithToast(old(toasts), ToastMessage(id, message, kind))
    {
      id := toastId;
      toastId := toastId + 1;
      var newToast := ToastMessage(id, message, kind);
      AddKeepsInvariant(toasts, newToast);
      toasts := WithToast(toasts, newToast);
    }

    /** `removeToast`: the counter is untouched. */
    method RemoveToast(id: nat)
      requires Valid()
      modifies this
      ensures Valid()
      ensures toastId == old(toastId)
      ensures toasts == WithoutToast(old(toasts), id)
    {
      RemoveKeepsInvariant(toasts, id);
      toasts := WithoutToast(toasts, id);
    }
  }

  /**
   * After an add the new toast is last, the list holds at most three, and it
   * is exactly the newest `min(n + 1, 3)` of the old toasts plus the new one,
   * in order: only the oldest are dropped.
   */
  lemma AddKeepsNewest(current: seq<ToastMessage>, t: ToastMessage)
    ensures var r := WithToast(current, t);
      && |r| == (if |current| + 1 > MaxToasts then MaxToasts else |current| + 1)
      && r[|r| - 1] == t
      && r[..|r| - 1] == current[|current| + 1 - |r|..]
  {
    var updated := current + [t];
    assert updated[|updated| - 1] == t;
    assert updated[..|current|] == current;
  }

  /** Adding a toast with a fresh, larger id keeps the bound, the order of ids and the counter bound. */
  lemma AddKeepsInvariant(current: seq<ToastMessage>, t: ToastMessage)
    requires |current| <= MaxToasts && IdsIncreasing(current)
    requires forall k :: 0 <= k < |current| ==> current[k].id < t.id
    ensures var r := WithToast(current, t);
      && |r| <= MaxToasts && IdsIncreasing(r)
      && forall k :: 0 <= k < |r| ==> r[k].id <= t.id
  {
    var updated := current + [t];
    assert IdsIncreasing(updated) by {
      forall i, j | 0 <= i < j < |updated| ensures updated[i].id < updated[j].id {
        if j == |current| {
          assert updated[i] == current[i];
        } else {
          assert updated[i] == current[i] && updated[j] == current[j];
        }
      }
    }
    AddKeepsNewest(current, t);
  }

  /** A toast survives `removeToast(id)` exactly when it was there and has another id. */
  lemma {:induction false} RemoveMembership(current: seq<ToastMessage>, id: nat)
    ensures forall x :: x in WithoutToast(current, id) <==> x in current && x.id != id
    decreases |current|
  {
    if |current| > 0 {
      RemoveMembership(current[1..], id);
      assert current == [current[0]] + current[1..];
    }
  }

  /** Removal works piecewise, so the survivors keep their original order. */
  lemma {:induction false} RemoveDistributes(a: seq<ToastMessage>, b: seq<ToastMessage>, id: nat)
    ensures WithoutToast(a + b, id) == WithoutToast(a, id) + WithoutToast(b, id)
    decreases |a|
  {
    if |a| > 0 {
      assert (a + b)[1..] == a[1..] + b;
      RemoveDistributes(a[1..], b, id);
    } else {
      assert a + b == b;
    }
  }

  /** Removing an id no toast carries changes nothing. */
  lemma {:induction false} RemoveAbsent(current: seq<ToastMessage>, id: nat)
    requires forall k :: 0 <= k < |current| ==> current[k].id != id
    ensures WithoutToast(current, id) == current
    decreases |current|
  {
    if |current| > 0 {
      RemoveAbsent(current[1..], id);
      assert current == [current[0]] + current[1..];
    }
  }

  /** Removing twice is removing once. */
  lemma RemoveIdempotent(current: seq<ToastMessage>, id: nat)
    ensures WithoutToast(WithoutToast(current, id), id) == WithoutToast(current, id)
  {
    var r := WithoutToast(current, id);
    RemoveMembership(current, id);
    forall k | 0 <= k < |r| ensures r[k].id != id {
      assert r[k] in r;
    }
    RemoveAbsent(r, id);
  }

  /** Removal keeps the bound and the order of ids, and only keeps ids that were there. */
  lemma {:induction false} RemoveKeepsInvariant(current: seq<ToastMessage>, id: nat)
    requires IdsIncreasing(current)
    ensures var r := WithoutToast(current, id);
      && |r| <= |current| && IdsIncreasing(r)
      && forall k :: 0 <= k < |r| ==> r[k] in current
    decreases |current|
  {
    if |current| > 0 {
      var rest := WithoutToast(current[1..], id);
      RemoveKeepsInvariant(current[1..], id);
      var r := WithoutToast(current, id);
      forall k | 0 <= k < |rest| ensures current[0].id < rest[k].id {
        var m :| 0 < m < |current| && current[m] == rest[k] by {
          assert rest[k] in current[1..];
        }
      }
      assert forall k :: 0 <= k < |r| ==> r[k] in current by {
        assert current == [current[0]] + current[1..];
      }
    }
  }
}
