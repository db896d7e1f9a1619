/**
 * The toast container: every notification received is appended to the list and later removed
 * by identity, either by its close button or after its display time. Each received notification
 * is a distinct object; the model gives it a distinct `id` that stands for that identity.
 */
module Toasts {
  import opened Base
  import Seqs
  import opened Notifications

  const DefaultDelay := 3000

  datatype Toast = Toast(id: nat, note: Notification)

  /** `notification.duration || 3000`: an absent or zero duration falls back to 3000 ms. */
  function DismissDelay(n: Notification): (r: int)
    ensures n.duration.Some? && n.duration.value != 0 ==> r == n.duration.value
    ensures n.duration.None? || n.duration == Some(0) ==> r == DefaultDelay
  {
    match n.duration
    case Some(d) => if d != 0 then d else DefaultDelay
    case None => DefaultDelay
  }

  /** `toasts.filter(toast => toast !== toastToRemove)`, identity being the id. */
  function Without(toasts: seq<Toast>, id: nat): seq<Toast> {
    Seqs.Filter(toasts, (t: Toast) => t.id != id)
  }

  /**
   * Removal keeps every other toast in its relative order, drops every entry with that identity,
   * and never makes the list longer.
   */
  lemma WithoutSpec(toasts: seq<Toast>, id: nat)
    ensures Seqs.IsSubsequence(Without(toasts, id), toasts)
    ensures |Without(toasts, id)| <= |toasts|
    ensures forall t :: t in Without(toasts, id) <==> t in toasts && t.id != id
  {
    Seqs.FilterIsSubsequence(toasts, (t: Toast) => t.id != id);
  }

  /** Removing a toast that is not shown leaves the list unchanged. */
  lemma WithoutAbsent(toasts: seq<Toast>, id: nat)
    requires forall i :: 0 <= i < |toasts| ==> toasts[i].id != id
    ensures Without(toasts, id) == toasts
  {
    Seqs.FilterKeepsAll(toasts, (t: Toast) => t.id != id);
  }

  /** Removing the same toast twice is removing it once. */
  lemma WithoutTwice(toasts: seq<Toast>, id: nat)
    ensures Without(Without(toasts, id), id) == Without(toasts, id)
  {
    Seqs.FilterIdempotent(toasts, (t: Toast) => t.id != id);
  }

  /** Two removals give the same list in either order. */
  lemma WithoutCommutes(toasts: seq<Toast>, a: nat, b: nat)
    ensures Without(Without(toasts, a), b) == Without(Without(toasts, b), a)
  {
    Seqs.FilterFuse(toasts, (t: Toast) => t.id != a, (t: Toast) => t.id != b, (t: Toast) => t.id != a && t.id != b);
    Seqs.FilterFuse(toasts, (t: Toast) => t.id != b, (t: Toast) => t.id != a, (t: Toast) => t.id != a && t.id != b);
  }

  /** A toast just appended is the last entry, and removing it restores the earlier list. */
  lemma RemoveAfterAppend(toasts: seq<Toast>, t: Toast)
    requires forall i :: 0 <= i < |toasts| ==> toasts[i].id != t.id
    ensures Without(toasts + [t], t.id) == toasts
  {
    Seqs.FilterAppend(toasts, [t], (u: Toast) => u.id != t.id);
    WithoutAbsent(toasts, t.id);
  }

  class ToastContainer {
    var toasts: seq<Toast>
    /** The identity the next received notification gets. */
    var nextId: nat

    ghost predicate Valid()
      reads this
    {
      forall i :: 0 <= i < |toasts| ==> toasts[i].id < nextId
    }

    constructor()
      ensures Valid() && toasts == []
    {
      toasts := [];
      nextId := 0;
    }

    /** The subscriber: the notification is appended and its auto-dismiss delay chosen. */
    method OnNotification(n: Notification) returns (t: Toast, delay: int)
      requires Valid()
      modifies this
      ensures Valid()
      ensures toasts == old(toasts) + [t] && t.note == n
      ensures forall i :: 0 <= i < |old(toasts)| ==> old(toasts)[i].id != t.id
      ensures delay == DismissDelay(n)
    {
      t := Toast(nextId, n);
      nextId := nextId + 1;
      toasts := toasts + [t];
      delay := DismissDelay(n);
    }

    /** `removeToast`: the list is replaced by a copy without that toast. */
    method RemoveToast(t: Toast)
      requires Valid()
      modifies this`toasts
      ensures Valid()
      ensures toasts == Without(old(toasts), t.id)
      ensures t !in toasts && |toasts| <= |old(toasts)|
    {
      WithoutSpec(toasts, t.id);
      toasts := Without(toasts, t.id);
      forall i | 0 <= i < |toasts|
        ensures toasts[i].id < nextId
      {
        assert toasts[i] in old(toasts);
      }
    }
  }
}
