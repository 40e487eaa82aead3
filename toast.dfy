/**
 * The toast store (`toast.tsx`): the list of shown toasts, the timers that
 * remove a toast once its duration has passed, and the four `useToast`
 * helpers. The random id of a new toast is a parameter; a timer is a pending
 * removal that fires as an explicit event.
 */
module Toasts {
  import opened Common

  datatype ToastType = Success | Error | Info | Warning

  datatype Toast = Toast(id: string, message: string, kind: ToastType, duration: Option<int>)

  /** A `setTimeout` that will remove the toast `id` after `delay` milliseconds. */
  datatype Timer = Timer(id: string, delay: int)

  /** `toast.duration ?? 3000`. */
  function EffectiveDuration(duration: Option<int>): int
  {
    if duration.None? then 3000 else duration.value
  }

  /** The removal timer a new toast schedules: one exactly when its duration is positive. */
  function TimersFor(id: string, duration: Option<int>): (r: seq<Timer>)
    ensures |r| <= 1
    ensures r != [] <==> EffectiveDuration(duration) > 0
    ensures forall t :: t in r ==> t.id == id && t.delay > 0
  {
    if EffectiveDuration(duration) > 0 then [Timer(id, EffectiveDuration(duration))] else []
  }

  /** Without a duration a toast is removed after three seconds; with one of at most 0 it stays. */
  lemma DurationRule(id: string, d: int)
    ensures TimersFor(id, None) == [Timer(id, 3000)]
    ensures d <= 0 ==> TimersFor(id, Some(d)) == []
    ensures d > 0 ==> TimersFor(id, Some(d)) == [Timer(id, d)]
  {
  }

  /** `toasts.filter((t) => t.id !== id)`. */
  function Without(toasts: seq<Toast>, id: string): seq<Toast>
  {
    Filter(toasts, (t: Toast) => t.id != id)
  }

  /** Removal drops every toast with the id, keeps every other toast as often as it was there, and never grows the list. */
  lemma WithoutMeaning(toasts: seq<Toast>, id: string)
    ensures |Without(toasts, id)| <= |toasts|
    ensures forall t :: t in Without(toasts, id) <==> t in toasts && t.id != id
    ensures forall t: Toast :: t.id != id ==> multiset(Without(toasts, id))[t] == multiset(toasts)[t]
  {
    forall t: Toast | t.id != id
      ensures multiset(Without(toasts, id))[t] == multiset(toasts)[t]
    {
      FilterCount(toasts, (u: Toast) => u.id != id, t);
    }
  }

  /** Removal keeps the order of the rest: removing from two lists one after the other is removing from each. */
  lemma WithoutKeepsOrder(a: seq<Toast>, b: seq<Toast>, id: string)
    ensures Without(a + b, id) == Without(a, id) + Without(b, id)
  {
    FilterAppend(a, b, (t: Toast) => t.id != id);
  }

  /** Removing an id no toast has changes nothing; removing twice is removing once. */
  lemma WithoutAbsentAndTwice(toasts: seq<Toast>, id: string)
    ensures (forall i :: 0 <= i < |toasts| ==> toasts[i].id != id) ==> Without(toasts, id) == toasts
    ensures Without(Without(toasts, id), id) == Without(toasts, id)
  {
    var f := (t: Toast) => t.id != id;
    if forall i :: 0 <= i < |toasts| ==> toasts[i].id != id {
      FilterAll(toasts, f);
    }
    var w := Without(toasts, id);
    assert forall i :: 0 <= i < |w| ==> w[i] in w;
    FilterAll(w, f);
  }

  /** Removals of two ids commute. */
  lemma WithoutCommutes(toasts: seq<Toast>, a: string, b: string)
    ensures Without(Without(toasts, a), b) == Without(Without(toasts, b), a)
  {
    var both := (t: Toast) => t.id != a && t.id != b;
    FilterFilter(toasts, (t: Toast) => t.id != a, (t: Toast) => t.id != b, both);
    FilterFilter(toasts, (t: Toast) => t.id != b, (t: Toast) => t.id != a, both);
  }

  /** A toast added with an id no shown toast has, and then removed by that id, leaves the list as it was. */
  lemma AddThenRemove(toasts: seq<Toast>, t: Toast)
    requires forall i :: 0 <= i < |toasts| ==> toasts[i].id != t.id
    ensures Without(toasts + [t], t.id) == toasts
  {
    WithoutKeepsOrder(toasts, [t], t.id);
    WithoutAbsentAndTwice(toasts, t.id);
    assert Without([t], t.id) == [];
  }

  /** The store of `useToastStore`. */
  class Store {
    var toasts: seq<Toast>
    var timers: seq<Timer>

    constructor()
      ensures toasts == [] && timers == []
    {
      toasts := [];
      timers := [];
    }

    /** `addToast`: the toast, under the id `id`, goes after the others, and its removal is scheduled. */
    method AddToast(message: string, kind: ToastType, duration: Option<int>, id: string)
      modifies this
      ensures toasts == old(toasts) + [Toast(id, message, kind, duration)]
      ensures timers == old(timers) + TimersFor(id, duration)
    {
      toasts := toasts + [Toast(id, message, kind, duration)];
      var d := if duration.Some? then duration.value else 3000;
      if d > 0 {
        timers := timers + [Timer(id, d)];
      }
    }

    /** `removeToast`, from the close button. */
    method RemoveToast(id: string)
      modifies this
      ensures toasts == Without(old(toasts), id) && timers == old(timers)
    {
      toasts := Filter(toasts, (t: Toast) => t.id != id);
    }

    /** The `k`-th pending timer fires: its toast is removed, however it was closed before. */
    method Fire(k: nat)
      requires k < |timers|
      modifies this
      ensures toasts == Without(old(toasts), old(timers)[k].id)
      ensures timers == RemoveAt(old(timers), k)
    {
      var id := timers[k].id;
      toasts := Filter(toasts, (t: Toast) => t.id != id);
      timers := timers[..k] + timers[k + 1..];
    }

    /** `toast.success`. */
    method ShowSuccess(message: string, duration: Option<int>, id: string)
      modifies this
      ensures toasts == old(toasts) + [Toast(id, message, Success, duration)]
      ensures timers == old(timers) + TimersFor(id, duration)
    {
      AddToast(message, Success, duration, id);
    }

    /** `toast.error`. */
    method ShowError(message: string, duration: Option<int>, id: string)
      modifies this
      ensures toasts == old(toasts) + [Toast(id, message, Error, duration)]
      ensures timers == old(timers) + TimersFor(id, duration)
    {
      AddToast(message, Error, duration, id);
    }

    /** `toast.info`. */
    method ShowInfo(message: string, duration: Option<int>, id: string)
      modifies this
      ensures toasts == old(toasts) + [Toast(id, message, Info, duration)]
      ensures timers == old(timers) + TimersFor(id, duration)
    {
      AddToast(message, Info, duration, id);
    }

    /** `toast.warning`. */
    method ShowWarning(message: string, duration: Option<int>, id: string)
      modifies this
      ensures toasts == old(toasts) + [Toast(id, message, Warning, duration)]
      ensures timers == old(timers) + TimersFor(id, duration)
    {
      AddToast(message, Warning, duration, id);
    }
  }
}
