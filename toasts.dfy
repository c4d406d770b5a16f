/**
 * The toast queue of components/ToastProvider.tsx: a module-level id counter
 * shared by every provider, and each provider's list of visible toasts.
 * The 4-second `setTimeout` that removes a toast is the explicit `Expire`.
 */
module Toasts {
  import opened Wrappers
  import opened Seqs

  datatype ToastKind = Success | Error | Info

  /** A toast request as a page issues it: `toast(message, kind)`. */
  datatype Notice = Notice(message: string, kind: ToastKind)

  datatype Toast = Toast(id: nat, message: string, kind: ToastKind)

  /** An omitted type defaults to "info". */
  function KindOrDefault(kind: Option<ToastKind>): (k: ToastKind)
    ensures kind.None? ==> k == Info
    ensures kind.Some? ==> k == kind.value
  {
    kind.GetOr(Info)
  }

  /** `prev.filter((t) => t.id !== id)`. */
  function Expired(toasts: seq<Toast>, id: nat): (r: seq<Toast>)
    ensures |r| <= |toasts|
    ensures forall t :: t in r <==> t in toasts && t.id != id
  {
    Filter(toasts, (t: Toast) => t.id != id)
  }

  /** Ids strictly increase along the list, so they are pairwise distinct. */
  predicate IdsIncreasing(toasts: seq<Toast>) {
    forall i, j :: 0 <= i < j < |toasts| ==> toasts[i].id < toasts[j].id
  }

  /** Expiry removes exactly the toasts with that id and keeps the others. */
  lemma ExpiredMembers(toasts: seq<Toast>, id: nat, t: Toast)
    ensures t in Expired(toasts, id) <==> t in toasts && t.id != id
  {
  }

  /** Expiring an id that is no longer shown leaves the list as it was. */
  lemma ExpireAbsentIsNoop(toasts: seq<Toast>, id: nat)
    requires forall i :: 0 <= i < |toasts| ==> toasts[i].id != id
    ensures Expired(toasts, id) == toasts
  {
    FilterKeepsAll(toasts, (t: Toast) => t.id != id);
  }

  /** Filtering keeps the ids in increasing order. */
  lemma {:induction false} ExpiredKeepsOrder(toasts: seq<Toast>, id: nat)
    requires IdsIncreasing(toasts)
    ensures IdsIncreasing(Expired(toasts, id))
    decreases |toasts|
  {
    if toasts != [] {
      var rest := Expired(toasts[1..], id);
      ExpiredKeepsOrder(toasts[1..], id);
      forall t | t in rest ensures toasts[0].id < t.id {
        assert t in toasts[1..];
      }
    }
  }

  /** The module-level `toastId` counter, shared by all providers. */
  class IdCounter {
    var last: nat

    constructor ()
      ensures last == 0
    {
      last := 0;
    }
  }

  class ToastProvider {
    const counter: IdCounter
    var toasts: seq<Toast>

    /** Ids increase along the list and none is beyond the last one issued. */
    ghost predicate Valid()
      reads this, counter
    {
      IdsIncreasing(toasts) && forall i :: 0 <= i < |toasts| ==> 1 <= toasts[i].id <= counter.last
    }

    constructor (counter: IdCounter)
      ensures Valid() && this.counter == counter && toasts == []
    {
      this.counter := counter;
      toasts := [];
    }

    /** `toast(message, type)`: take the next id and append the toast at the end. */
    method Push(message: string, kind: Option<ToastKind>) returns (id: nat)
      requires Valid()
      modifies this, counter
      ensures Valid()
      ensures id == old(counter.last) + 1 && counter.last == id
      ensures toasts == old(toasts) + [Toast(id, message, KindOrDefault(kind))]
    {
      counter.last := counter.last + 1;
      id := counter.last;
      toasts := toasts + [Toast(id, message, KindOrDefault(kind))];
    }

    /** The timer of toast `id` fired: remove it. */
    method Expire(id: nat)
      requires Valid()
      modifies this
      ensures Valid()
      ensures toasts == Expired(old(toasts), id)
    {
      ExpiredKeepsOrder(toasts, id);
      var kept := Expired(toasts, id);
      forall i | 0 <= i < |kept| ensures 1 <= kept[i].id <= counter.last {
        assert kept[i] in toasts;
      }
      toasts := kept;
    }
  }

  /** `useToast().toast(...)`: outside a provider the default context's `toast` does nothing. */
  method Emit(provider: ToastProvider?, message: string, kind: Option<ToastKind>)
    requires provider != null ==> provider.Valid()
    modifies if provider == null then {} else {provider, provider.counter}
    ensures provider != null ==> provider.Valid()
    ensures provider != null ==>
              provider.toasts == old(provider.toasts) + [Toast(provider.counter.last, message, KindOrDefault(kind))]
              && provider.counter.last == old(provider.counter.last) + 1
  {
    if provider != null {
      var _ := provider.Push(message, kind);
    }
  }
}
