/**
  * The lightboard's toast list: showing a toast appends it and keeps only the
  * newest five; hiding removes the toasts with an id; a toast with a positive
  * duration gets a dismissal timer, which fires through `DismissalFires`.
  * The clock and the random part of a toast's id are parameters.
  */
module Toasts {
  import opened Wrappers
  import opened Text

  datatype ToastType = Success | Error | Info | Warning

  datatype Toast = Toast(id: string, message: string, toastType: ToastType, duration: int)

  const MaxToasts: nat := 5
  const DefaultDuration: int := 3000

  /** `arr.slice(-n)`: the last `n` elements, or all of them when there are fewer. */
  function Newest<T>(s: seq<T>, n: nat): (r: seq<T>)
    ensures |r| == if |s| < n then |s| else n
    ensures r == s[|s| - |r|..]
  {
    if |s| <= n then s else s[|s| - n..]
  }

  /** `prev.filter((toast) => toast.id !== id)` */
  function WithoutId(s: seq<Toast>, id: string): (r: seq<Toast>)
    ensures |r| <= |s|
    ensures forall t :: t in r <==> t in s && t.id != id
  {
    if s == [] then []
    else (if s[0].id == id then [] else [s[0]]) + WithoutId(s[1..], id)
  }

  /** Filtering keeps the relative order: the result is a subsequence of the list. */
  predicate IsSubsequence(r: seq<Toast>, s: seq<Toast>) {
    r == [] || (s != [] && ((r[0] == s[0] && IsSubsequence(r[1..], s[1..])) || IsSubsequence(r, s[1..])))
  }

  lemma {:induction false} WithoutIdOrdered(s: seq<Toast>, id: string)
    ensures IsSubsequence(WithoutId(s, id), s)
  {
    if s != [] {
      WithoutIdOrdered(s[1..], id);
      var rest := WithoutId(s[1..], id);
      if s[0].id != id {
        assert WithoutId(s, id) == [s[0]] + rest;
        assert ([s[0]] + rest)[1..] == rest;
      } else {
        assert WithoutId(s, id) == rest;
      }
    }
  }

  /** An unknown id leaves the list as it is. */
  lemma {:induction false} HideUnknown(s: seq<Toast>, id: string)
    requires forall t :: t in s ==> t.id != id
    ensures WithoutId(s, id) == s
  {
    if s != [] {
      HideUnknown(s[1..], id);
      assert s == [s[0]] + s[1..];
    }
  }

  /** `toast-<now>-<random>` */
  function ToastId(now: nat, random: string): string {
    "toast-" + NatToString(now) + "-" + random
  }

  /** The list after `showToast`: the new toast appended, the oldest dropped beyond five. */
  function Shown(toasts: seq<Toast>, t: Toast): (r: seq<Toast>)
    ensures |r| == if |toasts| < MaxToasts then |toasts| + 1 else MaxToasts
    ensures r[|r| - 1] == t
    ensures r[..|r| - 1] == toasts[|toasts| + 1 - |r|..]
  {
    var r := Newest(toasts + [t], MaxToasts);
    assert r[..|r| - 1] == toasts[|toasts| + 1 - |r|..];
    r
  }

  /** A dismissal timer: the toast id it hides. */
  datatype Timer = Timer(toastId: string, delayMs: int)

  class ToastProvider {
    var toasts: seq<Toast>
    /** The dismissal timers set and not yet fired. */
    var timers: seq<Timer>

    ghost predicate Valid()
      reads this
    {
      |toasts| <= MaxToasts && forall i :: 0 <= i < |timers| ==> timers[i].delayMs > 0
    }

    constructor ()
      ensures toasts == [] && timers == [] && Valid()
    {
      toasts := [];
      timers := [];
    }

    /** `showToast(message, type, duration)`: a missing duration is 3000, and only a positive one sets a timer. */
    method ShowToast(message: string, toastType: ToastType, duration: Option<int>, now: nat, random: string)
      returns (t: Toast)
      requires Valid()
      modifies this
      ensures Valid()
      ensures t == Toast(ToastId(now, random), message, toastType, duration.GetOr(DefaultDuration))
      ensures toasts == Shown(old(toasts), t)
      ensures t.duration > 0 ==> timers == old(timers) + [Timer(t.id, t.duration)]
      ensures t.duration <= 0 ==> timers == old(timers)
    {
      var d := if duration.Some? then duration.value else DefaultDuration;
      t := Toast(ToastId(now, random), message, toastType, d);
      var updated := toasts + [t];
      toasts := if |updated| <= MaxToasts then updated else updated[|updated| - MaxToasts..];
      if d > 0 {
        timers := timers + [Timer(t.id, d)];
      }
    }

    /** `hideToast(id)` */
    method HideToast(id: string)
      requires Valid()
      modifies this
      ensures Valid()
      ensures toasts == WithoutId(old(toasts), id) && timers == old(timers)
    {
      toasts := WithoutId(toasts, id);
    }

    /** A pending timer fires, in whatever order the delays bring, and hides its toast. */
    method DismissalFires(i: nat)
      requires Valid() && i < |timers|
      modifies this
      ensures Valid()
      ensures toasts == WithoutId(old(toasts), old(timers)[i].toastId)
      ensures timers == old(timers)[..i] + old(timers)[i + 1..]
    {
      var id := timers[i].toastId;
      timers := timers[..i] + timers[i + 1..];
      HideToast(id);
    }
  }
}
