/** Toast notifications: a module-level counter numbers every toast `toast-N`, every
    mounted container is a listener that keeps its own list, and an event whose message is
    empty is the request to remove the toast with that id. */
module Toasts {
  import opened Seqs
  import opened Text

  datatype ToastType = Success | Error | Warning | Info

  datatype Toast = Toast(id: string, message: string, kind: ToastType)

  /** A `showToast(message, kind)` call made by a page. */
  datatype Notice = Notice(message: string, kind: ToastType)

  /** The defaults of `showToast(message, type = 'info', duration = 4000)`. */
  const DefaultType := Info
  const DefaultDurationMs: int := 4000
  const IdPrefix := "toast-"

  /** The id of the `n`-th toast. */
  function ToastId(n: nat): (id: string)
    ensures IdPrefix <= id && id[|IdPrefix|..] == DecimalString(n)
  {
    IdPrefix + DecimalString(n)
  }

  /** Different counter values give different ids. */
  lemma ToastIdInjective(a: nat, b: nat)
    requires ToastId(a) == ToastId(b)
    ensures a == b
  {
    DecimalStringInjective(a, b);
  }

  function Id(t: Toast): string
  {
    t.id
  }

  /** No two toasts of the list share an id. */
  ghost predicate UniqueIds(list: seq<Toast>)
  {
    UniqueBy(list, Id)
  }

  /** `prev.find(t => t.id === id)` found something. */
  function HasId(list: seq<Toast>, id: string): (b: bool)
    ensures b <==> exists i :: 0 <= i < |list| && list[i].id == id
  {
    exists t :: t in list && t.id == id
  }

  /** The filter predicate `t => t.id !== id`. */
  function NotId(id: string): Toast -> bool
  {
    (t: Toast) => t.id != id
  }

  /** `handleToast`: the listener's update of its list for one event. */
  function HandleToast(prev: seq<Toast>, t: Toast): (next: seq<Toast>)
    ensures t.message == "" ==> (forall x :: x in next <==> x in prev && x.id != t.id) && IsSubsequence(next, prev)
    ensures t.message == "" ==> forall x: Toast :: x.id != t.id ==> multiset(next)[x] == multiset(prev)[x]
    ensures t.message != "" && HasId(prev, t.id) ==> next == prev
    ensures t.message != "" && !HasId(prev, t.id) ==> next == prev + [t]
  {
    if t.message == "" then
      FilterIsSubsequence(prev, NotId(t.id));
      Filter(prev, NotId(t.id))
    else if HasId(prev, t.id) then prev
    else prev + [t]
  }

  /** Every event keeps the ids of a list distinct. */
  lemma {:induction false} HandleToastKeepsIdsUnique(prev: seq<Toast>, t: Toast)
    requires UniqueIds(prev)
    ensures UniqueIds(HandleToast(prev, t))
  {
    if t.message == "" {
      FilterKeepsUniqueBy(prev, NotId(t.id), Id);
    } else if !HasId(prev, t.id) {
      var next := prev + [t];
      forall i, j | 0 <= i < j < |next| ensures Id(next[i]) != Id(next[j]) {
        if j == |prev| {
          assert next[i] in prev;
        } else {
          assert next[i] == prev[i] && next[j] == prev[j];
        }
      }
    }
  }

  /** Adding a toast whose id is present changes nothing, so adding twice is adding once. */
  lemma AddIsIdempotent(prev: seq<Toast>, t: Toast)
    requires t.message != ""
    ensures HandleToast(HandleToast(prev, t), t) == HandleToast(prev, t)
  {
    if !HasId(prev, t.id) {
      assert t in prev + [t];
    }
  }

  /** The list after a sequence of events, each applied to the result of the one before. */
  function Replay(list: seq<Toast>, events: seq<Toast>): seq<Toast>
    decreases |events|
  {
    if events == [] then list else Replay(HandleToast(list, events[0]), events[1..])
  }

  /** The ids of a list stay distinct across any sequence of events. */
  lemma {:induction false} ReplayKeepsIdsUnique(list: seq<Toast>, events: seq<Toast>)
    requires UniqueIds(list)
    ensures UniqueIds(Replay(list, events))
    decreases |events|
  {
    if events != [] {
      HandleToastKeepsIdsUnique(list, events[0]);
      ReplayKeepsIdsUnique(HandleToast(list, events[0]), events[1..]);
    }
  }

  /** The next id of the counter has not been handed out, and handing it out keeps every
      issued id equal to the id of its counter value. */
  lemma NextIdIsFresh(issued: seq<string>)
    requires forall i :: 0 <= i < |issued| ==> issued[i] == ToastId(i + 1)
    ensures ToastId(|issued| + 1) !in issued
    ensures var next := issued + [ToastId(|issued| + 1)];
            forall i :: 0 <= i < |next| ==> next[i] == ToastId(i + 1)
  {
    forall i | 0 <= i < |issued| ensures issued[i] != ToastId(|issued| + 1) {
      if issued[i] == ToastId(|issued| + 1) {
        ToastIdInjective(i + 1, |issued| + 1);
      }
    }
  }

  /** Delivering one event to every mounted listener. */
  function Broadcast(lists: map<nat, seq<Toast>>, t: Toast): (r: map<nat, seq<Toast>>)
    ensures r.Keys == lists.Keys
    ensures forall c :: c in r ==> r[c] == HandleToast(lists[c], t)
  {
    map c | c in lists :: HandleToast(lists[c], t)
  }

  /** Every list keeps its ids distinct and shows only toasts whose ids were handed out. */
  ghost predicate ListsWithin(lists: map<nat, seq<Toast>>, issued: seq<string>)
  {
    forall c :: c in lists ==> UniqueIds(lists[c]) && forall x :: x in lists[c] ==> x.id in issued
  }

  /** A toast whose id was never handed out is appended to a list of handed-out toasts, or,
      with an empty message, leaves it as it is. */
  lemma DeliverFreshToast(list: seq<Toast>, t: Toast, issued: seq<string>)
    requires UniqueIds(list) && t.id !in issued
    requires forall x :: x in list ==> x.id in issued
    ensures HandleToast(list, t) == if t.message == "" then list else list + [t]
  {
    if t.message == "" {
      FilterKeepsAll(list, NotId(t.id));
    } else {
      assert !HasId(list, t.id);
    }
  }

  /** Broadcasting a freshly numbered toast appends it to every list (or changes nothing when
      its message is empty) and keeps every list within the handed-out ids. */
  lemma BroadcastFresh(lists: map<nat, seq<Toast>>, t: Toast, issued: seq<string>)
    requires ListsWithin(lists, issued) && t.id !in issued
    ensures ListsWithin(Broadcast(lists, t), issued + [t.id])
    ensures t.message == "" ==> Broadcast(lists, t) == lists
    ensures t.message != "" ==> forall c :: c in lists ==> Broadcast(lists, t)[c] == lists[c] + [t]
  {
    var r := Broadcast(lists, t);
    forall c | c in lists
      ensures r[c] == (if t.message == "" then lists[c] else lists[c] + [t])
      ensures UniqueIds(r[c])
    {
      DeliverFreshToast(lists[c], t, issued);
      HandleToastKeepsIdsUnique(lists[c], t);
    }
  }

  /** Broadcasting a removal keeps every list within the handed-out ids. */
  lemma BroadcastRemoval(lists: map<nat, seq<Toast>>, t: Toast, issued: seq<string>)
    requires ListsWithin(lists, issued) && t.message == ""
    ensures ListsWithin(Broadcast(lists, t), issued)
  {
    forall c | c in lists ensures UniqueIds(Broadcast(lists, t)[c]) {
      HandleToastKeepsIdsUnique(lists[c], t);
    }
  }

  /** A pending `setTimeout(() => removeToast(id), delay)`. */
  datatype Timer = Timer(id: string, delayMs: int)

  /** The hub's invariant on its field values: `issued` lists the ids the counter has handed
      out, in order; every container handle is below the next one; and every list keeps its
      ids distinct and within the issued ids. */
  ghost predicate HubInvariant(toastId: nat, containers: map<nat, seq<Toast>>, nextHandle: nat, issued: seq<string>)
  {
    && |issued| == toastId
    && (forall i :: 0 <= i < |issued| ==> issued[i] == ToastId(i + 1))
    && (forall c :: c in containers ==> c < nextHandle)
    && ListsWithin(containers, issued)
  }

  /** Numbering a toast with the next counter value and broadcasting it keeps the invariant,
      and the toast is appended to every list unless its message is empty. */
  lemma ShowKeepsInvariant(toastId: nat, containers: map<nat, seq<Toast>>, nextHandle: nat, issued: seq<string>, t: Toast)
    requires HubInvariant(toastId, containers, nextHandle, issued) && t.id == ToastId(toastId + 1)
    ensures t.id !in issued
    ensures HubInvariant(toastId + 1, Broadcast(containers, t), nextHandle, issued + [t.id])
    ensures t.message == "" ==> Broadcast(containers, t) == containers
    ensures t.message != "" ==> forall c :: c in containers ==> Broadcast(containers, t)[c] == containers[c] + [t]
  {
    NextIdIsFresh(issued);
    BroadcastFresh(containers, t, issued);
  }

  /** The module state: the `toastId` counter, the listener set as one toast list per mounted
      container (keyed by a handle), and the removal timers that `showToast` scheduled. */
  class ToastHub {
    var toastId: nat
    var containers: map<nat, seq<Toast>>
    var nextHandle: nat
    var timers: seq<Timer>
    ghost var issued: seq<string>

    ghost predicate Valid()
      reads this
    {
      HubInvariant(toastId, containers, nextHandle, issued)
    }

    constructor ()
      ensures Valid()
      ensures toastId == 0 && containers == map[] && timers == [] && issued == []
    {
      toastId := 0;
      containers := map[];
      nextHandle := 0;
      timers := [];
      issued := [];
    }

    /** Mounting a `ToastContainer`: `listeners.add(handleToast)` with an empty list. */
    method Mount() returns (handle: nat)
      requires Valid()
      modifies this`containers, this`nextHandle
      ensures Valid()
      ensures handle !in old(containers) && containers == old(containers)[handle := []]
    {
      handle := nextHandle;
      containers := containers[handle := []];
      nextHandle := nextHandle + 1;
    }

    /** Unmounting it: `listeners.delete(handleToast)`. */
    method Unmount(handle: nat)
      requires Valid()
      modifies this`containers
      ensures Valid()
      ensures containers == old(containers) - {handle}
    {
      containers := containers - {handle};
    }

    /** `showToast`: pre-increment the counter, deliver the toast to every listener, and
        schedule its removal when the duration is positive. */
    method ShowToast(message: string, kind: ToastType, durationMs: int) returns (id: string)
      requires Valid()
      modifies this`toastId, this`containers, this`timers, this`issued
      ensures Valid()
      ensures toastId == old(toastId) + 1 && id == ToastId(toastId)
      ensures id !in old(issued) && issued == old(issued) + [id]
      ensures containers == Broadcast(old(containers), Toast(id, message, kind))
      ensures message != "" ==>
                forall c :: c in containers ==> containers[c] == old(containers)[c] + [Toast(id, message, kind)]
      ensures message == "" ==> containers == old(containers)
      ensures timers == old(timers) + (if durationMs > 0 then [Timer(id, durationMs)] else [])
    {
      id := ToastId(toastId + 1);
      var t := Toast(id, message, kind);
      ShowKeepsInvariant(toastId, containers, nextHandle, issued, t);
      toastId := toastId + 1;
      containers := Broadcast(containers, t);
      issued := issued + [id];
      timers := timers + if durationMs > 0 then [Timer(id, durationMs)] else [];
    }

    /** A `showToast` call whose omitted arguments take the declared defaults: `None` stands
        for an argument left out, which makes the kind `info` and the duration 4000 ms. */
    method ShowToastWithDefaults(message: string, kind: Option<ToastType>, durationMs: Option<int>)
      returns (id: string)
      requires Valid()
      modifies this`toastId, this`containers, this`timers, this`issued
      ensures Valid()
      ensures toastId == old(toastId) + 1 && id == ToastId(toastId)
      ensures id !in old(issued) && issued == old(issued) + [id]
      ensures kind.None? ==> containers == Broadcast(old(containers), Toast(id, message, Info))
      ensures kind.Some? ==> containers == Broadcast(old(containers), Toast(id, message, kind.value))
      ensures durationMs.None? ==> timers == old(timers) + [Timer(id, 4000)]
      ensures durationMs.Some? ==>
                timers == old(timers) + (if durationMs.value > 0 then [Timer(id, durationMs.value)] else [])
    {
      var k := if kind.Some? then kind.value else DefaultType;
      var d := if durationMs.Some? then durationMs.value else DefaultDurationMs;
      id := ShowToast(message, k, d);
    }

    /** `removeToast`: deliver an empty-message event for `id` to every listener. */
    method RemoveToast(id: string)
      requires Valid()
      modifies this`containers
      ensures Valid()
      ensures containers == Broadcast(old(containers), Toast(id, "", Info))
    {
      BroadcastRemoval(containers, Toast(id, "", Info), issued);
      containers := Broadcast(containers, Toast(id, "", Info));
    }
  }

  /** The counter hands out pairwise distinct ids. */
  lemma IssuedIdsDistinct(hub: ToastHub)
    requires hub.Valid()
    ensures forall i, j :: 0 <= i < j < |hub.issued| ==> hub.issued[i] != hub.issued[j]
  {
    forall i, j | 0 <= i < j < |hub.issued| ensures hub.issued[i] != hub.issued[j] {
      if hub.issued[i] == hub.issued[j] {
        ToastIdInjective(i + 1, j + 1);
      }
    }
  }
}
