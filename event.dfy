/**
 * The event system (core/event.c): for every event code below
 * MAX_MESSAGE_CODES an optional list of (listener, callback) registrations.
 * A code with no list is a key absent from `registered` (a NULL darray in C);
 * each list is a dynamic array in C and its contents here.
 *
 * Listeners and callbacks are opaque addresses. What a callback answers when
 * an event is fired is a parameter of Fire: `respond(r)` is the result of
 * calling `r.callback` with the event's code, sender, `r.listener` and
 * context.
 */
module Event {
  import opened Common
  import Containers

  const MAX_MESSAGE_CODES: nat := 16384

  datatype Registration = Registration(listener: nat, callback: nat)

  /** The list of a code, an absent list reading as empty. */
  function ListOf(registered: map<nat, seq<Registration>>, code: nat): seq<Registration>
  {
    if code in registered then registered[code] else []
  }

  predicate HasListener(list: seq<Registration>, listener: nat)
  {
    exists i :: 0 <= i < |list| && list[i].listener == listener
  }

  /** No listener is registered twice for the same code. */
  predicate DistinctListeners(list: seq<Registration>)
  {
    forall i, j :: 0 <= i < j < |list| ==> list[i].listener != list[j].listener
  }

  /** The first position of `reg` (same listener and same callback) in `list`. */
  function IndexOf(list: seq<Registration>, reg: Registration): (r: Option<nat>)
    ensures r.None? <==> reg !in list
    ensures r.Some? ==> r.value < |list| && list[r.value] == reg
    ensures r.Some? ==> forall k :: 0 <= k < r.value ==> list[k] != reg
  {
    if list == [] then None
    else if list[0] == reg then Some(0)
    else match IndexOf(list[1..], reg)
      case None => None
      case Some(i) => Some(i + 1)
  }

  /** Appending a registration whose listener is new keeps listeners distinct. */
  lemma AppendKeepsDistinct(list: seq<Registration>, reg: Registration)
    requires DistinctListeners(list) && !HasListener(list, reg.listener)
    ensures DistinctListeners(list + [reg])
  {
    var l := list + [reg];
    forall i, j | 0 <= i < j < |l| ensures l[i].listener != l[j].listener {
      if j == |list| {
        assert l[i] == list[i];
      }
    }
  }

  /** Removing a registration keeps listeners distinct. */
  lemma RemoveKeepsDistinct(list: seq<Registration>, i: nat)
    requires i < |list| && DistinctListeners(list)
    ensures DistinctListeners(Containers.RemovedAt(list, i))
  {
    var l := Containers.RemovedAt(list, i);
    forall a, b | 0 <= a < b < |l| ensures l[a].listener != l[b].listener {
      var a' := if a < i then a else a + 1;
      var b' := if b < i then b else b + 1;
      assert l[a] == list[a'] && l[b] == list[b'];
    }
  }

  /**
   * Unregistering right after a successful register of the same pair finds
   * the new entry at the end and restores the list.
   */
  lemma RegisterThenUnregister(list: seq<Registration>, reg: Registration)
    requires !HasListener(list, reg.listener)
    ensures IndexOf(list + [reg], reg) == Some(|list|)
    ensures Containers.RemovedAt(list + [reg], |list|) == list
  {
    var l := list + [reg];
    assert forall k :: 0 <= k < |list| ==> list[k].listener != reg.listener;
    assert l[|list|] == reg;
    assert l[..|list|] == list;
  }

  /**
   * In a list with distinct listeners, the listener alone decides which entry
   * unregister may remove: only an entry with that listener and that callback.
   */
  lemma UnregisterTargetUnique(list: seq<Registration>, reg: Registration, i: nat)
    requires DistinctListeners(list) && i < |list| && list[i].listener == reg.listener
    ensures IndexOf(list, reg) == (if list[i].callback == reg.callback then Some(i) else None)
  {
    if list[i].callback == reg.callback {
      assert list[i] == reg;
      var j := IndexOf(list, reg).value;
      assert list[j].listener == list[i].listener;
    } else {
      forall k | 0 <= k < |list| ensures list[k] != reg {
        if k != i {
          assert list[k].listener != list[i].listener;
        }
      }
    }
  }

  class EventSystem {
    var initialized: bool
    var registered: map<nat, seq<Registration>>

    ghost predicate Valid()
      reads this
    {
      forall code :: code in registered ==> code < MAX_MESSAGE_CODES && DistinctListeners(registered[code])
    }

    /** The static state before `event_initialize`: zeroed. */
    constructor ()
      ensures Valid() && !initialized && registered == map[]
    {
      initialized := false;
      registered := map[];
    }

    /**
     * `event_initialize`: refuses when already initialised; otherwise every
     * code loses its list and the system becomes initialised.
     */
    method Initialize() returns (ok: bool)
      requires Valid()
      modifies this
      ensures Valid() && initialized
      ensures ok == !old(initialized)
      ensures registered == if ok then map[] else old(registered)
    {
      if initialized {
        return false;
      }
      initialized := false;
      registered := map[];
      initialized := true;
      ok := true;
    }

    /**
     * `event_shutdown`: every code's list is released and becomes absent;
     * the initialised flag is left as it was.
     */
    method Shutdown()
      requires Valid()
      modifies this
      ensures Valid()
      ensures registered == map[]
      ensures initialized == old(initialized)
    {
      var i := 0;
      while i < MAX_MESSAGE_CODES
        invariant 0 <= i <= MAX_MESSAGE_CODES
        invariant Valid() && initialized == old(initialized)
        invariant forall code :: code in registered ==> code >= i
      {
        if i in registered {
          registered := registered - {i};
        }
        i := i + 1;
      }
      assert registered.Keys == {};
    }

    /**
     * `event_register`: fails when not initialised or when the listener is
     * already registered for the code (whatever its callback); otherwise
     * appends the pair to that code's list, creating the list if absent.
     */
    method Register(code: nat, listener: nat, callback: nat) returns (ok: bool)
      requires Valid() && code < MAX_MESSAGE_CODES
      modifies this
      ensures Valid() && initialized == old(initialized)
      ensures ok == (old(initialized) && !HasListener(ListOf(old(registered), code), listener))
      ensures registered == if ok
        then old(registered)[code := ListOf(old(registered), code) + [Registration(listener, callback)]]
        else old(registered)
    {
      if !initialized {
        return false;
      }
      if code !in registered {
        registered := registered[code := []];
      }
      var events := registered[code];
      var i := 0;
      while i < |events|
        invariant 0 <= i <= |events|
        invariant forall k :: 0 <= k < i ==> events[k].listener != listener
        invariant |events| > 0 ==> registered == old(registered)
      {
        if events[i].listener == listener {
          return false;
        }
        i := i + 1;
      }
      AppendKeepsDistinct(events, Registration(listener, callback));
      registered := registered[code := events + [Registration(listener, callback)]];
      ok := true;
    }

    /**
     * `event_unregister`: fails when not initialised, when the code has no
     * list, or when no entry has both this listener and this callback;
     * otherwise removes the first such entry.
     */
    method Unregister(code: nat, listener: nat, callback: nat) returns (ok: bool)
      requires Valid() && code < MAX_MESSAGE_CODES
      modifies this
      ensures Valid() && initialized == old(initialized)
      ensures ok == (old(initialized) && code in old(registered)
                     && IndexOf(old(registered)[code], Registration(listener, callback)).Some?)
      ensures registered == if ok
        then old(registered)[code := Containers.RemovedAt(old(registered)[code],
                                       IndexOf(old(registered)[code], Registration(listener, callback)).value)]
        else old(registered)
    {
      if !initialized || code !in registered {
        return false;
      }
      var events := registered[code];
      var i := 0;
      while i < |events|
        invariant 0 <= i <= |events|
        invariant forall k :: 0 <= k < i ==> events[k] != Registration(listener, callback)
      {
        var ev := events[i];
        if ev.listener == listener && ev.callback == callback {
          assert IndexOf(events, Registration(listener, callback)) == Some(i);
          RemoveKeepsDistinct(events, i);
          registered := registered[code := Containers.RemovedAt(events, i)];
          return true;
        }
        i := i + 1;
      }
      ok := false;
    }

    /**
     * `event_fire`: offers the event to the code's registrations in
     * registration order and stops at the first whose callback answers
     * true. Returns whether some callback handled it and the registrations
     * whose callbacks were called, in order.
     */
    method Fire(code: nat, respond: Registration -> bool) returns (handled: bool, invoked: seq<Registration>)
      requires Valid() && code < MAX_MESSAGE_CODES
      ensures var list := if initialized then ListOf(registered, code) else [];
        && invoked <= list
        && (handled <==> exists i :: 0 <= i < |list| && respond(list[i]))
        && (handled ==> |invoked| > 0 && respond(invoked[|invoked| - 1]))
        && (forall k :: 0 <= k < |invoked| - 1 ==> !respond(invoked[k]))
        && (!handled ==> invoked == list)
    {
      invoked := [];
      if !initialized || code !in registered {
        return false, invoked;
      }
      var events := registered[code];
      var i := 0;
      while i < |events|
        invariant 0 <= i <= |events|
        invariant invoked == events[..i]
        invariant forall k :: 0 <= k < i ==> !respond(events[k])
      {
        var ev := events[i];
        invoked := invoked + [ev];
        if respond(ev) {
          assert invoked == events[..i + 1];
          return true, invoked;
        }
        i := i + 1;
      }
      assert events[..i] == events;
      handled := false;
    }
  }
}
