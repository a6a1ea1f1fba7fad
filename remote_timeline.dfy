/**
 * The remote-instance timeline page (app/soapbox/features/remote-timeline/index.tsx):
 * its id strings, its pinned-host rule and the lifecycle of the one streaming
 * connection it keeps in the `stream` ref.
 *
 * `connectRemoteStream` is opaque: a call yields a fresh handle, and invoking the
 * handle's disconnect closure is recorded as a `Closed` event. Dispatches of
 * `expandRemoteTimeline` are recorded as `Fetched` events.
 */
module RemoteTimeline {
  import opened Wrappers

  type Handle = nat

  datatype Event =
    | Fetched(instance: string, maxId: Option<string>, onlyMedia: bool)
    | Opened(handle: Handle, instance: string, onlyMedia: bool)
    | Closed(handle: Handle)

  const TimelineBase: string := "remote"

  /** The `timelineId` prop handed to the timeline. */
  function TimelineId(onlyMedia: bool, instance: string): string {
    TimelineBase + (if onlyMedia then ":media" else "") + ":" + instance
  }

  /** The `scrollKey` prop handed to the timeline. */
  function ScrollKey(instance: string): string {
    TimelineBase + "_" + instance + "_timeline"
  }

  /**
   * For host names without a port (no ':'), distinct (onlyMedia, instance) pairs
   * get distinct timeline ids.
   */
  lemma TimelineIdInjective(m1: bool, i1: string, m2: bool, i2: string)
    requires ':' !in i1 && ':' !in i2
    requires TimelineId(m1, i1) == TimelineId(m2, i2)
    ensures m1 == m2 && i1 == i2
  {
    var t := TimelineId(m1, i1);
    if m1 != m2 {
      var (media, plain) := if m1 then (i1, i2) else (i2, i1);
      IdSuffix(true, media);
      IdSuffix(false, plain);
      assert false;
    } else if m1 {
      assert i1 == t[13..] && i2 == t[13..];
    } else {
      assert i1 == t[7..] && i2 == t[7..];
    }
  }

  /** What follows "remote:" in a timeline id. */
  lemma IdSuffix(onlyMedia: bool, instance: string)
    ensures TimelineId(onlyMedia, instance)[7..] == (if onlyMedia then "media:" + instance else instance)
    ensures onlyMedia ==> TimelineId(onlyMedia, instance)[12] == ':'
  {
  }

  /** Without the no-port restriction the ids collide: "media:8080" plain vs "8080" media-only. */
  lemma TimelineIdCollidesWithPort()
    ensures TimelineId(false, "media:8080") == TimelineId(true, "8080")
  {
  }

  lemma ScrollKeyInjective(i1: string, i2: string)
    requires ScrollKey(i1) == ScrollKey(i2)
    ensures i1 == i2
  {
    var k := ScrollKey(i1);
    assert i1 == k[7..|k| - 9];
    assert i2 == k[7..|k| - 9];
  }

  /** `pinnedHosts.includes(instance)`. */
  predicate IsPinned(pinnedHosts: seq<string>, instance: string) {
    instance in pinnedHosts
  }

  /** The close button and "You are viewing the timeline of …" notice. */
  function ShowsNotice(pinnedHosts: seq<string>, instance: string): (shown: bool)
    ensures shown <==> forall i :: 0 <= i < |pinnedHosts| ==> pinnedHosts[i] != instance
  {
    !IsPinned(pinnedHosts, instance)
  }

  /** Handles opened in `events`. */
  function OpenedHandles(events: seq<Event>): set<Handle> {
    set i | 0 <= i < |events| && events[i].Opened? :: events[i].handle
  }

  /** How many times handle `h` was closed in `events`. */
  function CloseCount(events: seq<Event>, h: Handle): nat {
    if events == [] then 0
    else CloseCount(events[..|events| - 1], h) + (if events[|events| - 1] == Closed(h) then 1 else 0)
  }

  /** Handles opened and not yet closed. */
  function LiveHandles(events: seq<Event>): set<Handle> {
    set h | h in OpenedHandles(events) && CloseCount(events, h) == 0
  }

  function SlotHandles(slot: Option<Handle>): set<Handle> {
    if slot.Some? then {slot.value} else {}
  }

  lemma {:induction false} CloseCountAppend(events: seq<Event>, e: Event, h: Handle)
    ensures CloseCount(events + [e], h) == CloseCount(events, h) + (if e == Closed(h) then 1 else 0)
  {
    assert (events + [e])[..|events|] == events;
  }

  /** Appending an `Opened(n)` event for a fresh `n` adds exactly `n` to the live handles. */
  lemma LiveAfterOpen(events: seq<Event>, n: Handle, instance: string, onlyMedia: bool)
    requires n !in OpenedHandles(events)
    requires forall h :: CloseCount(events, h) > 0 ==> h in OpenedHandles(events)
    ensures LiveHandles(events + [Opened(n, instance, onlyMedia)]) == LiveHandles(events) + {n}
  {
    var ev' := events + [Opened(n, instance, onlyMedia)];
    assert OpenedHandles(ev') == OpenedHandles(events) + {n} by {
      forall h | h in OpenedHandles(ev') ensures h in OpenedHandles(events) + {n} {
        var i :| 0 <= i < |ev'| && ev'[i].Opened? && ev'[i].handle == h;
        if i < |events| { assert events[i] == ev'[i]; }
      }
      forall h | h in OpenedHandles(events) ensures h in OpenedHandles(ev') {
        var i :| 0 <= i < |events| && events[i].Opened? && events[i].handle == h;
        assert ev'[i] == events[i];
      }
      assert ev'[|events|].handle == n;
    }
    forall h ensures CloseCount(ev', h) == CloseCount(events, h) {
      CloseCountAppend(events, Opened(n, instance, onlyMedia), h);
    }
  }

  /** Appending `Closed(h)` for a live handle removes exactly `h` from the live handles. */
  lemma LiveAfterClose(events: seq<Event>, h: Handle)
    ensures LiveHandles(events + [Closed(h)]) == LiveHandles(events) - {h}
  {
    var ev' := events + [Closed(h)];
    assert OpenedHandles(ev') == OpenedHandles(events) by {
      forall g | g in OpenedHandles(ev') ensures g in OpenedHandles(events) {
        var i :| 0 <= i < |ev'| && ev'[i].Opened? && ev'[i].handle == g;
        assert i < |events| && events[i] == ev'[i];
      }
      forall g | g in OpenedHandles(events) ensures g in OpenedHandles(ev') {
        var i :| 0 <= i < |events| && events[i].Opened? && events[i].handle == g;
        assert ev'[i] == events[i];
      }
    }
    forall g ensures CloseCount(ev', g) == CloseCount(events, g) + (if g == h then 1 else 0) {
      CloseCountAppend(events, Closed(h), g);
    }
  }

  /** Appending a fetch changes neither opened nor closed handles. */
  lemma LiveAfterFetch(events: seq<Event>, e: Event)
    requires e.Fetched?
    ensures LiveHandles(events + [e]) == LiveHandles(events)
    ensures OpenedHandles(events + [e]) == OpenedHandles(events)
    ensures forall h :: CloseCount(events + [e], h) == CloseCount(events, h)
  {
    var ev' := events + [e];
    assert OpenedHandles(ev') == OpenedHandles(events) by {
      forall g | g in OpenedHandles(ev') ensures g in OpenedHandles(events) {
        var i :| 0 <= i < |ev'| && ev'[i].Opened? && ev'[i].handle == g;
        assert i < |events| && events[i] == ev'[i];
      }
      forall g | g in OpenedHandles(events) ensures g in OpenedHandles(ev') {
        var i :| 0 <= i < |events| && events[i].Opened? && events[i].handle == g;
        assert ev'[i] == events[i];
      }
    }
    forall g ensures CloseCount(ev', g) == CloseCount(events, g) {
      CloseCountAppend(events, e, g);
    }
  }

  /** The close event `disconnect` produces for a slot. */
  function SlotCloses(slot: Option<Handle>): seq<Event> {
    if slot.Some? then [Closed(slot.value)] else []
  }

  lemma OpenedAfterAppend(events: seq<Event>, e: Event)
    ensures OpenedHandles(events + [e]) == OpenedHandles(events) + (if e.Opened? then {e.handle} else {})
  {
    var ev' := events + [e];
    forall g | g in OpenedHandles(ev') ensures g in OpenedHandles(events) + (if e.Opened? then {e.handle} else {}) {
      var i :| 0 <= i < |ev'| && ev'[i].Opened? && ev'[i].handle == g;
      if i < |events| { assert events[i] == ev'[i]; }
    }
    forall g | g in OpenedHandles(events) ensures g in OpenedHandles(ev') {
      var i :| 0 <= i < |events| && events[i].Opened? && events[i].handle == g;
      assert ev'[i] == events[i];
    }
    if e.Opened? {
      assert ev'[|events|] == e;
    }
  }

  /** The instance the connection with handle `h` was opened for, if it was opened. */
  function OpenedInstance(events: seq<Event>, h: Handle): Option<string> {
    if events == [] then None
    else
      var e := events[|events| - 1];
      if e.Opened? && e.handle == h then Some(e.instance)
      else OpenedInstance(events[..|events| - 1], h)
  }

  /** A handle has an instance exactly when the log holds its `Opened` event. */
  lemma {:induction false} OpenedInstanceIffOpened(events: seq<Event>, h: Handle)
    ensures OpenedInstance(events, h).Some? <==> h in OpenedHandles(events)
  {
    if events != [] {
      var front, e := events[..|events| - 1], events[|events| - 1];
      assert events == front + [e];
      OpenedAfterAppend(front, e);
      OpenedInstanceIffOpened(front, h);
    }
  }

  /**
   * The lifecycle invariant over the event log, the `stream` slot and the next
   * fresh handle: the slot holds exactly the live handles (so at most one
   * connection is open), no handle was closed twice, only opened handles were
   * closed, and handles still to be handed out were never used.
   */
  ghost predicate Lifecycle(events: seq<Event>, slot: Option<Handle>, nextHandle: Handle) {
    && LiveHandles(events) == SlotHandles(slot)
    && (forall h :: CloseCount(events, h) <= 1)
    && (forall h :: CloseCount(events, h) > 0 ==> h in OpenedHandles(events))
    && (forall h :: h in OpenedHandles(events) ==> h < nextHandle)
  }

  /** `disconnect` followed by clearing the slot keeps the invariant, with nothing left live. */
  lemma CloseKeepsLifecycle(events: seq<Event>, slot: Option<Handle>, nextHandle: Handle)
    requires Lifecycle(events, slot, nextHandle)
    ensures Lifecycle(events + SlotCloses(slot), None, nextHandle)
    ensures LiveHandles(events + SlotCloses(slot)) == {}
  {
    if slot.Some? {
      var h := slot.value;
      assert h in LiveHandles(events);
      LiveAfterClose(events, h);
      forall g ensures CloseCount(events + [Closed(h)], g) == CloseCount(events, g) + (if g == h then 1 else 0) {
        CloseCountAppend(events, Closed(h), g);
      }
      OpenedAfterAppend(events, Closed(h));
    } else {
      assert events + SlotCloses(slot) == events;
    }
  }

  /** A fetch keeps the invariant. */
  lemma FetchKeepsLifecycle(events: seq<Event>, slot: Option<Handle>, nextHandle: Handle, e: Event)
    requires e.Fetched? && Lifecycle(events, slot, nextHandle)
    ensures Lifecycle(events + [e], slot, nextHandle)
  {
    LiveAfterFetch(events, e);
  }

  /** Opening the next fresh handle into an empty slot keeps the invariant, with that handle alone live. */
  lemma OpenKeepsLifecycle(events: seq<Event>, nextHandle: Handle, instance: string, onlyMedia: bool)
    requires Lifecycle(events, None, nextHandle)
    ensures Lifecycle(events + [Opened(nextHandle, instance, onlyMedia)], Some(nextHandle), nextHandle + 1)
  {
    var e := Opened(nextHandle, instance, onlyMedia);
    LiveAfterOpen(events, nextHandle, instance, onlyMedia);
    forall g ensures CloseCount(events + [e], g) == CloseCount(events, g) {
      CloseCountAppend(events, e, g);
    }
    OpenedAfterAppend(events, e);
  }

  /** One mounted `RemoteTimeline` component: its props, settings, `stream` ref and what it has done. */
  class RemoteTimelineView {
    /** The `instance` route parameter, read afresh on every render. */
    var instance: string
    var onlyMedia: bool
    /** `stream.current`: the disconnect closure of the open connection, or null. */
    var stream: Option<Handle>
    /** The next handle the streaming collaborator hands out. */
    var nextHandle: Handle
    var events: seq<Event>

    ghost predicate Valid()
      reads this`events, this`stream, this`nextHandle
    {
      Lifecycle(events, stream, nextHandle)
    }

    constructor (instance: string, onlyMedia: bool)
      ensures Valid()
      ensures this.instance == instance && this.onlyMedia == onlyMedia
      ensures stream.None? && events == []
    {
      this.instance := instance;
      this.onlyMedia := onlyMedia;
      stream := None;
      nextHandle := 0;
      events := [];
    }

    /** `disconnect`: invoke the stored closure, if any; the slot itself is left as it is. */
    method Disconnect()
      modifies this`events
      ensures events == old(events) + (if stream.Some? then [Closed(stream.value)] else [])
    {
      if stream.Some? {
        events := events + [Closed(stream.value)];
      }
    }

    /** `dispatch(connectRemoteStream(instance, { onlyMedia }))`. */
    method Connect() returns (h: Handle)
      modifies this`events, this`nextHandle
      ensures h == old(nextHandle) && nextHandle == h + 1
      ensures events == old(events) + [Opened(h, instance, onlyMedia)]
    {
      h := nextHandle;
      nextHandle := nextHandle + 1;
      events := events + [Opened(h, instance, onlyMedia)];
    }

    /** `handleLoadMore(maxId)`. */
    method LoadMore(maxId: string)
      requires Valid()
      modifies this`events
      ensures Valid()
      ensures events == old(events) + [Fetched(instance, Some(maxId), onlyMedia)]
    {
      FetchKeepsLifecycle(events, stream, nextHandle, Fetched(instance, Some(maxId), onlyMedia));
      events := events + [Fetched(instance, Some(maxId), onlyMedia)];
    }

    /** The body of the `useEffect`: close the old connection, fetch the first page, open a new one. */
    method Mount()
      requires Valid()
      modifies this`events, this`nextHandle, this`stream
      ensures Valid()
      ensures stream == Some(old(nextHandle)) && nextHandle == old(nextHandle) + 1
      ensures events == old(events) + SlotCloses(old(stream))
                        + [Fetched(instance, None, onlyMedia), Opened(old(nextHandle), instance, onlyMedia)]
      ensures LiveHandles(events) == {stream.value}
      ensures OpenedInstance(events, stream.value) == Some(instance)
    {
      CloseKeepsLifecycle(events, stream, nextHandle);
      Disconnect();
      FetchKeepsLifecycle(events, None, nextHandle, Fetched(instance, None, onlyMedia));
      events := events + [Fetched(instance, None, onlyMedia)];
      OpenKeepsLifecycle(events, nextHandle, instance, onlyMedia);
      var h := Connect();
      stream := Some(h);
    }

    /** The effect's cleanup: close the connection and clear the slot. */
    method Unmount()
      requires Valid()
      modifies this`events, this`stream
      ensures Valid()
      ensures stream.None?
      ensures events == old(events) + SlotCloses(old(stream))
      ensures LiveHandles(events) == {}
    {
      CloseKeepsLifecycle(events, stream, nextHandle);
      Disconnect();
      stream := None;
    }

    /**
     * A change of the `onlyMedia` setting re-runs the effect: the cleanup of the
     * old run, then the effect with the new value.
     */
    method SetOnlyMedia(m: bool)
      requires Valid()
      modifies this`events, this`nextHandle, this`stream, this`onlyMedia
      ensures Valid()
      ensures onlyMedia == m
      ensures m == old(onlyMedia) ==> events == old(events) && stream == old(stream) && nextHandle == old(nextHandle)
      ensures m != old(onlyMedia) ==>
                && events == old(events) + SlotCloses(old(stream))
                             + [Fetched(instance, None, m), Opened(old(nextHandle), instance, m)]
                && stream == Some(old(nextHandle)) && nextHandle == old(nextHandle) + 1
                && LiveHandles(events) == {stream.value}
    {
      if m != onlyMedia {
        Unmount();
        onlyMedia := m;
        Mount();
      }
    }

    /**
     * A new `instance` route parameter while the page stays mounted. The effect
     * depends on `onlyMedia` alone, so nothing is fetched, closed or opened: the
     * live connection stays the one opened for the previous instance, while
     * later `LoadMore` calls fetch from the new one.
     */
    method SetInstance(i: string)
      modifies this`instance
      ensures instance == i
      ensures stream.Some? ==> OpenedInstance(events, stream.value) == old(OpenedInstance(events, stream.value))
    {
      instance := i;
    }
  }
}
