/**
 * The native side of the editor: a state broadcaster (the snapshot and the
 * observer list) and the outbound dispatch to the attached web view. Every
 * observable effect is appended to one ordered log, so that the order of
 * notifications and posted messages is part of each method's contract.
 */
module NativeEditor {
  import opened Wrappers
  import opened EditorState
  import opened Messaging
  import opened Observers

  /** The attached web view, by identity. */
  type WebViewId = nat

  /** One observable effect: an observer called with a snapshot, or a message posted to a view. */
  datatype Effect =
    | Notify(observer: ObserverId, state: State)
    | Post(view: WebViewId, message: Message)

  /**
   * The unsubscribe closure returned by subscribe, as a value that captures
   * the callback. The closure in the hook is also bound to its own hook's
   * observer list; here that binding is the caller's: an Unsubscriber is
   * meant to be applied to the Editor whose Subscribe returned it, and
   * Unsubscribe does not check this.
   */
  datatype Unsubscriber = Unsubscriber(observer: ObserverId)

  /** The calls one update makes: every observer of the list, in list order, with the new snapshot. */
  function Broadcast(observers: seq<ObserverId>, s: State): (r: seq<Effect>)
    ensures |r| == |observers|
    ensures forall i :: 0 <= i < |observers| ==> r[i] == Notify(observers[i], s)
  {
    if observers == [] then [] else [Notify(observers[0], s)] + Broadcast(observers[1..], s)
  }

  /** What posting `m` does: nothing while no view is attached, one delivery once one is. */
  function Delivery(view: Option<WebViewId>, m: Message): seq<Effect>
  {
    match view
    case None => []
    case Some(v) => [Post(v, m)]
  }

  /**
   * An update calls each observer exactly as often as it is registered (a
   * callback subscribed twice is called twice), always with the new snapshot,
   * and posts nothing (every effect is a notification).
   */
  lemma {:induction false} BroadcastCalls(observers: seq<ObserverId>, s: State, o: ObserverId)
    ensures multiset(Broadcast(observers, s))[Notify(o, s)] == multiset(observers)[o]
    ensures forall e :: e in Broadcast(observers, s) ==> e.Notify? && e.state == s
  {
    if observers != [] {
      BroadcastCalls(observers[1..], s, o);
      assert observers == [observers[0]] + observers[1..];
      var r := Broadcast(observers, s);
      assert r == [Notify(observers[0], s)] + Broadcast(observers[1..], s);
      assert r[1..] == Broadcast(observers[1..], s);
    }
  }

  /** After unsubscribing `cb`, no update calls `cb` and every other observer keeps its number of calls. */
  lemma UnsubscribedNotNotified(subs: seq<ObserverId>, cb: ObserverId, s: State, o: ObserverId)
    ensures Notify(cb, s) !in Broadcast(Without(subs, cb), s)
    ensures o != cb ==> multiset(Broadcast(Without(subs, cb), s))[Notify(o, s)] == multiset(subs)[o]
  {
    BroadcastCalls(Without(subs, cb), s, cb);
    BroadcastCalls(Without(subs, cb), s, o);
  }

  class Editor {
    /** The current snapshot (`editorStateRef.current`). */
    var state: State
    /** The registered observers, in registration order (`editorStateSubsRef.current`). */
    var subs: seq<ObserverId>
    /** The attached view (`webviewRef.current`), None while it is null. */
    var webview: Option<WebViewId>
    /** Every notification and every posted message, in the order they happened. */
    var log: seq<Effect>

    /** A fresh editor: empty snapshot, no observers, no view attached, nothing done yet. */
    constructor ()
      ensures state == Empty && subs == [] && webview == None && log == []
    {
      state := Empty;
      subs := [];
      webview := None;
      log := [];
    }

    /** The view mounts and its ref is set. */
    method Attach(v: WebViewId)
      modifies this
      ensures webview == Some(v)
      ensures state == old(state) && subs == old(subs) && log == old(log)
    {
      webview := Some(v);
    }

    /** The view unmounts and its ref is cleared. */
    method Detach()
      modifies this
      ensures webview == None
      ensures state == old(state) && subs == old(subs) && log == old(log)
    {
      webview := None;
    }

    /** `_updateEditorState`: replace the snapshot wholesale, then call every observer in list order. */
    method UpdateEditorState(s: State)
      modifies this
      ensures state == s
      ensures log == old(log) + Broadcast(old(subs), s)
      ensures subs == old(subs) && webview == old(webview)
    {
      state := s;
      var observers := subs;
      var i := 0;
      while i < |observers|
        invariant i <= |observers|
        invariant state == s && subs == observers && webview == old(webview)
        invariant log == old(log) + Broadcast(observers[..i], s)
      {
        assert Broadcast(observers[..i + 1], s) == Broadcast(observers[..i], s) + [Notify(observers[i], s)];
        log := log + [Notify(observers[i], s)];
        i := i + 1;
      }
      assert observers[..i] == observers;
    }

    /** `_subscribeToEditorStateUpdate`: append `cb` to the list and return its unsubscribe closure. */
    method Subscribe(cb: ObserverId) returns (unsubscribe: Unsubscriber)
      modifies this
      ensures subs == old(subs) + [cb]
      ensures unsubscribe == Unsubscriber(cb)
      ensures state == old(state) && webview == old(webview) && log == old(log)
    {
      subs := subs + [cb];
      unsubscribe := Unsubscriber(cb);
    }

    /** Calling the closure: drop every entry equal to its callback, keeping the rest in order. */
    method Unsubscribe(unsubscribe: Unsubscriber)
      modifies this
      ensures subs == Without(old(subs), unsubscribe.observer)
      ensures state == old(state) && webview == old(webview) && log == old(log)
    {
      subs := Without(subs, unsubscribe.observer);
    }

    /** `getEditorState`: the current snapshot. */
    method GetEditorState() returns (s: State)
      ensures s == state
    {
      s := state;
    }

    /** `sendMessage`: dropped while no view is attached, otherwise posted exactly once. */
    method SendMessage(m: Message)
      modifies this
      ensures webview.None? ==> log == old(log)
      ensures webview.Some? ==> log == old(log) + [Post(webview.value, m)]
      ensures log == old(log) + Delivery(old(webview), m)
      ensures state == old(state) && subs == old(subs) && webview == old(webview)
    {
      if webview.None? {
        return;
      }
      log := log + [Post(webview.value, m)];
    }

    /** `sendAction`: wrap the action in an Action envelope and send it. */
    method SendAction(a: ActionPayload)
      modifies this
      ensures log == old(log) + Delivery(old(webview), Envelope(Action, a))
      ensures state == old(state) && subs == old(subs) && webview == old(webview)
    {
      SendMessage(ActionMessage(a));
    }

    /** `updateScrollThresholdAndMargin`: send the nested scroll-threshold settings action. */
    method UpdateScrollThresholdAndMargin(bottom: int)
      modifies this
      ensures log == old(log) + Delivery(old(webview),
        Envelope(Action, SettingsAction(Setting.UpdateScrollThresholdAndMargin, Bottom(bottom))))
      ensures state == old(state) && subs == old(subs) && webview == old(webview)
    {
      SendAction(ScrollThresholdAction(bottom));
    }

    /**
     * `focus`: set the focus flag in the snapshot through the update path (so
     * observers see it), and only then send the Focus action. The snapshot is
     * always an object, never null, so the update is always made.
     */
    method Focus(pos: FocusPos)
      modifies this
      ensures state == WithFocused(old(state))
      ensures log == old(log) + Broadcast(old(subs), WithFocused(old(state)))
        + Delivery(old(webview), Envelope(Action, SettingsAction(Setting.Focus, Position(pos))))
      ensures subs == old(subs) && webview == old(webview)
    {
      UpdateEditorState(WithFocused(state));
      SendAction(FocusAction(pos));
    }
  }

  /**
   * Two observers A and B; an update reaches A then B; after A unsubscribes
   * the next update reaches only B, and the snapshot is the last one written.
   */
  method TwoObserverScenario(a: ObserverId, b: ObserverId, s1: State, s2: State)
    returns (trace: seq<Effect>, last: State)
    requires a != b
    ensures trace == [Notify(a, s1), Notify(b, s1), Notify(b, s2)]
    ensures last == s2
  {
    var editor := new Editor();
    var unsubscribeA := editor.Subscribe(a);
    var _ := editor.Subscribe(b);
    editor.UpdateEditorState(s1);
    editor.Unsubscribe(unsubscribeA);
    assert editor.subs == [b] by {
      assert [a, b] == [a] + [b];
      WithoutAppend([a], [b], a);
      WithoutAbsent([b], a);
    }
    editor.UpdateEditorState(s2);
    trace := editor.log;
    last := editor.GetEditorState();
  }
}
