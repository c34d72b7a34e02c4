/** `useCropper`: the legacy hook that binds a `cropper-canvas` and a
    `cropper-selection` node to React state.

    Unlike the advanced hook it does not wait for the selection to become
    measurable: its setup effect marks the hook ready and calls `onReady` at
    once, and it drives the selection through the selection's own
    `getBounds`, `setBounds`, `reset` and `clear` methods. */
module LegacyHook {
  import opened Elements
  import opened Binding

  /** The listener bundle a setup run attaches, all on the selection:
      `change` always, then `cropstart`, `cropmove` and `cropend`, each only
      for a callback present at setup. */
  function Bundle(sel: Element, cbs: Callbacks, run: nat): seq<Registration>
  {
    [Registration(sel, Listener(Change, ChangeHandler(run)))] + CropBundle(sel, cbs)
  }

  /** The handler a setup run with callbacks `cbs` attaches for `event`;
      the legacy hook has no `transform` listener. */
  function Listening(cbs: Callbacks, run: nat, event: EventName): Option<Handler>
  {
    if event == Change then Some(ChangeHandler(run))
    else
      var cb := CropCallback(cbs, event);
      if cb.Some? then Some(Callback(cb.value)) else None
  }

  /** What the bundle holds, record by record: the listener `Listening`
      names for each event, on the selection, and nothing else. */
  lemma BundleMembers(sel: Element, cbs: Callbacks, run: nat)
    ensures forall g :: g in Bundle(sel, cbs, run) <==>
      g.element == sel && Listening(cbs, run, g.listener.event) == Some(g.listener.handler)
  {
    CropBundleMembers(sel, cbs);
    var b := Bundle(sel, cbs, run);
    forall g
      ensures g in b <==> g == Registration(sel, Listener(Change, ChangeHandler(run))) || g in CropBundle(sel, cbs)
    {
    }
  }

  /** A dispatch of one event reaches at most one record of the bundle. */
  lemma BundleOnePerEvent(sel: Element, cbs: Callbacks, run: nat)
    ensures OnePerEvent(Bundle(sel, cbs, run))
  {
    CropBundleMembers(sel, cbs);
    var hs := Bundle(sel, cbs, run);
    forall i, j | 0 <= i < j < |hs|
      ensures hs[i].element != hs[j].element || hs[i].listener.event != hs[j].listener.event
    {
      assert hs[j] == CropBundle(sel, cbs)[j - 1];
      if 0 < i {
        assert hs[i] == CropBundle(sel, cbs)[i - 1];
      }
    }
  }

  /** While a run's bundle is attached, a dispatch of `event` on the
      selection reaches exactly the listener `Listening` names for it, and a
      dispatch on any other element reaches none of the bundle. */
  lemma BundleReaches(sel: Element, cbs: Callbacks, run: nat, base: set<Listener>, target: Element, event: EventName)
    requires Tracks(Bundle(sel, cbs, run), sel, base)
    ensures target == sel ==> Reaching(Bundle(sel, cbs, run), target, event) == Listening(cbs, run, event)
    ensures target != sel ==> Reaching(Bundle(sel, cbs, run), target, event) == None
  {
    var b := Bundle(sel, cbs, run);
    BundleMembers(sel, cbs, run);
    var expected := Listening(cbs, run, event);
    if target == sel && expected.Some? {
      BundleOnePerEvent(sel, cbs, run);
      OnMember(b, target, Listener(event, expected.value));
      ReachingAttached(b, target, event, expected.value);
    }
  }

  class Hook {
    // refs, attached by the host when it renders the cropper elements
    var canvas: Element?
    var selection: Element?
    // React state
    var bounds: Option<Bounds>
    var isReady: bool
    var refsReady: bool
    // options
    var autoInitialize: bool
    var callbacks: Callbacks
    // the closure of the live run of the setup effect
    var active: bool
    var run: nat
    var runSelection: Element?
    var handlers: seq<Registration>
    // the host callbacks called so far
    var notifications: seq<Notification>

    ghost predicate Valid()
      reads this
    {
      && (active ==> runSelection != null)
      && (forall g :: g in handlers ==> g.element == runSelection)
      && (isReady ==> active)
    }

    constructor (autoInitialize: Option<bool>, callbacks: Callbacks)
      ensures Valid()
      ensures canvas == null && selection == null
      ensures bounds == None && !isReady && !refsReady
      ensures this.autoInitialize == Coalesce(autoInitialize, true) && this.callbacks == callbacks
      ensures autoInitialize.None? ==> this.autoInitialize
      ensures !active && handlers == [] && notifications == []
    {
      canvas, selection := null, null;
      bounds, isReady, refsReady := None, false, false;
      this.autoInitialize, this.callbacks := Coalesce(autoInitialize, true), callbacks;
      active, run, runSelection := false, 0, null;
      handlers, notifications := [], [];
    }

    /** A render: `autoInitialize` is read afresh from the options
        (omitted means `true`), and the effect copies the newest callback
        props into the callback refs. */
    method Render(autoInit: Option<bool>, cbs: Callbacks)
      requires Valid()
      modifies this`autoInitialize, this`callbacks
      ensures Valid() && callbacks == cbs
      ensures autoInitialize == Coalesce(autoInit, true)
      ensures autoInit.None? ==> autoInitialize
    {
      autoInitialize, callbacks := Coalesce(autoInit, true), cbs;
    }

    /** React assigns the two refs. */
    method SetRefs(c: Element?, s: Element?)
      requires Valid()
      modifies this`canvas, this`selection
      ensures Valid() && canvas == c && selection == s
    {
      canvas, selection := c, s;
    }

    /** The refs-ready effect: `refsReady` becomes true once both refs are
        attached, and only then. */
    method CheckRefs()
      requires Valid()
      modifies this`refsReady
      ensures Valid()
      ensures refsReady == (old(refsReady) || (autoInitialize && canvas != null && selection != null))
    {
      if !autoInitialize {
        return;
      }
      if canvas != null && selection != null && !refsReady {
        refsReady := true;
      }
    }

    /** The `addEventListener` helper of the setup effect. */
    method AddListener(l: Listener, ghost base: set<Listener>)
      requires Valid() && active && Tracks(handlers, runSelection, base)
      modifies this`handlers, runSelection`listeners
      ensures Valid()
      ensures handlers == old(handlers) + [Registration(runSelection, l)]
      ensures Tracks(handlers, runSelection, base)
    {
      OnAppend(handlers, Registration(runSelection, l), runSelection);
      handlers := Attach(handlers, runSelection, l);
    }

    /** `if (cbRef.current) addEventListener(selection, event, cbRef.current)` */
    method AddIfPresent(event: EventName, cb: Option<nat>, ghost base: set<Listener>)
      requires Valid() && active && Tracks(handlers, runSelection, base)
      modifies this`handlers, runSelection`listeners
      ensures Valid()
      ensures handlers == old(handlers) + IfPresent(runSelection, event, cb)
      ensures Tracks(handlers, runSelection, base)
    {
      if cb.Some? {
        AddListener(Listener(event, Callback(cb.value)), base);
      }
    }

    /** The setup effect. It runs only when `autoInitialize` and `refsReady`
        hold and both refs are attached; it then marks the hook ready, calls
        `onReady(canvas)` and attaches the listener bundle. React runs the
        previous run's cleanup before it runs the effect again. */
    method Setup()
      requires Valid() && !active
      modifies this`active, this`run, this`runSelection, this`handlers
      modifies this`isReady, this`notifications
      modifies {selection}`listeners
      ensures Valid()
      ensures active <==> autoInitialize && refsReady && canvas != null && selection != null
      ensures !active ==> unchanged(this)
      ensures !active && selection != null ==> selection.listeners == old(selection.listeners)
      ensures active ==>
        && runSelection == selection && run == old(run) + 1 && isReady
        && handlers == Bundle(selection, callbacks, run)
        && Tracks(handlers, selection, old(selection.listeners))
        && notifications == old(notifications) + ReadyNotice(callbacks, canvas)
    {
      if !autoInitialize || !refsReady {
        return;
      }
      if canvas == null || selection == null {
        return;
      }
      StartRun(canvas, selection);
    }

    /** The body of the setup effect once its guards passed. */
    method StartRun(c: Element, sel: Element)
      requires Valid() && !active
      modifies this`active, this`run, this`runSelection, this`handlers
      modifies this`isReady, this`notifications
      modifies sel`listeners
      ensures Valid() && active && isReady
      ensures runSelection == sel && run == old(run) + 1
      ensures handlers == Bundle(sel, callbacks, run)
      ensures Tracks(handlers, sel, old(sel.listeners))
      ensures notifications == old(notifications) + ReadyNotice(callbacks, c)
    {
      runSelection := sel;
      run := run + 1;
      handlers := [];
      active := true;
      isReady := true;
      notifications := notifications + ReadyNotice(callbacks, c);
      ghost var notified := notifications;
      AttachBundle();
      assert notifications == notified;
    }

    /** The listener part of the setup effect: attach `handleChange` and each
        crop callback present now, recording each. */
    method AttachBundle()
      requires Valid() && active && handlers == []
      modifies this`handlers, runSelection`listeners
      ensures Valid()
      ensures handlers == Bundle(runSelection, callbacks, run)
      ensures Tracks(handlers, runSelection, old(runSelection.listeners))
    {
      ghost var base := runSelection.listeners;
      AddListener(Listener(Change, ChangeHandler(run)), base);
      AddIfPresent(CropStart, callbacks.onCropStart, base);
      AddIfPresent(CropMove, callbacks.onCropMove, base);
      AddIfPresent(CropEnd, callbacks.onCropEnd, base);
    }

    /** The cleanup the setup effect returns: remove exactly the recorded
        listeners and reset `isReady` and `refsReady`. Nothing happens when
        the last setup run returned early and so left no cleanup. */
    method Cleanup()
      requires Valid()
      modifies this`active, this`isReady, this`refsReady
      modifies Targets(handlers)`listeners
      ensures Valid()
      ensures !old(active) ==> unchanged(this) && unchanged(Targets(handlers)`listeners)
      ensures old(active) ==>
        && !active && !isReady && !refsReady
        && (forall e :: e in Targets(handlers) ==> e.listeners == old(e.listeners) - On(handlers, e))
        && (forall g :: g in handlers ==> g.listener !in g.element.listeners)
    {
      if !active {
        return;
      }
      Detach(handlers);
      isReady, refsReady, active := false, false, false;
    }

    /** `handleChange`: refresh `bounds` from the selection, then call the
        newest `onChange`. The model applies the state update at once, so
        the bounds recorded with that call are the refreshed ones. */
    method HandleChange()
      requires Valid()
      modifies this`bounds, this`notifications
      ensures Valid()
      ensures bounds == (if ReadBounds(selection).Some? then ReadBounds(selection) else old(bounds))
      ensures notifications == old(notifications)
        + (if callbacks.onChange.Some? then [Fired(callbacks.onChange.value, Change, bounds)] else [])
    {
      var newBounds := ReadBounds(selection);
      if newBounds.Some? {
        bounds := newBounds;
      }
      if callbacks.onChange.Some? {
        notifications := notifications + [Fired(callbacks.onChange.value, Change, bounds)];
      }
    }

    /** `target` dispatches `event`; this run's listener for it, if any and
        still attached, runs. */
    method Dispatch(target: Element, event: EventName)
      requires Valid()
      modifies this`bounds, this`notifications
      ensures Valid()
      ensures Reaching(handlers, target, event).None? ==>
        bounds == old(bounds) && notifications == old(notifications)
      ensures Reaching(handlers, target, event).Some? && Reaching(handlers, target, event).value.Callback? ==>
        && bounds == old(bounds)
        && notifications == old(notifications) + [Fired(Reaching(handlers, target, event).value.id, event, bounds)]
      ensures Reaching(handlers, target, event).Some? && Reaching(handlers, target, event).value.ChangeHandler? ==>
        && bounds == (if ReadBounds(selection).Some? then ReadBounds(selection) else old(bounds))
        && notifications == old(notifications)
             + (if callbacks.onChange.Some? then [Fired(callbacks.onChange.value, Change, bounds)] else [])
    {
      var h := Reaching(handlers, target, event);
      if h.Some? {
        match h.value
        case ChangeHandler(_) =>
          HandleChange();
        case Callback(id) =>
          notifications := notifications + [Fired(id, event, bounds)];
      }
    }

    /** `setBounds`: hand the partial rectangle to the selection's own
        `setBounds`, then store the re-read bounds when the read succeeds. */
    method SetBounds(p: PartialBounds)
      requires Valid()
      modifies this`bounds, {selection}`rect, {selection}`calls
      ensures Valid()
      ensures selection == null ==> bounds == old(bounds)
      ensures selection != null ==>
        && selection.calls == old(selection.calls) + [SetBoundsCall(p)]
        && selection.rect == selection.constrain(Merge(p, old(selection.rect)))
        && bounds == (if ReadBounds(selection).Some? then ReadBounds(selection) else old(bounds))
    {
      var sel := selection;
      if sel == null {
        return;
      }
      sel.SetBounds(p);
      var updated := ReadBounds(sel);
      if updated.Some? {
        bounds := updated;
      }
    }

    /** `reset`: the selection's own `reset`, then store the re-read bounds
        when the read succeeds. */
    method Reset()
      requires Valid()
      modifies this`bounds, {selection}`rect, {selection}`calls
      ensures Valid()
      ensures selection == null ==> bounds == old(bounds)
      ensures selection != null ==>
        && selection.calls == old(selection.calls) + [LegacyResetCall]
        && selection.rect == selection.initial
        && bounds == (if ReadBounds(selection).Some? then ReadBounds(selection) else old(bounds))
    {
      var sel := selection;
      if sel == null {
        return;
      }
      sel.LegacyReset();
      var updated := ReadBounds(sel);
      if updated.Some? {
        bounds := updated;
      }
    }

    /** `clear`: the selection's own `clear`, then drop the bounds; no-op
        without a selection. */
    method Clear()
      requires Valid()
      modifies this`bounds, {selection}`rect, {selection}`calls
      ensures Valid()
      ensures selection == null ==> bounds == old(bounds)
      ensures selection != null ==>
        && selection.calls == old(selection.calls) + [LegacyClearCall]
        && selection.rect == selection.cleared
        && bounds == None
    {
      var sel := selection;
      if sel == null {
        return;
      }
      sel.LegacyClear();
      bounds := None;
    }
  }
}
