/** `useCropperAdvanced`: the hook that binds a `cropper-canvas`, a
    `cropper-selection` and a `cropper-image` node to React state.

    One `Hook` object stands for one mounted instance of the hook. Its fields
    are the three refs, the React state (`bounds`, `isReady`, `refsReady`),
    the callback refs, and the closure of the live run of the setup effect
    (`cancelled`, `rafId`, `handlers`). React's effect scheduling and the
    browser's animation frames are explicit steps: `CheckRefs` is the
    refs-ready effect, `Setup` and `Cleanup` are the setup effect and the
    function it returns, and `Tick` is the browser running a queued frame. */
module AdvancedHook {
  import opened Elements
  import opened Binding

  /** What `checkReady` waits for: `$toCanvas` exists and the selection has
      a positive width and height. */
  predicate ReadyCondition(sel: Element)
    reads sel`upgraded, sel`rect
  {
    sel.upgraded && sel.rect.width > 0.0 && sel.rect.height > 0.0
  }

  /** The listener bundle a setup run attaches: `change` on the selection
      always, then `cropstart`, `cropmove` and `cropend` on the selection and
      `transform` on the image, each only for a callback present at setup. */
  function Bundle(sel: Element, img: Element, cbs: Callbacks, run: nat): seq<Registration>
  {
    [Registration(sel, Listener(Change, ChangeHandler(run)))]
      + CropBundle(sel, cbs)
      + IfPresent(img, Transform, cbs.onTransform)
  }

  /** The element a bundle listener for `event` sits on. */
  function EventTarget(sel: Element, img: Element, event: EventName): Element
  {
    if event == Transform then img else sel
  }

  /** The handler a setup run with callbacks `cbs` attaches for `event`. */
  function Listening(cbs: Callbacks, run: nat, event: EventName): Option<Handler>
  {
    if event == Change then Some(ChangeHandler(run))
    else
      var cb := if event == Transform then cbs.onTransform else CropCallback(cbs, event);
      if cb.Some? then Some(Callback(cb.value)) else None
  }

  /** What the bundle holds, record by record: the listener `Listening`
      names for each event, on that event's element, and nothing else. */
  lemma BundleMembers(sel: Element, img: Element, cbs: Callbacks, run: nat)
    ensures forall g :: g in Bundle(sel, img, cbs, run) <==>
      g.element == EventTarget(sel, img, g.listener.event) && Listening(cbs, run, g.listener.event) == Some(g.listener.handler)
  {
    CropBundleMembers(sel, cbs);
    var b := Bundle(sel, img, cbs, run);
    forall g
      ensures g in b <==>
        || g == Registration(sel, Listener(Change, ChangeHandler(run)))
        || g in CropBundle(sel, cbs) || g in IfPresent(img, Transform, cbs.onTransform)
    {
    }
  }

  /** A dispatch of one event on one element reaches at most one record of
      the bundle. */
  lemma BundleOnePerEvent(sel: Element, img: Element, cbs: Callbacks, run: nat)
    ensures OnePerEvent(Bundle(sel, img, cbs, run))
  {
    CropBundleMembers(sel, cbs);
    var hs := [Registration(sel, Listener(Change, ChangeHandler(run)))] + CropBundle(sel, cbs);
    assert OnePerEvent(hs) by {
      forall i, j | 0 < i < j < |hs|
        ensures hs[i].element != hs[j].element || hs[i].listener.event != hs[j].listener.event
      {
        assert hs[i] == CropBundle(sel, cbs)[i - 1] && hs[j] == CropBundle(sel, cbs)[j - 1];
      }
    }
    AppendOnePerEvent(hs, img, Transform, cbs.onTransform);
  }

  /** While a run's bundle is attached, a dispatch of `event` on that
      event's element reaches exactly the listener `Listening` names for it,
      and a dispatch on any other element reaches none of the bundle. */
  lemma BundleReaches(sel: Element, img: Element, cbs: Callbacks, run: nat,
                      selBase: set<Listener>, imgBase: set<Listener>, target: Element, event: EventName)
    requires Tracks(Bundle(sel, img, cbs, run), sel, selBase)
    requires Tracks(Bundle(sel, img, cbs, run), img, imgBase)
    ensures target == EventTarget(sel, img, event) ==>
      Reaching(Bundle(sel, img, cbs, run), target, event) == Listening(cbs, run, event)
    ensures target != EventTarget(sel, img, event) ==>
      Reaching(Bundle(sel, img, cbs, run), target, event) == None
  {
    var b := Bundle(sel, img, cbs, run);
    BundleMembers(sel, img, cbs, run);
    var expected := Listening(cbs, run, event);
    if target == EventTarget(sel, img, event) && expected.Some? {
      BundleOnePerEvent(sel, img, cbs, run);
      OnMember(b, target, Listener(event, expected.value));
      ReachingAttached(b, target, event, expected.value);
    }
  }

  /** How `getCroppedCanvas` settles: `null` (with a console warning when the
      element is present but not upgraded), or the promise of `$toCanvas`
      called with the options as given. */
  datatype CanvasResult = NullCanvas(warned: bool) | Delegated(options: Option<CanvasOptions>)

  class Hook {
    // refs, attached by the host when it renders the cropper elements
    var canvas: Element?
    var selection: Element?
    var image: Element?
    // React state
    var bounds: Option<Bounds>
    var isReady: bool
    var refsReady: bool
    // options
    var autoInitialize: bool
    var callbacks: Callbacks
    // the closure of the live run of the setup effect
    var active: bool
    var run: nat
    var runCanvas: Element?
    var runSelection: Element?
    var runImage: Element?
    var cancelled: bool
    var rafScheduled: bool
    var framePending: bool
    var handlers: seq<Registration>
    // the host callbacks called so far
    var notifications: seq<Notification>
    // `onReady` calls made by the live run
    ghost var readyCalls: nat

    ghost predicate Valid()
      reads this
    {
      && (active ==> runCanvas != null && runSelection != null && runImage != null)
      && (forall g :: g in handlers ==> g.element == runSelection || g.element == runImage)
      && (framePending ==> active && rafScheduled && !cancelled && !isReady && readyCalls == 0)
      && (isReady ==> active)
      && readyCalls <= 1
    }

    constructor (autoInitialize: Option<bool>, callbacks: Callbacks)
      ensures Valid()
      ensures canvas == null && selection == null && image == null
      ensures bounds == None && !isReady && !refsReady
      ensures this.autoInitialize == Coalesce(autoInitialize, true) && this.callbacks == callbacks
      ensures autoInitialize.None? ==> this.autoInitialize
      ensures !active && handlers == [] && notifications == []
    {
      canvas, selection, image := null, null, null;
      bounds, isReady, refsReady := None, false, false;
      this.autoInitialize, this.callbacks := Coalesce(autoInitialize, true), callbacks;
      active, run, runCanvas, runSelection, runImage := false, 0, null, null, null;
      cancelled, rafScheduled, framePending := false, false, false;
      handlers, notifications, readyCalls := [], [], 0;
    }

    /** A render: `autoInitialize` is read afresh from the options
        (omitted means `true`), and the effect copies the newest callback
        props into the callback refs. */
    method Render(autoInit: Option<bool>, cbs: Callbacks)
      requires Valid()
      modifies this`autoInitialize, this`callbacks
      ensures Valid() && callbacks == cbs
      ensures autoInitialize == Coalesce(autoInit, true)
      ensures autoInit.None? ==> autoInitialize
    {
      autoInitialize, callbacks := Coalesce(autoInit, true), cbs;
    }

    /** React assigns the three refs. */
    method SetRefs(c: Element?, s: Element?, i: Element?)
      requires Valid()
      modifies this`canvas, this`selection, this`image
      ensures Valid() && canvas == c && selection == s && image == i
    {
      canvas, selection, image := c, s, i;
    }

    /** The refs-ready effect: `refsReady` becomes true once all three refs
        are attached, and only then. */
    method CheckRefs()
      requires Valid()
      modifies this`refsReady
      ensures Valid()
      ensures refsReady == (old(refsReady) || (autoInitialize && canvas != null && selection != null && image != null))
    {
      if !autoInitialize {
        return;
      }
      if canvas != null && selection != null && image != null && !refsReady {
        refsReady := true;
      }
    }

    /** `checkReady`: stop when cancelled; otherwise mark ready and call
        `onReady(canvas)` when the element is ready, else queue another
        check for the next animation frame. */
    method CheckReady()
      requires Valid() && active && !framePending && !isReady && readyCalls == 0
      modifies this`isReady, this`notifications, this`readyCalls, this`rafScheduled, this`framePending
      ensures Valid()
      ensures old(cancelled) ==>
        && !isReady && !framePending && notifications == old(notifications)
        && rafScheduled == old(rafScheduled) && readyCalls == old(readyCalls)
      ensures !old(cancelled) ==>
        && (isReady <==> ReadyCondition(runSelection))
        && (framePending <==> !ReadyCondition(runSelection))
        && rafScheduled == (old(rafScheduled) || !ReadyCondition(runSelection))
        && notifications == old(notifications)
             + (if ReadyCondition(runSelection) then ReadyNotice(callbacks, runCanvas) else [])
    {
      if cancelled {
        return;
      }
      if ReadyCondition(runSelection) {
        isReady := true;
        if callbacks.onReady.Some? {
          notifications := notifications + [Ready(callbacks.onReady.value, runCanvas)];
          readyCalls := readyCalls + 1;
        }
      } else {
        rafScheduled, framePending := true, true;
      }
    }

    /** The browser runs the queued animation frame, if there is one. */
    method Tick()
      requires Valid()
      modifies this`isReady, this`notifications, this`readyCalls, this`rafScheduled, this`framePending
      ensures Valid()
      ensures !old(framePending) ==>
        && isReady == old(isReady) && notifications == old(notifications) && !framePending
        && rafScheduled == old(rafScheduled) && readyCalls == old(readyCalls)
      ensures old(framePending) ==>
        && (isReady <==> ReadyCondition(runSelection))
        && (framePending <==> !ReadyCondition(runSelection))
        && notifications == old(notifications)
             + (if ReadyCondition(runSelection) then ReadyNotice(callbacks, runCanvas) else [])
      ensures old(isReady) ==> isReady && notifications == old(notifications)
    {
      if !framePending {
        return;
      }
      framePending := false;
      CheckReady();
    }

    /** The `addEventListener` helper of the setup effect. */
    method AddListener(e: Element, l: Listener, ghost selBase: set<Listener>, ghost imgBase: set<Listener>)
      requires Valid() && runSelection != null && runImage != null
      requires e == runSelection || e == runImage
      requires Tracks(handlers, runSelection, selBase) && Tracks(handlers, runImage, imgBase)
      modifies this`handlers, e`listeners
      ensures Valid()
      ensures handlers == old(handlers) + [Registration(e, l)]
      ensures Tracks(handlers, runSelection, selBase) && Tracks(handlers, runImage, imgBase)
    {
      OnAppend(handlers, Registration(e, l), runSelection);
      OnAppend(handlers, Registration(e, l), runImage);
      handlers := Attach(handlers, e, l);
    }

    /** The setup effect. It runs only when `autoInitialize` and `refsReady`
        hold and all three refs are attached; it then runs `checkReady` once
        and attaches the listener bundle, whether or not that check
        succeeded. React runs the previous run's cleanup before it runs the
        effect again. */
    method Setup()
      requires Valid() && !active
      modifies this`active, this`run, this`runCanvas, this`runSelection, this`runImage
      modifies this`cancelled, this`rafScheduled, this`framePending, this`handlers
      modifies this`isReady, this`notifications, this`readyCalls
      modifies {selection, image}`listeners
      ensures Valid()
      ensures active <==> autoInitialize && refsReady && canvas != null && selection != null && image != null
      ensures !active ==> unchanged(this)
      ensures !active && selection != null ==> selection.listeners == old(selection.listeners)
      ensures !active && image != null ==> image.listeners == old(image.listeners)
      ensures active ==>
        && runCanvas == canvas && runSelection == selection && runImage == image
        && run == old(run) + 1 && !cancelled
        && handlers == Bundle(selection, image, callbacks, run)
        && Tracks(handlers, selection, old(selection.listeners))
        && Tracks(handlers, image, old(image.listeners))
        && (isReady <==> ReadyCondition(selection))
        && (framePending <==> !ReadyCondition(selection))
        && notifications == old(notifications)
             + (if ReadyCondition(selection) then ReadyNotice(callbacks, canvas) else [])
    {
      if !autoInitialize || !refsReady {
        return;
      }
      if canvas == null || selection == null || image == null {
        return;
      }
      StartRun(canvas, selection, image);
    }

    /** The body of the setup effect once its guards passed: a fresh run
        captures the three elements, runs `checkReady` once, and attaches the
        listener bundle. */
    method StartRun(c: Element, sel: Element, img: Element)
      requires Valid() && !active
      modifies this`active, this`run, this`runCanvas, this`runSelection, this`runImage
      modifies this`cancelled, this`rafScheduled, this`framePending, this`handlers
      modifies this`isReady, this`notifications, this`readyCalls
      modifies sel`listeners, img`listeners
      ensures Valid() && active
      ensures runCanvas == c && runSelection == sel && runImage == img
      ensures run == old(run) + 1 && !cancelled
      ensures handlers == Bundle(sel, img, callbacks, run)
      ensures Tracks(handlers, sel, old(sel.listeners)) && Tracks(handlers, img, old(img.listeners))
      ensures isReady <==> ReadyCondition(sel)
      ensures framePending <==> !ReadyCondition(sel)
      ensures notifications == old(notifications) + (if ReadyCondition(sel) then ReadyNotice(callbacks, c) else [])
    {
      ghost var selBase, imgBase := sel.listeners, img.listeners;
      runCanvas, runSelection, runImage := c, sel, img;
      run := run + 1;
      cancelled, rafScheduled, framePending := false, false, false;
      readyCalls := 0;
      handlers := [];
      active := true;
      CheckReady();
      assert sel.listeners == selBase && img.listeners == imgBase;
      ghost var notified, ready := notifications, isReady;
      AttachBundle();
      assert notifications == notified && isReady == ready;
    }

    /** The listener part of the setup effect: attach `handleChange` and each
        crop or transform callback present now, recording each. */
    method AttachBundle()
      requires Valid() && active && handlers == []
      modifies this`handlers, {runSelection, runImage}`listeners
      ensures Valid()
      ensures handlers == Bundle(runSelection, runImage, callbacks, run)
      ensures Tracks(handlers, runSelection, old(runSelection.listeners))
      ensures Tracks(handlers, runImage, old(runImage.listeners))
    {
      var sel, img := runSelection, runImage;
      ghost var selBase, imgBase := sel.listeners, img.listeners;
      AddListener(sel, Listener(Change, ChangeHandler(run)), selBase, imgBase);
      AddIfPresent(sel, CropStart, callbacks.onCropStart, selBase, imgBase);
      AddIfPresent(sel, CropMove, callbacks.onCropMove, selBase, imgBase);
      AddIfPresent(sel, CropEnd, callbacks.onCropEnd, selBase, imgBase);
      assert handlers == [Registration(sel, Listener(Change, ChangeHandler(run)))] + CropBundle(sel, callbacks);
      AddIfPresent(img, Transform, callbacks.onTransform, selBase, imgBase);
    }

    /** `if (cbRef.current) addEventListener(e, event, cbRef.current)` */
    method AddIfPresent(e: Element, event: EventName, cb: Option<nat>,
                        ghost selBase: set<Listener>, ghost imgBase: set<Listener>)
      requires Valid() && runSelection != null && runImage != null
      requires e == runSelection || e == runImage
      requires Tracks(handlers, runSelection, selBase) && Tracks(handlers, runImage, imgBase)
      modifies this`handlers, e`listeners
      ensures Valid()
      ensures handlers == old(handlers) + IfPresent(e, event, cb)
      ensures Tracks(handlers, runSelection, selBase) && Tracks(handlers, runImage, imgBase)
    {
      if cb.Some? {
        AddListener(e, Listener(event, Callback(cb.value)), selBase, imgBase);
      }
    }

    /** The cleanup the setup effect returns: set `cancelled`, cancel the
        queued frame, remove exactly the recorded listeners, and reset
        `isReady` and `refsReady`. Nothing happens when the last setup run
        returned early and so left no cleanup. */
    method Cleanup()
      requires Valid()
      modifies this`active, this`cancelled, this`framePending, this`isReady, this`refsReady
      modifies Targets(handlers)`listeners
      ensures Valid()
      ensures !old(active) ==> unchanged(this) && unchanged(Targets(handlers)`listeners)
      ensures old(active) ==>
        && !active && cancelled && !framePending && !isReady && !refsReady
        && (forall e :: e in Targets(handlers) ==> e.listeners == old(e.listeners) - On(handlers, e))
        && (forall g :: g in handlers ==> g.listener !in g.element.listeners)
    {
      if !active {
        return;
      }
      cancelled := true;
      if rafScheduled {
        framePending := false;
      }
      Detach(handlers);
      isReady, refsReady, active := false, false, false;
    }

    /** `handleChange`: refresh `bounds` from the selection, then call the
        newest `onChange`. The model applies the state update at once, so
        the bounds recorded with that call are the refreshed ones. */
    method HandleChange()
      requires Valid()
      modifies this`bounds, this`notifications
      ensures Valid()
      ensures bounds == (if ReadBounds(selection).Some? then ReadBounds(selection) else old(bounds))
      ensures notifications == old(notifications)
        + (if callbacks.onChange.Some? then [Fired(callbacks.onChange.value, Change, bounds)] else [])
    {
      var newBounds := ReadBounds(selection);
      if newBounds.Some? {
        bounds := newBounds;
      }
      if callbacks.onChange.Some? {
        notifications := notifications + [Fired(callbacks.onChange.value, Change, bounds)];
      }
    }

    /** `target` dispatches `event`; this run's listener for it, if any and
        still attached, runs. The crop and transform listeners are the
        callbacks captured at setup; the change listener is `handleChange`. */
    method Dispatch(target: Element, event: EventName)
      requires Valid()
      modifies this`bounds, this`notifications
      ensures Valid()
      ensures Reaching(handlers, target, event).None? ==>
        bounds == old(bounds) && notifications == old(notifications)
      ensures Reaching(handlers, target, event).Some? && Reaching(handlers, target, event).value.Callback? ==>
        && bounds == old(bounds)
        && notifications == old(notifications) + [Fired(Reaching(handlers, target, event).value.id, event, bounds)]
      ensures Reaching(handlers, target, event).Some? && Reaching(handlers, target, event).value.ChangeHandler? ==>
        && bounds == (if ReadBounds(selection).Some? then ReadBounds(selection) else old(bounds))
        && notifications == old(notifications)
             + (if callbacks.onChange.Some? then [Fired(callbacks.onChange.value, Change, bounds)] else [])
    {
      var h := Reaching(handlers, target, event);
      if h.Some? {
        match h.value
        case ChangeHandler(_) =>
          HandleChange();
        case Callback(id) =>
          notifications := notifications + [Fired(id, event, bounds)];
      }
    }

    /** `setBounds`: merge the partial onto the current bounds, hand the
        result to `$change`, and store what the element reports afterwards.
        Nothing happens without a selection or when its bounds cannot be
        read. */
    method SetBounds(p: PartialBounds)
      requires Valid()
      modifies this`bounds, {selection}`rect, {selection}`calls
      ensures Valid()
      ensures old(ReadBounds(selection)).None? ==>
        bounds == old(bounds)
      ensures old(ReadBounds(selection)).None? && selection != null ==>
        selection.calls == old(selection.calls) && selection.rect == old(selection.rect)
      ensures old(ReadBounds(selection)).Some? ==>
        && selection.calls == old(selection.calls) + [ChangeCall(Merge(p, old(selection.rect)))]
        && selection.rect == selection.constrain(Merge(p, old(selection.rect)))
        && bounds == ReadBounds(selection)
        && bounds == Some(selection.constrain(Merge(p, old(selection.rect))))
    {
      var sel := selection;
      if sel == null {
        return;
      }
      var current := ReadBounds(sel);
      if current.None? {
        return;
      }
      sel.Change(Merge(p, current.value));
      var updated := ReadBounds(sel);
      if updated.Some? {
        bounds := updated;
      }
    }

    /** `reset`: call `$reset`, then store the re-read bounds when the read
        succeeds. */
    method Reset()
      requires Valid()
      modifies this`bounds, {selection}`rect, {selection}`calls
      ensures Valid()
      ensures selection == null ==> bounds == old(bounds)
      ensures selection != null ==>
        && selection.calls == old(selection.calls) + [ResetCall]
        && selection.rect == selection.initial
        && bounds == (if ReadBounds(selection).Some? then ReadBounds(selection) else old(bounds))
    {
      var sel := selection;
      if sel == null {
        return;
      }
      sel.Reset();
      var updated := ReadBounds(sel);
      if updated.Some? {
        bounds := updated;
      }
    }

    /** `clear`: call `$clear` and drop the bounds; no-op without a
        selection. */
    method Clear()
      requires Valid()
      modifies this`bounds, {selection}`rect, {selection}`calls
      ensures Valid()
      ensures selection == null ==> bounds == old(bounds)
      ensures selection != null ==>
        && selection.calls == old(selection.calls) + [ClearCall]
        && bounds == None
    {
      var sel := selection;
      if sel == null {
        return;
      }
      sel.Clear();
      bounds := None;
    }

    /** `getCroppedCanvas`: `null` without a selection or before `$toCanvas`
        exists, otherwise `$toCanvas(options)`. */
    function GetCroppedCanvas(options: Option<CanvasOptions>): (r: CanvasResult)
      reads this, selection
      ensures r.NullCanvas? <==> selection == null || !selection.upgraded
      ensures r.NullCanvas? ==> (r.warned <==> selection != null)
      ensures r.Delegated? ==> r.options == options
    {
      if selection == null then NullCanvas(false)
      else if !selection.upgraded then NullCanvas(true)
      else Delegated(options)
    }
  }
}
