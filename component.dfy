/** The `Cropper` component: a `cropper-canvas` holding the image and one
    `cropper-selection`, an imperative handle on the selection, and a mount
    effect that wires the callback props to the selection's events.

    The component keeps no bounds state: its handle reads and writes the
    selection directly, and its listeners are the host's callbacks
    themselves, captured when the component mounts. */
module CropperComponent {
  import opened Elements
  import opened Binding

  /** The props that configure the cropper elements; `None` is an omitted
      prop. `className`, `style` and the callbacks are not part of it. */
  datatype Props = Props(
    src: string,
    alt: Option<string>,
    aspectRatio: Option<real>,
    initialAspectRatio: Option<real>,
    initialCoverage: Option<real>,
    background: Option<bool>,
    rotatable: Option<bool>,
    scalable: Option<bool>,
    skewable: Option<bool>,
    translatable: Option<bool>,
    movable: Option<bool>,
    resizable: Option<bool>,
    zoomable: Option<bool>,
    multiple: Option<bool>,
    outlined: Option<bool>)

  /** The values the component renders with once its defaults are applied.
      The two aspect ratios have no default and stay optional. */
  datatype Config = Config(
    src: string,
    alt: string,
    aspectRatio: Option<real>,
    initialAspectRatio: Option<real>,
    initialCoverage: real,
    background: bool,
    rotatable: bool,
    scalable: bool,
    skewable: bool,
    translatable: bool,
    movable: bool,
    resizable: bool,
    zoomable: bool,
    multiple: bool,
    outlined: bool)

  /** The destructuring defaults of the component's props. */
  function Resolve(p: Props): Config
  {
    Config(p.src, Coalesce(p.alt, ""), p.aspectRatio, p.initialAspectRatio,
           Coalesce(p.initialCoverage, 0.8),
           Coalesce(p.background, true), Coalesce(p.rotatable, true), Coalesce(p.scalable, true),
           Coalesce(p.skewable, false), Coalesce(p.translatable, true), Coalesce(p.movable, true),
           Coalesce(p.resizable, true), Coalesce(p.zoomable, true), Coalesce(p.multiple, false),
           Coalesce(p.outlined, true))
  }

  /** Only `src` given: empty alt text, coverage 0.8, skewing and multiple
      selections off, every other toggle on, no aspect ratio. */
  lemma ResolveDefaults(src: string)
    ensures Resolve(Props(src, None, None, None, None, None, None, None, None, None, None, None, None, None, None))
      == Config(src, "", None, None, 0.8, true, true, true, false, true, true, true, true, false, true)
  {
  }

  /** A prop that is given always wins over its default. */
  lemma ResolveGiven(c: Config)
    ensures Resolve(Props(c.src, Some(c.alt), c.aspectRatio, c.initialAspectRatio, Some(c.initialCoverage),
                          Some(c.background), Some(c.rotatable), Some(c.scalable), Some(c.skewable),
                          Some(c.translatable), Some(c.movable), Some(c.resizable), Some(c.zoomable),
                          Some(c.multiple), Some(c.outlined))) == c
  {
  }

  /** The listeners the mount effect attaches, all on the selection: one for
      each of `change`, `cropstart`, `cropmove` and `cropend` whose callback
      is present at mount. */
  function Bundle(sel: Element, cbs: Callbacks): seq<Registration>
  {
    IfPresent(sel, Change, cbs.onChange) + CropBundle(sel, cbs)
  }

  /** The callback the mount effect attaches for `event`, if any. */
  function Listening(cbs: Callbacks, event: EventName): Option<Handler>
  {
    var cb := if event == Change then cbs.onChange else CropCallback(cbs, event);
    if cb.Some? then Some(Callback(cb.value)) else None
  }

  /** What the bundle holds, record by record: the callback `Listening`
      names for each event, on the selection, and nothing else. */
  lemma BundleMembers(sel: Element, cbs: Callbacks)
    ensures forall g :: g in Bundle(sel, cbs) <==>
      g.element == sel && Listening(cbs, g.listener.event) == Some(g.listener.handler)
  {
    CropBundleMembers(sel, cbs);
    var b := Bundle(sel, cbs);
    forall g
      ensures g in b <==> g in IfPresent(sel, Change, cbs.onChange) || g in CropBundle(sel, cbs)
    {
    }
  }

  /** A dispatch of one event reaches at most one record of the bundle. */
  lemma BundleOnePerEvent(sel: Element, cbs: Callbacks)
    ensures OnePerEvent(Bundle(sel, cbs))
  {
    CropBundleMembers(sel, cbs);
    var pre := IfPresent(sel, Change, cbs.onChange);
    var hs := Bundle(sel, cbs);
    forall i, j | 0 <= i < j < |hs|
      ensures hs[i].element != hs[j].element || hs[i].listener.event != hs[j].listener.event
    {
      if i < |pre| {
        assert hs[i].listener.event == Change;
        assert hs[j] == CropBundle(sel, cbs)[j - |pre|];
      } else {
        assert hs[i] == CropBundle(sel, cbs)[i - |pre|] && hs[j] == CropBundle(sel, cbs)[j - |pre|];
      }
    }
  }

  /** While mounted, a dispatch of `event` on the selection reaches exactly
      the callback `Listening` names for it, and a dispatch on any other
      element reaches none of the bundle. */
  lemma BundleReaches(sel: Element, cbs: Callbacks, base: set<Listener>, target: Element, event: EventName)
    requires Tracks(Bundle(sel, cbs), sel, base)
    ensures target == sel ==> Reaching(Bundle(sel, cbs), target, event) == Listening(cbs, event)
    ensures target != sel ==> Reaching(Bundle(sel, cbs), target, event) == None
  {
    var b := Bundle(sel, cbs);
    BundleMembers(sel, cbs);
    var expected := Listening(cbs, event);
    if target == sel && expected.Some? {
      BundleOnePerEvent(sel, cbs);
      OnMember(b, target, Listener(event, expected.value));
      ReachingAttached(b, target, event, expected.value);
    }
  }

  /** A read of the four geometry properties with no `try`: it throws when a
      getter throws, and is `null` only without a selection. */
  function HandleBounds(sel: Element?): (r: Outcome<Option<Bounds>>)
    reads {sel}`readFails, {sel}`rect
    ensures sel == null ==> r == Returned(None)
    ensures sel != null ==> (r.Threw? <==> sel.readFails)
    ensures sel != null && !sel.readFails ==> r == Returned(Some(sel.rect))
  {
    if sel == null then Returned(None)
    else
      var b := sel.Read();
      if b.None? then Threw else Returned(b)
  }

  /** A partial rectangle that names every field, so that `setBounds` reads
      nothing from the selection. */
  predicate Names4(p: PartialBounds)
  {
    p.x.Some? && p.y.Some? && p.width.Some? && p.height.Some?
  }

  class Cropper {
    // refs, attached when the component renders its elements
    var canvas: Element?
    var selection: Element?
    const config: Config
    var callbacks: Callbacks
    // the mount effect has run
    var mounted: bool
    // it passed its guard and returned a cleanup
    var attached: bool
    var mountSelection: Element?
    var handlers: seq<Registration>
    // the host callbacks called so far
    var notifications: seq<Notification>

    ghost predicate Valid()
      reads this
    {
      && (attached ==> mounted && mountSelection != null)
      && (forall g :: g in handlers ==> g.element == mountSelection)
      && (forall g :: g in handlers ==> g.listener.handler.Callback?)
    }

    constructor (props: Props, callbacks: Callbacks)
      ensures Valid()
      ensures canvas == null && selection == null
      ensures config == Resolve(props) && this.callbacks == callbacks
      ensures !mounted && !attached && handlers == [] && notifications == []
    {
      canvas, selection := null, null;
      config, this.callbacks := Resolve(props), callbacks;
      mounted, attached, mountSelection := false, false, null;
      handlers, notifications := [], [];
    }

    /** A render: the effect that copies the newest callback props into the
        callback refs. */
    method Render(cbs: Callbacks)
      requires Valid()
      modifies this`callbacks
      ensures Valid() && callbacks == cbs
    {
      callbacks := cbs;
    }

    /** React assigns the two refs. */
    method SetRefs(c: Element?, s: Element?)
      requires Valid()
      modifies this`canvas, this`selection
      ensures Valid() && canvas == c && selection == s
    {
      canvas, selection := c, s;
    }

    /** The handle's `setBounds`: each field of the partial, or else the
        selection's current value, goes to `$change`. A current value is
        read only for a field the partial omits, so a throwing getter
        escapes only then. No-op without a selection. */
    method SetBounds(p: PartialBounds) returns (r: Outcome<()>)
      requires Valid()
      modifies {selection}`rect, {selection}`calls
      ensures Valid()
      ensures selection == null ==> r == Returned(())
      ensures selection != null ==> (r.Threw? <==> selection.readFails && !Names4(p))
      ensures selection != null && r.Threw? ==>
        selection.rect == old(selection.rect) && selection.calls == old(selection.calls)
      ensures selection != null && r.Returned? ==>
        && selection.calls == old(selection.calls) + [ChangeCall(Merge(p, old(selection.rect)))]
        && selection.rect == selection.constrain(Merge(p, old(selection.rect)))
    {
      var sel := selection;
      if sel == null {
        return Returned(());
      }
      var current := sel.Read();
      if current.None? && !Names4(p) {
        return Threw;
      }
      var x := if p.x.Some? then p.x.value else current.value.x;
      var y := if p.y.Some? then p.y.value else current.value.y;
      var width := if p.width.Some? then p.width.value else current.value.width;
      var height := if p.height.Some? then p.height.value else current.value.height;
      sel.Change(Bounds(x, y, width, height));
      r := Returned(());
    }

    /** The handle's `reset`: `$reset` on the selection, if there is one. */
    method Reset()
      requires Valid()
      modifies {selection}`rect, {selection}`calls
      ensures Valid()
      ensures selection != null ==>
        selection.calls == old(selection.calls) + [ResetCall] && selection.rect == selection.initial
    {
      if selection != null {
        selection.Reset();
      }
    }

    /** The handle's `clear`: `$clear` on the selection, if there is one. */
    method Clear()
      requires Valid()
      modifies {selection}`rect, {selection}`calls
      ensures Valid()
      ensures selection != null ==>
        selection.calls == old(selection.calls) + [ClearCall] && selection.rect == selection.cleared
    {
      if selection != null {
        selection.Clear();
      }
    }

    /** The mount effect. It runs once; unless both refs are attached it
        does nothing, and otherwise it calls `onReady(canvas)` and attaches
        one listener per callback present now, recording each. */
    method Mount()
      requires Valid() && !mounted
      modifies this`mounted, this`attached, this`mountSelection, this`handlers, this`notifications
      modifies {selection}`listeners
      ensures Valid() && mounted
      ensures attached <==> canvas != null && selection != null
      ensures !attached ==> handlers == old(handlers) && notifications == old(notifications)
      ensures !attached && selection != null ==> selection.listeners == old(selection.listeners)
      ensures attached ==>
        && mountSelection == selection
        && handlers == Bundle(selection, callbacks)
        && Tracks(handlers, selection, old(selection.listeners))
        && notifications == old(notifications) + ReadyNotice(callbacks, canvas)
    {
      mounted := true;
      if canvas == null || selection == null {
        return;
      }
      notifications := notifications + ReadyNotice(callbacks, canvas);
      mountSelection := selection;
      handlers := [];
      attached := true;
      ghost var notified := notifications;
      AttachBundle();
      assert notifications == notified;
    }

    /** The listener part of the mount effect. */
    method AttachBundle()
      requires Valid() && attached && handlers == []
      modifies this`handlers, mountSelection`listeners
      ensures Valid()
      ensures handlers == Bundle(mountSelection, callbacks)
      ensures Tracks(handlers, mountSelection, old(mountSelection.listeners))
    {
      ghost var base := mountSelection.listeners;
      AddIfPresent(Change, callbacks.onChange, base);
      AttachCrops(base);
    }

    /** The three crop listeners of the mount effect. */
    method AttachCrops(ghost base: set<Listener>)
      requires Valid() && attached && Tracks(handlers, mountSelection, base)
      modifies this`handlers, mountSelection`listeners
      ensures Valid()
      ensures handlers == old(handlers) + CropBundle(mountSelection, callbacks)
      ensures Tracks(handlers, mountSelection, base)
    {
      var sel, cbs := mountSelection, callbacks;
      ghost var prefix := handlers;
      ghost var start, move, end := IfPresent(sel, CropStart, cbs.onCropStart),
        IfPresent(sel, CropMove, cbs.onCropMove), IfPresent(sel, CropEnd, cbs.onCropEnd);
      AddIfPresent(CropStart, cbs.onCropStart, base);
      assert handlers == prefix + start;
      AddIfPresent(CropMove, cbs.onCropMove, base);
      assert handlers == prefix + start + move;
      AddIfPresent(CropEnd, cbs.onCropEnd, base);
      assert handlers == prefix + (start + move + end);
    }

    /** `if (cbRef.current) addEventListener(selection, event, cbRef.current)` */
    method AddIfPresent(event: EventName, cb: Option<nat>, ghost base: set<Listener>)
      requires Valid() && attached && Tracks(handlers, mountSelection, base)
      modifies this`handlers, mountSelection`listeners
      ensures Valid()
      ensures handlers == old(handlers) + IfPresent(mountSelection, event, cb)
      ensures Tracks(handlers, mountSelection, base)
    {
      if cb.Some? {
        var l := Listener(event, Callback(cb.value));
        OnAppend(handlers, Registration(mountSelection, l), mountSelection);
        handlers := Attach(handlers, mountSelection, l);
      }
    }

    /** Unmount: the cleanup removes exactly the recorded listeners, so none
        of them is reached afterwards. Nothing is removed when the mount
        effect returned early. */
    method Unmount()
      requires Valid() && mounted
      modifies this`attached, Targets(handlers)`listeners
      ensures Valid() && !attached
      ensures !old(attached) ==> unchanged(Targets(handlers)`listeners)
      ensures old(attached) ==>
        && (forall e :: e in Targets(handlers) ==> e.listeners == old(e.listeners) - On(handlers, e))
        && (forall g :: g in handlers ==> g.listener !in g.element.listeners)
    {
      if !attached {
        return;
      }
      Detach(handlers);
      attached := false;
    }

    /** `target` dispatches `event`; the recorded callback for it, if any
        and still attached, runs. The component keeps no bounds, so the
        callback observes none. */
    method Dispatch(target: Element, event: EventName)
      requires Valid()
      modifies this`notifications
      ensures Valid()
      ensures Reaching(handlers, target, event).None? ==> notifications == old(notifications)
      ensures Reaching(handlers, target, event).Some? ==>
        notifications == old(notifications) + [Fired(Reaching(handlers, target, event).value.id, event, None)]
    {
      var h := Reaching(handlers, target, event);
      if h.Some? {
        assert Registration(target, Listener(event, h.value)) in handlers;
        notifications := notifications + [Fired(h.value.id, event, None)];
      }
    }
  }
}
