/** What the three binding layers share: the callback props, the
    `{ element, event, handler }` records a setup run keeps so that its
    cleanup can remove exactly what it added, and the notifications the host
    application observes. */
module Binding {
  import opened Elements

  /** The optional observer props, each the identity of a function. The
      legacy hook and the component have no `onTransform`; they ignore it. */
  datatype Callbacks = Callbacks(
    onReady: Option<nat>,
    onChange: Option<nat>,
    onCropStart: Option<nat>,
    onCropMove: Option<nat>,
    onCropEnd: Option<nat>,
    onTransform: Option<nat>)

  /** One record pushed onto a setup run's `handlers` array. */
  datatype Registration = Registration(element: Element, listener: Listener)

  /** A call of a host callback. An event callback records the `bounds` state
      of the binding at the moment it runs (`None` for the component, which
      keeps no bounds state). */
  datatype Notification =
    | Ready(callback: nat, canvas: Element)
    | Fired(callback: nat, event: EventName, snapshot: Option<Bounds>)

  /** The listeners that the records `hs` put on element `e`. */
  function On(hs: seq<Registration>, e: Element): set<Listener>
  {
    if hs == [] then {}
    else On(hs[..|hs| - 1], e) + (if hs[|hs| - 1].element == e then {hs[|hs| - 1].listener} else {})
  }

  lemma {:induction false} OnAppend(hs: seq<Registration>, r: Registration, e: Element)
    ensures On(hs + [r], e) == On(hs, e) + (if r.element == e then {r.listener} else {})
  {
    assert (hs + [r])[..|hs|] == hs;
  }

  lemma {:induction false} OnMember(hs: seq<Registration>, e: Element, l: Listener)
    ensures l in On(hs, e) <==> Registration(e, l) in hs
  {
    if hs != [] {
      OnMember(hs[..|hs| - 1], e, l);
      assert hs == hs[..|hs| - 1] + [hs[|hs| - 1]];
    }
  }

  /** The first record in `hs` for `event` on `target`, if any: the handler
      a dispatch of `event` on `target` reaches among these records. */
  function Find(hs: seq<Registration>, target: Element, event: EventName): (r: Option<Handler>)
    ensures r.Some? ==> Registration(target, Listener(event, r.value)) in hs
    ensures r.None? ==> forall h :: Registration(target, Listener(event, h)) !in hs
  {
    if hs == [] then None
    else if hs[0].element == target && hs[0].listener.event == event then Some(hs[0].listener.handler)
    else Find(hs[1..], target, event)
  }

  /** At most one record per element and event. */
  ghost predicate OnePerEvent(hs: seq<Registration>)
  {
    forall i, j :: 0 <= i < j < |hs| ==> hs[i].element != hs[j].element || hs[i].listener.event != hs[j].listener.event
  }

  lemma {:induction false} FindUnique(hs: seq<Registration>, target: Element, event: EventName, h: Handler)
    requires OnePerEvent(hs)
    requires Registration(target, Listener(event, h)) in hs
    ensures Find(hs, target, event) == Some(h)
  {
    if hs[0] != Registration(target, Listener(event, h)) {
      assert Registration(target, Listener(event, h)) in hs[1..];
      FindUnique(hs[1..], target, event, h);
    }
  }

  /** A record for `event` on `e` when the callback `cb` is present:
      `if (cbRef.current) addEventListener(e, event, cbRef.current)`. */
  function IfPresent(e: Element, event: EventName, cb: Option<nat>): seq<Registration>
  {
    if cb.Some? then [Registration(e, Listener(event, Callback(cb.value)))] else []
  }

  /** The crop listeners every binding attaches to the selection:
      `cropstart`, `cropmove` and `cropend`, each only for a callback
      present when the listeners are attached. */
  function CropBundle(sel: Element, cbs: Callbacks): seq<Registration>
  {
    IfPresent(sel, CropStart, cbs.onCropStart)
      + IfPresent(sel, CropMove, cbs.onCropMove)
      + IfPresent(sel, CropEnd, cbs.onCropEnd)
  }

  /** The crop callback listening for `event`, if any. */
  function CropCallback(cbs: Callbacks, event: EventName): Option<nat>
  {
    match event
    case CropStart => cbs.onCropStart
    case CropMove => cbs.onCropMove
    case CropEnd => cbs.onCropEnd
    case _ => None
  }

  /** The crop listeners, record by record: exactly one per present crop
      callback, on the selection, and at most one per event. */
  lemma CropBundleMembers(sel: Element, cbs: Callbacks)
    ensures forall g :: g in CropBundle(sel, cbs) <==>
      g.element == sel && g.listener.handler.Callback? && CropCallback(cbs, g.listener.event) == Some(g.listener.handler.id)
    ensures OnePerEvent(CropBundle(sel, cbs))
  {
    var b := CropBundle(sel, cbs);
    forall g
      ensures g in b <==>
        || g in IfPresent(sel, CropStart, cbs.onCropStart)
        || g in IfPresent(sel, CropMove, cbs.onCropMove)
        || g in IfPresent(sel, CropEnd, cbs.onCropEnd)
    {
    }
    AppendOnePerEvent(IfPresent(sel, CropStart, cbs.onCropStart), sel, CropMove, cbs.onCropMove);
    AppendOnePerEvent(IfPresent(sel, CropStart, cbs.onCropStart) + IfPresent(sel, CropMove, cbs.onCropMove),
                      sel, CropEnd, cbs.onCropEnd);
  }

  /** The `onReady` call a successful readiness check makes, if the prop
      is set. */
  function ReadyNotice(cbs: Callbacks, canvas: Element): seq<Notification>
  {
    if cbs.onReady.Some? then [Ready(cbs.onReady.value, canvas)] else []
  }

  /** Adding the record for an event no record yet has keeps at most one
      record per element and event. */
  lemma AppendOnePerEvent(hs: seq<Registration>, e: Element, event: EventName, cb: Option<nat>)
    requires OnePerEvent(hs)
    requires forall g :: g in hs ==> g.listener.event != event
    ensures OnePerEvent(hs + IfPresent(e, event, cb))
  {
  }

  /** The handler among the records `hs` that a dispatch of `event` on
      `target` reaches: recorded for that element and event, and still
      attached to it. */
  function Reaching(hs: seq<Registration>, target: Element, event: EventName): (r: Option<Handler>)
    reads target`listeners
    ensures r.Some? ==> Registration(target, Listener(event, r.value)) in hs
    ensures r.Some? ==> Listener(event, r.value) in target.listeners
  {
    var h := Find(hs, target, event);
    if h.Some? && Listener(event, h.value) in target.listeners then h else None
  }

  /** With at most one record per element and event, a recorded listener is
      reached exactly while it is still attached. */
  lemma ReachingAttached(hs: seq<Registration>, target: Element, event: EventName, h: Handler)
    requires OnePerEvent(hs)
    requires Registration(target, Listener(event, h)) in hs
    ensures Reaching(hs, target, event) == (if Listener(event, h) in target.listeners then Some(h) else None)
  {
    FindUnique(hs, target, event, h);
  }

  /** Once every record's listener has been removed, no dispatch reaches any
      of them. */
  lemma ReachingDetached(hs: seq<Registration>, target: Element, event: EventName)
    requires forall g :: g in hs ==> g.listener !in g.element.listeners
    ensures Reaching(hs, target, event) == None
  {
  }

  /** `e.listeners` is `base` plus what the records `hs` added to it. */
  ghost predicate Tracks(hs: seq<Registration>, e: Element, base: set<Listener>)
    reads e
  {
    e.listeners == base + On(hs, e)
  }

  /** The `addEventListener` helper of each setup effect: attach, then record. */
  method Attach(hs: seq<Registration>, e: Element, l: Listener) returns (hs': seq<Registration>)
    modifies e`listeners
    ensures e.listeners == old(e.listeners) + {l}
    ensures hs' == hs + [Registration(e, l)]
  {
    e.AddEventListener(l);
    hs' := hs + [Registration(e, l)];
  }

  /** The elements the records `hs` refer to. */
  function Targets(hs: seq<Registration>): set<Element>
  {
    set r | r in hs :: r.element
  }

  /** The cleanup loop `handlers.forEach(h => h.element.removeEventListener(...))`. */
  method Detach(hs: seq<Registration>)
    modifies Targets(hs)`listeners
    ensures forall e :: e in Targets(hs) ==> e.listeners == old(e.listeners) - On(hs, e)
    ensures forall r :: r in hs ==> r.listener !in r.element.listeners
  {
    var i := 0;
    while i < |hs|
      invariant 0 <= i <= |hs|
      invariant forall e :: e in Targets(hs) ==> e.listeners == old(e.listeners) - On(hs[..i], e)
    {
      OnAppend(hs[..i], hs[i], hs[i].element);
      forall e | e in Targets(hs) && e != hs[i].element
        ensures On(hs[..i] + [hs[i]], e) == On(hs[..i], e)
      {
        OnAppend(hs[..i], hs[i], e);
      }
      hs[i].element.RemoveEventListener(hs[i].listener);
      assert hs[..i + 1] == hs[..i] + [hs[i]];
      i := i + 1;
    }
    assert hs[..|hs|] == hs;
    forall r | r in hs
      ensures r.listener !in r.element.listeners
    {
      OnMember(hs, r.element, r.listener);
    }
  }
}
