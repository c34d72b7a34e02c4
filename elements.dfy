/** The CropperJS 2.x custom elements as the binding layer sees them.

    An `Element` stands for one DOM node: every node carries the DOM's
    listener registry, and a `cropper-selection` node also carries the
    selection rectangle, whether it has been upgraded (its `$` methods exist)
    and whether reading its geometry currently throws. The cropping engine
    behind `$change`, `$reset` and `$clear` is not part of this model: how it
    normalises a requested rectangle (`constrain`), what `$reset` restores
    (`initial`) and what `$clear` leaves (`cleared`) are fixed when the
    element is created and are otherwise unknown. */
module Elements {

  datatype Option<T> = None | Some(value: T)

  /** The result of a call whose property reads may throw and which does not
      catch: it either returns a value or lets the exception escape. */
  datatype Outcome<T> = Returned(value: T) | Threw

  /** `CropperBounds`: the selection rectangle. Coordinates are abstract
      numbers, not IEEE doubles. */
  datatype Bounds = Bounds(x: real, y: real, width: real, height: real)

  /** `Partial<CropperBounds>`: an omitted (or nullish) field is `None`. */
  datatype PartialBounds = PartialBounds(x: Option<real>, y: Option<real>, width: Option<real>, height: Option<real>)

  /** `value ?? fallback` */
  function Coalesce<T>(value: Option<T>, fallback: T): T
  {
    if value.Some? then value.value else fallback
  }

  /** The rectangle `setBounds` hands to `$change`: every field present in
      `p`, every other field from `current`. */
  function Merge(p: PartialBounds, current: Bounds): (r: Bounds)
    ensures p.x.Some? ==> r.x == p.x.value
    ensures p.y.Some? ==> r.y == p.y.value
    ensures p.width.Some? ==> r.width == p.width.value
    ensures p.height.Some? ==> r.height == p.height.value
    ensures p.x.None? ==> r.x == current.x
    ensures p.y.None? ==> r.y == current.y
    ensures p.width.None? ==> r.width == current.width
    ensures p.height.None? ==> r.height == current.height
  {
    Bounds(Coalesce(p.x, current.x), Coalesce(p.y, current.y),
           Coalesce(p.width, current.width), Coalesce(p.height, current.height))
  }

  /** A partial rectangle that names all four fields. */
  function Complete(b: Bounds): PartialBounds
  {
    PartialBounds(Some(b.x), Some(b.y), Some(b.width), Some(b.height))
  }

  /** The empty partial rectangle `{}`. */
  const NoFields: PartialBounds := PartialBounds(None, None, None, None)

  /** The fields of `q` laid over those of `p`: what two successive
      `setBounds` calls request together. */
  function Override(p: PartialBounds, q: PartialBounds): PartialBounds
  {
    PartialBounds(if q.x.Some? then q.x else p.x, if q.y.Some? then q.y else p.y,
                  if q.width.Some? then q.width else p.width,
                  if q.height.Some? then q.height else p.height)
  }

  lemma MergeComplete(b: Bounds, current: Bounds)
    ensures Merge(Complete(b), current) == b
  {
  }

  lemma MergeNoFields(current: Bounds)
    ensures Merge(NoFields, current) == current
  {
  }

  lemma MergeOverride(p: PartialBounds, q: PartialBounds, current: Bounds)
    ensures Merge(q, Merge(p, current)) == Merge(Override(p, q), current)
  {
  }

  /** The events the binding layer listens to: `change`, `cropstart`,
      `cropmove` and `cropend` on the selection, `transform` on the image. */
  datatype EventName = Change | CropStart | CropMove | CropEnd | Transform

  /** The identity of an `EventListener` function value. */
  datatype Handler =
    | ChangeHandler(run: nat)  // the `handleChange` closure built by setup run number `run`
    | Callback(id: nat)        // a function the host application passed in

  datatype Listener = Listener(event: EventName, handler: Handler)

  /** `GetCroppedCanvasOptions`; `beforeDraw` is the identity of the hook. */
  datatype CanvasOptions = CanvasOptions(width: Option<real>, height: Option<real>, beforeDraw: Option<nat>)

  /** The calls the binding layer makes on a selection element. */
  datatype Call =
    | ChangeCall(requested: Bounds)      // `$change(x, y, width, height)`
    | ResetCall                          // `$reset()`
    | ClearCall                          // `$clear()`
    | SetBoundsCall(partial: PartialBounds)  // legacy `setBounds(partial)`
    | LegacyResetCall                    // legacy `reset()`
    | LegacyClearCall                    // legacy `clear()`

  class Element {
    var listeners: set<Listener>
    var rect: Bounds
    var upgraded: bool
    var readFails: bool
    var calls: seq<Call>
    const constrain: Bounds -> Bounds
    const initial: Bounds
    const cleared: Bounds

    constructor (constrain: Bounds -> Bounds, initial: Bounds, cleared: Bounds)
      ensures listeners == {} && calls == [] && rect == initial
      ensures !upgraded && !readFails
      ensures this.constrain == constrain && this.initial == initial && this.cleared == cleared
    {
      listeners, calls, rect := {}, [], initial;
      upgraded, readFails := false, false;
      this.constrain, this.initial, this.cleared := constrain, initial, cleared;
    }

    /** `{x, y, width, height}` read off the element, or `None` when a
        getter throws. */
    function Read(): (r: Option<Bounds>)
      reads this`readFails, this`rect
      ensures r.Some? <==> !readFails
      ensures r.Some? ==> r.value == rect
    {
      if readFails then None else Some(rect)
    }

    /** The custom-element registry upgrades the node: its `$` methods,
        `$toCanvas` among them, now exist. */
    method Upgrade()
      modifies this`upgraded
      ensures upgraded
    {
      upgraded := true;
    }

    /** `addEventListener(event, handler)`: registering a listener that is
        already registered changes nothing. */
    method AddEventListener(l: Listener)
      modifies this`listeners
      ensures listeners == old(listeners) + {l}
    {
      listeners := listeners + {l};
    }

    /** `removeEventListener(event, handler)`: removing a listener that is
        not registered changes nothing and does not throw. */
    method RemoveEventListener(l: Listener)
      modifies this`listeners
      ensures listeners == old(listeners) - {l}
    {
      listeners := listeners - {l};
    }

    method Change(requested: Bounds)
      modifies this`rect, this`calls
      ensures rect == constrain(requested)
      ensures calls == old(calls) + [ChangeCall(requested)]
    {
      rect := constrain(requested);
      calls := calls + [ChangeCall(requested)];
    }

    method Reset()
      modifies this`rect, this`calls
      ensures rect == initial && calls == old(calls) + [ResetCall]
    {
      rect := initial;
      calls := calls + [ResetCall];
    }

    method Clear()
      modifies this`rect, this`calls
      ensures rect == cleared && calls == old(calls) + [ClearCall]
    {
      rect := cleared;
      calls := calls + [ClearCall];
    }

    /** The legacy selection API: `setBounds(partial)`. */
    method SetBounds(p: PartialBounds)
      modifies this`rect, this`calls
      ensures rect == constrain(Merge(p, old(rect)))
      ensures calls == old(calls) + [SetBoundsCall(p)]
    {
      rect := constrain(Merge(p, rect));
      calls := calls + [SetBoundsCall(p)];
    }

    method LegacyReset()
      modifies this`rect, this`calls
      ensures rect == initial && calls == old(calls) + [LegacyResetCall]
    {
      rect := initial;
      calls := calls + [LegacyResetCall];
    }

    method LegacyClear()
      modifies this`rect, this`calls
      ensures rect == cleared && calls == old(calls) + [LegacyClearCall]
    {
      rect := cleared;
      calls := calls + [LegacyClearCall];
    }
  }

  /** A read of the four geometry properties through a ref that may be
      empty, inside a `try`/`catch` that turns a throw into `null`. */
  function ReadBounds(sel: Element?): (r: Option<Bounds>)
    reads {sel}`readFails, {sel}`rect
    ensures sel == null ==> r == None
    ensures sel != null && sel.readFails ==> r == None
    ensures sel != null && !sel.readFails ==> r == Some(sel.rect)
  {
    if sel == null then None else sel.Read()
  }
}
