# react-cropper-2 binding layer, modelled in Dafny

react-cropper-2 wraps the CropperJS 2.x custom elements (`cropper-canvas`,
`cropper-image`, `cropper-selection`) for React. This project models its core:

- **useCropperAdvanced** (`advanced.dfy`, module `AdvancedHook`). It holds three
  element refs, the `bounds`, `isReady` and `refsReady` state, and callback refs
  that every render refreshes. Its refs-ready effect and setup effect have these parts:
  - the `checkReady` animation-frame poll;
  - `handleChange`;
  - the listener bundle, recorded in a `handlers` list;
  - the cleanup, which cancels the poll and removes exactly the recorded listeners.

  The hook also provides `setBounds`, `reset`, `clear` and `getCroppedCanvas`.
- **useCropper**, the legacy hook (`legacy.dfy`, module `LegacyHook`). It has
  two refs. Setup marks the hook ready at once, and it calls the selection's own
  `getBounds`/`setBounds`/`reset`/`clear`.
- **The `Cropper` component** (`component.dfy`, module `CropperComponent`). It
  covers:
  - how the props defaults are resolved;
  - the imperative handle: `getBounds` without a `try`, and `setBounds` via
    `??` on the element's own properties;
  - the mount-once effect and its cleanup.
- **The playground state** (`playground.dfy`, module `Playground`). It covers:
  - `setKnob` as an object spread;
  - `r2`;
  - the `HH:MM:SS.mmm` timestamp;
  - the module-wide id counter behind `mkEntry`;
  - the event log, which keeps the newest 100 entries.

Two modules are shared:

- `elements.dfy`, module `Elements`, is the CropperJS elements as the binding
  layer sees them. An `Element` has:
  - a DOM listener set;
  - a selection rectangle;
  - an "upgraded" flag (the `$` methods exist);
  - a "reads throw" flag;
  - a log of the calls made on it.

  The cropping engine is reduced to three constants fixed at creation:
  `constrain` normalises a requested rectangle, `initial` is what `$reset`
  restores, and `cleared` is what `$clear` leaves.
- `binding.dfy`, module `Binding`, is the `handlers` record that all three
  setups keep. Each entry is one `{element, event, handler}` record. `Detach` is
  the cleanup's `forEach(removeEventListener)`. `Reaching` decides which listener
  a dispatched event runs: the one this run recorded for that element and event,
  provided it is still attached.

React's scheduling is explicit. Rendering, ref assignment, running an effect,
running a cleanup, dispatching an event and running a queued animation frame
are each a method that the host calls in whatever order it likes. Host
callbacks are identities (`nat`). Calls to them are recorded in
`notifications`, each with the hook's `bounds` at the moment of the call.

## Model

| member | source | states |
|---|---|---|
| Elements.Merge | src/hooks/useCropperAdvanced.ts:161-164 | each coordinate handed to `$change` is the partial's field when it is given, the current field otherwise |
| Elements.MergeComplete | src/hooks/useCropperAdvanced.ts:161-164 | a partial naming all four fields requests exactly that rectangle, whatever the current one |
| Elements.MergeNoFields | src/hooks/useCropperAdvanced.ts:161-164 | `setBounds({})` requests the current rectangle unchanged |
| Elements.MergeOverride | src/hooks/useCropperAdvanced.ts:161-164 | merging `p` then `q` equals merging `p` overridden field by field by `q` |
| Elements.ReadBounds | src/hooks/useCropperAdvanced.ts:136-150 | `getBounds` is null without a selection or when a getter throws, otherwise exactly the selection's rectangle; the legacy hook's `getBounds` (src/hooks/useCropper.ts lines 108-117), which calls the element's own `getBounds` inside the same `try`, is modelled by this same read |
| Elements.Element.Read | src/types/index.ts:57-86 | reading the selection's four geometry properties yields its rectangle, or fails exactly when the getters throw |
| Elements.Element.Change | src/types/index.ts:83 | `$change` records the call and leaves the engine's normalisation of the requested rectangle |
| Elements.Element.Reset | src/types/index.ts:84 | `$reset` records the call and restores the element's initial rectangle |
| Elements.Element.Clear | src/types/index.ts:85 | `$clear` records the call and leaves the element's cleared rectangle |
| Elements.Element.SetBounds | src/hooks/useCropper.ts:125 | the legacy `setBounds(partial)` records the call and leaves the normalised merge of the partial onto the old rectangle |
| Elements.Element.LegacyReset | src/hooks/useCropper.ts:141 | the legacy `reset()` records the call and restores the initial rectangle |
| Elements.Element.LegacyClear | src/hooks/useCropper.ts:155 | the legacy `clear()` records the call and leaves the cleared rectangle |
| Binding.OnAppend | src/hooks/useCropperAdvanced.ts:308-315 | recording one more listener adds it to the listeners recorded for its element and to no other element's |
| Binding.OnMember | src/hooks/useCropperAdvanced.ts:302-315 | a listener is among those recorded for an element iff a record pairs that element with it |
| Binding.Find | src/hooks/useCropperAdvanced.ts:302-315 | the handler found for an element and event comes from a record for that pair, and none is found iff no such record exists |
| Binding.FindUnique | src/hooks/useCropperAdvanced.ts:317-347 | when each element and event is recorded at most once, the handler found is the recorded one |
| Binding.CropBundleMembers | src/hooks/useCropperAdvanced.ts:320-340 | the crop listeners attached are exactly the selection's `cropstart`/`cropmove`/`cropend` callbacks that were present, each once |
| Binding.AppendOnePerEvent | src/hooks/useCropperAdvanced.ts:320-326 | adding a listener for an event not yet recorded on that element keeps every element and event recorded at most once |
| Binding.Reaching | src/hooks/useCropperAdvanced.ts:313-314 | a dispatch reaches only a handler that this run recorded for that element and event and that is still attached |
| Binding.ReachingAttached | src/hooks/useCropperAdvanced.ts:308-315 | with one record per element and event, a dispatch reaches the recorded handler exactly while it stays attached |
| Binding.ReachingDetached | src/hooks/useCropperAdvanced.ts:355-357 | once every recorded listener has been removed, no dispatch reaches any of them |
| Binding.Attach | src/hooks/useCropperAdvanced.ts:308-315 | `addEventListener` adds the listener to the element and appends its record |
| Binding.Detach | src/hooks/useCropperAdvanced.ts:355-357 | removes exactly the recorded listeners from their elements, so that none remains attached, and leaves other listeners alone |
| AdvancedHook.BundleMembers | src/hooks/useCropperAdvanced.ts:317-347 | the bundle holds `handleChange` on the selection for `change`, and each crop or transform callback present on its target, and nothing else |
| AdvancedHook.BundleOnePerEvent | src/hooks/useCropperAdvanced.ts:317-347 | the bundle records each element and event at most once |
| AdvancedHook.BundleReaches | src/hooks/useCropperAdvanced.ts:317-347 | after setup, an event on its target reaches exactly the handler listening for it, and an event on any other element reaches none |
| AdvancedHook.Hook.constructor | src/hooks/useCropperAdvanced.ts:108-115 | the hook starts with empty refs, null bounds, not ready and no listeners; an omitted `autoInitialize` means `true` |
| AdvancedHook.Hook.Render | src/hooks/useCropperAdvanced.ts:126-133 | every render copies the newest callbacks into the callback refs and reads `autoInitialize` afresh, omitted meaning `true` |
| AdvancedHook.Hook.SetRefs | src/hooks/useCropperAdvanced.ts:111-113 | the refs hold the elements React attached |
| AdvancedHook.Hook.CheckRefs | src/hooks/useCropperAdvanced.ts:238-248 | `refsReady` becomes true once `autoInitialize` holds and all three refs are attached, and never otherwise |
| AdvancedHook.Hook.CheckReady | src/hooks/useCropperAdvanced.ts:265-283 | a cancelled check does nothing; otherwise the hook turns ready and calls `onReady(canvas)` iff `$toCanvas` exists and the selection has positive size, and queues another frame iff not |
| AdvancedHook.Hook.Tick | src/hooks/useCropperAdvanced.ts:281 | a queued frame reruns the check; with none queued nothing changes, and a ready hook stays ready without calling `onReady` again |
| AdvancedHook.Hook.AddListener | src/hooks/useCropperAdvanced.ts:308-315 | attaching a listener appends its record and keeps both elements' listeners equal to their old listeners plus the recorded ones |
| AdvancedHook.Hook.AddIfPresent | src/hooks/useCropperAdvanced.ts:320-326 | a callback is attached and recorded iff it is present |
| AdvancedHook.Hook.Setup | src/hooks/useCropperAdvanced.ts:251-258 | the effect runs iff `autoInitialize`, `refsReady` and all three refs hold; it then checks readiness once and attaches exactly the bundle; otherwise nothing changes |
| AdvancedHook.Hook.StartRun | src/hooks/useCropperAdvanced.ts:262-347 | a fresh run captures the elements, checks readiness once and attaches exactly the bundle, whether or not the check succeeded |
| AdvancedHook.Hook.AttachBundle | src/hooks/useCropperAdvanced.ts:317-347 | attaches and records exactly the bundle for the current callbacks |
| AdvancedHook.Hook.Cleanup | src/hooks/useCropperAdvanced.ts:350-360 | cancels the pending frame, removes exactly the recorded listeners, leaves none attached, and resets `isReady` and `refsReady`; without a live run nothing changes |
| AdvancedHook.Hook.HandleChange | src/hooks/useCropperAdvanced.ts:288-299 | bounds take the re-read rectangle when the read succeeds and are kept otherwise; the newest `onChange` is then called |
| AdvancedHook.Hook.Dispatch | src/hooks/useCropperAdvanced.ts:317-347 | an event runs only the handler that reaches it: `handleChange` for `change`, the captured callback for the others, nothing once cleaned up |
| AdvancedHook.Hook.SetBounds | src/hooks/useCropperAdvanced.ts:153-175 | without a readable selection nothing changes; otherwise `$change` gets the merged rectangle and bounds become what the element then reports |
| AdvancedHook.Hook.Reset | src/hooks/useCropperAdvanced.ts:178-189 | calls `$reset` and stores the re-read bounds when readable; no-op without a selection |
| AdvancedHook.Hook.Clear | src/hooks/useCropperAdvanced.ts:192-198 | calls `$clear` and sets bounds to null; no-op without a selection |
| AdvancedHook.Hook.GetCroppedCanvas | src/hooks/useCropperAdvanced.ts:218-232 | null iff there is no selection or `$toCanvas` is missing, warning in the second case only; otherwise `$toCanvas` with the options unchanged |
| LegacyHook.BundleMembers | src/hooks/useCropper.ts:229-240 | the bundle holds `handleChange` for `change` and each crop callback present, all on the selection, and nothing else |
| LegacyHook.BundleOnePerEvent | src/hooks/useCropper.ts:229-240 | the bundle records each event at most once |
| LegacyHook.BundleReaches | src/hooks/useCropper.ts:229-240 | after setup, an event on the selection reaches exactly its listening handler, and an event on any other element reaches none |
| LegacyHook.Hook.constructor | src/hooks/useCropper.ts:83-89 | the hook starts with empty refs, null bounds, not ready and no listeners; an omitted `autoInitialize` means `true` |
| LegacyHook.Hook.Render | src/hooks/useCropper.ts:99-105 | every render copies the newest callbacks into the callback refs and reads `autoInitialize` afresh, omitted meaning `true` |
| LegacyHook.Hook.SetRefs | src/hooks/useCropper.ts:86-87 | the refs hold the elements React attached |
| LegacyHook.Hook.CheckRefs | src/hooks/useCropper.ts:175-184 | `refsReady` becomes true once `autoInitialize` holds and both refs are attached, and never otherwise |
| LegacyHook.Hook.AddListener | src/hooks/useCropper.ts:220-227 | attaching a listener appends its record and keeps the selection's listeners equal to the old ones plus the recorded ones |
| LegacyHook.Hook.AddIfPresent | src/hooks/useCropper.ts:232-240 | a crop callback is attached and recorded iff it is present |
| LegacyHook.Hook.Setup | src/hooks/useCropper.ts:187-193 | the effect runs iff `autoInitialize`, `refsReady` and both refs hold; it then turns ready, calls `onReady(canvas)` and attaches exactly the bundle; otherwise nothing changes |
| LegacyHook.Hook.StartRun | src/hooks/useCropper.ts:195-240 | a run is ready at once, notifies `onReady` once if present, and attaches exactly the bundle |
| LegacyHook.Hook.AttachBundle | src/hooks/useCropper.ts:229-240 | attaches and records exactly the bundle for the current callbacks |
| LegacyHook.Hook.Cleanup | src/hooks/useCropper.ts:243-249 | removes exactly the recorded listeners, leaves none attached, and resets `isReady` and `refsReady` |
| LegacyHook.Hook.HandleChange | src/hooks/useCropper.ts:202-211 | bounds take the re-read rectangle when the read succeeds and are kept otherwise; the newest `onChange` is then called |
| LegacyHook.Hook.Dispatch | src/hooks/useCropper.ts:229-240 | an event runs only the handler that reaches it, nothing once cleaned up |
| LegacyHook.Hook.SetBounds | src/hooks/useCropper.ts:120-134 | passes the partial to the element's `setBounds` without merging it, then stores the re-read bounds when readable; no-op without a selection |
| LegacyHook.Hook.Reset | src/hooks/useCropper.ts:137-148 | calls the element's `reset` and stores the re-read bounds when readable; no-op without a selection |
| LegacyHook.Hook.Clear | src/hooks/useCropper.ts:151-157 | calls the element's `clear` and sets bounds to null; no-op without a selection |
| CropperComponent.ResolveDefaults | src/components/Cropper.tsx:103-116 | with no options given, alt is empty, coverage 0.8, `skewable` and `multiple` false, every other toggle true |
| CropperComponent.ResolveGiven | src/components/Cropper.tsx:101-116 | every option that is given is used as it is |
| CropperComponent.BundleMembers | src/components/Cropper.tsx:211-223 | the component attaches exactly the `onChange` and crop callbacks present, all on the selection |
| CropperComponent.BundleOnePerEvent | src/components/Cropper.tsx:211-223 | each event is recorded at most once |
| CropperComponent.BundleReaches | src/components/Cropper.tsx:211-223 | after mount, an event on the selection reaches exactly the callback given for it at mount time, and an event on any other element reaches none |
| CropperComponent.HandleBounds | src/components/Cropper.tsx:152-161 | the handle's `getBounds` is null without a selection; it throws exactly when the getters throw, since there is no `try`; otherwise it returns the rectangle |
| CropperComponent.Cropper.constructor | src/components/Cropper.tsx:99-135 | the component resolves its props once and starts unmounted, with no listeners |
| CropperComponent.Cropper.Render | src/components/Cropper.tsx:138-144 | every render copies the newest callbacks into the callback refs |
| CropperComponent.Cropper.SetRefs | src/components/Cropper.tsx:127-128 | the refs hold the elements React attached |
| CropperComponent.Cropper.SetBounds | src/components/Cropper.tsx:162-172 | no-op without a selection; throws iff a missing field must be read and the getters throw; otherwise `$change` gets the merged rectangle |
| CropperComponent.Cropper.Reset | src/components/Cropper.tsx:173-175 | calls `$reset` when there is a selection, nothing otherwise |
| CropperComponent.Cropper.Clear | src/components/Cropper.tsx:176-178 | calls `$clear` when there is a selection, nothing otherwise |
| CropperComponent.Cropper.Mount | src/components/Cropper.tsx:184-193 | the mount effect attaches iff both refs exist, and then calls `onReady(canvas)` once and attaches exactly the bundle |
| CropperComponent.Cropper.AttachBundle | src/components/Cropper.tsx:211-223 | attaches and records exactly the bundle for the current callbacks |
| CropperComponent.Cropper.AttachCrops | src/components/Cropper.tsx:215-223 | attaches and records exactly the crop callbacks present |
| CropperComponent.Cropper.AddIfPresent | src/components/Cropper.tsx:202-213 | a callback is attached and recorded iff it is present |
| CropperComponent.Cropper.Unmount | src/components/Cropper.tsx:226-230 | removes exactly the recorded listeners and leaves none attached |
| CropperComponent.Cropper.Dispatch | src/components/Cropper.tsx:211-223 | an event runs only the callback that reaches it, nothing after unmount |
| Playground.PatchFields | examples/basic/src/playground.ts:103 | every key given in `k` takes `k`'s value and every other key keeps the old one |
| Playground.PatchNothing | examples/basic/src/playground.ts:103 | `setKnob({})` changes nothing |
| Playground.PatchTwice | examples/basic/src/playground.ts:103 | applying the same patch twice equals applying it once |
| Playground.PatchCombine | examples/basic/src/playground.ts:103 | two successive patches equal one patch with the later keys winning |
| Playground.R2 | examples/basic/src/playground.ts:77-79 | `r2(n)` is a whole number of hundredths within half a hundredth of `n` |
| Playground.R2Idempotent | examples/basic/src/playground.ts:77-79 | rounding a rounded value changes nothing |
| Playground.DecimalString | examples/basic/src/playground.ts:85 | `String(n)` is never empty |
| Playground.Repeat | examples/basic/src/playground.ts:85 | the padding has the requested length |
| Playground.DecimalDigits | examples/basic/src/playground.ts:85 | `String(n)` is all digits, with no leading zero |
| Playground.ParseDecimalString | examples/basic/src/playground.ts:85 | `String(n)` reads back as `n` |
| Playground.DecimalWidth | examples/basic/src/playground.ts:85 | a number below `10^w` has at most `w` digits |
| Playground.ZerosParse | examples/basic/src/playground.ts:85 | a run of padding zeros is all digits and reads as 0 |
| Playground.ZerosAnyOrder | examples/basic/src/playground.ts:85 | a run of zeros can be split off at its end as well as at its start |
| Playground.ParseLeadingZeros | examples/basic/src/playground.ts:85 | leading zeros do not change the value |
| Playground.DigitsConcat | examples/basic/src/playground.ts:83-89 | joining digit strings gives a digit string |
| Playground.PaddedField | examples/basic/src/playground.ts:85-88 | `String(n).padStart(w, '0')` for `n < 10^w` has width `w`, is all digits and reads back as `n` |
| Playground.Layout | examples/basic/src/playground.ts:83-89 | joining fields of widths 2, 2, 2, 3 with `:`, `:`, `.` puts the separators at 2, 5, 8 and each field back at its place |
| Playground.TimestampShape | examples/basic/src/playground.ts:81-90 | for a valid clock reading the timestamp is 12 characters `HH:MM:SS.mmm`, each field all digits and reading back as the clock's value |
| Playground.AppendShape | examples/basic/src/playground.ts:105 | appending to the log keeps at most 100 entries, the new one last, preceded by the newest entries of the old log |
| Playground.AppendLastN | examples/basic/src/playground.ts:105 | appending to the newest 100 entries of a history gives the newest 100 entries of the longer history |
| Playground.LogAllLastN | examples/basic/src/playground.ts:104-106 | logging a sequence of entries from an empty log leaves exactly its newest 100 |
| Playground.IncreasingSuffix | examples/basic/src/playground.ts:92-95 | a suffix of an id-increasing log is id-increasing and bounded by the last id |
| Playground.IncreasingAppend | examples/basic/src/playground.ts:92-95 | appending an entry with a larger id keeps the log id-increasing |
| Playground.EntryCounter.constructor | examples/basic/src/playground.ts:92 | the counter starts at 0 |
| Playground.EntryCounter.MkEntry | examples/basic/src/playground.ts:93-95 | an entry gets the incremented counter as its id and the timestamp of the clock reading |
| Playground.PlaygroundState.constructor | examples/basic/src/playground.ts:100-101 | a playground starts with the default knobs and an empty log |
| Playground.PlaygroundState.SetKnob | examples/basic/src/playground.ts:103 | the knobs become the spread of the patch over the old knobs |
| Playground.PlaygroundState.Log | examples/basic/src/playground.ts:104-106 | the log becomes its newest 99 entries followed by a fresh entry with the next id |
| Playground.PlaygroundState.ClearEvents | examples/basic/src/playground.ts:107 | the log becomes empty |
| Playground.PlaygroundState.LogBounded | examples/basic/src/playground.ts:104-106 | the log never exceeds 100 entries, its ids strictly increase, and none exceeds the counter |

## Left out

- JSX rendering is not modelled: the `cropper-*` markup, the attributes the
  component and the hooks forward, `className` and `style`.
- React's scheduling is reduced to explicit method calls that the host
  sequences. State updates take effect at once, not at the next render.
  Effect dependency arrays are not checked: a re-run of an effect is its
  cleanup followed by a new setup.
- Dispatch order across several listeners on one element is not modelled. An
  element's listeners form a set, as `addEventListener` deduplicates identical
  pairs.
- The event object passed to callbacks is not modelled. A notification records
  the callback, the event name and the hook's bounds at that moment.
- `getCanvas`, `getSelection` and `getImage` only return a ref. In the model
  they are the public ref fields themselves.
- AdvancedHook.Hook.GetCroppedCanvas: the promise returned by `$toCanvas` and
  the canvas it resolves to are not modelled. The result says only whether
  `$toCanvas` was called, and with which options. `console.warn` is a flag.
- AdvancedHook.Hook.CheckReady: the `width` and `height` reads inside
  `checkReady` are assumed not to throw.
- Elements.ReadBounds: the geometry getters of a selection that the
  custom-element registry has not yet upgraded are assumed to hold the
  rectangle. In the browser such a node has no `x`/`y`/`width`/`height`
  properties, and `getBounds` would return an object whose four fields are
  `undefined`.
- Calling a `$` method of a selection that has not been upgraded would throw a
  `TypeError`. The model assumes these methods exist.
- Elements.Element.SetBounds: the legacy hook calls `getBounds`, `setBounds`,
  `reset` and `clear` on the selection. The element interface in
  `src/types/index.ts:57-86` declares none of them. Their effect is assumed to
  be:
  - `getBounds` returns `{x, y, width, height}` of the current rectangle, or
    throws when the element's geometry cannot be read;
  - `setBounds` normalises the merge of the partial onto the old rectangle;
  - `reset` restores the initial rectangle;
  - `clear` leaves the cleared rectangle.
- CropperComponent.Cropper.SetBounds: a throwing getter is modelled as all four
  geometry getters throwing together. A selection whose getters fail one by one
  is not modelled.
- Playground.R2: rounding is exact over reals. IEEE double products such as
  `1.005 * 100` and their rounding errors are not modelled.
- Coordinates, coverage and aspect ratios are exact reals, not IEEE doubles.
- Playground.PlaygroundState.SetKnob: a key that is present with the value
  `undefined` is not modelled. The spread copies such a key as `undefined`,
  but `PartialKnobs` can only omit a key.
- The clock behind `timestamp()` is a parameter, a `ClockReading`. The
  playground's counter is a shared `EntryCounter` object passed to each
  playground, which stands for the module-level `_id`.
- The `ASPECT_RATIOS` and `EVENT_COLOR` tables are display constants and are
  not modelled. A log entry's payload is a type parameter.
