/** The state behind the example playground: the knobs that configure the
    cropper under test, and an event log that keeps the latest 100 entries,
    each stamped with an id from a counter shared by the whole module and
    with the local time as `HH:MM:SS.mmm`. */
module Playground {

  datatype Option<T> = None | Some(value: T)

  // ---------------------------------------------------------------- knobs

  datatype Knobs = Knobs(
    src: string,
    aspectRatio: string,
    initialCoverage: real,
    background: bool,
    rotatable: bool,
    scalable: bool,
    skewable: bool,
    translatable: bool,
    movable: bool,
    resizable: bool,
    zoomable: bool,
    multiple: bool,
    outlined: bool,
    grid: bool)

  /** `Partial<Knobs>`: `Some` for every key the object carries. */
  datatype PartialKnobs = PartialKnobs(
    src: Option<string>,
    aspectRatio: Option<string>,
    initialCoverage: Option<real>,
    background: Option<bool>,
    rotatable: Option<bool>,
    scalable: Option<bool>,
    skewable: Option<bool>,
    translatable: Option<bool>,
    movable: Option<bool>,
    resizable: Option<bool>,
    zoomable: Option<bool>,
    multiple: Option<bool>,
    outlined: Option<bool>,
    grid: Option<bool>)

  const DefaultSrc: string := "https://images.unsplash.com/photo-1506905925346-21bda4d32df4?w=800"

  /** The knobs a fresh playground starts with. */
  const DefaultKnobs: Knobs := Knobs(DefaultSrc, "free", 0.8, true, true, true, false, true, true, true, true, false, true, true)

  const NoKnobs: PartialKnobs := PartialKnobs(None, None, None, None, None, None, None, None, None, None, None, None, None, None)

  /** `{ ...p, ...k }` */
  function Patch(p: Knobs, k: PartialKnobs): Knobs
  {
    Knobs(
      if k.src.Some? then k.src.value else p.src,
      if k.aspectRatio.Some? then k.aspectRatio.value else p.aspectRatio,
      if k.initialCoverage.Some? then k.initialCoverage.value else p.initialCoverage,
      if k.background.Some? then k.background.value else p.background,
      if k.rotatable.Some? then k.rotatable.value else p.rotatable,
      if k.scalable.Some? then k.scalable.value else p.scalable,
      if k.skewable.Some? then k.skewable.value else p.skewable,
      if k.translatable.Some? then k.translatable.value else p.translatable,
      if k.movable.Some? then k.movable.value else p.movable,
      if k.resizable.Some? then k.resizable.value else p.resizable,
      if k.zoomable.Some? then k.zoomable.value else p.zoomable,
      if k.multiple.Some? then k.multiple.value else p.multiple,
      if k.outlined.Some? then k.outlined.value else p.outlined,
      if k.grid.Some? then k.grid.value else p.grid)
  }

  /** Every key `k` carries overwrites its knob; every other knob keeps
      its value. */
  lemma PatchFields(p: Knobs, k: PartialKnobs)
    ensures k.src.Some? ==> Patch(p, k).src == k.src.value
    ensures k.src.None? ==> Patch(p, k).src == p.src
    ensures k.aspectRatio.Some? ==> Patch(p, k).aspectRatio == k.aspectRatio.value
    ensures k.aspectRatio.None? ==> Patch(p, k).aspectRatio == p.aspectRatio
    ensures k.initialCoverage.Some? ==> Patch(p, k).initialCoverage == k.initialCoverage.value
    ensures k.initialCoverage.None? ==> Patch(p, k).initialCoverage == p.initialCoverage
    ensures k.background.Some? ==> Patch(p, k).background == k.background.value
    ensures k.background.None? ==> Patch(p, k).background == p.background
    ensures k.rotatable.Some? ==> Patch(p, k).rotatable == k.rotatable.value
    ensures k.rotatable.None? ==> Patch(p, k).rotatable == p.rotatable
    ensures k.scalable.Some? ==> Patch(p, k).scalable == k.scalable.value
    ensures k.scalable.None? ==> Patch(p, k).scalable == p.scalable
    ensures k.skewable.Some? ==> Patch(p, k).skewable == k.skewable.value
    ensures k.skewable.None? ==> Patch(p, k).skewable == p.skewable
    ensures k.translatable.Some? ==> Patch(p, k).translatable == k.translatable.value
    ensures k.translatable.None? ==> Patch(p, k).translatable == p.translatable
    ensures k.movable.Some? ==> Patch(p, k).movable == k.movable.value
    ensures k.movable.None? ==> Patch(p, k).movable == p.movable
    ensures k.resizable.Some? ==> Patch(p, k).resizable == k.resizable.value
    ensures k.resizable.None? ==> Patch(p, k).resizable == p.resizable
    ensures k.zoomable.Some? ==> Patch(p, k).zoomable == k.zoomable.value
    ensures k.zoomable.None? ==> Patch(p, k).zoomable == p.zoomable
    ensures k.multiple.Some? ==> Patch(p, k).multiple == k.multiple.value
    ensures k.multiple.None? ==> Patch(p, k).multiple == p.multiple
    ensures k.outlined.Some? ==> Patch(p, k).outlined == k.outlined.value
    ensures k.outlined.None? ==> Patch(p, k).outlined == p.outlined
    ensures k.grid.Some? ==> Patch(p, k).grid == k.grid.value
    ensures k.grid.None? ==> Patch(p, k).grid == p.grid
  {
  }

  /** The keys of `b` laid over those of `a`. */
  function Combine(a: PartialKnobs, b: PartialKnobs): PartialKnobs
  {
    PartialKnobs(
      if b.src.Some? then b.src else a.src,
      if b.aspectRatio.Some? then b.aspectRatio else a.aspectRatio,
      if b.initialCoverage.Some? then b.initialCoverage else a.initialCoverage,
      if b.background.Some? then b.background else a.background,
      if b.rotatable.Some? then b.rotatable else a.rotatable,
      if b.scalable.Some? then b.scalable else a.scalable,
      if b.skewable.Some? then b.skewable else a.skewable,
      if b.translatable.Some? then b.translatable else a.translatable,
      if b.movable.Some? then b.movable else a.movable,
      if b.resizable.Some? then b.resizable else a.resizable,
      if b.zoomable.Some? then b.zoomable else a.zoomable,
      if b.multiple.Some? then b.multiple else a.multiple,
      if b.outlined.Some? then b.outlined else a.outlined,
      if b.grid.Some? then b.grid else a.grid)
  }

  lemma PatchNothing(p: Knobs)
    ensures Patch(p, NoKnobs) == p
  {
  }

  lemma PatchTwice(p: Knobs, k: PartialKnobs)
    ensures Patch(Patch(p, k), k) == Patch(p, k)
  {
  }

  lemma PatchCombine(p: Knobs, a: PartialKnobs, b: PartialKnobs)
    ensures Patch(Patch(p, a), b) == Patch(p, Combine(a, b))
  {
  }

  // ------------------------------------------------------------- rounding

  /** `r2(n)`: `n` rounded to two decimals, halves upwards as `Math.round`
      does. Arithmetic is exact here, not IEEE double. */
  function R2(n: real): (r: real)
    ensures ((r * 100.0).Floor as real) == r * 100.0
    ensures n - 0.005 < r <= n + 0.005
  {
    ((n * 100.0 + 0.5).Floor as real) / 100.0
  }

  /** Rounding an already rounded value changes nothing. */
  lemma R2Idempotent(n: real)
    ensures R2(R2(n)) == R2(n)
  {
    var r := R2(n);
    var f := (r * 100.0).Floor;
    assert r * 100.0 + 0.5 == f as real + 0.5;
    assert (r * 100.0 + 0.5).Floor == f;
  }

  // ------------------------------------------------------------- timestamp

  /** The local time a `Date` reports. */
  datatype ClockReading = ClockReading(hours: nat, minutes: nat, seconds: nat, millis: nat)

  predicate ValidReading(c: ClockReading)
  {
    c.hours < 24 && c.minutes < 60 && c.seconds < 60 && c.millis < 1000
  }

  predicate IsDigit(ch: char)
  {
    '0' <= ch <= '9'
  }

  predicate AllDigits(s: string)
  {
    forall i :: 0 <= i < |s| ==> IsDigit(s[i])
  }

  function Digit(d: nat): char
    requires d < 10
  {
    ('0' as int + d) as char
  }

  function DigitValue(ch: char): int
  {
    ch as int - '0' as int
  }

  /** `String(n)`: the decimal digits of `n`, without leading zeros. */
  function DecimalString(n: nat): (s: string)
    ensures 1 <= |s|
  {
    if n < 10 then [Digit(n)] else DecimalString(n / 10) + [Digit(n % 10)]
  }

  /** The number a string of decimal digits denotes. */
  function ParseDecimal(s: string): int
  {
    if s == [] then 0 else ParseDecimal(s[..|s| - 1]) * 10 + DigitValue(s[|s| - 1])
  }

  function Pow10(w: nat): nat
  {
    if w == 0 then 1 else 10 * Pow10(w - 1)
  }

  function Repeat(ch: char, k: nat): (s: string)
    ensures |s| == k
  {
    if k == 0 then [] else [ch] + Repeat(ch, k - 1)
  }

  /** `s.padStart(w, '0')`: zeros in front up to width `w`; a longer string
      is left as it is. */
  function PadStart(s: string, w: nat): string
  {
    if |s| < w then Repeat('0', w - |s|) + s else s
  }

  /** `HH:MM:SS.mmm`, each field the padded decimal string of the reading. */
  function Timestamp(c: ClockReading): string
  {
    PadStart(DecimalString(c.hours), 2) + ([':'] + (PadStart(DecimalString(c.minutes), 2)
      + ([':'] + (PadStart(DecimalString(c.seconds), 2) + (['.'] + PadStart(DecimalString(c.millis), 3))))))
  }

  lemma {:induction false} DecimalDigits(n: nat)
    ensures AllDigits(DecimalString(n))
    ensures |DecimalString(n)| > 1 ==> DecimalString(n)[0] != '0'
  {
    if n >= 10 {
      DecimalDigits(n / 10);
    }
  }

  lemma {:induction false} ParseDecimalString(n: nat)
    ensures ParseDecimal(DecimalString(n)) == n
  {
    if n >= 10 {
      var s := DecimalString(n);
      assert s[..|s| - 1] == DecimalString(n / 10);
      ParseDecimalString(n / 10);
    }
  }

  lemma {:induction false} DecimalWidth(n: nat, w: nat)
    requires n < Pow10(w)
    ensures |DecimalString(n)| <= if w == 0 then 1 else w
  {
    if n >= 10 {
      DecimalWidth(n / 10, w - 1);
    }
  }

  lemma {:induction false} ZerosParse(k: nat)
    ensures AllDigits(Repeat('0', k))
    ensures ParseDecimal(Repeat('0', k)) == 0
  {
    if k > 0 {
      var z := Repeat('0', k);
      assert z == ['0'] + Repeat('0', k - 1);
      ZerosParse(k - 1);
      assert z[..k - 1] == Repeat('0', k - 1) by {
        ZerosAnyOrder(k);
      }
    }
  }

  /** The `k` zeros are also `k - 1` zeros followed by one more. */
  lemma {:induction false} ZerosAnyOrder(k: nat)
    requires k > 0
    ensures Repeat('0', k) == Repeat('0', k - 1) + ['0']
  {
    if k > 1 {
      ZerosAnyOrder(k - 1);
    }
  }

  lemma {:induction false} ParseLeadingZeros(k: nat, s: string)
    ensures ParseDecimal(Repeat('0', k) + s) == ParseDecimal(s)
  {
    if s == [] {
      ZerosParse(k);
      assert Repeat('0', k) + s == Repeat('0', k);
    } else {
      var t := Repeat('0', k) + s;
      assert t[..|t| - 1] == Repeat('0', k) + s[..|s| - 1];
      ParseLeadingZeros(k, s[..|s| - 1]);
    }
  }

  lemma DigitsConcat(a: string, b: string)
    requires AllDigits(a) && AllDigits(b)
    ensures AllDigits(a + b)
  {
    forall i | 0 <= i < |a + b|
      ensures IsDigit((a + b)[i])
    {
      if i >= |a| {
        assert (a + b)[i] == b[i - |a|];
      }
    }
  }

  /** A field below `10^w` pads to exactly `w` digits that read back as the
      field. */
  lemma PaddedField(n: nat, w: nat)
    requires 1 <= w && n < Pow10(w)
    ensures |PadStart(DecimalString(n), w)| == w
    ensures AllDigits(PadStart(DecimalString(n), w))
    ensures ParseDecimal(PadStart(DecimalString(n), w)) == n
  {
    var s := DecimalString(n);
    DecimalWidth(n, w);
    DecimalDigits(n);
    ParseDecimalString(n);
    if |s| < w {
      ZerosParse(w - |s|);
      ParseLeadingZeros(w - |s|, s);
      DigitsConcat(Repeat('0', w - |s|), s);
    }
  }

  /** A timestamp of a valid reading is 12 characters: two-digit hours,
      minutes and seconds separated by colons, a dot, and three-digit
      milliseconds, each field reading back as the clock's value. */
  lemma TimestampShape(c: ClockReading)
    requires ValidReading(c)
    ensures var t := Timestamp(c);
      && |t| == 12 && t[2] == ':' && t[5] == ':' && t[8] == '.'
      && AllDigits(t[0..2]) && AllDigits(t[3..5]) && AllDigits(t[6..8]) && AllDigits(t[9..12])
      && ParseDecimal(t[0..2]) == c.hours && ParseDecimal(t[3..5]) == c.minutes
      && ParseDecimal(t[6..8]) == c.seconds && ParseDecimal(t[9..12]) == c.millis
  {
    PaddedField(c.hours, 2);
    PaddedField(c.minutes, 2);
    PaddedField(c.seconds, 2);
    PaddedField(c.millis, 3);
    Layout(PadStart(DecimalString(c.hours), 2), PadStart(DecimalString(c.minutes), 2),
           PadStart(DecimalString(c.seconds), 2), PadStart(DecimalString(c.millis), 3));
  }

  /** Where the four fields and the three separators of `HH:MM:SS.mmm`
      sit. */
  lemma Layout(h: string, m: string, s: string, ms: string)
    requires |h| == 2 && |m| == 2 && |s| == 2 && |ms| == 3
    ensures var t := h + ([':'] + (m + ([':'] + (s + (['.'] + ms)))));
      && |t| == 12 && t[2] == ':' && t[5] == ':' && t[8] == '.'
      && t[0..2] == h && t[3..5] == m && t[6..8] == s && t[9..12] == ms
  {
    var t2 := s + (['.'] + ms);
    var t1 := m + ([':'] + t2);
    var t := h + ([':'] + t1);
    assert t[0..2] == h;
    assert t[3..] == t1 && t1[..2] == m;
    assert t[3..5] == m;
    assert t[6..] == t2 && t2[..2] == s;
    assert t[6..8] == s;
    assert t[9..] == ms;
    assert t[9..12] == ms;
  }

  // ------------------------------------------------------------- event log

  /** One logged event; `payload` is whatever the caller logged. */
  datatype LogEntry<P> = LogEntry(id: nat, ts: string, kind: string, payload: P)

  /** The last `n` elements of `s` (all of them when there are fewer). */
  function LastN<T>(s: seq<T>, n: nat): seq<T>
  {
    s[if |s| < n then 0 else |s| - n..]
  }

  /** `[...p.slice(-99), e]`. */
  function Append<T>(p: seq<T>, e: T): seq<T>
  {
    LastN(p, 99) + [e]
  }

  /** The appended entry comes last, after at most the 99 newest earlier
      entries in their original order: the log never exceeds 100 entries
      and drops only its oldest ones. */
  lemma AppendShape<T>(p: seq<T>, e: T)
    ensures var r := Append(p, e);
      && |r| == (if |p| < 99 then |p| + 1 else 100)
      && r[|r| - 1] == e
      && r[..|r| - 1] == p[|p| - (|r| - 1)..]
  {
    var r := Append(p, e);
    assert r[..|r| - 1] == LastN(p, 99);
  }

  /** Appending to the last 100 entries of a history gives the last 100 of
      the longer history. */
  lemma AppendLastN<T>(h: seq<T>, e: T)
    ensures Append(LastN(h, 100), e) == LastN(h + [e], 100)
  {
    var a, b := Append(LastN(h, 100), e), LastN(h + [e], 100);
    assert |a| == |b|;
    forall i | 0 <= i < |a|
      ensures a[i] == b[i]
    {
    }
  }

  /** The log built by appending `es` one by one to an empty log. */
  function LogAll<T>(es: seq<T>): seq<T>
  {
    if es == [] then [] else Append(LogAll(es[..|es| - 1]), es[|es| - 1])
  }

  /** However many entries were logged, the log holds exactly the newest
      100 of them (all of them while there are fewer). */
  lemma {:induction false} LogAllLastN<T>(es: seq<T>)
    ensures LogAll(es) == LastN(es, 100)
  {
    if es != [] {
      var init := es[..|es| - 1];
      LogAllLastN(init);
      AppendLastN(init, es[|es| - 1]);
      assert init + [es[|es| - 1]] == es;
    }
  }

  /** The module-level id counter `_id`, shared by every playground. */
  class EntryCounter {
    var last: nat

    constructor ()
      ensures last == 0
    {
      last := 0;
    }

    /** `mkEntry`: the next id (one more than the last one handed out) and
        the current time. */
    method MkEntry<P>(kind: string, payload: P, clock: ClockReading) returns (e: LogEntry<P>)
      modifies this
      ensures last == old(last) + 1
      ensures e == LogEntry(last, Timestamp(clock), kind, payload)
    {
      last := last + 1;
      e := LogEntry(last, Timestamp(clock), kind, payload);
    }
  }

  ghost predicate IncreasingIds<P>(s: seq<LogEntry<P>>)
  {
    forall i, j :: 0 <= i < j < |s| ==> s[i].id < s[j].id
  }

  lemma IncreasingSuffix<P>(s: seq<LogEntry<P>>, k: nat)
    requires IncreasingIds(s) && k <= |s|
    ensures IncreasingIds(s[k..])
    ensures forall i :: 0 <= i < |s| - k ==> s[k..][i].id <= s[|s| - 1].id
  {
    var t := s[k..];
    forall i, j | 0 <= i < j < |t|
      ensures t[i].id < t[j].id
    {
      assert t[i] == s[k + i] && t[j] == s[k + j];
    }
    forall i | 0 <= i < |t|
      ensures t[i].id <= s[|s| - 1].id
    {
      assert t[i] == s[k + i];
    }
  }

  lemma IncreasingAppend<P>(s: seq<LogEntry<P>>, e: LogEntry<P>)
    requires IncreasingIds(s)
    requires s != [] ==> s[|s| - 1].id < e.id
    ensures IncreasingIds(s + [e])
  {
    var t := s + [e];
    forall i, j | 0 <= i < j < |t|
      ensures t[i].id < t[j].id
    {
      assert t[i] == s[i];
      if j < |s| {
        assert t[j] == s[j];
      } else {
        assert s[i].id <= s[|s| - 1].id;
      }
    }
  }

  /** `usePlayground`: the knobs and the event log. */
  class PlaygroundState<P> {
    const ids: EntryCounter
    var knobs: Knobs
    var events: seq<LogEntry<P>>
    // every entry logged since the last clear
    ghost var history: seq<LogEntry<P>>

    ghost predicate Valid()
      reads this, ids
    {
      && events == LastN(history, 100)
      && IncreasingIds(history)
      && (history != [] ==> history[|history| - 1].id <= ids.last)
    }

    constructor (ids: EntryCounter)
      ensures Valid()
      ensures this.ids == ids && knobs == DefaultKnobs && events == []
    {
      this.ids := ids;
      knobs, events, history := DefaultKnobs, [], [];
    }

    method SetKnob(k: PartialKnobs)
      requires Valid()
      modifies this`knobs
      ensures Valid() && knobs == Patch(old(knobs), k)
    {
      knobs := Patch(knobs, k);
    }

    /** `log(type, payload)`: a fresh entry appended to the capped log. */
    method Log(kind: string, payload: P, clock: ClockReading)
      requires Valid()
      modifies this`events, this`history, ids
      ensures Valid()
      ensures ids.last == old(ids.last) + 1
      ensures events == Append(old(events), LogEntry(ids.last, Timestamp(clock), kind, payload))
    {
      var e := ids.MkEntry(kind, payload, clock);
      ghost var h := history + [e];
      AppendLastN(history, e);
      assert Append(events, e) == LastN(h, 100);
      IncreasingAppend(history, e);
      assert h[|h| - 1].id <= ids.last;
      events, history := Append(events, e), h;
    }

    method ClearEvents()
      requires Valid()
      modifies this`events, this`history
      ensures Valid() && events == []
    {
      events, history := [], [];
    }

    /** The log holds at most 100 entries, in strictly increasing id order,
        each id already handed out by the counter. */
    lemma LogBounded()
      requires Valid()
      ensures |events| <= 100
      ensures IncreasingIds(events)
      ensures forall i :: 0 <= i < |events| ==> events[i].id <= ids.last
    {
      IncreasingSuffix(history, |history| - |events|);
    }
  }
}
