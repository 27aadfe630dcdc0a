/**
 * apps/api/src/catalog/route-windows.ts: the windows a schedule offers on a date, and the check that a
 * given window is one of them. Dates are day numbers, instants are milliseconds, and a zone is a function
 * from instants to its offset in minutes.
 */
module RouteWindows {
  import opened Wrappers

  type Zone = int -> int

  const MINUTE_MS: int := 60000
  const DAY_MINUTES: int := 1440

  datatype Rule = Rule(startMinute: int, endMinute: int, windowMinutes: int)
  datatype Window = Window(start: int, end: int)

  /** What the zone's wall clock shows: a date and a minute of that date. */
  datatype Local = Local(date: int, minute: int)

  predicate ValidRule(rule: Rule) {
    0 <= rule.startMinute < rule.endMinute <= DAY_MINUTES && 5 <= rule.windowMinutes <= 120
  }

  function LocalMinutes(t: int, zone: Zone): int {
    (t + zone(t) * MINUTE_MS) / MINUTE_MS
  }

  /** formattedParts: seconds are dropped. */
  function LocalOf(t: int, zone: Zone): Local {
    Local(LocalMinutes(t, zone) / DAY_MINUTES, LocalMinutes(t, zone) % DAY_MINUTES)
  }

  // ----- zonedLocalMinuteToDate --------------------------------------------------------------

  /** The correction loop, from a candidate and with some attempts left. */
  function Corrected(target: int, candidate: int, attempts: nat, zone: Zone): int
    decreases attempts
  {
    if attempts == 0 then candidate
    else
      var adjustment := target - LocalMinutes(candidate, zone) * MINUTE_MS;
      if adjustment == 0 then candidate else Corrected(target, candidate + adjustment, attempts - 1, zone)
  }

  function Zoned(date: int, minute: int, zone: Zone): Option<int> {
    var target := (date * DAY_MINUTES + minute) * MINUTE_MS;
    var candidate := Corrected(target, target, 4, zone);
    if LocalOf(candidate, zone) == Local(date, minute) then Some(candidate) else None
  }

  ghost predicate Constant(zone: Zone, offset: int) {
    forall t :: zone(t) == offset
  }

  /** The clocks change between two offsets, as where summer time is kept. */
  ghost predicate TwoOffsets(zone: Zone, first: int, second: int) {
    forall t :: zone(t) == first || zone(t) == second
  }

  /** An instant on a whole minute at which the wall clock shows the wanted date and minute. */
  ghost predicate Shows(t: int, date: int, minute: int, zone: Zone) {
    t % MINUTE_MS == 0 && LocalOf(t, zone) == Local(date, minute)
  }

  /**
   * The instant found is on a whole minute and shows the wanted date and minute; a minute of 24:00 is never found. In
   * a zone with at most two offsets one is found whenever there is one, so that only skipped minutes are missed.
   */
  method ZonedLocalMinuteToDate(date: int, minute: int, zone: Zone) returns (instant: Option<int>)
    ensures instant.Some? ==> Shows(instant.value, date, minute, zone)
    ensures !(0 <= minute < DAY_MINUTES) ==> instant.None?
    ensures forall first, second :: TwoOffsets(zone, first, second) ==>
              (instant.Some? <==> exists t :: Shows(t, date, minute, zone))
    ensures forall offset :: Constant(zone, offset) && 0 <= minute < DAY_MINUTES ==>
              instant == Some((date * DAY_MINUTES + minute - offset) * MINUTE_MS)
    ensures instant == Zoned(date, minute, zone)
  {
    hide LocalOf, LocalMinutes, Shows, Constant, TwoOffsets;
    var target := (date * DAY_MINUTES + minute) * MINUTE_MS;
    var candidate := target;
    var attempt := 0;
    while attempt < 4
      invariant 0 <= attempt <= 4
      invariant Corrected(target, target, 4, zone) == Corrected(target, candidate, 4 - attempt, zone)
    {
      var adjustment := target - LocalMinutes(candidate, zone) * MINUTE_MS;
      candidate := candidate + adjustment;
      if adjustment == 0 {
        break;
      }
      attempt := attempt + 1;
    }
    Promised(date, minute, zone);
    if LocalOf(candidate, zone) != Local(date, minute) {
      return None;
    }
    return Some(candidate);
  }

  lemma Promised(date: int, minute: int, zone: Zone)
    ensures Zoned(date, minute, zone).Some? ==> Shows(Zoned(date, minute, zone).value, date, minute, zone)
    ensures !(0 <= minute < DAY_MINUTES) ==> Zoned(date, minute, zone).None?
    ensures forall first, second :: TwoOffsets(zone, first, second) ==>
              (Zoned(date, minute, zone).Some? <==> exists t :: Shows(t, date, minute, zone))
    ensures forall offset :: Constant(zone, offset) && 0 <= minute < DAY_MINUTES ==>
              Zoned(date, minute, zone) == Some((date * DAY_MINUTES + minute - offset) * MINUTE_MS)
  {
    hide Zoned, LocalOf;
    ReadsBack(date, minute, zone);
    forall first, second | TwoOffsets(zone, first, second)
      ensures Zoned(date, minute, zone).Some? <==> exists t :: Shows(t, date, minute, zone)
    {
      assert Zoned(date, minute, zone).Some? ==> Shows(Zoned(date, minute, zone).value, date, minute, zone);
      if t :| Shows(t, date, minute, zone) {
        FoundIfShown(date, minute, zone, first, second, t);
      }
    }
    forall offset | Constant(zone, offset) && 0 <= minute < DAY_MINUTES
      ensures Zoned(date, minute, zone) == Some((date * DAY_MINUTES + minute - offset) * MINUTE_MS)
    {
      ZonedConstant(date, minute, zone, offset);
    }
  }

  lemma WholeMinutes(target: int, candidate: int, attempts: nat, zone: Zone)
    requires target % MINUTE_MS == 0 && candidate % MINUTE_MS == 0
    ensures Corrected(target, candidate, attempts, zone) % MINUTE_MS == 0
    decreases attempts
  {
  }

  /** In any zone, the instant found shows the wanted date and minute; a minute of 24:00 is never found. */
  lemma ReadsBack(date: int, minute: int, zone: Zone)
    ensures Zoned(date, minute, zone).Some? ==>
              LocalOf(Zoned(date, minute, zone).value, zone) == Local(date, minute) &&
                Zoned(date, minute, zone).value % MINUTE_MS == 0
    ensures !(0 <= minute < DAY_MINUTES) ==> Zoned(date, minute, zone).None?
  {
    hide Corrected;
    var target := (date * DAY_MINUTES + minute) * MINUTE_MS;
    WholeMinutes(target, target, 4, zone);
  }

  /** On whole minutes the clock shows the wanted time exactly at the target less the offset in force. */
  lemma ShownAt(t: int, date: int, minute: int, zone: Zone)
    requires t % MINUTE_MS == 0 && 0 <= minute < DAY_MINUTES
    ensures LocalOf(t, zone) == Local(date, minute) <==> t == (date * DAY_MINUTES + minute - zone(t)) * MINUTE_MS
    ensures LocalMinutes(t, zone) * MINUTE_MS == t + zone(t) * MINUTE_MS
  {
    var m := t / MINUTE_MS;
    assert t + zone(t) * MINUTE_MS == (m + zone(t)) * MINUTE_MS;
    DateAndMinute(date, minute);
  }

  /** One correction: the next candidate is the target less the offset in force at this one. */
  lemma CorrectedOnce(target: int, candidate: int, attempts: nat, zone: Zone)
    requires attempts > 0 && candidate % MINUTE_MS == 0 && target % MINUTE_MS == 0
    ensures var next := target - zone(candidate) * MINUTE_MS;
            && next % MINUTE_MS == 0
            && Corrected(target, candidate, attempts, zone) == if next == candidate then candidate
               else Corrected(target, next, attempts - 1, zone)
  {
    ShownAt(candidate, 0, 0, zone);
  }

  /** With two offsets there are two candidates, and the second is tried if the first does not show the time. */
  lemma FoundIfShown(date: int, minute: int, zone: Zone, first: int, second: int, t: int)
    requires TwoOffsets(zone, first, second) && Shows(t, date, minute, zone)
    ensures Zoned(date, minute, zone).Some?
  {
    hide Corrected;
    var target := (date * DAY_MINUTES + minute) * MINUTE_MS;
    ShownAt(t, date, minute, zone);
    var one := target - zone(target) * MINUTE_MS;
    var two := target - zone(one) * MINUTE_MS;
    CorrectedOnce(target, target, 4, zone);
    CorrectedOnce(target, one, 3, zone);
    CorrectedOnce(target, two, 2, zone);
    ShownAt(target, date, minute, zone);
    ShownAt(one, date, minute, zone);
    ShownAt(two, date, minute, zone);
    assert zone(one) != zone(target) ==> t == one || t == two;
  }

  lemma ConstantLocal(m: int, zone: Zone, offset: int)
    requires Constant(zone, offset)
    ensures LocalMinutes(m * MINUTE_MS, zone) == m + offset
  {
    assert (m * MINUTE_MS + zone(m * MINUTE_MS) * MINUTE_MS) == (m + offset) * MINUTE_MS;
  }

  /** With a constant offset every minute of the day is found, at the one instant that shows it. */
  lemma ZonedConstant(date: int, minute: int, zone: Zone, offset: int)
    requires Constant(zone, offset) && 0 <= minute < DAY_MINUTES
    ensures Zoned(date, minute, zone) == Some((date * DAY_MINUTES + minute - offset) * MINUTE_MS)
  {
    var m := date * DAY_MINUTES + minute;
    var target := m * MINUTE_MS;
    ConstantLocal(m, zone, offset);
    ConstantLocal(m - offset, zone, offset);
    assert target + (target - LocalMinutes(target, zone) * MINUTE_MS) == (m - offset) * MINUTE_MS;
    var found := (m - offset) * MINUTE_MS;
    assert Corrected(target, found, 3, zone) == found;
    assert Corrected(target, target, 4, zone) == found;
    DateAndMinute(date, minute);
  }

  lemma DateAndMinute(date: int, minute: int)
    requires 0 <= minute < DAY_MINUTES
    ensures (date * DAY_MINUTES + minute) / DAY_MINUTES == date && (date * DAY_MINUTES + minute) % DAY_MINUTES == minute
  {
  }

  // ----- generator and recogniser ------------------------------------------------------------

  function WindowAt(date: int, minute: int, rule: Rule, zone: Zone): Option<Window> {
    var start := Zoned(date, minute, zone);
    var end := Zoned(date, minute + rule.windowMinutes, zone);
    if start.Some? && end.Some? && end.value > start.value then Some(Window(start.value, end.value)) else None
  }

  /** The windows from a minute on. */
  function Windows(date: int, minute: int, rule: Rule, zone: Zone): seq<Window>
    requires ValidRule(rule)
    decreases rule.endMinute - minute
  {
    if minute + rule.windowMinutes > rule.endMinute then []
    else
      var rest := Windows(date, minute + rule.windowMinutes, rule, zone);
      var window := WindowAt(date, minute, rule, zone);
      if window.Some? then [window.value] + rest else rest
  }

  lemma WindowsStep(date: int, minute: int, rule: Rule, zone: Zone)
    requires ValidRule(rule)
    ensures minute + rule.windowMinutes > rule.endMinute ==> Windows(date, minute, rule, zone) == []
    ensures minute + rule.windowMinutes <= rule.endMinute ==>
              Windows(date, minute, rule, zone) ==
              (if WindowAt(date, minute, rule, zone).Some? then [WindowAt(date, minute, rule, zone).value] else [])
              + Windows(date, minute + rule.windowMinutes, rule, zone)
  {
    hide WindowAt;
  }

  method GenerateWindow(date: int, minute: int, rule: Rule, zone: Zone) returns (found: seq<Window>)
    ensures found == if WindowAt(date, minute, rule, zone).Some? then [WindowAt(date, minute, rule, zone).value] else []
  {
    hide Zoned;
    var start := ZonedLocalMinuteToDate(date, minute, zone);
    var end := ZonedLocalMinuteToDate(date, minute + rule.windowMinutes, zone);
    if start.Some? && end.Some? && end.value > start.value {
      return [Window(start.value, end.value)];
    }
    return [];
  }

  method CollectWindows(date: int, zone: Zone, rule: Rule) returns (list: seq<Window>)
    requires ValidRule(rule)
    ensures list == Windows(date, rule.startMinute, rule, zone)
  {
    hide Windows, WindowAt;
    list := [];
    var minute := rule.startMinute;
    ghost var all := Windows(date, rule.startMinute, rule, zone);
    ghost var rest := all;
    assert [] + rest == all;
    while minute + rule.windowMinutes <= rule.endMinute
      invariant rest == Windows(date, minute, rule, zone) && list + rest == all
      decreases rule.endMinute - minute
    {
      var found := GenerateWindow(date, minute, rule, zone);
      WindowsStep(date, minute, rule, zone);
      rest := Windows(date, minute + rule.windowMinutes, rule, zone);
      Associates(list, found, rest);
      list := list + found;
      minute := minute + rule.windowMinutes;
    }
    WindowsStep(date, minute, rule, zone);
    assert list + [] == list;
  }

  lemma Associates(a: seq<Window>, b: seq<Window>, c: seq<Window>)
    ensures a + (b + c) == a + b + c
  {
  }

  function Remainder(d: int, w: int): int
    requires w > 0
  {
    d % w
  }

  predicate Matches(window: Window, zone: Zone, rule: Rule)
    requires ValidRule(rule)
  {
    var start := LocalOf(window.start, zone);
    var end := LocalOf(window.end, zone);
    && start.date == end.date
    && start.minute >= rule.startMinute
    && start.minute + rule.windowMinutes <= rule.endMinute
    && Remainder(start.minute - rule.startMinute, rule.windowMinutes) == 0
    && end.minute - start.minute == rule.windowMinutes
    && window.end - window.start == rule.windowMinutes * MINUTE_MS
  }

  function MatchesWindowRule(window: Window, zone: Zone, rule: Rule): Result<bool> {
    if ValidRule(rule) then Ok(Matches(window, zone, rule)) else Err(VALIDATION_ERROR)
  }

  /** A minute at which one of the rule's slots begins, counted from another. */
  predicate SlotMinute(minute: int, from: int, rule: Rule)
    requires ValidRule(rule)
  {
    minute >= from && minute + rule.windowMinutes <= rule.endMinute && Remainder(minute - from, rule.windowMinutes) == 0
  }

  lemma RemainderSmall(d: int, w: int)
    requires 0 <= d < w
    ensures Remainder(d, w) == d
  {
  }

  lemma RemainderStep(d: int, w: int)
    requires w > 0
    ensures Remainder(d - w, w) == Remainder(d, w)
  {
    var q, r := d / w, d % w;
    assert w * (q - 1) == w * q - w;
    RemainderUnique(d - w, w, q - 1, r);
  }

  lemma RemainderUnique(d: int, w: int, q: int, r: int)
    requires w > 0 && d == w * q + r && 0 <= r < w
    ensures d % w == r
  {
    var p, s := d / w, d % w;
    assert w * (q - p) == s - r;
    assert q - p >= 1 ==> w * (q - p) >= w;
    assert q - p <= -1 ==> w * (q - p) <= -w;
  }

  lemma SlotSteps(minute: int, from: int, rule: Rule)
    requires ValidRule(rule) && from + rule.windowMinutes <= rule.endMinute
    ensures SlotMinute(minute, from, rule) <==> minute == from || SlotMinute(minute, from + rule.windowMinutes, rule)
  {
    hide Remainder;
    var w := rule.windowMinutes;
    RemainderSmall(0, w);
    if from < minute < from + w {
      RemainderSmall(minute - from, w);
    }
    RemainderStep(minute - from, w);
    assert minute - from - w == minute - (from + w);
  }

  /** A window is generated exactly when it is that of one of the rule's slots. */
  lemma {:induction false} GeneratedSlots(window: Window, date: int, from: int, rule: Rule, zone: Zone)
    requires ValidRule(rule)
    ensures window in Windows(date, from, rule, zone) <==>
            exists minute :: SlotMinute(minute, from, rule) && WindowAt(date, minute, rule, zone) == Some(window)
    decreases rule.endMinute - from
  {
    hide WindowAt, Remainder;
    var w := rule.windowMinutes;
    if from + w <= rule.endMinute {
      GeneratedSlots(window, date, from + w, rule, zone);
      forall minute ensures SlotMinute(minute, from, rule) <==> minute == from || SlotMinute(minute, from + w, rule) {
        SlotSteps(minute, from, rule);
      }
      var rest := Windows(date, from + w, rule, zone);
      var here := WindowAt(date, from, rule, zone);
      assert window in Windows(date, from, rule, zone) <==> here == Some(window) || window in rest;
    }
  }

  /**
   * In any zone a generated window shows the date and the slot it was made for, and is recognised iff its length is
   * right.
   */
  lemma GeneratedAnyZone(window: Window, date: int, rule: Rule, zone: Zone)
    requires ValidRule(rule) && window in Windows(date, rule.startMinute, rule, zone)
    ensures LocalOf(window.start, zone).date == date && LocalOf(window.end, zone).date == date &&
            window.start < window.end
    ensures Matches(window, zone, rule) <==> window.end - window.start == rule.windowMinutes * MINUTE_MS
  {
    hide Windows, Remainder, Zoned;
    GeneratedSlots(window, date, rule.startMinute, rule, zone);
    var minute :| SlotMinute(minute, rule.startMinute, rule) && WindowAt(date, minute, rule, zone) == Some(window);
    ReadsBack(date, minute, zone);
    ReadsBack(date, minute + rule.windowMinutes, zone);
  }

  lemma RecognisedAt(window: Window, rule: Rule, zone: Zone, offset: int)
    requires ValidRule(rule) && Constant(zone, offset) && Matches(window, zone, rule)
    requires window.start % MINUTE_MS == 0 && window.end % MINUTE_MS == 0
    ensures var start := LocalOf(window.start, zone);
            WindowAt(start.date, start.minute, rule, zone) == Some(window)
  {
    hide Zoned, Remainder, LocalMinutes;
    var m, n := window.start / MINUTE_MS, window.end / MINUTE_MS;
    assert window.start == m * MINUTE_MS && window.end == n * MINUTE_MS;
    ConstantLocal(m, zone, offset);
    ConstantLocal(n, zone, offset);
    var start := LocalOf(window.start, zone);
    assert start.date * DAY_MINUTES + start.minute == m + offset;
    assert n == m + rule.windowMinutes;
    ZonedConstant(start.date, start.minute, zone, offset);
    ZonedConstant(start.date, start.minute + rule.windowMinutes, zone, offset);
  }

  /**
   * For a constant whole-minute offset and instants on whole minutes, a window is generated for a date
   * exactly when it starts on that date and is recognised; the window that would end at 24:00 is neither.
   */
  lemma GeneratorIsRecogniser(window: Window, date: int, rule: Rule, zone: Zone, offset: int)
    requires ValidRule(rule) && Constant(zone, offset)
    requires window.start % MINUTE_MS == 0 && window.end % MINUTE_MS == 0
    ensures window in Windows(date, rule.startMinute, rule, zone) <==>
            LocalOf(window.start, zone).date == date && MatchesWindowRule(window, zone, rule) == Ok(true)
    ensures WindowAt(date, DAY_MINUTES - rule.windowMinutes, rule, zone).None?
  {
    hide Windows, Remainder, Zoned;
    ReadsBack(date, DAY_MINUTES, zone);
    GeneratedSlots(window, date, rule.startMinute, rule, zone);
    if window in Windows(date, rule.startMinute, rule, zone) {
      GeneratedAnyZone(window, date, rule, zone);
      var minute :| SlotMinute(minute, rule.startMinute, rule) && WindowAt(date, minute, rule, zone) == Some(window);
      ReadsBack(date, minute + rule.windowMinutes, zone);
      ZonedConstant(date, minute, zone, offset);
      ZonedConstant(date, minute + rule.windowMinutes, zone, offset);
    }
    if LocalOf(window.start, zone).date == date && Matches(window, zone, rule) {
      RecognisedAt(window, rule, zone, offset);
      assert SlotMinute(LocalOf(window.start, zone).minute, rule.startMinute, rule);
    }
  }

  /** With a constant offset the windows ascend and do not overlap. */
  lemma {:induction false} WindowsAscend(date: int, from: int, rule: Rule, zone: Zone, offset: int, i: nat, j: nat)
    requires ValidRule(rule) && Constant(zone, offset) && 0 <= from
    requires i < j < |Windows(date, from, rule, zone)|
    ensures Windows(date, from, rule, zone)[i].end <= Windows(date, from, rule, zone)[j].start
    decreases rule.endMinute - from
  {
    hide WindowAt, Remainder;
    var w := rule.windowMinutes;
    var rest := Windows(date, from + w, rule, zone);
    var here := WindowAt(date, from, rule, zone);
    if here.None? {
      WindowsAscend(date, from + w, rule, zone, offset, i, j);
    } else if i > 0 {
      WindowsAscend(date, from + w, rule, zone, offset, i - 1, j - 1);
    } else {
      var later := rest[j - 1];
      GeneratedSlots(later, date, from + w, rule, zone);
      var minute :| SlotMinute(minute, from + w, rule) && WindowAt(date, minute, rule, zone) == Some(later);
      Apart(date, from, minute, rule, zone, offset);
    }
  }

  lemma Apart(date: int, first: int, second: int, rule: Rule, zone: Zone, offset: int)
    requires ValidRule(rule) && Constant(zone, offset) && 0 <= first && first + rule.windowMinutes <= second
    requires WindowAt(date, first, rule, zone).Some? && WindowAt(date, second, rule, zone).Some?
    ensures WindowAt(date, first, rule, zone).value.end <= WindowAt(date, second, rule, zone).value.start
  {
    hide Zoned;
    ReadsBack(date, first + rule.windowMinutes, zone);
    ReadsBack(date, second, zone);
    ZonedConstant(date, first + rule.windowMinutes, zone, offset);
    ZonedConstant(date, second, zone, offset);
  }

  // ----- generateWindowsForDate --------------------------------------------------------------

  /**
   * What a generated window promises in any zone: it lies on its date and is recognised if its length is the rule's.
   */
  predicate OnDate(window: Window, date: int, rule: Rule, zone: Zone)
    requires ValidRule(rule)
  {
    && LocalOf(window.start, zone).date == date && LocalOf(window.end, zone).date == date && window.start < window.end
    && (Matches(window, zone, rule) <==> window.end - window.start == rule.windowMinutes * MINUTE_MS)
  }

  predicate Ascending(windows: seq<Window>) {
    forall i, j :: 0 <= i < j < |windows| ==> windows[i].end <= windows[j].start
  }

  /** The window starts on the date, and the recogniser accepts it. */
  predicate Recognised(window: Window, date: int, rule: Rule, zone: Zone) {
    LocalOf(window.start, zone).date == date && MatchesWindowRule(window, zone, rule) == Ok(true)
  }

  predicate WholeWindow(window: Window) {
    window.start % MINUTE_MS == 0 && window.end % MINUTE_MS == 0
  }

  /**
   * Fails exactly on an invalid rule. In any zone the windows lie on their date; with a constant offset they ascend
   * without overlap and are exactly the whole-minute windows of that date which the recogniser accepts.
   */
  method GenerateWindowsForDate(date: int, zone: Zone, rule: Rule) returns (windows: Result<seq<Window>>)
    ensures windows.Ok? <==> ValidRule(rule)
    ensures windows.Err? ==> windows == Err(VALIDATION_ERROR)
    ensures windows.Ok? ==> forall window :: window in windows.value ==> OnDate(window, date, rule, zone)
    ensures windows.Ok? ==> forall offset :: Constant(zone, offset) ==>
              && Ascending(windows.value)
              && forall window :: WholeWindow(window) ==>
                 (window in windows.value <==> Recognised(window, date, rule, zone))
    ensures windows.Ok? ==> windows.value == Windows(date, rule.startMinute, rule, zone)
  {
    hide Windows, Matches, LocalOf;
    if !ValidRule(rule) {
      return Err(VALIDATION_ERROR);
    }
    var list := CollectWindows(date, zone, rule);
    forall window | window in list ensures OnDate(window, date, rule, zone) {
      GeneratedAnyZone(window, date, rule, zone);
    }
    forall offset | Constant(zone, offset)
      ensures Ascending(list)
      ensures forall window :: WholeWindow(window) ==> (window in list <==> Recognised(window, date, rule, zone))
    {
      ConstantPromise(date, rule, zone, offset);
    }
    return Ok(list);
  }

  lemma ConstantPromise(date: int, rule: Rule, zone: Zone, offset: int)
    requires ValidRule(rule) && Constant(zone, offset)
    ensures Ascending(Windows(date, rule.startMinute, rule, zone))
    ensures forall window :: WholeWindow(window) ==>
              (window in Windows(date, rule.startMinute, rule, zone) <==> Recognised(window, date, rule, zone))
  {
    hide Windows, Matches, LocalOf;
    var list := Windows(date, rule.startMinute, rule, zone);
    forall i, j | 0 <= i < j < |list| ensures list[i].end <= list[j].start {
      WindowsAscend(date, rule.startMinute, rule, zone, offset, i, j);
    }
    forall window | WholeWindow(window) ensures window in list <==> Recognised(window, date, rule, zone) {
      GeneratorIsRecogniser(window, date, rule, zone, offset);
    }
  }
}
