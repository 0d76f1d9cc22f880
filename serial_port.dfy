/**
 * The serial-port service that owns the 10-character sign: the scroll
 * window (`shiftText`), the frame a scroll tick writes, and the single
 * scroll interval shared by the whole process (`currentInterval`).
 * Writes to the device are recorded, in order, in a ghost log.
 */
module SerialPort {
  import opened Runtime
  import opened JsStrings

  /** Characters the sign shows at once. */
  const DISPLAY_WIDTH: nat := 10
  /** The gap between two repetitions of a scrolling line. */
  const PADDING: string := "     "

  function Min(a: int, b: int): int {
    if a <= b then a else b
  }

  // ---------------------------------------------------------------------------
  // The scroll window

  /**
   * `shiftText(text, position)`: the sign-wide window that starts at
   * `position` in `text + PADDING + text`; `ShiftTextWindow` says which.
   */
  function ShiftText(text: string, position: nat): (r: string)
    ensures |r| <= DISPLAY_WIDTH
  {
    Substring(text + PADDING + text, position, position + DISPLAY_WIDTH)
  }

  /**
   * The window is the slice of `text + PADDING + text` from `position`, cut
   * short at the buffer's end: full width while it fits, empty past the end.
   */
  lemma ShiftTextWindow(text: string, position: nat)
    ensures var buffer := text + PADDING + text;
      position <= |buffer| ==>
        ShiftText(text, position) == buffer[position..Min(position + DISPLAY_WIDTH, |buffer|)]
    ensures position + DISPLAY_WIDTH <= 2 * |text| + |PADDING| ==> |ShiftText(text, position)| == DISPLAY_WIDTH
    ensures position > 2 * |text| + |PADDING| ==> ShiftText(text, position) == []
  {
    var buffer := text + PADDING + text;
    if position + DISPLAY_WIDTH <= |buffer| {
      assert ShiftText(text, position) == buffer[position..position + DISPLAY_WIDTH];
    } else if position <= |buffer| {
      assert ShiftText(text, position) == buffer[position..];
    }
  }

  /**
   * Within one scroll period the window is the cyclic text `text + PADDING`
   * read from `position` on: the second copy of `text` in the buffer is
   * what makes the scroll wrap seamlessly.
   */
  lemma ShiftTextIsCyclic(text: string, position: nat, k: nat)
    requires position < |text| + |PADDING|
    requires k < |ShiftText(text, position)|
    ensures ShiftText(text, position)[k] == (text + PADDING)[(position + k) % (|text| + |PADDING|)]
  {
    var cycle := text + PADDING;
    var buffer := cycle + text;
    var i := position + k;
    ShiftTextWindow(text, position);
    assert i < |buffer|;
    assert ShiftText(text, position)[k] == buffer[i];
    if i < |cycle| {
      ModBelow(i, |cycle|);
    } else {
      ModOnce(i, |cycle|);
      assert buffer[i] == text[i - |cycle|] == cycle[i - |cycle|];
    }
  }

  // Facts about `%` with a positive divisor, stated on plain integers so that
  // the lemmas about the scroll never unfold the period.

  lemma ModBelow(i: nat, p: nat)
    requires i < p
    ensures i % p == i
  {
  }

  lemma ModOnce(i: nat, p: nat)
    requires p <= i < 2 * p
    ensures i % p == i - p
  {
  }

  lemma {:induction false} MulAtLeast(d: int, p: nat)
    requires d >= 1
    ensures d * p >= p
    decreases d
  {
    if d > 1 {
      MulAtLeast(d - 1, p);
      assert d * p == (d - 1) * p + p;
    }
  }

  /** Quotient and remainder are the only ones with `n == q * p + r` and `0 <= r < p`. */
  lemma ModUnique(n: int, p: nat, q: int, r: int)
    requires p > 0 && 0 <= r < p && n == q * p + r
    ensures n % p == r
  {
    var q0, r0 := n / p, n % p;
    assert (q - q0) * p == r0 - r;
    if q > q0 {
      MulAtLeast(q - q0, p);
    } else if q < q0 {
      MulAtLeast(q0 - q, p);
    }
  }

  lemma ModPlusPeriod(i: nat, p: nat)
    requires p > 0
    ensures (i + p) % p == i % p
  {
    ModUnique(i + p, p, i / p + 1, i % p);
  }

  lemma ModSucc(n: nat, p: nat)
    requires p > 0 && n > 0
    ensures (n - 1) % p + 1 < p ==> n % p == (n - 1) % p + 1
    ensures (n - 1) % p + 1 == p ==> n % p == 0
  {
    var q, r := (n - 1) / p, (n - 1) % p;
    if r + 1 < p {
      ModUnique(n, p, q, r + 1);
    } else {
      ModUnique(n, p, q + 1, 0);
    }
  }

  // ---------------------------------------------------------------------------
  // Frames

  /** `const [line1, line2] = message.split(',')`: `line2` is `undefined` without a comma. */
  datatype Lines = Lines(line1: string, line2: Option<string>)

  function SplitLines(message: string): Lines {
    var parts := Split(message, ',');
    Lines(parts[0], if |parts| > 1 then Some(parts[1]) else None)
  }

  /**
   * Neither line holds a comma; the second is missing exactly when the
   * message has no comma, and then the first line is the whole message.
   */
  lemma SplitLinesShape(message: string)
    ensures ',' !in SplitLines(message).line1
    ensures SplitLines(message).line2.Some? ==> ',' !in SplitLines(message).line2.value
    ensures SplitLines(message).line2.None? <==> ',' !in message
    ensures SplitLines(message).line2.None? ==> SplitLines(message).line1 == message
  {
    if ',' !in message {
      SplitNoSeparator(message, ',');
    } else {
      SplitWithSeparator(message, ',');
    }
  }

  /** A message built as `line1,line2` from two comma-free lines splits back into them. */
  lemma SplitTwoLines(line1: string, line2: string)
    requires ',' !in line1 && ',' !in line2
    ensures SplitLines(line1 + "," + line2) == Lines(line1, Some(line2))
  {
    SplitAtFirst(line1, ',', line2);
    SplitNoSeparator(line2, ',');
  }

  /** The scroll period: only the first line's length counts. */
  function Period(message: string): (p: nat)
    ensures p >= |PADDING| > 0
  {
    |SplitLines(message).line1| + |PADDING|
  }

  /** The position one tick later: `(position + 1) % (line1.length + PADDING.length)`. */
  function Advance(message: string, position: nat): (next: nat)
    ensures next < Period(message)
    ensures position + 1 < Period(message) ==> next == position + 1
    ensures position + 1 == Period(message) ==> next == 0
  {
    (position + 1) % Period(message)
  }

  /** Whatever follows the first comma, the period is set by the first line alone. */
  lemma PeriodIgnoresSecondLine(line1: string, rest: string)
    requires ',' !in line1
    ensures Period(line1 + "," + rest) == |line1| + |PADDING|
  {
    SplitAtFirst(line1, ',', rest);
  }

  /**
   * What one scroll tick writes: both lines shifted to the same position
   * and joined by a comma, or the first line alone when the second is
   * missing or empty.
   */
  function Frame(message: string, position: nat): string {
    var l := SplitLines(message);
    var shifted1 := ShiftText(l.line1, position);
    if l.line2.Some? && l.line2.value != "" then shifted1 + "," + ShiftText(l.line2.value, position)
    else shifted1
  }

  /** The frame of `line1,line2` shifts both lines by the same position. */
  lemma FrameOfTwoLines(line1: string, line2: string, position: nat)
    requires ',' !in line1 && ',' !in line2 && line2 != ""
    ensures Frame(line1 + "," + line2, position)
         == ShiftText(line1, position) + "," + ShiftText(line2, position)
  {
    SplitTwoLines(line1, line2);
  }

  /** A message without a comma scrolls as one line, and no comma is written. */
  lemma FrameOfOneLine(line: string, position: nat)
    requires ',' !in line
    ensures Frame(line, position) == ShiftText(line, position)
    ensures ',' !in Frame(line, position)
  {
    SplitLinesShape(line);
    ShiftTextWindow(line, position);
    var r := Frame(line, position);
    var buffer := line + PADDING + line;
    assert forall i :: 0 <= i < |buffer| ==> buffer[i] != ',';
    if position <= |buffer| {
      assert r == buffer[position..Min(position + DISPLAY_WIDTH, |buffer|)];
    }
  }

  // ---------------------------------------------------------------------------
  // The scroll as a whole

  /** The closure's `position` after `n` ticks of a fresh scroll interval. */
  function PositionAfter(message: string, n: nat): (p: nat)
    ensures p < Period(message)
  {
    if n == 0 then 0 else Advance(message, PositionAfter(message, n - 1))
  }

  /** After `n` ticks the position is `n` modulo the period. */
  lemma {:induction false} PositionAfterTicks(message: string, n: nat)
    ensures PositionAfter(message, n) == n % Period(message)
  {
    if n > 0 {
      PositionAfterTicks(message, n - 1);
      ModSucc(n, Period(message));
    }
  }

  /**
   * The scroll repeats itself exactly every period: `Period(message)` ticks
   * on, the position, and so the frame written, is the same again.
   */
  lemma ScrollIsPeriodic(message: string, k: nat)
    ensures PositionAfter(message, k + Period(message)) == PositionAfter(message, k)
    ensures Frame(message, PositionAfter(message, k + Period(message)))
         == Frame(message, PositionAfter(message, k))
  {
    PositionAfterTicks(message, k);
    PositionAfterTicks(message, k + Period(message));
    ModPlusPeriod(k, Period(message));
  }

  /**
   * Over one period the first characters of the frames spell out the first
   * line followed by the padding, each character once.
   */
  lemma ScrollSpellsFirstLine(message: string, k: nat)
    requires k < Period(message)
    ensures |Frame(message, PositionAfter(message, k))| > 0
    ensures Frame(message, PositionAfter(message, k))[0] == (SplitLines(message).line1 + PADDING)[k]
  {
    PositionAfterTicks(message, k);
    ModBelow(k, Period(message));
    var line1 := SplitLines(message).line1;
    ShiftTextWindow(line1, k);
    assert |ShiftText(line1, k)| > 0;
    ShiftTextIsCyclic(line1, k, 0);
  }

  // ---------------------------------------------------------------------------
  // The service

  /** The live scroll interval: its handle, the message its callback holds, and the callback's `position`. */
  datatype Scroller = Scroller(id: TimerId, message: string, position: nat)

  /**
   * `SerialPortService` with its static state.  `isDevelopment` and
   * `serialPortFile` are the configuration it reads; `liveIntervals` are the
   * scroll intervals created and not yet cleared; `writes` are the texts
   * handed to the device, oldest first.
   */
  class SerialPortService {
    const isDevelopment: bool
    const serialPortFile: string
    var currentInterval: Option<Scroller>
    var nextTimerId: TimerId
    ghost var liveIntervals: set<TimerId>
    ghost var writes: seq<string>

    /**
     * No scroll interval leaks: the only live one is `currentInterval`, its
     * position stays inside the period, and development mode never has one.
     */
    ghost predicate Valid()
      reads this
    {
      && liveIntervals == (if currentInterval.Some? then {currentInterval.value.id} else {})
      && (currentInterval.Some? ==>
            currentInterval.value.id < nextTimerId
            && currentInterval.value.position < Period(currentInterval.value.message))
      && (isDevelopment ==> currentInterval.None?)
    }

    /** `if (config.serialPortFile)`: an empty path writes nothing. */
    predicate HasDevicePath()
      reads this
    {
      serialPortFile != ""
    }

    /** Whether `displayMessage` reaches the device: production mode with a device path. */
    predicate WritesToDevice()
      reads this
    {
      !isDevelopment && HasDevicePath()
    }

    constructor (isDevelopment: bool, serialPortFile: string)
      ensures Valid()
      ensures this.isDevelopment == isDevelopment && this.serialPortFile == serialPortFile
      ensures currentInterval == None && liveIntervals == {} && writes == []
    {
      this.isDevelopment := isDevelopment;
      this.serialPortFile := serialPortFile;
      currentInterval := None;
      nextTimerId := 0;
      liveIntervals := {};
      writes := [];
    }

    /** `stopDynamic`: clears the scroll interval if there is one; otherwise nothing changes. */
    method StopDynamic()
      requires Valid()
      modifies this
      ensures Valid()
      ensures currentInterval == None && liveIntervals == {}
      ensures writes == old(writes) && nextTimerId == old(nextTimerId)
      ensures old(currentInterval).None? ==> liveIntervals == old(liveIntervals)
    {
      if currentInterval.Some? {
        liveIntervals := liveIntervals - {currentInterval.value.id};
        currentInterval := None;
      }
    }

    /**
     * `displayMessage`: stops the scroller, then writes the message as it is,
     * unless in development mode or without a device path.
     */
    method DisplayMessage(message: string)
      requires Valid()
      modifies this
      ensures Valid()
      ensures currentInterval == None && liveIntervals == {}
      ensures nextTimerId == old(nextTimerId)
      ensures writes == old(writes) + (if WritesToDevice() then [message] else [])
    {
      StopDynamic();
      if isDevelopment {
        return;
      }
      if HasDevicePath() {
        writes := writes + [message];
      }
    }

    /**
     * `displayDynamicMessage`: stops the scroller, then, outside development
     * mode, starts a new one on `message` at position 0.  Nothing is written
     * until the first tick.
     */
    method DisplayDynamicMessage(message: string)
      requires Valid()
      modifies this
      ensures Valid()
      ensures writes == old(writes)
      ensures isDevelopment ==> currentInterval == None && liveIntervals == {}
      ensures !isDevelopment ==>
                && currentInterval == Some(Scroller(old(nextTimerId), message, 0))
                && old(nextTimerId) !in old(liveIntervals)
                && liveIntervals == {old(nextTimerId)}
    {
      StopDynamic();
      if isDevelopment {
        return;
      }
      currentInterval := Some(Scroller(nextTimerId, message, 0));
      liveIntervals := {nextTimerId};
      nextTimerId := nextTimerId + 1;
    }

    /**
     * One firing of the scroll interval's callback: writes the frame at the
     * current position (when a device path is set) and advances the position.
     */
    method ScrollTick()
      requires Valid() && currentInterval.Some?
      modifies this
      ensures Valid()
      ensures var s := old(currentInterval.value);
        && currentInterval == Some(Scroller(s.id, s.message, Advance(s.message, s.position)))
        && writes == old(writes) + (if HasDevicePath() then [Frame(s.message, s.position)] else [])
      ensures liveIntervals == old(liveIntervals) && nextTimerId == old(nextTimerId)
    {
      var s := currentInterval.value;
      if HasDevicePath() {
        writes := writes + [Frame(s.message, s.position)];
      }
      currentInterval := Some(Scroller(s.id, s.message, Advance(s.message, s.position)));
    }
  }
}
