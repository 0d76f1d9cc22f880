/**
 * The display session kept by the HTTP routes: the module-level `viewMode`,
 * `persistedData`, `clockInterval` and `currentTimeout`, and one method per
 * route handler, each a state transition.  Timer callbacks are methods the
 * event loop calls (`ClockTick`, `FireBlacklistTimeout`, `ScrollTick`);
 * Node runs each handler and callback to completion, so the methods never
 * interleave.
 */
module Routes {
  import opened Runtime
  import opened JsStrings
  import opened ClockFormat
  import opened SerialPort

  /** The values `viewMode` takes. */
  datatype ViewMode =
    | ClockView | PlateView | ChargeView | WelcomeView
    | BlacklistView | ThankYouView | ForbiddenView

  function ViewModeName(mode: ViewMode): string {
    match mode
    case ClockView => "CLOCK"
    case PlateView => "PLATE"
    case ChargeView => "CHARGE"
    case WelcomeView => "WELCOME"
    case BlacklistView => "BLACKLIST"
    case ThankYouView => "THANK_YOU"
    case ForbiddenView => "FORBIDDEN"
  }

  /** Distinct modes are sent under distinct names, so a client can tell every mode apart. */
  lemma ViewModeNamesDistinct(a: ViewMode, b: ViewMode)
    requires ViewModeName(a) == ViewModeName(b)
    ensures a == b
  {
  }

  /** What a handler answers: the rendered page, 204 with no body, or 500 with `{error: message}`. */
  datatype Response = Page | NoContent | ServerError(error: string)

  /** What the sysfs writes of `resetUSB` do: both succeed, or one throws. */
  datatype UsbReset = UsbResetDone | UsbResetFailed(message: string)

  /** The colour a handler picks; it is handed to the service, which ignores it. */
  datatype Colour = Green | White

  /** `req.query` and `persistedData`: string values under string keys. */
  type Fields = map<string, string>

  const PLATE_LETTER: string := "plateLetter"
  const PLATE_NUMBER: string := "plateNumber"
  const PLATE_PROVINCE: string := "plateProvince"
  const AMOUNT: string := "amount"
  const IS_MEMBER: string := "isMember"
  const VIEW_MODE: string := "viewMode"


  const DEFAULT_AMOUNT: string := "฿0"
  const MEMBER_WELCOME: string := "ยินดีต้อนรับ"
  const VISITOR_WELCOME: string := "ผู้มาติดต่อ กรุณารับสลิป"
  const THANK_YOU_TEXT: string := "ขอบคุณค่ะ"
  const BLACKLIST_MESSAGE: string := "ไม่อนุญาต กรุณาติดต่อเจ้่าหน้าที่"
  const BLACKLIST_FOLLOW_UP: string := "  ติดต่อ, เจ้่าหน้าที่"
  const FORBIDDEN_MESSAGE: string := "กรุณาติดต่อเจ้าหน้าที่,ไม่อนุญาต"

  /** The `TypeError` messages of calling service members that do not exist. */
  const WELCOME_ERROR: string := "SerialPortService.displayDynamicBothLines is not a function"
  const CLEAR_ERROR: string := "SerialPortService.clearDisplay is not a function"

  // ---------------------------------------------------------------------------
  // Message composition

  /** `m.key || ""`: a missing and an empty field both read as "". */
  function Field(m: Fields, key: string): string {
    if key in m then m[key] else ""
  }

  /** `m.key || fallback`. */
  function FieldOr(m: Fields, key: string, fallback: string): (r: string)
    ensures r == fallback <== Field(m, key) == ""
    ensures Field(m, key) != "" ==> r == m[key]
  {
    if key in m && m[key] != "" then m[key] else fallback
  }

  /** `req.query.isMember === 'true'` picks green, anything else white. */
  function MemberColour(query: Fields): (c: Colour)
    ensures c == Green <==> IS_MEMBER in query && query[IS_MEMBER] == "true"
    ensures c == White <==> !(IS_MEMBER in query && query[IS_MEMBER] == "true")
  {
    if Field(query, IS_MEMBER) == "true" then Green else White
  }

  /** The `persistedData` of `/plateInfo`: exactly the three plate fields. */
  function PlateRecord(query: Fields): (r: Fields)
    ensures r.Keys == {PLATE_LETTER, PLATE_NUMBER, PLATE_PROVINCE}
    ensures forall k :: k in r ==> r[k] == Field(query, k)
  {
    map[PLATE_LETTER := Field(query, PLATE_LETTER),
        PLATE_NUMBER := Field(query, PLATE_NUMBER),
        PLATE_PROVINCE := Field(query, PLATE_PROVINCE)]
  }

  function PlateMessage(query: Fields): string {
    Field(query, PLATE_LETTER) + "-" + Field(query, PLATE_NUMBER)
  }

  /** The `persistedData` of `/charges`: the plate fields and the amount, defaulting to "฿0". */
  function ChargeRecord(query: Fields): (r: Fields)
    ensures r.Keys == {PLATE_LETTER, PLATE_NUMBER, PLATE_PROVINCE, AMOUNT}
    ensures forall k :: k in r && k != AMOUNT ==> r[k] == Field(query, k)
    ensures r[AMOUNT] != ""
  {
    PlateRecord(query)[AMOUNT := FieldOr(query, AMOUNT, DEFAULT_AMOUNT)]
  }

  function ChargeMessage(query: Fields): string {
    var record := ChargeRecord(query);
    record[PLATE_LETTER] + record[PLATE_NUMBER] + ",฿" + record[AMOUNT]
  }

  /** `req.query.key || persistedData.key || ""`. */
  function PlateFromRequest(query: Fields, persisted: Fields, key: string): string {
    FieldOr(query, key, Field(persisted, key))
  }

  /** The plate text of `/welcome` and `/thankyou`: empty unless both parts are present. */
  function LicensePlate(letter: string, number: string): (plate: string)
    ensures plate != "" <==> letter != "" && number != ""
    ensures plate != "" ==> plate == letter + number
  {
    if letter != "" && number != "" then letter + number else ""
  }

  function VisitorPlate(query: Fields, persisted: Fields): string {
    LicensePlate(PlateFromRequest(query, persisted, PLATE_LETTER),
                 PlateFromRequest(query, persisted, PLATE_NUMBER))
  }

  /** The message `/welcome` builds before its call fails. */
  function WelcomeMessage(query: Fields, persisted: Fields): string {
    VisitorPlate(query, persisted) + ","
      + (if MemberColour(query) == Green then MEMBER_WELCOME else VISITOR_WELCOME)
  }

  function ThankYouMessage(query: Fields, persisted: Fields): string {
    VisitorPlate(query, persisted) + "," + THANK_YOU_TEXT
  }

  /** `sendUpdate`: `persistedData` with `viewMode` set to the current mode's name. */
  function Snapshot(persisted: Fields, mode: ViewMode): (r: Fields)
    ensures r.Keys == persisted.Keys + {VIEW_MODE}
    ensures r[VIEW_MODE] == ViewModeName(mode)
    ensures forall k :: k in persisted && k != VIEW_MODE ==> r[k] == persisted[k]
  {
    persisted[VIEW_MODE := ViewModeName(mode)]
  }

  // ---------------------------------------------------------------------------
  // Properties of the messages

  /** A plate given in the request wins over the persisted one. */
  lemma RequestPlateWins(query: Fields, persisted: Fields)
    requires Field(query, PLATE_LETTER) != "" && Field(query, PLATE_NUMBER) != ""
    ensures VisitorPlate(query, persisted) == query[PLATE_LETTER] + query[PLATE_NUMBER]
  {
  }

  /**
   * `/thankyou` without plate fields shows the plate a previous `/plateInfo`
   * persisted, when that one had both a letter and a number.
   */
  lemma ThankYouReusesPersistedPlate(plateQuery: Fields, query: Fields)
    requires Field(plateQuery, PLATE_LETTER) != "" && Field(plateQuery, PLATE_NUMBER) != ""
    requires Field(query, PLATE_LETTER) == "" && Field(query, PLATE_NUMBER) == ""
    ensures ThankYouMessage(query, PlateRecord(plateQuery))
         == plateQuery[PLATE_LETTER] + plateQuery[PLATE_NUMBER] + "," + THANK_YOU_TEXT
  {
    var persisted := PlateRecord(plateQuery);
    assert PlateFromRequest(query, persisted, PLATE_LETTER) == plateQuery[PLATE_LETTER];
    assert PlateFromRequest(query, persisted, PLATE_NUMBER) == plateQuery[PLATE_NUMBER];
  }

  /** With a half-known plate (letter or number missing everywhere) the plate line is empty. */
  lemma HalfPlateIsBlank(query: Fields, persisted: Fields)
    requires || (Field(query, PLATE_LETTER) == "" && Field(persisted, PLATE_LETTER) == "")
             || (Field(query, PLATE_NUMBER) == "" && Field(persisted, PLATE_NUMBER) == "")
    ensures ThankYouMessage(query, persisted) == "," + THANK_YOU_TEXT
    ensures SplitLines(ThankYouMessage(query, persisted)) == Lines("", Some(THANK_YOU_TEXT))
    ensures Period(ThankYouMessage(query, persisted)) == |PADDING|
  {
    assert ThankYouMessage(query, persisted) == "" + "," + THANK_YOU_TEXT;
    SplitTwoLines("", THANK_YOU_TEXT);
  }

  /**
   * `/charges` with comma-free fields scrolls two lines, the plate and the
   * amount behind a baht sign, with the period set by the plate alone.
   */
  lemma ChargeScrollsTwoLines(query: Fields, position: nat)
    requires ',' !in Field(query, PLATE_LETTER) + Field(query, PLATE_NUMBER)
    requires ',' !in FieldOr(query, AMOUNT, DEFAULT_AMOUNT)
    ensures var plate := Field(query, PLATE_LETTER) + Field(query, PLATE_NUMBER);
      var amount := "฿" + FieldOr(query, AMOUNT, DEFAULT_AMOUNT);
      && SplitLines(ChargeMessage(query)) == Lines(plate, Some(amount))
      && Period(ChargeMessage(query)) == |plate| + |PADDING|
      && Frame(ChargeMessage(query), position)
         == ShiftText(plate, position) + "," + ShiftText(amount, position)
  {
    var plate := Field(query, PLATE_LETTER) + Field(query, PLATE_NUMBER);
    var amount := "฿" + FieldOr(query, AMOUNT, DEFAULT_AMOUNT);
    ChargeMessageLines(query);
    assert ChargeMessage(query) == plate + "," + amount;
    assert ',' !in amount by {
      assert amount == ['฿'] + FieldOr(query, AMOUNT, DEFAULT_AMOUNT);
    }
    SplitTwoLines(plate, amount);
    FrameOfTwoLines(plate, amount, position);
  }

  /** The charge message is the plate, a comma, a baht sign and the (defaulted) amount. */
  lemma ChargeMessageLines(query: Fields)
    ensures ChargeMessage(query)
         == Field(query, PLATE_LETTER) + Field(query, PLATE_NUMBER) + ",฿"
            + FieldOr(query, AMOUNT, DEFAULT_AMOUNT)
  {
    ChargeRecordFields(query);
  }

  /** The three fields the charge message reads from the charge record. */
  lemma ChargeRecordFields(query: Fields)
    ensures ChargeRecord(query)[PLATE_LETTER] == Field(query, PLATE_LETTER)
    ensures ChargeRecord(query)[PLATE_NUMBER] == Field(query, PLATE_NUMBER)
    ensures ChargeRecord(query)[AMOUNT] == FieldOr(query, AMOUNT, DEFAULT_AMOUNT)
  {
    assert PLATE_LETTER[5] != PLATE_NUMBER[5];
  }

  /** Without an amount, `/charges` shows the default after its own baht sign: two signs in a row. */
  lemma ChargeWithoutAmount(query: Fields)
    requires Field(query, AMOUNT) == ""
    ensures ChargeMessage(query)
         == Field(query, PLATE_LETTER) + Field(query, PLATE_NUMBER) + ",฿฿0"
  {
  }

  /**
   * `/thankyou` with a comma-free plate scrolls the plate over the thank-you
   * text, both at the same position, with the period set by the plate.
   */
  lemma ThankYouScrollsTwoLines(query: Fields, persisted: Fields, position: nat)
    requires ',' !in VisitorPlate(query, persisted)
    ensures var plate := VisitorPlate(query, persisted);
      && SplitLines(ThankYouMessage(query, persisted)) == Lines(plate, Some(THANK_YOU_TEXT))
      && Period(ThankYouMessage(query, persisted)) == |plate| + |PADDING|
      && Frame(ThankYouMessage(query, persisted), position)
         == ShiftText(plate, position) + "," + ShiftText(THANK_YOU_TEXT, position)
  {
    var plate := VisitorPlate(query, persisted);
    SplitTwoLines(plate, THANK_YOU_TEXT);
    FrameOfTwoLines(plate, THANK_YOU_TEXT, position);
  }

  /**
   * The `/forbidden` message scrolls with a period of 27 set by its first
   * line; its shorter second line runs out near the end of each period, so
   * the frame at position 24 carries an empty second line after the comma.
   */
  lemma ForbiddenSecondLineRunsOut()
    ensures SplitLines(FORBIDDEN_MESSAGE) == Lines("กรุณาติดต่อเจ้าหน้าที่", Some("ไม่อนุญาต"))
    ensures Period(FORBIDDEN_MESSAGE) == 27
    ensures Frame(FORBIDDEN_MESSAGE, 24) == ShiftText("กรุณาติดต่อเจ้าหน้าที่", 24) + ","
  {
    assert FORBIDDEN_MESSAGE == "กรุณาติดต่อเจ้าหน้าที่" + "," + "ไม่อนุญาต";
    SplitTwoLines("กรุณาติดต่อเจ้าหน้าที่", "ไม่อนุญาต");
    FrameOfTwoLines("กรุณาติดต่อเจ้าหน้าที่", "ไม่อนุญาต", 24);
    assert ShiftText("ไม่อนุญาต", 24) == [];
  }

  // ---------------------------------------------------------------------------
  // The session

  /**
   * The routes' module-level state.  `device` is the serial-port service the
   * handlers call; `liveClockIntervals` and `liveTimeouts` are the timers
   * created and not yet cleared or fired; `usbResets` counts calls of
   * `resetUSB`.
   */
  class DisplaySession {
    const device: SerialPortService
    var viewMode: ViewMode
    var persistedData: Fields
    var clockInterval: Option<TimerId>
    var currentTimeout: Option<TimerId>
    var nextTimerId: TimerId
    ghost var liveClockIntervals: set<TimerId>
    ghost var liveTimeouts: set<TimerId>
    ghost var usbResets: nat

    /**
     * No route timer leaks, and at most one of them is alive: a clock
     * interval and a blacklist follow-up never coexist.
     */
    ghost predicate Valid()
      reads this, device
    {
      && device.Valid()
      && liveClockIntervals == Handles(clockInterval)
      && liveTimeouts == Handles(currentTimeout)
      && (clockInterval.Some? ==> clockInterval.value < nextTimerId)
      && (currentTimeout.Some? ==> currentTimeout.value < nextTimerId)
      && |liveClockIntervals| + |liveTimeouts| <= 1
    }

    /** One thing drives the sign: at most one timer of any kind is alive. */
    ghost predicate Exclusive()
      reads this, device
    {
      |liveClockIntervals| + |liveTimeouts| + |device.liveIntervals| <= 1
    }

    /** The route variables, timers included, are as they were. */
    twostate predicate RouteStateKept()
      reads this
    {
      && viewMode == old(viewMode) && persistedData == old(persistedData)
      && clockInterval == old(clockInterval) && currentTimeout == old(currentTimeout)
      && liveClockIntervals == old(liveClockIntervals) && liveTimeouts == old(liveTimeouts)
      && nextTimerId == old(nextTimerId)
    }

    /** The module as loaded: `CLOCK`, nothing persisted, no timer started. */
    constructor (device: SerialPortService)
      requires device.Valid()
      ensures Valid() && this.device == device
      ensures viewMode == ClockView && persistedData == map[]
      ensures clockInterval == None && currentTimeout == None && usbResets == 0
    {
      this.device := device;
      viewMode := ClockView;
      persistedData := map[];
      clockInterval := None;
      currentTimeout := None;
      nextTimerId := 0;
      liveClockIntervals := {};
      liveTimeouts := {};
      usbResets := 0;
    }

    /** `clearExistingTimers`: cancels the follow-up and the clock; with neither, nothing changes. */
    method ClearExistingTimers()
      requires Valid()
      modifies this
      ensures Valid()
      ensures clockInterval == None && currentTimeout == None
      ensures liveClockIntervals == {} && liveTimeouts == {}
      ensures viewMode == old(viewMode) && persistedData == old(persistedData)
      ensures nextTimerId == old(nextTimerId) && usbResets == old(usbResets)
      ensures old(clockInterval) == None && old(currentTimeout) == None ==> unchanged(this)
    {
      if currentTimeout.Some? {
        liveTimeouts := {};
        currentTimeout := None;
      }
      if clockInterval.Some? {
        liveClockIntervals := {};
        clockInterval := None;
      }
    }

    /**
     * The `displayClock` callback, given the Bangkok time's message and
     * whether it falls in the first 20 ms of second 59: the USB reset when
     * due, then the message through `displayMessage`.  When the reset
     * throws, the catch skips the write, so the scroller is not stopped either.
     */
    method DisplayClock(message: string, resetDue: bool, usb: UsbReset)
      requires Valid()
      modifies this, device
      ensures Valid()
      ensures usbResets == old(usbResets) + (if resetDue then 1 else 0)
      ensures RouteStateKept() && device.nextTimerId == old(device.nextTimerId)
      ensures !resetDue || usb.UsbResetDone? ==>
                && device.currentInterval == None && device.liveIntervals == {}
                && device.writes == old(device.writes) + (if device.WritesToDevice() then [message] else [])
      ensures resetDue && usb.UsbResetFailed? ==> unchanged(device)
    {
      if resetDue {
        usbResets := usbResets + 1;
      }
      if !resetDue || usb.UsbResetDone? {
        device.DisplayMessage(message);
      }
    }

    /**
     * `GET /`: the route timers are cleared and the page is rendered; the
     * mode, the persisted fields and the device stay as they were.
     */
    method GetIndex() returns (r: Response)
      requires Valid()
      modifies this
      ensures Valid() && Exclusive() && r == Page
      ensures clockInterval == None && currentTimeout == None
      ensures viewMode == old(viewMode) && persistedData == old(persistedData)
      ensures unchanged(device) && usbResets == old(usbResets)
      ensures nextTimerId == old(nextTimerId)
    {
      ClearExistingTimers();
      r := Page;
    }

    /** `GET /plateInfo`: a static `letter-number` and exactly the three plate fields persisted. */
    method GetPlateInfo(query: Fields) returns (r: Response)
      requires Valid()
      modifies this, device
      ensures Valid() && Exclusive() && r == NoContent
      ensures viewMode == PlateView && persistedData == PlateRecord(query)
      ensures clockInterval == None && currentTimeout == None
      ensures device.currentInterval == None
      ensures device.writes == old(device.writes)
              + (if device.WritesToDevice() then [PlateMessage(query)] else [])
      ensures usbResets == old(usbResets)
      ensures nextTimerId == old(nextTimerId)
    {
      ClearExistingTimers();
      viewMode := PlateView;
      persistedData := PlateRecord(query);
      device.DisplayMessage(PlateMessage(query));
      r := NoContent;
    }

    /** `GET /charges`: plate and amount persisted, and a two-line scroll of plate and fee. */
    method GetCharges(query: Fields) returns (r: Response)
      requires Valid()
      modifies this, device
      ensures Valid() && Exclusive() && r == NoContent
      ensures viewMode == ChargeView && persistedData == ChargeRecord(query)
      ensures clockInterval == None && currentTimeout == None
      ensures device.writes == old(device.writes)
      ensures device.isDevelopment ==> device.currentInterval == None
      ensures !device.isDevelopment ==>
                device.currentInterval == Some(Scroller(old(device.nextTimerId), ChargeMessage(query), 0))
      ensures usbResets == old(usbResets)
      ensures nextTimerId == old(nextTimerId)
    {
      ClearExistingTimers();
      viewMode := ChargeView;
      persistedData := ChargeRecord(query);
      ghost var colour := Green;  // computed, then dropped: the service takes no colour
      device.DisplayDynamicMessage(ChargeMessage(query));
      r := NoContent;
    }

    /**
     * `GET /clock`: nothing persisted, one clock tick straight away, then
     * exactly one clock interval.  Only a failed USB reset in that first tick
     * can leave an older scroller running beside the clock.
     */
    method GetClock(now: BangkokTime, usb: UsbReset) returns (r: Response)
      requires Valid()
      modifies this, device
      ensures Valid() && r == NoContent
      ensures viewMode == ClockView && persistedData == map[]
      ensures clockInterval == Some(old(nextTimerId)) && liveClockIntervals == {old(nextTimerId)}
      ensures old(nextTimerId) !in old(liveClockIntervals)
      ensures currentTimeout == None && liveTimeouts == {}
      ensures usbResets == old(usbResets) + (if ShouldResetUsb(now) then 1 else 0)
      ensures !ShouldResetUsb(now) || usb.UsbResetDone? ==>
                && Exclusive() && device.currentInterval == None
                && device.writes == old(device.writes)
                   + (if device.WritesToDevice() then [ClockMessage(now)] else [])
      ensures ShouldResetUsb(now) && usb.UsbResetFailed? ==> unchanged(device)
      ensures nextTimerId == old(nextTimerId) + 1
    {
      ClearExistingTimers();
      viewMode := ClockView;
      persistedData := map[];
      DisplayClock(ClockMessage(now), ShouldResetUsb(now), usb);
      StartClockInterval();
      r := NoContent;
    }

    /** `setInterval(displayClock, 1000)` with no other timer alive: the fresh handle is kept. */
    method StartClockInterval()
      requires Valid() && clockInterval == None && currentTimeout == None
      modifies this
      ensures Valid()
      ensures clockInterval == Some(old(nextTimerId)) && liveClockIntervals == {old(nextTimerId)}
      ensures old(liveClockIntervals) == {} && liveTimeouts == {}
      ensures nextTimerId == old(nextTimerId) + 1 && currentTimeout == None
      ensures viewMode == old(viewMode) && persistedData == old(persistedData)
      ensures usbResets == old(usbResets)
    {
      clockInterval := Some(nextTimerId);
      liveClockIntervals := {nextTimerId};
      nextTimerId := nextTimerId + 1;
    }

    /** One firing of the clock interval. */
    method ClockTick(now: BangkokTime, usb: UsbReset)
      requires Valid() && clockInterval.Some?
      modifies this, device
      ensures Valid()
      ensures !ShouldResetUsb(now) || usb.UsbResetDone? ==>
                && Exclusive() && device.currentInterval == None
                && device.writes == old(device.writes)
                   + (if device.WritesToDevice() then [ClockMessage(now)] else [])
      ensures ShouldResetUsb(now) && usb.UsbResetFailed? ==> unchanged(device)
      ensures usbResets == old(usbResets) + (if ShouldResetUsb(now) then 1 else 0)
      ensures viewMode == old(viewMode) && persistedData == old(persistedData)
      ensures clockInterval == old(clockInterval) && currentTimeout == old(currentTimeout)
      ensures nextTimerId == old(nextTimerId)
    {
      DisplayClock(ClockMessage(now), ShouldResetUsb(now), usb);
    }

    /**
     * `GET /welcome`: the timers are cleared and the mode set, then the call
     * of the missing `displayDynamicBothLines` throws and the handler answers
     * 500.  Nothing is persisted and the device is not touched, so a scroll
     * started earlier keeps running.
     */
    method GetWelcome(query: Fields) returns (r: Response)
      requires Valid()
      modifies this
      ensures Valid() && Exclusive() && r == ServerError(WELCOME_ERROR)
      ensures viewMode == WelcomeView && persistedData == old(persistedData)
      ensures clockInterval == None && currentTimeout == None
      ensures unchanged(device) && usbResets == old(usbResets)
      ensures nextTimerId == old(nextTimerId)
    {
      ClearExistingTimers();
      viewMode := WelcomeView;
      ghost var colour := MemberColour(query);  // computed, then dropped: the call below throws
      ghost var message := WelcomeMessage(query, persistedData);  // never reaches the service
      r := ServerError(WELCOME_ERROR);
    }

    /**
     * `GET /blacklisted`: the denial text at once, then one follow-up timer;
     * the colour is computed and dropped.
     */
    method GetBlacklisted(query: Fields) returns (r: Response)
      requires Valid()
      modifies this, device
      ensures Valid() && Exclusive() && r == NoContent
      ensures viewMode == BlacklistView && persistedData == old(persistedData)
      ensures clockInterval == None
      ensures currentTimeout == Some(old(nextTimerId)) && liveTimeouts == {old(nextTimerId)}
      ensures old(nextTimerId) !in old(liveTimeouts)
      ensures device.currentInterval == None
      ensures device.writes == old(device.writes)
              + (if device.WritesToDevice() then [BLACKLIST_MESSAGE] else [])
      ensures usbResets == old(usbResets)
      ensures nextTimerId == old(nextTimerId) + 1
    {
      ClearExistingTimers();
      viewMode := BlacklistView;
      ghost var colour := MemberColour(query);  // computed, then dropped: the service takes no colour
      device.DisplayMessage(BLACKLIST_MESSAGE);
      currentTimeout := Some(nextTimerId);
      liveTimeouts := {nextTimerId};
      nextTimerId := nextTimerId + 1;
      r := NoContent;
    }

    /** The blacklist follow-up fires: it writes the shorter text and forgets its handle. */
    method FireBlacklistTimeout()
      requires Valid() && currentTimeout.Some?
      modifies this, device
      ensures Valid() && Exclusive()
      ensures currentTimeout == None && liveTimeouts == {}
      ensures viewMode == old(viewMode) && persistedData == old(persistedData)
      ensures clockInterval == old(clockInterval)
      ensures device.currentInterval == None
      ensures device.writes == old(device.writes)
              + (if device.WritesToDevice() then [BLACKLIST_FOLLOW_UP] else [])
      ensures usbResets == old(usbResets)
      ensures nextTimerId == old(nextTimerId)
    {
      device.DisplayMessage(BLACKLIST_FOLLOW_UP);
      currentTimeout := None;
      liveTimeouts := {};
    }

    /** `GET /thankyou`: scrolls the plate (from the request, else persisted) over the thanks. */
    method GetThankYou(query: Fields) returns (r: Response)
      requires Valid()
      modifies this, device
      ensures Valid() && Exclusive() && r == NoContent
      ensures viewMode == ThankYouView && persistedData == old(persistedData)
      ensures clockInterval == None && currentTimeout == None
      ensures device.writes == old(device.writes)
      ensures device.isDevelopment ==> device.currentInterval == None
      ensures !device.isDevelopment ==>
                device.currentInterval
                == Some(Scroller(old(device.nextTimerId), ThankYouMessage(query, old(persistedData)), 0))
      ensures usbResets == old(usbResets)
      ensures nextTimerId == old(nextTimerId)
    {
      ClearExistingTimers();
      viewMode := ThankYouView;
      ghost var colour := MemberColour(query);  // computed, then dropped: the service takes no colour
      device.DisplayDynamicMessage(ThankYouMessage(query, persistedData));
      r := NoContent;
    }

    /** `GET /forbidden`: scrolls the fixed two-line denial. */
    method GetForbidden(query: Fields) returns (r: Response)
      requires Valid()
      modifies this, device
      ensures Valid() && Exclusive() && r == NoContent
      ensures viewMode == ForbiddenView && persistedData == old(persistedData)
      ensures clockInterval == None && currentTimeout == None
      ensures device.writes == old(device.writes)
      ensures device.isDevelopment ==> device.currentInterval == None
      ensures !device.isDevelopment ==>
                device.currentInterval == Some(Scroller(old(device.nextTimerId), FORBIDDEN_MESSAGE, 0))
      ensures usbResets == old(usbResets)
      ensures nextTimerId == old(nextTimerId)
    {
      ClearExistingTimers();
      viewMode := ForbiddenView;
      ghost var colour := MemberColour(query);  // computed, then dropped: the service takes no colour
      device.DisplayDynamicMessage(FORBIDDEN_MESSAGE);
      r := NoContent;
    }

    /**
     * `GET /clear`: the route timers are cleared, then the call of the
     * missing `clearDisplay` throws and the handler answers 500.  The mode,
     * the persisted fields and the device, scroller included, stay as they were.
     */
    method GetClear() returns (r: Response)
      requires Valid()
      modifies this
      ensures Valid() && Exclusive() && r == ServerError(CLEAR_ERROR)
      ensures clockInterval == None && currentTimeout == None
      ensures viewMode == old(viewMode) && persistedData == old(persistedData)
      ensures unchanged(device) && usbResets == old(usbResets)
      ensures nextTimerId == old(nextTimerId)
    {
      ClearExistingTimers();
      r := ServerError(CLEAR_ERROR);
    }

    /** `GET /reset-usb`: one USB reset; 500 with the file-system error when it throws. */
    method GetResetUsb(usb: UsbReset) returns (r: Response)
      requires Valid()
      modifies this
      ensures Valid()
      ensures usbResets == old(usbResets) + 1
      ensures r == if usb.UsbResetDone? then NoContent else ServerError(usb.message)
      ensures viewMode == old(viewMode) && persistedData == old(persistedData)
      ensures clockInterval == old(clockInterval) && currentTimeout == old(currentTimeout)
      ensures old(Exclusive()) ==> Exclusive()
      ensures unchanged(device)
      ensures nextTimerId == old(nextTimerId)
    {
      usbResets := usbResets + 1;
      r := if usb.UsbResetDone? then NoContent else ServerError(usb.message);
    }

    /** One firing of the service's scroll interval, seen from the session. */
    method ScrollTick()
      requires Valid() && device.currentInterval.Some?
      modifies device
      ensures Valid()
      ensures old(Exclusive()) ==> Exclusive()
      ensures var s := old(device.currentInterval.value);
        && device.currentInterval == Some(Scroller(s.id, s.message, Advance(s.message, s.position)))
        && device.writes == old(device.writes)
           + (if device.HasDevicePath() then [Frame(s.message, s.position)] else [])
      ensures nextTimerId == old(nextTimerId)
    {
      device.ScrollTick();
    }

    /** `sendUpdate`: copies the mode into `persistedData` and returns the snapshot sent. */
    method SendUpdate() returns (snapshot: Fields)
      requires Valid()
      modifies this
      ensures Valid()
      ensures snapshot == Snapshot(old(persistedData), viewMode) && persistedData == snapshot
      ensures viewMode == old(viewMode)
      ensures clockInterval == old(clockInterval) && currentTimeout == old(currentTimeout)
      ensures old(Exclusive()) ==> Exclusive()
      ensures unchanged(device)
      ensures nextTimerId == old(nextTimerId) && usbResets == old(usbResets)
    {
      persistedData := Snapshot(persistedData, viewMode);
      snapshot := persistedData;
    }
  }
}
