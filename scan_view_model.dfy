/**
 * The scan screen's gate: a detected payload is accepted only 1500 ms or
 * more after the last accepted one and only while no result is shown; an
 * accepted payload is parsed and, when it is not blank, shown as the result
 * until the user dismisses it. The clock is a parameter; the database save
 * that later replaces the current scan's id, the gallery image decoding and
 * the repository calls behind the favourite toggle are not modelled.
 */
module ScanViewModel {
  import opened KotlinStd
  import opened QrModel
  import opened QrParser

  /** What the scanner screen shows. */
  datatype ScannerState = Scanning | Result(content: QrContent)

  /** Milliseconds that must pass between two accepted detections. */
  const DebounceInterval: int := 1500

  /** The view model's observable and private state in one value. */
  datatype ScanScreen = ScanScreen(
    scannerState: ScannerState,
    torchEnabled: bool,
    currentScan: Option<QrContent>,
    showImagePicker: bool,
    locked: bool,
    lastScanTime: int)

  /** The state between two calls: the gate is locked exactly while a result
      is shown, that result is the current scan, and while scanning there is
      no current scan. The save coroutine, which replaces the current scan by
      a copy carrying the id the repository assigned, is not modelled; with
      it the current scan would equal the shown result only up to its id. */
  predicate Gated(s: ScanScreen) {
    && (s.locked <==> s.scannerState.Result?)
    && (s.scannerState.Result? ==> s.currentScan == Some(s.scannerState.content))
    && (s.scannerState.Scanning? ==> s.currentScan.None?)
  }

  /** The state of a fresh view model. */
  function InitialScreen(): (s: ScanScreen)
    ensures Gated(s)
    ensures s.scannerState == Scanning && s.currentScan.None?
    ensures !s.torchEnabled && !s.showImagePicker && !s.locked && s.lastScanTime == 0
  {
    ScanScreen(Scanning, false, None, false, false, 0)
  }

  /** A detection at `now` gets past the debounce test and the lock. */
  predicate Passes(s: ScanScreen, now: int) {
    now - s.lastScanTime >= DebounceInterval && !s.locked
  }

  /** `onQrCodeDetected`: the debounce test, then the compare-and-set of the
      lock; a detection that passes both records its time, and a blank
      payload, which parses to nothing, releases the lock again. */
  function Detected(s: ScanScreen, raw: string, now: int): (t: ScanScreen)
    ensures t.torchEnabled == s.torchEnabled && t.showImagePicker == s.showImagePicker
  {
    if now - s.lastScanTime < DebounceInterval then s
    else if s.locked then s
    else
      var claimed := s.(locked := true, lastScanTime := now);
      var content := Parsed(Some(raw));
      if content.Some? then claimed.(currentScan := content, scannerState := Result(content.value))
      else claimed.(locked := false)
  }

  /** `onResultDismissed`: back to scanning, no current scan, gate open. */
  function Dismissed(s: ScanScreen): (t: ScanScreen)
    ensures Gated(t) && t.scannerState == Scanning && !t.locked
    ensures t.lastScanTime == s.lastScanTime
  {
    s.(scannerState := Scanning, currentScan := None, locked := false)
  }

  /** `toggleTorch`. */
  function TorchToggled(s: ScanScreen): (t: ScanScreen)
    ensures t.torchEnabled != s.torchEnabled
  {
    s.(torchEnabled := !s.torchEnabled)
  }

  /** The state part of `toggleFavorite`: with a current scan, its flag and
      the flag of the shown result both become the negation of the current
      scan's flag. */
  function FavoriteToggled(s: ScanScreen): (t: ScanScreen)
    ensures s.currentScan.None? ==> t == s
  {
    if s.currentScan.None? then s
    else
      var flag := !s.currentScan.value.isFavorite;
      s.(currentScan := Some(s.currentScan.value.(isFavorite := flag)),
         scannerState := if s.scannerState.Result?
                         then Result(s.scannerState.content.(isFavorite := flag))
                         else s.scannerState)
  }

  /** `onGalleryClick` (`shown`) and `onImagePickerDismissed` and the
      synchronous part of `onImageSelected` (not `shown`). */
  function PickerShown(s: ScanScreen, shown: bool): (t: ScanScreen)
    ensures t.showImagePicker == shown
  {
    s.(showImagePicker := shown)
  }

  /** A detection too soon after the last accepted one, or while the gate is
      locked, changes nothing. */
  lemma DetectionIgnored(s: ScanScreen, raw: string, now: int)
    requires !Passes(s, now)
    ensures Detected(s, raw, now) == s
  {
  }

  /** A detection that passes both tests always records its time; a blank
      payload then leaves everything else as it was. */
  lemma BlankDetection(s: ScanScreen, raw: string, now: int)
    requires Passes(s, now) && IsBlank(raw)
    ensures Detected(s, raw, now) == s.(lastScanTime := now)
  {
  }

  /** A non-blank payload that passes both tests is shown as the result and
      keeps the gate locked. */
  lemma AcceptedDetection(s: ScanScreen, raw: string, now: int)
    requires Passes(s, now) && !IsBlank(raw)
    ensures var t := Detected(s, raw, now);
            && t.locked && t.lastScanTime == now
            && t.currentScan == Parsed(Some(raw))
            && t.scannerState == Result(Parsed(Some(raw)).value)
            && t.scannerState.content.rawValue == Trim(raw)
  {
  }

  /** Every operation keeps the gate invariant. */
  lemma GatedKept(s: ScanScreen, raw: string, now: int, shown: bool)
    requires Gated(s)
    ensures Gated(Detected(s, raw, now))
    ensures Gated(TorchToggled(s)) && Gated(PickerShown(s, shown))
    ensures Gated(FavoriteToggled(s))
  {
  }

  /** Single flight: while a result is shown no detection is accepted,
      however late it comes. */
  lemma ResultHoldsGate(s: ScanScreen, raw: string, now: int)
    requires Gated(s) && s.scannerState.Result?
    ensures Detected(s, raw, now) == s
  {
  }

  /** Debounce: once a payload is accepted at `now`, a second detection less
      than 1500 ms later is ignored even if the result was dismissed in
      between. */
  lemma DebounceAfterDismiss(s: ScanScreen, raw: string, now: int, raw2: string, later: int)
    requires Passes(s, now) && later < now + DebounceInterval
    ensures var t := Dismissed(Detected(s, raw, now));
            Detected(t, raw2, later) == t
  {
  }

  /** Toggling the torch twice restores it. */
  lemma TorchTwice(s: ScanScreen)
    ensures TorchToggled(TorchToggled(s)) == s
  {
  }

  /** Toggling the favourite flag sets the shown result's flag to the one of
      the current scan, and toggling twice restores the state. */
  lemma FavoriteTwice(s: ScanScreen)
    requires Gated(s)
    ensures var t := FavoriteToggled(s);
            && (s.currentScan.Some? ==> t.currentScan.value.isFavorite != s.currentScan.value.isFavorite)
            && (t.scannerState.Result? ==> t.scannerState.content.isFavorite == t.currentScan.value.isFavorite)
            && FavoriteToggled(t) == s
  {
    if s.currentScan.Some? {
      var c := s.currentScan.value;
      assert c.(isFavorite := !c.isFavorite).(isFavorite := c.isFavorite) == c;
    }
  }

  /** The view model: each StateFlow, the lock and the last accepted time
      are fields, updated in place. */
  class ScanViewModel {
    var scannerState: ScannerState
    var isTorchEnabled: bool
    var currentScan: Option<QrContent>
    var showImagePicker: bool
    var isLocked: bool
    var lastScanTime: int

    /** The fields as one value. */
    function Screen(): ScanScreen
      reads this
    {
      ScanScreen(scannerState, isTorchEnabled, currentScan, showImagePicker, isLocked, lastScanTime)
    }

    ghost predicate Valid()
      reads this
    {
      Gated(Screen())
    }

    constructor ()
      ensures Screen() == InitialScreen() && Valid()
    {
      scannerState := Scanning;
      isTorchEnabled := false;
      currentScan := None;
      showImagePicker := false;
      isLocked := false;
      lastScanTime := 0;
    }

    /** `onQrCodeDetected`, with the clock reading passed in. */
    method OnQrCodeDetected(rawValue: string, currentTime: int)
      modifies this
      ensures Screen() == Detected(old(Screen()), rawValue, currentTime)
      ensures old(Valid()) ==> Valid()
    {
      if currentTime - lastScanTime < DebounceInterval {
        return;
      }
      if isLocked {
        return;
      }
      ghost var claimed := old(Screen()).(locked := true, lastScanTime := currentTime);
      isLocked := true;
      lastScanTime := currentTime;
      var content := Parse(Some(rawValue));
      if content.Some? {
        currentScan := content;
        scannerState := Result(content.value);
        assert Screen() == claimed.(currentScan := content, scannerState := Result(content.value));
      } else {
        isLocked := false;
        assert Screen() == claimed.(locked := false);
      }
      if old(Valid()) {
        GatedKept(old(Screen()), rawValue, currentTime, showImagePicker);
      }
    }

    method OnResultDismissed()
      modifies this
      ensures Screen() == Dismissed(old(Screen())) && Valid()
    {
      scannerState := Scanning;
      currentScan := None;
      isLocked := false;
    }

    method ToggleTorch()
      modifies this
      ensures Screen() == TorchToggled(old(Screen()))
      ensures old(Valid()) ==> Valid()
    {
      isTorchEnabled := !isTorchEnabled;
    }

    /** The state part of `toggleFavorite`, run to completion. */
    method ToggleFavorite()
      modifies this
      ensures Screen() == FavoriteToggled(old(Screen()))
      ensures old(Valid()) ==> Valid()
    {
      if currentScan.None? {
        return;
      }
      var current := currentScan.value;
      var newFavoriteStatus := !current.isFavorite;
      currentScan := Some(current.(isFavorite := newFavoriteStatus));
      if scannerState.Result? {
        scannerState := Result(scannerState.content.(isFavorite := newFavoriteStatus));
      }
      if old(Valid()) {
        GatedKept(old(Screen()), "", 0, showImagePicker);
      }
    }

    method OnGalleryClick()
      modifies this
      ensures Screen() == PickerShown(old(Screen()), true)
      ensures old(Valid()) ==> Valid()
    {
      showImagePicker := true;
    }

    method OnImagePickerDismissed()
      modifies this
      ensures Screen() == PickerShown(old(Screen()), false)
      ensures old(Valid()) ==> Valid()
    {
      showImagePicker := false;
    }

    /** `onImageSelected` without the launched decode, which is not
        modelled: the picker is hidden. */
    method OnImageSelected()
      modifies this
      ensures Screen() == PickerShown(old(Screen()), false)
      ensures old(Valid()) ==> Valid()
    {
      showImagePicker := false;
    }
  }
}
