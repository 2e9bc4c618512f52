/**
 * The scan screen of YourDrugs/ContentView.swift: the three state fields of
 * `ScanView` and the handlers that assign them, the hard-coded warning
 * table of `checkForWarnings`, the coordinator that forwards scanner
 * results, and the first-object rule of `ScannerViewController.metadataOutput`.
 */
module ScanScreen {
  import opened Wrappers

  // ---------------------------------------------------------------------
  // Scanner results

  /** An `NSError` reduced to its domain and code. */
  datatype ScanError = ScanError(domain: string, code: int)

  /** Swift's `Result<String, Error>` handed to the sheet's closure. */
  datatype ScanResult = Success(code: string) | Failure(error: ScanError)

  // ---------------------------------------------------------------------
  // checkForWarnings

  const DangerousCode: string := "1234567890123"

  /** The `simulatedDangerousSubstance` dictionary. */
  const SimulatedDangerousSubstance: map<string, string> := map[DangerousCode := "Contain penicillin"]

  const InitialText: string := "Scan drug, to check contraindications."
  const ScanErrorText: string := "Scan error. Try again."
  const NoContraindicationsText: string := "There no contraindications for using this drug."
  const WarningPrefix: string := "WARNING: "
  const WarningSuffix: string := " - do not reccomend with your health conditions."
  /** "WARNING: Contain penicillin - do not reccomend with your health conditions." */
  const PenicillinWarningText: string := WarningPrefix + "Contain penicillin" + WarningSuffix

  /** The text `checkForWarnings` puts in `resultText` for a code. */
  function WarningText(ean: string): (text: string)
    ensures ean == "1234567890123" ==> text == PenicillinWarningText
    ensures ean != "1234567890123" ==> text == "There no contraindications for using this drug."
  {
    if ean in SimulatedDangerousSubstance then
      WarningPrefix + SimulatedDangerousSubstance[ean] + WarningSuffix
    else NoContraindicationsText
  }

  // ---------------------------------------------------------------------
  // ScanView state and its transitions

  datatype ScanState = ScanState(isShowingScanner: bool, scannedCode: string, resultText: string)

  const InitialState: ScanState := ScanState(false, "", InitialText)

  /** What the user or the scanner sheet does to the scan screen. */
  datatype ScanEvent = TapScanCode | ScannerFinished(result: ScanResult)

  /** The effect of one event on the three state fields. */
  function Step(s: ScanState, e: ScanEvent): (t: ScanState)
    ensures e.TapScanCode? ==> t == s.(isShowingScanner := true)
    ensures e.ScannerFinished? ==> !t.isShowingScanner
    ensures e.ScannerFinished? && e.result.Success? ==>
              t.scannedCode == e.result.code && t.resultText == WarningText(e.result.code)
    ensures e.ScannerFinished? && e.result.Failure? ==>
              t.scannedCode == s.scannedCode && t.resultText == "Scan error. Try again."
  {
    match e
    case TapScanCode => s.(isShowingScanner := true)
    case ScannerFinished(Success(code)) => ScanState(false, code, WarningText(code))
    case ScannerFinished(Failure(_)) => s.(isShowingScanner := false, resultText := ScanErrorText)
  }

  /** Delivering the same scanner result twice has the effect of delivering it once. */
  lemma ScannerResultIdempotent(s: ScanState, r: ScanResult)
    ensures Step(Step(s, ScannerFinished(r)), ScannerFinished(r)) == Step(s, ScannerFinished(r))
  {
  }

  /** The state after a sequence of events, starting from the initial state. */
  function Replay(events: seq<ScanEvent>): ScanState
  {
    if events == [] then InitialState
    else Step(Replay(events[..|events| - 1]), events[|events| - 1])
  }

  /** The code of the last successful scan in `events`, or "" when there is none. */
  function LastScannedCode(events: seq<ScanEvent>): string
  {
    if events == [] then ""
    else
      var e := events[|events| - 1];
      if e.ScannerFinished? && e.result.Success? then e.result.code
      else LastScannedCode(events[..|events| - 1])
  }

  /** `scannedCode` always shows the last code scanned successfully; failures never clear it. */
  lemma {:induction false} ReplayScannedCode(events: seq<ScanEvent>)
    ensures Replay(events).scannedCode == LastScannedCode(events)
  {
    if events != [] {
      ReplayScannedCode(events[..|events| - 1]);
    }
  }

  /** The scanner sheet is up exactly when the last event was a tap on "Scan code". */
  lemma ReplayShowingScanner(events: seq<ScanEvent>)
    ensures Replay(events).isShowingScanner <==> events != [] && events[|events| - 1].TapScanCode?
  {
  }

  /**
   * `resultText` is the initial text, the scan-error text, or the verdict
   * of `checkForWarnings` for the stored `scannedCode`.
   */
  ghost predicate Consistent(s: ScanState)
  {
    s.resultText == InitialText || s.resultText == ScanErrorText || s.resultText == WarningText(s.scannedCode)
  }

  lemma StepKeepsConsistent(s: ScanState, e: ScanEvent)
    requires Consistent(s)
    ensures Consistent(Step(s, e))
  {
  }

  /** Every reachable state is consistent: a verdict in `resultText` is always the one for the stored `scannedCode`. */
  lemma {:induction false} ReplayConsistent(events: seq<ScanEvent>)
    ensures Consistent(Replay(events))
  {
    if events != [] {
      ReplayConsistent(events[..|events| - 1]);
      StepKeepsConsistent(Replay(events[..|events| - 1]), events[|events| - 1]);
    }
  }

  /** The `@State` fields of `ScanView`. */
  class ScanView {
    var isShowingScanner: bool
    var scannedCode: string
    var resultText: string

    ghost function State(): ScanState
      reads this
    {
      ScanState(isShowingScanner, scannedCode, resultText)
    }

    constructor ()
      ensures State() == InitialState
      ensures !isShowingScanner && scannedCode == "" && resultText == "Scan drug, to check contraindications."
    {
      isShowingScanner := false;
      scannedCode := "";
      resultText := InitialText;
    }

    /** The "Scan code" button. */
    method TapScanCode()
      modifies this
      ensures State() == Step(old(State()), ScanEvent.TapScanCode)
      ensures isShowingScanner && scannedCode == old(scannedCode) && resultText == old(resultText)
    {
      isShowingScanner := true;
    }

    /** `checkForWarnings`: sets `resultText` and nothing else. */
    method CheckForWarnings(ean: string)
      modifies this
      ensures resultText == WarningText(ean)
      ensures isShowingScanner == old(isShowingScanner) && scannedCode == old(scannedCode)
    {
      if ean in SimulatedDangerousSubstance {
        var warning := SimulatedDangerousSubstance[ean];
        resultText := WarningPrefix + warning + WarningSuffix;
      } else {
        resultText := NoContraindicationsText;
      }
    }

    /** The closure given to `CodeScannerView`. */
    method OnScanResult(result: ScanResult)
      modifies this
      ensures State() == Step(old(State()), ScannerFinished(result))
      ensures !isShowingScanner
      ensures result.Success? ==> scannedCode == result.code && resultText == WarningText(result.code)
      ensures result.Failure? ==> scannedCode == old(scannedCode) && resultText == "Scan error. Try again."
    {
      match result
      case Success(code) =>
        scannedCode := code;
        isShowingScanner := false;
        CheckForWarnings(code);
      case Failure(_) =>
        resultText := ScanErrorText;
        isShowingScanner := false;
    }
  }

  // ---------------------------------------------------------------------
  // Coordinator and ScannerViewController

  /** The calls `ScannerViewController` makes on its delegate. */
  datatype DelegateCall = DidFind(code: string) | DidFail(error: ScanError)

  /** The coordinator: `didFind` becomes `.success`, `didFail` becomes `.failure`. */
  function Forward(call: DelegateCall): (r: ScanResult)
    ensures call.DidFind? <==> r.Success?
    ensures call.DidFind? ==> r.code == call.code
    ensures call.DidFail? ==> r.error == call.error
  {
    match call
    case DidFind(code) => Success(code)
    case DidFail(error) => Failure(error)
  }

  /** The delegate call that produces a result; the partner of `Forward`. */
  function Unforward(r: ScanResult): DelegateCall
  {
    match r
    case Success(code) => DidFind(code)
    case Failure(error) => DidFail(error)
  }

  /** The coordinator is one-to-one and onto. */
  lemma ForwardBijective(call: DelegateCall, r: ScanResult)
    ensures Unforward(Forward(call)) == call
    ensures Forward(Unforward(r)) == r
  {
  }

  /** An `AVMetadataObject`: a machine-readable code (whose string may be missing) or another kind. */
  datatype MetadataObject = MachineReadableCode(stringValue: Option<string>) | OtherMetadata

  const ScanFailure: ScanError := ScanError("ScanError", -1)

  /** The delegate call `metadataOutput` makes for a batch of metadata objects. */
  function MetadataCall(objects: seq<MetadataObject>): (call: DelegateCall)
    ensures call.DidFind? <==>
              |objects| > 0 && objects[0].MachineReadableCode? && objects[0].stringValue.Some?
    ensures call.DidFind? ==> call.code == objects[0].stringValue.value
    ensures call.DidFail? ==> call.error == ScanError("ScanError", -1)
  {
    if |objects| > 0 && objects[0].MachineReadableCode? && objects[0].stringValue.Some? then
      DidFind(objects[0].stringValue.value)
    else DidFail(ScanFailure)
  }

  /** Only the first metadata object counts: what follows it never changes the call. */
  lemma OnlyFirstObjectCounts(first: MetadataObject, rest: seq<MetadataObject>, other: seq<MetadataObject>)
    ensures MetadataCall([first] + rest) == MetadataCall([first] + other)
  {
  }

  /** The capture session's running flag, the weak delegate, and the calls made on it. */
  class ScannerViewController {
    var sessionRunning: bool
    var hasDelegate: bool
    var delegateCalls: seq<DelegateCall>

    constructor (hasDelegate: bool)
      ensures this.hasDelegate == hasDelegate && !sessionRunning && delegateCalls == []
    {
      this.hasDelegate := hasDelegate;
      sessionRunning := false;
      delegateCalls := [];
    }

    /**
     * `metadataOutput`: stops the session, then makes one delegate call
     * decided by the first object (none when the delegate is gone).
     */
    method MetadataOutput(objects: seq<MetadataObject>)
      modifies this
      ensures !sessionRunning && hasDelegate == old(hasDelegate)
      ensures delegateCalls == old(delegateCalls) + (if hasDelegate then [MetadataCall(objects)] else [])
    {
      sessionRunning := false;
      var call: DelegateCall;
      if |objects| > 0 && objects[0].MachineReadableCode? && objects[0].stringValue.Some? {
        call := DidFind(objects[0].stringValue.value);
      } else {
        call := DidFail(ScanFailure);
      }
      if hasDelegate {
        delegateCalls := delegateCalls + [call];
      }
    }
  }

  /**
   * From camera to state: the first object's code becomes `scannedCode`
   * and decides `resultText`; an empty batch or an unreadable first object
   * sets the scan-error text and keeps the previous code.
   */
  lemma MetadataToScreen(s: ScanState, objects: seq<MetadataObject>)
    ensures var t := Step(s, ScannerFinished(Forward(MetadataCall(objects))));
            && !t.isShowingScanner
            && (MetadataCall(objects).DidFind? ==>
                  t.scannedCode == objects[0].stringValue.value && t.resultText == WarningText(t.scannedCode))
            && (MetadataCall(objects).DidFail? ==>
                  t.scannedCode == s.scannedCode && t.resultText == ScanErrorText)
  {
  }
}
