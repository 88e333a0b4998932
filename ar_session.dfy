/** The AR session status every VeeTA camera screen keeps (ready, camera
    permission denied, session error), and the session delegate
    (`ARViewContainer.Coordinator`) that reports readiness and failures to
    the screen. */
module ArSession {
  import opened Common

  /** `isARSessionReady`, `permissionDenied` and `sessionError`. */
  datatype Session = Session(ready: bool, permissionDenied: bool, error: Option<string>)

  const InitialSession: Session := Session(false, false, None)

  /** The guard of `handleTapGesture`: taps are processed only on a ready,
      permitted, error-free session. */
  predicate AcceptsTaps(s: Session)
  {
    s.ready && !s.permissionDenied && s.error.None?
  }

  /** `onSessionReady`. */
  function BecomeReady(s: Session): (r: Session)
    ensures r.ready && r.permissionDenied == s.permissionDenied && r.error == s.error
  {
    s.(ready := true)
  }

  /** `onPermissionDenied`: from then on taps are refused. */
  function DenyPermission(s: Session): (r: Session)
    ensures r.permissionDenied && !AcceptsTaps(r)
    ensures r.ready == s.ready && r.error == s.error
  {
    s.(permissionDenied := true)
  }

  /** `onSessionError`: from then on taps are refused. */
  function Fail(s: Session, message: string): (r: Session)
    ensures r.error == Some(message) && !AcceptsTaps(r)
    ensures r.ready == s.ready && r.permissionDenied == s.permissionDenied
  {
    s.(error := Some(message))
  }

  const UnsupportedMessage: string := "AR non supportato su questo dispositivo"

  /** The immediate part of `resetARSession`: the error is cleared and the
      session is no longer ready until the delegate reports it again. */
  function BeginReset(s: Session): (r: Session)
    ensures !r.ready && r.error.None? && !AcceptsTaps(r)
    ensures r.permissionDenied == s.permissionDenied
  {
    s.(ready := false, error := None)
  }

  /** The delayed part of `resetARSession`: a device without world tracking
      gets the unsupported error, otherwise the session is restarted and the
      status waits for the delegate. */
  function FinishReset(s: Session, worldTrackingSupported: bool): (r: Session)
    ensures worldTrackingSupported ==> r == s
    ensures !worldTrackingSupported ==> r == Fail(s, UnsupportedMessage)
  {
    if worldTrackingSupported then s else Fail(s, UnsupportedMessage)
  }

  /** What `session(_:didFailWithError:)` is given. */
  datatype Failure = ArFailure(code: int, description: string) | OtherFailure(description: string)

  /** Which screen callback the delegate invokes. */
  datatype Callback = PermissionDeniedCallback | SessionErrorCallback(message: string)

  /** The error dispatch: ARKit's code 102 (camera access denied) becomes a
      permission denial, any other failure a session error whose message
      names its kind and carries the description. */
  function Dispatch(f: Failure): (cb: Callback)
    ensures cb.PermissionDeniedCallback? <==> f.ArFailure? && f.code == 102
    ensures f.ArFailure? && f.code != 102 ==> cb == SessionErrorCallback("Errore AR: " + f.description)
    ensures f.OtherFailure? ==> cb == SessionErrorCallback("Errore sconosciuto: " + f.description)
  {
    match f
    case ArFailure(code, description) =>
      if code == 102 then PermissionDeniedCallback
      else SessionErrorCallback("Errore AR: " + description)
    case OtherFailure(description) => SessionErrorCallback("Errore sconosciuto: " + description)
  }

  /** The screen status after a callback has run. */
  function Apply(s: Session, cb: Callback): (r: Session)
    ensures !AcceptsTaps(r)
  {
    match cb
    case PermissionDeniedCallback => DenyPermission(s)
    case SessionErrorCallback(message) => Fail(s, message)
  }

  /** `sessionWasInterrupted`. */
  const InterruptedMessage: string := "Sessione AR interrotta"

  /** Everything that changes a screen's session status. */
  datatype SessionEvent =
    | Ready
    | Failed(failure: Failure)
    | Interrupted
    | ResetBegun
    | ResetFinished(worldTrackingSupported: bool)

  /** The status after an event; only readiness (or a completed reset on a
      supported device, which waits for readiness) can leave the session
      accepting taps, and only an accepting session is ready. */
  function OnEvent(s: Session, e: SessionEvent): (r: Session)
    ensures AcceptsTaps(r) ==> r.ready
    ensures e.Failed? || e.Interrupted? || e.ResetBegun? ==> !AcceptsTaps(r)
    ensures e.Ready? ==> r.ready
    ensures e.Failed? && e.failure.ArFailure? && e.failure.code == 102 ==> r.permissionDenied
  {
    match e
    case Ready => BecomeReady(s)
    case Failed(f) => Apply(s, Dispatch(f))
    case Interrupted => Fail(s, InterruptedMessage)
    case ResetBegun => BeginReset(s)
    case ResetFinished(supported) => FinishReset(s, supported)
  }

  /** `ARViewContainer.Coordinator`: remembers whether readiness has been
      reported. */
  class Coordinator {
    var sessionReady: bool

    constructor ()
      ensures !sessionReady
    {
      sessionReady := false;
    }

    /** `session(_:didUpdate:)`: reports readiness on the first frame whose
        tracking is normal; once reported, the flag stays set and no later
        frame reports again. */
    method DidUpdateFrame(trackingNormal: bool) returns (reportReady: bool)
      modifies this
      ensures reportReady <==> !old(sessionReady) && trackingNormal
      ensures sessionReady <==> old(sessionReady) || trackingNormal
      ensures old(sessionReady) ==> !reportReady
    {
      reportReady := false;
      if !sessionReady && trackingNormal {
        sessionReady := true;
        reportReady := true;
      }
    }
  }
}
