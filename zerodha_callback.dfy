/** The page the broker redirects to after its login: it exchanges the
    request token for a session once, then sends the user to the dashboard.
    The session call's outcome is a parameter, and the call is taken to
    settle before the effect runs again. */
module ZerodhaCallback {
  import opened Util

  const Connecting: string := "Connecting to Zerodha..."
  const MissingToken: string := "Missing request token. Please retry the Zerodha login."
  const Connected: string := "Zerodha connected. Redirecting to dashboard..."
  const ConnectFailed: string := "Unable to connect Zerodha. Please try again."
  const NiftyDashboardPath: string := "/dashboard/nifty50"
  const RedirectDelayMs: int := 1200

  /** A navigation scheduled with `setTimeout`. */
  datatype Redirect = Redirect(path: string, delayMs: int)

  class CallbackPage {
    var status: string
    var error: string
    /** `hasRequestedRef.current`. */
    var hasRequested: bool
    /** The request tokens passed to `createZerodhaSession`, in call order. */
    var sessionCalls: seq<string>
    var redirect: Option<Redirect>

    /** The guard flag records exactly whether the one session call has been
        made. */
    ghost predicate Valid()
      reads this
    {
      |sessionCalls| <= 1 && (hasRequested <==> |sessionCalls| == 1)
    }

    constructor ()
      ensures status == Connecting && error == "" && !hasRequested
      ensures sessionCalls == [] && redirect.None? && Valid()
    {
      status := Connecting;
      error := "";
      hasRequested := false;
      sessionCalls := [];
      redirect := None;
    }

    /** One run of the effect, for the `request_token` of the current URL.
        Without a token the status is cleared and the retry error shown, and
        no call is made. With one, a call is made only if none has been made
        before: the guard is set first, so a failed call is never repeated.
        Success shows the connected status and schedules the redirect;
        failure clears the status and shows the failure error. */
    method RunEffect(requestToken: Option<string>, sessionSucceeds: bool)
      requires Valid()
      modifies this
      ensures Valid()
      ensures !Truthy(requestToken) ==>
        status == "" && error == MissingToken && sessionCalls == old(sessionCalls)
        && hasRequested == old(hasRequested) && redirect == old(redirect)
      ensures Truthy(requestToken) && old(hasRequested) ==>
        status == old(status) && error == old(error) && sessionCalls == old(sessionCalls) && redirect == old(redirect)
      ensures Truthy(requestToken) && !old(hasRequested) ==> sessionCalls == [requestToken.value]
      ensures Truthy(requestToken) && !old(hasRequested) && sessionSucceeds ==>
        status == Connected && error == old(error) && redirect == Some(Redirect(NiftyDashboardPath, RedirectDelayMs))
      ensures Truthy(requestToken) && !old(hasRequested) && !sessionSucceeds ==>
        status == "" && error == ConnectFailed && redirect == old(redirect)
    {
      if !Truthy(requestToken) {
        status := "";
        error := MissingToken;
        return;
      }
      if hasRequested {
        return;
      }
      hasRequested := true;
      sessionCalls := sessionCalls + [requestToken.value];
      if sessionSucceeds {
        status := Connected;
        redirect := Some(Redirect(NiftyDashboardPath, RedirectDelayMs));
      } else {
        status := "";
        error := ConnectFailed;
      }
    }
  }
}
