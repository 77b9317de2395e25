/** The navigation bar: the avatar initial, the toast with its auto-clear
    timer, and the instrument loading with its fall-back to the broker
    login. Fetch results are parameters; `window.open` and the
    `onInstrumentChange` callback are reported as out-parameters. */
module Navbar {
  import opened Util
  import opened Text

  /** The fields of the signed-in user the initial is taken from. */
  datatype NavUser = NavUser(name: Option<string>, email: Option<string>)

  /** `user?.name || user?.email || ''`. */
  function DisplayName(user: Option<NavUser>): string {
    if user.Some? && Truthy(user.value.name) then user.value.name.value
    else if user.Some? && Truthy(user.value.email) then user.value.email.value
    else ""
  }

  /** `userInitial`: the first character of the trimmed display name,
      upper-cased; empty when there is none. */
  function UserInitial(user: Option<NavUser>): string {
    var t := Trim(DisplayName(user));
    if t == [] then [] else ToUpper(t[..1])
  }

  /** The initial is at most one character. It is empty exactly when the
      display name is blank, and otherwise is the upper-cased first
      non-blank character of the name, or of the email when the name is
      empty or absent. A blank but non-empty name still wins over the email. */
  lemma UserInitialSpec(user: Option<NavUser>)
    ensures |UserInitial(user)| <= 1
    ensures UserInitial(user) == [] <==> forall i :: 0 <= i < |DisplayName(user)| ==> IsSpace(DisplayName(user)[i])
    ensures UserInitial(user) != [] ==>
      var s := DisplayName(user);
      exists k :: 0 <= k < |s| && !IsSpace(s[k]) && (forall j :: 0 <= j < k ==> IsSpace(s[j]))
        && UserInitial(user) == [UpperChar(s[k])]
    ensures user.Some? && Truthy(user.value.name) ==> DisplayName(user) == user.value.name.value
    ensures user.Some? && !Truthy(user.value.name) && Truthy(user.value.email) ==> DisplayName(user) == user.value.email.value
  {
    var s := DisplayName(user);
    TrimSpec(s);
    if UserInitial(user) != [] {
      var k := LeadingSpaces(s);
      assert s[k] == Trim(s)[0];
    }
  }

  /** The avatar's text: the initial, or '?' when it is empty. */
  function AvatarText(user: Option<NavUser>): (a: string)
    ensures |a| == 1
    ensures a == "?" || a == UserInitial(user)
  {
    var initial := UserInitial(user);
    if initial != [] then initial else "?"
  }

  datatype ToastKind = Info | Success | Error
  datatype Toast = Toast(message: string, kind: ToastKind)

  /** The updater the toast timer applies: clear the toast only if it still
      shows the timer's message. */
  function ClearIfSame(current: Option<Toast>, message: string): Option<Toast> {
    if current.Some? && current.value.message == message then None else current
  }

  /** The timer clears exactly a toast with its own message and otherwise
      leaves the toast alone, so a newer toast with another message survives
      an older timer; clearing twice is clearing once. */
  lemma ClearIfSameSpec(current: Option<Toast>, message: string)
    ensures ClearIfSame(current, message).None? <==> current.None? || current.value.message == message
    ensures ClearIfSame(current, message).Some? ==> ClearIfSame(current, message) == current
    ensures ClearIfSame(ClearIfSame(current, message), message) == ClearIfSame(current, message)
  {
  }

  /** The toast left once the given timers have fired, oldest first. */
  function AfterTimers(current: Option<Toast>, timers: seq<string>): Option<Toast>
    decreases |timers|
  {
    if timers == [] then current else AfterTimers(ClearIfSame(current, timers[0]), timers[1..])
  }

  /** Once every pending timer has fired, no toast is shown: a toast whose
      message is the latest timer's is cleared by that timer at the latest,
      and an older timer either clears it or leaves it as it is. */
  lemma {:induction false} TimersClearToast(current: Option<Toast>, timers: seq<string>)
    requires current.Some? ==> timers != [] && timers[|timers| - 1] == current.value.message
    ensures AfterTimers(current, timers) == None
    decreases |timers|
  {
    if timers != [] {
      TimersClearToast(ClearIfSame(current, timers[0]), timers[1..]);
    }
  }

  const InstrumentsLoaded: string := "Instrument data loaded."
  const InstrumentsFailed: string := "Unable to load instruments. Please try again."
  const OpeningLogin: string := "Opening Zerodha login. Complete login to connect."
  const LoginUnavailable: string := "Unable to start Zerodha login. Please try again."
  const LoginUrlFailed: string := "Unable to start Zerodha login. Please check API key."

  datatype Instrument = Instrument(token: int, symbol: string)

  /** What `fetchInstruments` produced: an array, some other JSON value, or
      a rejected request with the HTTP status of its response, if any. */
  datatype InstrumentsResponse = InstrumentArray(items: seq<Instrument>) | NotAnArray | RequestFailed(status: Option<int>)

  /** What `fetchZerodhaLoginUrl` produced. */
  datatype LoginUrlResponse = LoginUrlBody(loginUrl: Option<string>) | LoginUrlError

  /** The load succeeds only for a non-empty array. */
  predicate LoadSucceeds(response: InstrumentsResponse) {
    response.InstrumentArray? && |response.items| > 0
  }

  /** A failure whose status asks for the broker login. */
  predicate NeedsBrokerLogin(response: InstrumentsResponse) {
    response.RequestFailed? && response.status.Some? && (response.status.value == 401 || response.status.value == 503)
  }

  /** An empty array or a non-array value is a failure without a status, so
      it never leads to the broker login. */
  lemma EmptyResultIsPlainFailure(response: InstrumentsResponse)
    requires !response.RequestFailed?
    ensures !LoadSucceeds(response) <==> response.NotAnArray? || response.items == []
    ensures !NeedsBrokerLogin(response)
  {
  }

  class NavbarState {
    var instruments: seq<Instrument>
    var details: Option<Instrument>
    var instrumentError: string
    var fetching: bool
    var panelOpen: bool
    var toast: Option<Toast>
    /** The messages of the toast timers still pending, oldest first; they
        all wait the same 3.5 seconds, so they fire in this order. */
    var timers: seq<string>

    /** A shown toast always has a pending timer, the latest one, carrying
        its message: no toast outlives its timers. */
    ghost predicate Valid()
      reads this
    {
      toast.Some? ==> timers != [] && timers[|timers| - 1] == toast.value.message
    }

    constructor ()
      ensures instruments == [] && details == None && instrumentError == ""
      ensures !fetching && !panelOpen && toast == None && timers == [] && Valid()
    {
      instruments := [];
      details := None;
      instrumentError := "";
      fetching := false;
      panelOpen := false;
      toast := None;
      timers := [];
    }

    /** `showToast`: show the toast and start its timer. */
    method ShowToast(message: string, kind: ToastKind)
      requires Valid()
      modifies this
      ensures Valid()
      ensures toast == Some(Toast(message, kind)) && timers == old(timers) + [message]
      ensures instruments == old(instruments) && details == old(details) && instrumentError == old(instrumentError)
      ensures fetching == old(fetching) && panelOpen == old(panelOpen)
    {
      toast := Some(Toast(message, kind));
      timers := timers + [message];
    }

    /** The oldest pending timer fires. */
    method FireTimer()
      requires Valid() && timers != []
      modifies this
      ensures Valid()
      ensures toast == ClearIfSame(old(toast), old(timers)[0]) && timers == old(timers)[1..]
      ensures AfterTimers(toast, timers) == AfterTimers(old(toast), old(timers))
      ensures instruments == old(instruments) && details == old(details) && instrumentError == old(instrumentError)
      ensures fetching == old(fetching) && panelOpen == old(panelOpen)
    {
      toast := ClearIfSame(toast, timers[0]);
      timers := timers[1..];
    }

    /** The broker-login fall-back: open the login URL when the response
        carries one, and tell the user which way it went. */
    method StartBrokerLogin(loginUrl: LoginUrlResponse) returns (openedUrl: Option<string>)
      requires Valid()
      modifies this
      ensures Valid() && |timers| == |old(timers)| + 1
      ensures openedUrl.Some? <==> loginUrl.LoginUrlBody? && Truthy(loginUrl.loginUrl)
      ensures openedUrl.Some? ==> openedUrl == loginUrl.loginUrl && toast == Some(Toast(OpeningLogin, Info))
      ensures loginUrl.LoginUrlBody? && !Truthy(loginUrl.loginUrl) ==> toast == Some(Toast(LoginUnavailable, Error))
      ensures loginUrl.LoginUrlError? ==> toast == Some(Toast(LoginUrlFailed, Error))
      ensures instruments == old(instruments) && details == old(details) && instrumentError == old(instrumentError)
      ensures fetching == old(fetching) && panelOpen == old(panelOpen)
    {
      openedUrl := None;
      match loginUrl {
        case LoginUrlBody(url) =>
          if Truthy(url) {
            openedUrl := url;
            ShowToast(OpeningLogin, Info);
          } else {
            ShowToast(LoginUnavailable, Error);
          }
        case LoginUrlError =>
          ShowToast(LoginUrlFailed, Error);
      }
    }

    /** `loadInstruments` with the current selection `selected`. On success
        the instruments are stored, the details are the selection or else
        the first instrument, the panel opens, and the parent is told of the
        first instrument only when nothing was selected. On failure the
        instruments and details are cleared, the error is set and the panel
        closes; a 401 or 503 asks for the broker login URL and opens it when
        one comes back. The fetching flag is false at the end on every path. */
    method LoadInstruments(selected: Option<Instrument>, response: InstrumentsResponse, loginUrl: LoginUrlResponse)
      returns (notified: Option<Instrument>, askedLoginUrl: bool, openedUrl: Option<string>)
      requires Valid()
      modifies this
      ensures Valid() && !fetching
      ensures LoadSucceeds(response) ==>
        && instruments == response.items
        && details == Some(if selected.Some? then selected.value else response.items[0])
        && panelOpen && instrumentError == ""
        && notified == (if selected.None? then Some(response.items[0]) else None)
        && !askedLoginUrl && openedUrl.None?
        && toast == Some(Toast(InstrumentsLoaded, Success))
      ensures !LoadSucceeds(response) ==>
        && instruments == [] && details.None? && !panelOpen
        && instrumentError == InstrumentsFailed && notified.None?
        && askedLoginUrl == NeedsBrokerLogin(response)
      ensures !LoadSucceeds(response) && !NeedsBrokerLogin(response) ==>
        openedUrl.None? && toast == Some(Toast(InstrumentsFailed, Error))
      ensures !LoadSucceeds(response) && NeedsBrokerLogin(response) ==>
        && (openedUrl.Some? <==> loginUrl.LoginUrlBody? && Truthy(loginUrl.loginUrl))
        && (openedUrl.Some? ==> openedUrl == loginUrl.loginUrl && toast == Some(Toast(OpeningLogin, Info)))
        && (loginUrl.LoginUrlBody? && !Truthy(loginUrl.loginUrl) ==> toast == Some(Toast(LoginUnavailable, Error)))
        && (loginUrl.LoginUrlError? ==> toast == Some(Toast(LoginUrlFailed, Error)))
      ensures |timers| == |old(timers)| + 1
    {
      notified, askedLoginUrl, openedUrl := None, false, None;
      fetching := true;
      instrumentError := "";
      if LoadSucceeds(response) {
        instruments := response.items;
        var chosen := if selected.Some? then selected.value else response.items[0];
        details := Some(chosen);
        panelOpen := true;
        if selected.None? {
          notified := Some(chosen);
        }
        ShowToast(InstrumentsLoaded, Success);
      } else {
        instruments := [];
        details := None;
        instrumentError := InstrumentsFailed;
        panelOpen := false;
        if NeedsBrokerLogin(response) {
          askedLoginUrl := true;
          openedUrl := StartBrokerLogin(loginUrl);
        } else {
          ShowToast(InstrumentsFailed, Error);
        }
      }
      fetching := false;
    }
  }
}
