/** The WebView2 host of one terminal (TermRunner/Terminal/TerminalWebViewHost.cs).
    JSON and the browser control are abstract: an incoming message arrives
    already decoded, an outgoing one is a value, and the UI dispatcher is a
    queue of posted messages that `DispatchNext` runs one at a time. */
module WebView {
  import opened Wrappers
  import opened Frontend

  /** The page the host navigates to once the browser core exists. */
  const IndexUrl: string := "https://termrunner.local/index.html"

  /** The terminal settings the init message carries. */
  const Theme: string := "dark"
  const FontSize: int := 13
  const ScrollbackLines: int := 5000

  /** A message for the page (`OutgoingMessage` with its payload). */
  datatype Outgoing =
    | Init(sessionId: string, theme: string, fontSize: int, scrollbackLines: int)   // type "init"
    | Output(sessionId: string, text: string)                                          // type "output"

  /** A message's payload after `payload.Deserialize`: JSON `null`, a
      payload the deserializer rejects (it raises), or the fields read from
      it (absent ones at their defaults). */
  datatype Payload =
    | NullPayload
    | Unreadable
    | Fields(sessionId: string, cols: int, rows: int, text: Option<string>)

  /** A message from the page after `JsonSerializer.Deserialize`: malformed
      JSON, or a message with its `type` (None for a null message or a null
      type) and payload. */
  datatype Incoming =
    | Undecodable
    | Message(kind: Option<string>, payload: Payload)

  /** What `OnWebMessageReceived` does with a message. */
  datatype Routing = Ignore | Raise(event: Event) | Throw

  predicate Handled(kind: string) {
    kind == "ready" || kind == "input" || kind == "resize"
  }

  /** The dispatch of `OnWebMessageReceived` and the three handlers. */
  function Route(sessionId: string, m: Incoming): (r: Routing)
    ensures m.Undecodable? || m.kind.None? ==> r == Ignore
    ensures r.Throw? <==> m.Message? && m.kind.Some? && Handled(m.kind.value) && m.payload.Unreadable?
    ensures r.Raise? <==>
      m.Message? && m.kind.Some? && Handled(m.kind.value)
      && m.payload.Fields? && m.payload.sessionId == sessionId
    ensures r.Raise? ==> r.event.SessionId() == sessionId
    ensures r.Raise? && m.kind.value == "ready" ==>
      r.event == Ready(ReadyArgs(sessionId, m.payload.cols, m.payload.rows))
    ensures r.Raise? && m.kind.value == "input" ==>
      r.event == Input(InputArgs(sessionId, if m.payload.text.Some? then m.payload.text.value else ""))
    ensures r.Raise? && m.kind.value == "resize" ==>
      r.event == Resized(ResizeArgs(sessionId, m.payload.cols, m.payload.rows))
  {
    match m
    case Undecodable => Ignore
    case Message(None, _) => Ignore
    case Message(Some(kind), payload) =>
      if !Handled(kind) then Ignore
      else match payload
        case Unreadable => Throw
        case NullPayload => Ignore
        case Fields(sid, cols, rows, text) =>
          if sid != sessionId then Ignore
          else if kind == "ready" then Raise(Ready(ReadyArgs(sid, cols, rows)))
          else if kind == "input" then Raise(Input(InputArgs(sid, if text.Some? then text.value else "")))
          else Raise(Resized(ResizeArgs(sid, cols, rows)))
  }

  /** The init handshake's two flags. */
  datatype Handshake = Handshake(initPending: bool, navigationCompleted: bool)

  /** `TrySendInit`: posts init when both flags are set and the host is not
      disposed, and then clears the pending flag. */
  function TrySendInit(h: Handshake, disposed: bool): (r: (Handshake, bool))
    ensures r.1 <==> h.initPending && h.navigationCompleted && !disposed
    ensures r.1 ==> r.0 == Handshake(false, true)
    ensures !r.1 ==> r.0 == h
  {
    if !h.initPending || !h.navigationCompleted || disposed then (h, false)
    else (h.(initPending := false), true)
  }

  /** `SendInit`: the page is asked for init, sent now if navigation is done. */
  function AfterSendInit(h: Handshake, disposed: bool): (r: (Handshake, bool))
    ensures r.1 <==> h.navigationCompleted && !disposed
    ensures r.0.navigationCompleted == h.navigationCompleted
    ensures r.0.initPending <==> !r.1
  {
    TrySendInit(h.(initPending := true), disposed)
  }

  /** `OnNavigationCompleted`: navigation is done; init is sent now if asked for. */
  function AfterNavigation(h: Handshake, disposed: bool): (r: (Handshake, bool))
    ensures r.1 <==> h.initPending && !disposed
    ensures r.0.navigationCompleted
    ensures r.0.initPending <==> h.initPending && disposed
  {
    TrySendInit(h.(navigationCompleted := true), disposed)
  }

  /** Whichever of `SendInit` and navigation completion comes first, init is
      sent exactly once, at the second of the two. */
  lemma HandshakeOrderIrrelevant()
    ensures var (h1, s1) := AfterSendInit(Handshake(false, false), false);
            var (h2, s2) := AfterNavigation(h1, false);
            !s1 && s2 && h2 == Handshake(false, true)
    ensures var (h1, s1) := AfterNavigation(Handshake(false, false), false);
            var (h2, s2) := AfterSendInit(h1, false);
            !s1 && s2 && h2 == Handshake(false, true)
  {
  }

  /** Once init has gone out, further navigation completions send nothing
      until `SendInit` is called again. */
  lemma {:induction false} NoResendWithoutSendInit(h: Handshake, disposed: bool, n: nat)
    requires !h.initPending
    ensures !NavigateTimes(h, disposed, n).1
    ensures !NavigateTimes(h, disposed, n).0.initPending
  {
    if n > 0 {
      NoResendWithoutSendInit(h, disposed, n - 1);
    }
  }

  /** `n` navigation completions in a row: the final flags and whether any
      of them sent init. */
  function NavigateTimes(h: Handshake, disposed: bool, n: nat): (Handshake, bool) {
    if n == 0 then (h, false)
    else
      var (h1, s1) := NavigateTimes(h, disposed, n - 1);
      var (h2, s2) := AfterNavigation(h1, disposed);
      (h2, s1 || s2)
  }

  class TerminalWebViewHost {
    const sessionId: string
    /** `CoreWebView2` exists. */
    var coreReady: bool
    /** `OnWebMessageReceived` and `OnNavigationCompleted` are registered
        on the core. */
    var hooked: bool
    /** The URLs navigated to. */
    var navigations: seq<string>
    var navigationCompleted: bool
    var initPending: bool
    var disposed: bool
    /** Messages posted to the UI dispatcher and not yet run, oldest first. */
    var queued: seq<Outgoing>
    /** Messages handed to `PostWebMessageAsJson`, in order. */
    var delivered: seq<Outgoing>
    /** The events raised towards the session, in order. */
    var raised: seq<Event>

    ghost predicate Valid()
      reads this
    {
      && (hooked ==> coreReady)
      && (disposed ==> !hooked)
      && (forall i :: 0 <= i < |raised| ==> raised[i].SessionId() == sessionId)
    }

    constructor (sessionId: string)
      ensures this.sessionId == sessionId && Valid()
      ensures !coreReady && !hooked && !navigationCompleted && !initPending && !disposed
      ensures navigations == [] && queued == [] && delivered == [] && raised == []
    {
      this.sessionId := sessionId;
      coreReady, hooked, navigationCompleted, initPending, disposed := false, false, false, false, false;
      navigations, queued, delivered, raised := [], [], [], [];
    }

    /** `InitializeAsync`; `coreAvailable` says whether the browser core
        came up. Nothing happens once the host is disposed. */
    method InitializeAsync(coreAvailable: bool)
      requires Valid()
      modifies this`coreReady, this`hooked, this`navigations
      ensures Valid()
      ensures old(disposed) ==> coreReady == old(coreReady) && hooked == old(hooked) && navigations == old(navigations)
      ensures !old(disposed) ==> coreReady == (old(coreReady) || coreAvailable)
      ensures !old(disposed) && coreAvailable ==> hooked && navigations == old(navigations) + [IndexUrl]
      ensures !old(disposed) && !coreAvailable ==> hooked == old(hooked) && navigations == old(navigations)
    {
      if disposed {
        return;
      }
      if !coreAvailable {
        return;
      }
      coreReady := true;
      hooked := true;
      navigations := navigations + [IndexUrl];
    }

    function InitMessage(): (m: Outgoing)
      reads this
      ensures m.Init? && m.sessionId == sessionId
      ensures m.theme == "dark" && m.fontSize == 13 && m.scrollbackLines == 5000
    {
      Init(sessionId, Theme, FontSize, ScrollbackLines)
    }

    /** `TrySendInit` on the host's flags. */
    method TrySend()
      requires Valid()
      modifies this`initPending, this`queued
      ensures Valid()
      ensures var (h, sent) := TrySendInit(Handshake(old(initPending), navigationCompleted), disposed);
              && initPending == h.initPending
              && queued == old(queued) + (if sent then [InitMessage()] else [])
    {
      if !initPending || !navigationCompleted || disposed {
        return;
      }
      queued := queued + [InitMessage()];
      initPending := false;
    }

    method SendInit()
      requires Valid()
      modifies this`initPending, this`queued
      ensures Valid()
      ensures var (h, sent) := AfterSendInit(Handshake(old(initPending), navigationCompleted), disposed);
              && initPending == h.initPending
              && queued == old(queued) + (if sent then [InitMessage()] else [])
    {
      initPending := true;
      TrySend();
    }

    /** `OnNavigationCompleted`, which the core calls only while hooked. */
    method OnNavigationCompleted()
      requires Valid()
      modifies this`navigationCompleted, this`initPending, this`queued
      ensures Valid()
      ensures !hooked ==> navigationCompleted == old(navigationCompleted) && initPending == old(initPending) && queued == old(queued)
      ensures hooked ==>
        var (h, sent) := AfterNavigation(Handshake(old(initPending), old(navigationCompleted)), disposed);
        && Handshake(initPending, navigationCompleted) == h
        && queued == old(queued) + (if sent then [InitMessage()] else [])
    {
      if !hooked {
        return;
      }
      navigationCompleted := true;
      TrySend();
    }

    /** `WriteOutput`: one "output" message, unless the text is null or
        empty or the host is disposed. */
    method WriteOutput(text: Option<string>)
      requires Valid()
      modifies this`queued
      ensures Valid()
      ensures queued == old(queued) +
        (if disposed || text.None? || text.value == "" then [] else [Output(sessionId, text.value)])
    {
      if disposed || text.None? || text.value == "" {
        return;
      }
      queued := queued + [Output(sessionId, text.value)];
    }

    /** The UI dispatcher runs the oldest posted message: it reaches the
        page only if the core exists and the host is not disposed by then. */
    method DispatchNext()
      requires Valid()
      modifies this`queued, this`delivered
      ensures Valid()
      ensures old(queued) == [] ==> queued == [] && delivered == old(delivered)
      ensures old(queued) != [] ==>
        && queued == old(queued)[1..]
        && delivered == old(delivered) + (if coreReady && !disposed then [old(queued)[0]] else [])
    {
      if queued == [] {
        return;
      }
      var message := queued[0];
      queued := queued[1..];
      if coreReady && !disposed {
        delivered := delivered + [message];
      }
    }

    /** `OnWebMessageReceived`, which the core calls only while hooked. The
        routing is returned; a raised event is recorded. */
    method OnWebMessageReceived(m: Incoming) returns (r: Routing)
      requires Valid()
      modifies this`raised
      ensures Valid()
      ensures r == if hooked then Route(sessionId, m) else Ignore
      ensures raised == old(raised) + (if r.Raise? then [r.event] else [])
    {
      if !hooked {
        return Ignore;
      }
      r := Route(sessionId, m);
      if r.Raise? {
        raised := raised + [r.event];
      }
    }

    /** `Dispose`: once only; unhooks both handlers from the core. */
    method Dispose()
      requires Valid()
      modifies this`disposed, this`hooked
      ensures Valid() && disposed && !hooked
      ensures old(disposed) ==> hooked == old(hooked)
    {
      if disposed {
        return;
      }
      disposed := true;
      if coreReady {
        hooked := false;
      }
    }
  }
}
