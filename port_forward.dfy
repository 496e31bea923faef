/**
 * The port-forwarding widget and its revealer, as far as their unit tests fix
 * their behaviour: the visibility signal emitted for every new connection
 * state, the "Port forwarding" desktop notification fired when a connected
 * state carries a new port, and copying the port to the clipboard.
 */
module PortForward {
  import opened Optional
  import opened Text

  datatype StateKind = Disconnected | Connecting | Connected | Disconnecting | Error

  /**
   * A connection state and the value of its `forwarded_port` property, which
   * every state has (the tests give a port to non-connected states too).
   */
  datatype ConnectionState = ConnectionState(kind: StateKind, forwardedPort: Option<nat>)

  datatype Notification = Notification(title: string, description: string)

  /** One `clipboard.set_text(text, length)` call. */
  datatype ClipboardWrite = ClipboardWrite(text: string, length: nat)

  /** The value emitted with "update-visibility". */
  predicate IsVisible(state: ConnectionState)
    // No state other than Connected is visible, whatever port it carries;
    // a Connected state is visible iff it carries a port.
    ensures state.kind != Connected ==> !IsVisible(state)
    ensures state.kind == Connected ==> (IsVisible(state) <==> state.forwardedPort.Some?)
  {
    state.kind == Connected && state.forwardedPort.Some?
  }

  function PortNotification(port: nat): Notification {
    Notification("Port forwarding", "Active port is " + DecimalString(port))
  }

  /** The notification a new state fires, given the port the widget remembers. */
  function NotificationFor(remembered: Option<nat>, state: ConnectionState): (n: Option<Notification>)
    ensures n.Some? <==> IsVisible(state) && state.forwardedPort != remembered
    ensures n.Some? ==> n.value == PortNotification(state.forwardedPort.value)
  {
    if IsVisible(state) && state.forwardedPort != remembered
    then Some(PortNotification(state.forwardedPort.value))
    else None
  }

  /** Notifications for different ports never read the same. */
  lemma DistinctPortsDistinctNotifications(p: nat, q: nat)
    requires p != q
    ensures PortNotification(p) != PortNotification(q)
  {
    if PortNotification(p) == PortNotification(q) {
      var prefix := "Active port is ";
      assert DecimalString(p) == PortNotification(p).description[|prefix|..];
      assert DecimalString(q) == PortNotification(q).description[|prefix|..];
      DecimalStringInjective(p, q);
    }
  }

  /** The port can be read back from the notification text. */
  lemma NotificationNamesPort(p: nat)
    ensures var d := PortNotification(p).description;
      |d| > 15 && d[..15] == "Active port is " &&
      (forall i :: 15 <= i < |d| ==> IsDigit(d[i])) && DecimalValue(d[15..]) == p
  {
    var d := PortNotification(p).description;
    assert d[15..] == DecimalString(p);
    DecimalRoundTrip(p);
  }

  function OptionalSeq<T>(o: Option<T>): seq<T> {
    if o.Some? then [o.value] else []
  }

  class PortForwardWidget {
    /** The port seen last, set by the constructor and by connected states. */
    var forwardedPort: Option<nat>
    /** Values emitted with the "update-visibility" signal, oldest first. */
    var visibilityUpdates: seq<bool>
    /** Desktop notifications shown, oldest first. */
    var notifications: seq<Notification>
    /** `str(port)` of the port the label shows. */
    var portText: string
    /** Calls made on the clipboard, oldest first. */
    var clipboardWrites: seq<ClipboardWrite>

    constructor (forwardedPort: Option<nat>)
      ensures this.forwardedPort == forwardedPort
      ensures visibilityUpdates == [] && notifications == [] && clipboardWrites == []
    {
      this.forwardedPort := forwardedPort;
      visibilityUpdates := [];
      notifications := [];
      portText := "";
      clipboardWrites := [];
    }

    /**
     * `on_new_state`: emits the visibility once, and notifies when a connected
     * state carries a port other than the remembered one. After a connected
     * state with a port, that port is remembered.
     */
    method OnNewState(state: ConnectionState)
      modifies this
      ensures visibilityUpdates == old(visibilityUpdates) + [IsVisible(state)]
      ensures notifications == old(notifications) + OptionalSeq(NotificationFor(old(forwardedPort), state))
      ensures IsVisible(state) ==> forwardedPort == state.forwardedPort
      ensures portText == old(portText) && clipboardWrites == old(clipboardWrites)
    {
      visibilityUpdates := visibilityUpdates + [IsVisible(state)];
      if IsVisible(state) && state.forwardedPort != forwardedPort {
        notifications := notifications + [PortNotification(state.forwardedPort.value)];
        forwardedPort := state.forwardedPort;
      }
    }

    /** `set_port_forward_label(port)`. */
    method SetPortForwardLabel(port: nat)
      modifies this`portText
      ensures portText == DecimalString(port)
    {
      portText := DecimalString(port);
    }

    /** The button-press callback: copies the port text with its UTF-8 byte count. */
    method OnButtonPress()
      modifies this`clipboardWrites
      ensures clipboardWrites == old(clipboardWrites) + [ClipboardWrite(portText, Utf8Length(portText))]
    {
      clipboardWrites := clipboardWrites + [ClipboardWrite(portText, Utf8Length(portText))];
    }
  }

  class PortForwardRevealer {
    const child: PortForwardWidget
    var revealChild: bool
    /** Calls of `set_reveal_child`, oldest first. */
    var revealCalls: seq<bool>

    constructor (child: PortForwardWidget)
      ensures this.child == child && revealCalls == []
    {
      this.child := child;
      revealChild := false;
      revealCalls := [];
    }

    /** The "update-visibility" callback: reveals exactly when told to. */
    method OnUpdatePortForwardingVisibility(visible: bool)
      modifies this
      ensures revealChild == visible
      ensures revealCalls == old(revealCalls) + [visible]
    {
      revealChild := visible;
      revealCalls := revealCalls + [visible];
    }

    /** `on_new_state`: hands the state, unchanged, to the widget once. */
    method OnNewState(state: ConnectionState)
      modifies child
      ensures child.visibilityUpdates == old(child.visibilityUpdates) + [IsVisible(state)]
      ensures child.notifications ==
        old(child.notifications) + OptionalSeq(NotificationFor(old(child.forwardedPort), state))
      ensures IsVisible(state) ==> child.forwardedPort == state.forwardedPort
      ensures child.portText == old(child.portText) && child.clipboardWrites == old(child.clipboardWrites)
    {
      child.OnNewState(state);
    }
  }

  /** From no remembered port, a connected state with a port notifies once, naming the port. */
  method FirstPortNotifies(w: PortForwardWidget, port: nat)
    requires w.forwardedPort == None
    modifies w
    ensures w.notifications == old(w.notifications) + [PortNotification(port)]
    ensures w.notifications[|w.notifications| - 1].description == "Active port is " + DecimalString(port)
  {
    w.OnNewState(ConnectionState(Connected, Some(port)));
  }

  /** A connected state with another port notifies again. */
  method ChangedPortNotifiesAgain(w: PortForwardWidget, p: nat, q: nat)
    requires w.forwardedPort != Some(p) && p != q
    modifies w
    ensures w.notifications == old(w.notifications) + [PortNotification(p), PortNotification(q)]
  {
    w.OnNewState(ConnectionState(Connected, Some(p)));
    w.OnNewState(ConnectionState(Connected, Some(q)));
  }

  /** Two connected states with the same port notify only once. */
  method RepeatedPortNotifiesOnce(w: PortForwardWidget, p: nat)
    requires w.forwardedPort != Some(p)
    modifies w
    ensures w.notifications == old(w.notifications) + [PortNotification(p)]
    ensures w.visibilityUpdates == old(w.visibilityUpdates) + [true, true]
  {
    w.OnNewState(ConnectionState(Connected, Some(p)));
    w.OnNewState(ConnectionState(Connected, Some(p)));
  }

  /** A connected state without a port notifies nothing, whatever port is remembered. */
  method PortlessStateIsSilent(w: PortForwardWidget)
    modifies w
    ensures w.notifications == old(w.notifications)
    ensures w.visibilityUpdates == old(w.visibilityUpdates) + [false]
  {
    w.OnNewState(ConnectionState(Connected, None));
  }

  /** Copying after the label shows a port writes `str(port)` and its byte count once. */
  method CopyPortToClipboard(w: PortForwardWidget, port: nat)
    modifies w
    ensures w.clipboardWrites ==
      old(w.clipboardWrites) + [ClipboardWrite(DecimalString(port), |DecimalString(port)|)]
  {
    w.SetPortForwardLabel(port);
    w.OnButtonPress();
    DecimalUtf8Length(port);
  }
}
