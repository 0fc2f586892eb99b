/** The conversation button (components/Controls.tsx:18-48): its label, its
    pulsing animation and whether it is disabled, as a function of the
    connection status alone. */
module Controls {
  import opened Types
  import opened Lifecycle

  const StartLabel: string := "Start Conversation"
  const ConnectingLabel: string := "Connecting..."
  const StopLabel: string := "Stop Conversation"
  const RetryLabel: string := "Retry"

  /** What the button shows: the text under it, whether the ping animation
      runs (red while connected, yellow otherwise) and whether it is
      disabled. */
  datatype ButtonView = ButtonView(text: string, animated: bool, pingRed: bool, disabled: bool)

  function View(status: ConnectionStatus): (v: ButtonView)
    ensures v.animated <==> status == Connecting || status == Connected
    ensures v.pingRed <==> status == Connected
    ensures v.disabled <==> status == Connecting
    ensures status == Disconnected ==> v.text == StartLabel
    ensures status == Connecting ==> v.text == ConnectingLabel
    ensures status == Connected ==> v.text == StopLabel
    ensures status == Error ==> v.text == RetryLabel
  {
    var text := match status
      case Disconnected => StartLabel
      case Connecting => ConnectingLabel
      case Connected => StopLabel
      case Error => RetryLabel;
    var animated := status == Connecting || status == Connected;
    ButtonView(text, animated, status == Connected, status == Connecting)
  }

  /** The button is disabled in exactly the status in which the toggle does
      nothing, so a click is never lost while it is enabled. */
  lemma {:induction false} DisabledIffToggleIgnores(status: ConnectionStatus)
    ensures View(status).disabled <==> ToggleActionOf(status) == Ignore
  {
  }

  /** The label tells every status apart. */
  lemma {:induction false} LabelShowsStatus(s: ConnectionStatus, t: ConnectionStatus)
    ensures View(s).text == View(t).text <==> s == t
  {
    assert StartLabel[0] != ConnectingLabel[0] && StartLabel[0] != RetryLabel[0];
    assert StopLabel[0] != ConnectingLabel[0] && StopLabel[0] != RetryLabel[0];
    assert ConnectingLabel[0] != RetryLabel[0];
    assert StartLabel[2] != StopLabel[2];
  }

  /** The animation runs exactly while a connection is being made or used,
      which is when the toggle does not start one. */
  lemma {:induction false} AnimatedIffNotStarting(status: ConnectionStatus)
    ensures View(status).animated <==> ToggleActionOf(status) != Start
  {
  }
}
