/**
 * `RealtimeScreen`: the start/stop button of live detection and `RealtimeMessageCard`, which
 * renders the latest `RealtimeMessage` according to its `type`.
 */
module RealtimeScreen {
  import opened Wrappers
  import opened Messages

  /** What a button press asks of the platform and of the view model, in order. */
  datatype Command = StartService | StartSession | StopService | StopSession

  /** `isListening` and the commands issued so far. */
  datatype Screen = Screen(listening: bool, commands: seq<Command>)

  /** `isListening` is remembered as false when the screen is first composed. */
  const Initial := Screen(false, [])

  /** The button's `onClick`: start when idle, stop when listening, then flip `isListening`. */
  function Press(s: Screen): (s': Screen)
    ensures s'.listening == !s.listening
    ensures !s.listening ==> s'.commands == s.commands + [StartService, StartSession]
    ensures s.listening ==> s'.commands == s.commands + [StopService, StopSession]
  {
    if !s.listening then
      Screen(true, s.commands + [StartService, StartSession])
    else
      Screen(false, s.commands + [StopService, StopSession])
  }

  /** `n` presses in a row. */
  function Presses(s: Screen, n: nat): Screen
    decreases n
  {
    if n == 0 then s else Press(Presses(s, n - 1))
  }

  /**
   * Starts and stops alternate, beginning with a start: press `i` (from 0) issues the service
   * command and then the session command, a start for even `i` and a stop for odd `i`.
   */
  predicate Alternating(commands: seq<Command>, n: nat) {
    |commands| == 2 * n &&
    forall i | 0 <= i < n ::
      if i % 2 == 0 then commands[2 * i] == StartService && commands[2 * i + 1] == StartSession
      else commands[2 * i] == StopService && commands[2 * i + 1] == StopSession
  }

  /** After `n` presses the screen listens exactly when `n` is odd, and the commands alternate. */
  lemma {:induction false} PressesAlternate(n: nat)
    ensures Presses(Initial, n).listening <==> n % 2 == 1
    ensures Alternating(Presses(Initial, n).commands, n)
  {
    if n > 0 {
      PressesAlternate(n - 1);
      var before := Presses(Initial, n - 1);
      var after := Presses(Initial, n);
      assert after == Press(before);
      assert after.commands[..2 * (n - 1)] == before.commands;
      forall i | 0 <= i < n
        ensures if i % 2 == 0 then after.commands[2 * i] == StartService && after.commands[2 * i + 1] == StartSession
                else after.commands[2 * i] == StopService && after.commands[2 * i + 1] == StopSession
      {
        if i < n - 1 {
          assert after.commands[2 * i] == before.commands[2 * i];
          assert after.commands[2 * i + 1] == before.commands[2 * i + 1];
        } else {
          assert before.listening <==> i % 2 == 1;
        }
      }
      assert after.listening <==> n % 2 == 1;
    }
  }

  const StopLabel := "탐지 중지"
  const StartLabel := "탐지 시작"

  /** The button text. */
  function Label(listening: bool): (r: string)
    ensures r == StopLabel <==> listening
    ensures r == StartLabel <==> !listening
  {
    assert StopLabel[3] != StartLabel[3];
    if listening then StopLabel else StartLabel
  }

  /** The button's container colour (ARGB): red while listening, blue otherwise. */
  function ButtonColor(listening: bool): (c: int)
    ensures c == 0xFFD32F2F <==> listening
  {
    if listening then 0xFFD32F2F else 0xFF1976D2
  }

  const ConnectingText := "서버와 연결 중..."
  const ReadyText := "탐지 준비 중입니다."

  /** What fills the area below the button: the message card, or a grey placeholder line. */
  datatype Body = Card(message: RealtimeMessage) | Placeholder(text: string)

  function ScreenBody(latest: Option<RealtimeMessage>, listening: bool): (b: Body)
    ensures b.Card? <==> latest.Some?
    ensures b.Card? ==> b.message == latest.value
    ensures b.Placeholder? ==> (b.text == ConnectingText <==> listening)
    ensures b.Placeholder? ==> (b.text == ReadyText <==> !listening)
  {
    match latest
    case Some(m) => Card(m)
    case None =>
      assert ConnectingText[0] != ReadyText[0];
      Placeholder(if listening then ConnectingText else ReadyText)
  }

  const AlertType := "phishing_alert"
  const TranscriptionType := "transcription"

  /** The three ways a card can look. */
  datatype Kind = AlertCard | TranscriptCard | OtherCard

  /** The card's background `when`. */
  function Background(m: RealtimeMessage): (c: int)
    ensures c == 0xFFFFCDD2 <==> m.kind == AlertType
    ensures c == 0xFFE3F2FD <==> m.kind == TranscriptionType
    ensures c == 0xFFF5F5F5 <==> m.kind != AlertType && m.kind != TranscriptionType
  {
    if m.kind == AlertType then 0xFFFFCDD2
    else if m.kind == TranscriptionType then 0xFFE3F2FD
    else 0xFFF5F5F5
  }

  /** The background colour each kind of card has. */
  function KindColor(k: Kind): int {
    match k
    case AlertCard => 0xFFFFCDD2
    case TranscriptCard => 0xFFE3F2FD
    case OtherCard => 0xFFF5F5F5
  }

  const AlertHeading := "⚠️ 위험 감지"
  const AlertPrefix := "위험 단어 감지: "
  const UnknownAlert := "알 수 없음"
  const TranscriptHeading := "🗣 인식된 음성"
  const NoContent := "(내용 없음)"
  const OtherPrefix := "📡 "
  const NoMessage := "(메시지 없음)"

  /** The two lines of text inside the card. */
  datatype Content = Content(heading: string, body: string)

  /** The card's content `when`; every null field falls back to a fixed text. */
  function CardContent(m: RealtimeMessage): (c: Content)
    ensures m.kind == AlertType ==> c.heading == AlertHeading
    ensures m.kind == AlertType && m.alertMessage.Some? ==> c.body == AlertPrefix + m.alertMessage.value
    ensures m.kind == AlertType && m.alertMessage.None? ==> c.body == AlertPrefix + UnknownAlert
    ensures m.kind == TranscriptionType ==> c.heading == TranscriptHeading
    ensures m.kind == TranscriptionType && m.text.Some? ==> c.body == m.text.value
    ensures m.kind == TranscriptionType && m.text.None? ==> c.body == NoContent
    ensures m.kind != AlertType && m.kind != TranscriptionType ==> c.heading == OtherPrefix + m.kind
    ensures m.kind != AlertType && m.kind != TranscriptionType && m.text.Some? ==> c.body == m.text.value
    ensures m.kind != AlertType && m.kind != TranscriptionType && m.text.None? ==> c.body == NoMessage
  {
    if m.kind == AlertType then
      Content(AlertHeading, AlertPrefix + m.alertMessage.GetOr(UnknownAlert))
    else if m.kind == TranscriptionType then
      Content(TranscriptHeading, m.text.GetOr(NoContent))
    else
      Content(OtherPrefix + m.kind, m.text.GetOr(NoMessage))
  }

  /** The kind a card's heading shows. */
  function HeadingKind(heading: string): Kind {
    if heading == AlertHeading then AlertCard
    else if heading == TranscriptHeading then TranscriptCard
    else OtherCard
  }

  /**
   * The card's two `when` expressions classify every message the same way: the heading shown
   * always belongs to the kind whose colour is the background.
   */
  lemma BackgroundMatchesHeading(m: RealtimeMessage)
    ensures Background(m) == KindColor(HeadingKind(CardContent(m).heading))
  {
    var h := CardContent(m).heading;
    if m.kind != AlertType && m.kind != TranscriptionType {
      assert h[0] == OtherPrefix[0];
      assert h != AlertHeading by { assert AlertHeading[0] != OtherPrefix[0]; }
      assert h != TranscriptHeading by { assert TranscriptHeading[0] != OtherPrefix[0]; }
    }
  }
}
