/**
 * The event kinds shared with the relay server (index.js:18-21) and the
 * title/body an incoming notification is shown with (index.js:104-113).
 */
module Presentation {
  import opened Wrappers

  const CharacterMessage: string := "character_message"
  const UserMessage: string := "user_message"

  datatype AlertText = AlertText(title: string, body: string)

  const BotMessageText := AlertText("New Bot Message", "A character has responded in the chat")
  const UserMessageText := AlertText("New User Message", "Someone sent a message in the chat")
  const FallbackText := AlertText("SillyTavern", "New message received")

  /** The presentation table written as data: recognised kind to its text. */
  const KnownEvents: map<string, AlertText> :=
    map[CharacterMessage := BotMessageText, UserMessage := UserMessageText]

  predicate Recognised(event: Option<string>) {
    event.Some? && event.value in KnownEvents
  }

  /**
   * The text for `message.event`, chosen by a chain of strict-equality tests
   * with a generic fallback; a missing or non-string event falls back too.
   */
  function AlertTextFor(event: Option<string>): (t: AlertText)
    ensures Recognised(event) ==> t == KnownEvents[event.value]
    ensures !Recognised(event) ==> t == FallbackText
  {
    if event == Some(CharacterMessage) then BotMessageText
    else if event == Some(UserMessage) then UserMessageText
    else FallbackText
  }

  /** The generic text is shown exactly for the unrecognised kinds. */
  lemma FallbackExactlyWhenUnrecognised(event: Option<string>)
    ensures AlertTextFor(event) == FallbackText <==> !Recognised(event)
  {
  }

  /** Distinct recognised kinds are shown with distinct texts. */
  lemma RecognisedKindsDistinguishable(e1: Option<string>, e2: Option<string>)
    requires Recognised(e1) && Recognised(e2)
    requires AlertTextFor(e1) == AlertTextFor(e2)
    ensures e1 == e2
  {
  }
}
