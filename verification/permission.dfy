/** The desktop-notification permission decision (index.js:51-67). */
module Permission {
  /**
   * `Notification.permission`, with `Unsupported` for a browser that has no
   * `Notification` API at all.
   */
  datatype NotificationPermission = Unsupported | Default | Granted | Denied

  /** What `Notification.requestPermission()` can resolve to. */
  type PromptAnswer = p: NotificationPermission | p != Unsupported witness Default

  /**
   * The outcome of one request: whether the user was prompted, the value the
   * request resolves to, and the browser's permission afterwards.
   */
  datatype Decision = Decision(prompted: bool, granted: bool, after: NotificationPermission)

  /**
   * `answer` is what the user picks if a prompt is shown; it is ignored
   * otherwise.
   */
  function Decide(current: NotificationPermission, answer: PromptAnswer): (d: Decision)
    ensures d.prompted <==> current == Default
    ensures d.granted <==> current == Granted || (d.prompted && answer == Granted)
    ensures d.after == if d.prompted then answer else current
    ensures d.granted <==> d.after == Granted
  {
    if current == Unsupported then Decision(false, false, current)
    else if current == Granted then Decision(false, true, current)
    else if current != Denied then Decision(true, answer == Granted, answer)
    else Decision(false, false, current)
  }

  /**
   * Once the user has granted or denied, asking again prompts nobody and
   * resolves to the same answer.
   */
  lemma DecisionIsStable(current: NotificationPermission, first: PromptAnswer, second: PromptAnswer)
    requires Decide(current, first).after != Default
    ensures !Decide(Decide(current, first).after, second).prompted
    ensures Decide(Decide(current, first).after, second).granted == Decide(current, first).granted
  {
  }
}
