/** One run of the page script: filter the map by the latest query, take the chat input
    (rerunning the script after a submission), and answer a pending question. */
module Page {
  import opened Common
  import opened Facilities
  import opened Conversation
  import opened Filtering

  /** How a run ends: the page rendered with the view shown and the log kept, or the script
      raised on a missing column, keeping the log as it stood. */
  datatype Outcome = Rendered(view: View, log: Log) | Crashed(column: string, log: Log)

  /** A non-empty submission from the chat box. */
  predicate Submitted(input: Option<string>) {
    input.Some? && input.value != ""
  }

  /** One run of the script over the loaded frame and the session log. A submission appends
      the user message and reruns the script, during which the chat box is empty; a run
      without a submission answers a pending question. The log only ever grows by appends,
      by at most a question and a reply, and a rendered page leaves no question unanswered. */
  function Run(data: Table, log: Log, input: Option<string>): (o: Outcome)
    decreases if Submitted(input) then 1 else 0
    ensures log <= o.log && |o.log| <= |log| + 2
    ensures o.Rendered? ==> !AwaitingReply(o.log)
    ensures o.Crashed? ==> AwaitingReply(o.log)
  {
    match FilterView(data, LatestQuery(log))
    case Failure(column) => Crashed(column, log)
    case Success(view) =>
      if Submitted(input) then Run(data, Submit(log, input), None)
      else Rendered(view, Respond(log))
  }

  /** With no question pending and nothing submitted, a run shows the whole frame with no
      status line and leaves the log as it was. */
  lemma IdleRun(data: Table, log: Log)
    requires !AwaitingReply(log)
    ensures Run(data, log, None) == Rendered(View(data, ""), log)
  {
  }

  /** A user turn when no reply is owed: the page shows the data filtered by the question just
      asked, and the log gains that question and its one reply; a settled log stays settled. */
  lemma UserTurn(data: Table, log: Log, p: string)
    requires !AwaitingReply(log) && p != ""
    requires FilterView(data, p).Success?
    ensures Run(data, log, Some(p))
      == Rendered(FilterView(data, p).value, log + [Message(User, p), Message(Assistant, ReplyText(p))])
    ensures Settled(log) ==> Settled(Run(data, log, Some(p)).log)
  {
    QueryAfterSubmit(log, p);
    if Settled(log) {
      TurnKeepsSettled(log, p);
    }
  }

  /** A keyword question over a non-empty frame without a `类型` column raises while filtering:
      the question stays in the log without a reply. */
  lemma MissingKindColumnTurn(data: Table, log: Log, p: string)
    requires !AwaitingReply(log) && p != ""
    requires !IsEmpty(data) && !data.kindColumn && Classify(p) != Unmatched
    ensures Run(data, log, Some(p)) == Crashed(KindColumnName, log + [Message(User, p)])
  {
  }

  /** A crash is permanent for the session: the log it leaves makes every later run raise at
      the same point, before the chat box is reached, so nothing can be submitted again. */
  lemma CrashIsSticky(data: Table, log: Log, input: Option<string>, next: Option<string>)
    requires Run(data, log, input).Crashed?
    ensures Run(data, Run(data, log, input).log, next) == Run(data, log, input)
  {
  }
}
