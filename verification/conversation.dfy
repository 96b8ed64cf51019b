/** The chat log kept for the session: an ordered list of role-tagged messages. */
module Conversation {
  import opened Common
  import opened Substrings

  /** Who wrote a message; the log is only ever written with these two roles. */
  datatype Role = User | Assistant

  datatype Message = Message(role: Role, content: string)

  type Log = seq<Message>

  /** The last message exists and was written by the user, so a reply is owed. */
  predicate AwaitingReply(log: Log) {
    |log| > 0 && log[|log| - 1].role == User
  }

  /** The query that drives the map: the last message's text when the user wrote it, else "". */
  function LatestQuery(log: Log): (q: string)
    ensures AwaitingReply(log) ==> q == log[|log| - 1].content
    ensures !AwaitingReply(log) ==> q == ""
    ensures q != "" ==> exists m | m in log :: m.role == User && m.content == q
  {
    if |log| > 0 then
      var last := log[|log| - 1];
      if last.role == User then last.content else ""
    else ""
  }

  /** The chat box's submission: an empty or absent input is falsy and adds nothing; any other
      text is appended at the end as a user message, leaving the earlier log as it was. */
  function Submit(log: Log, input: Option<string>): (r: Log)
    ensures input.Some? && input.value != "" ==>
      |r| == |log| + 1 && r[..|log|] == log && r[|log|] == Message(User, input.value)
    ensures input.None? || input.value == "" ==> r == log
  {
    match input
    case Some(p) => if p != "" then log + [Message(User, p)] else log
    case None => log
  }

  /** The canned assistant reply, which quotes the user's question. */
  function ReplyText(question: string): (r: string)
    ensures Contains(r, question)
    ensures |r| > |question|
  {
    var before := "收到！关于“";
    var after := "”，我已经为您更新了左侧地图数据。建议您查看地图上的高亮区域。";
    ContainsInfix(before, question, after);
    before + question + after
  }

  /** The reply step: when a reply is owed, exactly one assistant message quoting the user's
      text is appended and nothing earlier changes; otherwise the log is left alone. */
  function Respond(log: Log): (r: Log)
    ensures AwaitingReply(log) ==>
      && |r| == |log| + 1
      && r[..|log|] == log
      && r[|log|].role == Assistant
      && Contains(r[|log|].content, log[|log| - 1].content)
    ensures !AwaitingReply(log) ==> r == log
    ensures !AwaitingReply(r)
  {
    if |log| > 0 && log[|log| - 1].role == User then
      log + [Message(Assistant, ReplyText(log[|log| - 1].content))]
    else log
  }

  /** A log made of completed turns: each user message is followed by the canned reply to it. */
  predicate Settled(log: Log) {
    && |log| % 2 == 0
    && (forall i | 0 <= i < |log| && i % 2 == 0 :: log[i].role == User)
    && (forall i | 0 < i < |log| && i % 2 == 1 ::
          log[i] == Message(Assistant, ReplyText(log[i - 1].content)))
  }

  /** A new session starts with an empty log, which owes no reply and drives no filter. */
  lemma FreshSessionIsSettled()
    ensures Settled([]) && LatestQuery([]) == ""
  {
  }

  /** The submitted text becomes the query on the next pass over the log. */
  lemma QueryAfterSubmit(log: Log, p: string)
    requires p != ""
    ensures LatestQuery(Submit(log, Some(p))) == p
  {
  }

  /** Once answered, the log no longer drives the map. */
  lemma QueryAfterRespond(log: Log)
    ensures LatestQuery(Respond(log)) == ""
  {
  }

  /** Nothing is owed on a settled log: the reply step leaves it unchanged. */
  lemma SettledIsAnswered(log: Log)
    requires Settled(log)
    ensures !AwaitingReply(log)
    ensures Respond(log) == log
  {
    if |log| > 0 {
      var k := |log| - 1;
      assert k % 2 == 1;
      assert log[k] == Message(Assistant, ReplyText(log[k - 1].content));
    }
  }

  /** One user turn on a settled log appends the question and its reply, in that order, and
      leaves a settled log. */
  lemma TurnKeepsSettled(log: Log, p: string)
    requires Settled(log)
    requires p != ""
    ensures Respond(Submit(log, Some(p))) == log + [Message(User, p), Message(Assistant, ReplyText(p))]
    ensures Settled(Respond(Submit(log, Some(p))))
  {
  }
}
