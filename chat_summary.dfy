/**
 * The bookkeeping of the `ChatSummary` plugin (main.py:105-107, 110-178, 237-272): per
 * conversation it records every text message, lets at most one summarization run at a time,
 * and remembers when the last summary was delivered.
 */
module ChatSummary {
  import opened Wrappers
  import Digits
  import Trigger
  import T = Transcript
  import Dify

  /** The in-flight marker of a conversation: the task started for it, with its count. */
  datatype Task = Task(numMessages: int)

  /** What the plugin posts into a conversation. */
  datatype Notice =
    | InProgress          // the "summary in progress" deflection (main.py:260)
    | NotEnoughHistory    // "没有足够的聊天记录可以总结。" (main.py:124)
    | Report(text: string)
    | Failure(text: string)

  /** A message the host delivered to a conversation. */
  datatype Outgoing = Outgoing(chatId: string, notice: Notice)

  /** A request to the summarization service: its `user` field and the transcript it carries. */
  datatype Query = Query(user: string, transcript: string)

  /** What the handler did with a message. */
  datatype Action = Ignored | Recorded | Deflected(numMessages: int) | Started(numMessages: int)

  /**
   * What the host and the network do while a summarization task runs: the nickname lookup
   * (a missing key is a lookup that raised), the time formatting (which may raise), the reply
   * of the summarization service, and whether each send reached the conversation.
   */
  datatype Host = Host(
    lookup: map<string, string>,
    formatTime: int -> Result<string>,
    reply: Dify.Reply,
    noticeDelivered: bool,
    resultDelivered: bool)

  /** How a summarization task ended, before the marker is cleared. */
  datatype TaskExit =
    | NoticeUndelivered                            // empty history, and the notice send failed
    | RenderFailed(error: string)                  // a timestamp could not be formatted
    | Answered(transcript: string, summary: string)

  const Banner := "-----聊天总结-----\n"
  const ErrorNoticePrefix := "总结时发生错误: "

  /** The exit a summarization task takes over this history, count and host behaviour. */
  ghost function Outcome(history: seq<T.Msg>, numMessages: int, host: Host): TaskExit {
    if |history| == 0 && !host.noticeDelivered then NoticeUndelivered
    else
      var selected := T.Tail(history, numMessages);
      match T.Render(selected, T.NicknameMap(T.Senders(selected), host.lookup), host.formatTime)
      case Err(e) => RenderFailed(e)
      case Ok(t) => Answered(t, Dify.SummaryFromReply(host.reply))
  }

  /** The messages a summarization task delivers to its conversation. */
  function Delivered(chatId: string, emptyHistory: bool, exit: TaskExit, host: Host): seq<Outgoing> {
    (if emptyHistory && host.noticeDelivered then [Outgoing(chatId, NotEnoughHistory)] else [])
    + match exit
      case NoticeUndelivered => []
      case RenderFailed(e) => if host.resultDelivered then [Outgoing(chatId, Failure(ErrorNoticePrefix + e))] else []
      case Answered(_, summary) => if host.resultDelivered then [Outgoing(chatId, Report(Banner + summary))] else []
  }

  /**
   * The values `_summarize_chat` computes (main.py:122-152): the early exit of the history
   * check, or else the trailing records, one nickname lookup per sender, the transcript, and
   * the service's answer.
   */
  method ComposeSummary(history: seq<T.Msg>, numMessages: int, host: Host) returns (exit: TaskExit)
    ensures exit.NoticeUndelivered? <==> |history| == 0 && !host.noticeDelivered
    ensures exit == Outcome(history, numMessages, host)
  {
    if |history| == 0 && !host.noticeDelivered {
      return NoticeUndelivered;
    }
    var selected := T.Tail(history, numMessages);
    var nicknames := T.BuildNicknames(T.Senders(selected), host.lookup);
    match T.Render(selected, nicknames, host.formatTime)
    case Err(e) =>
      exit := RenderFailed(e);
    case Ok(transcript) =>
      exit := Answered(transcript, Dify.SummaryFromReply(host.reply));
  }

  class Plugin {
    const enable: bool
    const commands: seq<string>
    const defaultNumMessages: int

    /** `chat_history`: the records of each conversation, in arrival order. */
    var chatHistory: map<string, seq<T.Msg>>
    /** `summary_tasks`: the single-flight guard, one entry per conversation being summarized. */
    var summaryTasks: map<string, Task>
    /** `last_summary_time`: when a summary was last delivered to each conversation. */
    var lastSummaryTime: map<string, int>
    /** Every message the host delivered on the plugin's behalf, in order. */
    var outbox: seq<Outgoing>
    /** Every request the task attempted to send to the summarization service, in order. */
    var queries: seq<Query>

    /** A conversation with a task in flight has recorded history. */
    ghost predicate Valid()
      reads this
    {
      forall id :: id in summaryTasks ==> id in chatHistory && |chatHistory[id]| > 0
    }

    /** The records of a conversation; `chat_history` is a `defaultdict(list)`. */
    function History(chatId: string): seq<T.Msg>
      reads this
    {
      if chatId in chatHistory then chatHistory[chatId] else []
    }

    /** The plugin after configuration: `enable` is already false when the configuration was unusable. */
    constructor (enable: bool, commands: seq<string>, defaultNumMessages: int)
      ensures Valid()
      ensures this.enable == enable && this.commands == commands && this.defaultNumMessages == defaultNumMessages
      ensures chatHistory == map[] && summaryTasks == map[] && lastSummaryTime == map[]
      ensures outbox == [] && queries == []
    {
      this.enable := enable;
      this.commands := commands;
      this.defaultNumMessages := defaultNumMessages;
      chatHistory := map[];
      summaryTasks := map[];
      lastSummaryTime := map[];
      outbox := [];
      queries := [];
    }

    /**
     * `handle_text_message`: record the message, and when it holds a command either deflect
     * (a task is in flight for the conversation) or register a task for the requested count.
     */
    method HandleTextMessage(msg: T.Msg, deflectionDelivered: bool) returns (action: Action)
      requires Valid()
      modifies this
      ensures Valid()
      ensures lastSummaryTime == old(lastSummaryTime) && queries == old(queries)
      ensures !enable ==>
        action == Ignored && chatHistory == old(chatHistory) && summaryTasks == old(summaryTasks) && outbox == old(outbox)
      ensures enable ==> chatHistory == old(chatHistory)[msg.chatId := old(History(msg.chatId)) + [msg]]
      ensures enable && !Trigger.AnyCommandIn(commands, msg.content) ==>
        action == Recorded && summaryTasks == old(summaryTasks) && outbox == old(outbox)
      ensures enable && Trigger.AnyCommandIn(commands, msg.content) && msg.chatId in old(summaryTasks) ==>
        && action == Deflected(Digits.RequestedCount(msg.content, defaultNumMessages))
        && summaryTasks == old(summaryTasks)
        && outbox == old(outbox) + if deflectionDelivered then [Outgoing(msg.chatId, InProgress)] else []
      ensures enable && Trigger.AnyCommandIn(commands, msg.content) && msg.chatId !in old(summaryTasks) ==>
        && action == Started(Digits.RequestedCount(msg.content, defaultNumMessages))
        && summaryTasks == old(summaryTasks)[msg.chatId := Task(Digits.RequestedCount(msg.content, defaultNumMessages))]
        && outbox == old(outbox)
      ensures action.Started? ==> |History(msg.chatId)| > 0
    {
      if !enable {
        return Ignored;
      }
      var chatId := msg.chatId;
      chatHistory := chatHistory[chatId := History(chatId) + [msg]];
      if !Trigger.AnyCommandIn(commands, msg.content) {
        return Recorded;
      }
      var numMessages := Digits.RequestedCount(msg.content, defaultNumMessages);
      if chatId in summaryTasks {
        if deflectionDelivered {
          outbox := outbox + [Outgoing(chatId, InProgress)];
        }
        return Deflected(numMessages);
      }
      summaryTasks := summaryTasks[chatId := Task(numMessages)];
      action := Started(numMessages);
    }

    /**
     * `_summarize_chat`, run to its end: select the trailing records, resolve the senders'
     * names, render the transcript, query the service and deliver its answer; on every exit
     * the conversation's marker is removed.
     */
    method RunSummaryTask(chatId: string, numMessages: int, host: Host, now: int) returns (exit: TaskExit)
      requires Valid()
      requires chatId in summaryTasks ==> numMessages == summaryTasks[chatId].numMessages
      modifies this
      ensures Valid()
      ensures exit == Outcome(old(History(chatId)), numMessages, host)
      ensures summaryTasks == old(summaryTasks) - {chatId}
      ensures lastSummaryTime ==
        if exit.Answered? && host.resultDelivered then old(lastSummaryTime)[chatId := now] else old(lastSummaryTime)
      ensures chatHistory ==
        if exit.NoticeUndelivered? then old(chatHistory) else old(chatHistory)[chatId := old(History(chatId))]
      ensures outbox == old(outbox) + Delivered(chatId, |old(History(chatId))| == 0, exit, host)
      ensures queries == old(queries) + if exit.Answered? then [Query(chatId, exit.transcript)] else []
      ensures chatId in old(summaryTasks) ==>
        && chatHistory == old(chatHistory)
        && outbox == old(outbox) + Delivered(chatId, false, exit, host)
    {
      // The values are computed first; they read no plugin state, so the effects below
      // happen in the source's order.
      var history := History(chatId);
      exit := ComposeSummary(history, numMessages, host);
      Deliver(chatId, history, exit, host, now);
    }

    /**
     * The effects of `_summarize_chat` (main.py:122-178) for the exit it takes over `history`:
     * the "not enough history" notice, the defaultdict insertion, then the end of the task.
     */
    method Deliver(chatId: string, history: seq<T.Msg>, exit: TaskExit, host: Host, now: int)
      requires Valid() && history == History(chatId)
      requires exit.NoticeUndelivered? <==> |history| == 0 && !host.noticeDelivered
      modifies this
      ensures Valid()
      ensures summaryTasks == old(summaryTasks) - {chatId}
      ensures lastSummaryTime ==
        if exit.Answered? && host.resultDelivered then old(lastSummaryTime)[chatId := now] else old(lastSummaryTime)
      ensures chatHistory == if exit.NoticeUndelivered? then old(chatHistory) else old(chatHistory)[chatId := history]
      ensures outbox == old(outbox) + Delivered(chatId, |history| == 0, exit, host)
      ensures queries == old(queries) + if exit.Answered? then [Query(chatId, exit.transcript)] else []
    {
      if |history| == 0 {
        if !host.noticeDelivered {
          summaryTasks := summaryTasks - {chatId};
          return;
        }
        outbox := outbox + [Outgoing(chatId, NotEnoughHistory)];
      }
      // Reading a missing key of the defaultdict stores an empty list under it.
      chatHistory := chatHistory[chatId := history];
      Conclude(chatId, exit, host, now);
    }

    /**
     * The end of `_summarize_chat` (main.py:154-178): deliver the summary or the error notice,
     * record the time after a delivered summary, and clear the marker in `finally`.
     */
    method Conclude(chatId: string, exit: TaskExit, host: Host, now: int)
      requires Valid()
      requires !exit.NoticeUndelivered?
      modifies this
      ensures Valid()
      ensures chatHistory == old(chatHistory)
      ensures summaryTasks == old(summaryTasks) - {chatId}
      ensures lastSummaryTime ==
        if exit.Answered? && host.resultDelivered then old(lastSummaryTime)[chatId := now] else old(lastSummaryTime)
      ensures outbox == old(outbox) + Delivered(chatId, false, exit, host)
      ensures queries == old(queries) + if exit.Answered? then [Query(chatId, exit.transcript)] else []
    {
      if exit.RenderFailed? {
        if host.resultDelivered {
          outbox := outbox + [Outgoing(chatId, Failure(ErrorNoticePrefix + exit.error))];
        }
      } else {
        queries := queries + [Query(chatId, exit.transcript)];
        if host.resultDelivered {
          outbox := outbox + [Outgoing(chatId, Report(Banner + exit.summary))];
          lastSummaryTime := lastSummaryTime[chatId := now];
        }
      }
      summaryTasks := summaryTasks - {chatId};
    }
  }

  /**
   * The history check at main.py:122-130 does not return after a delivered notice: with an
   * empty history the task still queries the service, with an empty transcript.
   */
  lemma EmptyHistoryStillQueries(numMessages: int, host: Host)
    requires host.noticeDelivered
    ensures Outcome([], numMessages, host) == Answered("", Dify.SummaryFromReply(host.reply))
  {
    var none: seq<T.Msg> := [];
    assert T.Tail(none, numMessages) == [];
    assert T.RenderLines([], map[], host.formatTime) == Ok([]);
  }

  /** A task answers exactly when it gets past the history check and every selected timestamp formats. */
  lemma AnsweredIff(history: seq<T.Msg>, numMessages: int, host: Host)
    ensures var selected := T.Tail(history, numMessages);
      Outcome(history, numMessages, host).Answered? <==>
        && (|history| > 0 || host.noticeDelivered)
        && forall i :: 0 <= i < |selected| ==> host.formatTime(selected[i].createTime).Ok?
  {
    var selected := T.Tail(history, numMessages);
    T.RenderLinesSpec(selected, T.NicknameMap(T.Senders(selected), host.lookup), host.formatTime);
  }

  /**
   * An answered task over newline-free records queried the service with one transcript line per
   * selected record, in order: for `n >= 1` the last `min(n, |history|)` records.
   */
  lemma AnsweredTranscript(history: seq<T.Msg>, numMessages: int, host: Host)
    requires |history| > 0 && numMessages >= 1
    requires Outcome(history, numMessages, host).Answered?
    requires forall i :: 0 <= i < |history| ==>
      '\n' !in history[i].content && '\n' !in T.Resolve(host.lookup, history[i].sender)
    requires forall i :: 0 <= i < |history| ==>
      host.formatTime(history[i].createTime).Ok? ==> '\n' !in host.formatTime(history[i].createTime).value
    ensures var lines := T.SplitLines(Outcome(history, numMessages, host).transcript);
      var k := T.Min(numMessages, |history|);
      && |lines| == k
      && forall j :: |history| - k <= j < |history| ==>
        && host.formatTime(history[j].createTime).Ok?
        && lines[j - (|history| - k)]
           == T.Line(T.Resolve(host.lookup, history[j].sender), host.formatTime(history[j].createTime).value, history[j].content)
  {
    T.TailSpec(history, numMessages);
    SuffixTranscriptLines(history, T.Min(numMessages, |history|), host, Outcome(history, numMessages, host).transcript);
  }

  /**
   * The transcript of the last `k` newline-free records of a history: one line per record, in
   * order, so the record at position `j` gives line `j - (|history| - k)`.
   */
  lemma SuffixTranscriptLines(history: seq<T.Msg>, k: nat, host: Host, t: string)
    requires 1 <= k <= |history|
    requires var selected := history[|history| - k..];
      T.Render(selected, T.NicknameMap(T.Senders(selected), host.lookup), host.formatTime) == Ok(t)
    requires forall i :: 0 <= i < |history| ==>
      '\n' !in history[i].content && '\n' !in T.Resolve(host.lookup, history[i].sender)
    requires forall i :: 0 <= i < |history| ==>
      host.formatTime(history[i].createTime).Ok? ==> '\n' !in host.formatTime(history[i].createTime).value
    ensures |T.SplitLines(t)| == k
    ensures forall j :: |history| - k <= j < |history| ==>
      && host.formatTime(history[j].createTime).Ok?
      && T.SplitLines(t)[j - (|history| - k)]
         == T.Line(T.Resolve(host.lookup, history[j].sender), host.formatTime(history[j].createTime).value, history[j].content)
  {
    var selected := history[|history| - k..];
    assert forall j :: |history| - k <= j < |history| ==> selected[j - (|history| - k)] == history[j];
    T.TranscriptLines(selected, host.lookup, host.formatTime, t);
  }

  /**
   * A failed call to the service still reaches the conversation under the summary banner: the
   * error text of a 500 reply, naming the status and the body, is delivered as the summary.
   */
  lemma ServerErrorDeliveredAsSummary(chatId: string, history: seq<T.Msg>, numMessages: int, host: Host)
    requires |history| > 0 && host.resultDelivered
    requires host.reply == Dify.Response(500, "server error", None)
    requires Outcome(history, numMessages, host).Answered?
    ensures var sent := Delivered(chatId, false, Outcome(history, numMessages, host), host);
      && |sent| == 1 && sent[0].chatId == chatId && sent[0].notice.Report?
      && sent[0].notice.text[..|Banner|] == Banner
      && Trigger.Contains(sent[0].notice.text, "500")
      && Trigger.Contains(sent[0].notice.text, "server error")
  {
    var exit := Outcome(history, numMessages, host);
    assert exit.summary == Dify.SummaryFromReply(host.reply);
    ReplyDeliveredAsReport(chatId, exit, host);
  }

  /** An answered exit whose summary is the text of a 500 reply is delivered as one report. */
  lemma ReplyDeliveredAsReport(chatId: string, exit: TaskExit, host: Host)
    requires host.resultDelivered && host.reply == Dify.Response(500, "server error", None)
    requires exit.Answered? && exit.summary == Dify.SummaryFromReply(host.reply)
    ensures var sent := Delivered(chatId, false, exit, host);
      && |sent| == 1 && sent[0].chatId == chatId && sent[0].notice.Report?
      && sent[0].notice.text[..|Banner|] == Banner
      && Trigger.Contains(sent[0].notice.text, "500")
      && Trigger.Contains(sent[0].notice.text, "server error")
  {
    Dify.ServerErrorExample();
    Trigger.ContainsAfter(Banner, exit.summary, "500");
    Trigger.ContainsAfter(Banner, exit.summary, "server error");
    assert (Banner + exit.summary)[..|Banner|] == Banner;
  }

  /** Two commands in a row for one conversation: the first starts a task, the second is deflected. */
  method BackToBackCommands(commands: seq<string>, defaultNumMessages: int, first: T.Msg, second: T.Msg)
    returns (a1: Action, a2: Action, inFlight: set<string>, sent: seq<Outgoing>)
    requires first.chatId == second.chatId
    requires Trigger.AnyCommandIn(commands, first.content) && Trigger.AnyCommandIn(commands, second.content)
    ensures a1.Started? && a2.Deflected?
    ensures inFlight == {first.chatId}
    ensures sent == [Outgoing(first.chatId, InProgress)]
  {
    var plugin := new Plugin(true, commands, defaultNumMessages);
    a1 := plugin.HandleTextMessage(first, true);
    a2 := plugin.HandleTextMessage(second, true);
    inFlight := plugin.summaryTasks.Keys;
    sent := plugin.outbox;
  }

  /** Once a task has ended, on any exit, the next command for the conversation starts a new one. */
  method GuardIsReusable(commands: seq<string>, first: T.Msg, host: Host, second: T.Msg, now: int)
    returns (a1: Action, a2: Action)
    requires first.chatId == second.chatId
    requires Trigger.AnyCommandIn(commands, first.content) && Trigger.AnyCommandIn(commands, second.content)
    ensures a1.Started? && a2.Started?
  {
    var plugin := new Plugin(true, commands, 100);
    a1 := plugin.HandleTextMessage(first, true);
    var exit := plugin.RunSummaryTask(first.chatId, a1.numMessages, host, now);
    a2 := plugin.HandleTextMessage(second, true);
  }
}
