/**
 * The transcript that `ChatSummary._summarize_chat` sends for summarization
 * (main.py:132-149): the trailing records of a conversation, each sender's display name,
 * and one `name (HH:MM:SS): content` line per record, joined with newlines.
 */
module Transcript {
  import opened Wrappers

  /** A recorded text message: FromWxid, SenderWxid, Content, CreateTime and IsGroup. */
  datatype Msg = Msg(chatId: string, sender: string, content: string, createTime: int, isGroup: bool)

  function Min(a: int, b: int): int { if a <= b then a else b }

  function Max(a: int, b: int): int { if a <= b then b else a }

  /**
   * Python's `history[-n:]`. For `n >= 1` the last `n` records (all of them when fewer exist);
   * `[-0:]` is `[0:]`, the whole history; a negative `n` drops the first `-n` records.
   */
  function Tail<T>(history: seq<T>, n: int): seq<T> {
    var k := -n;
    var start := if k < 0 then Max(0, |history| + k) else Min(k, |history|);
    history[start..]
  }

  /** The slice is a suffix of the history, in order, of the length Python gives it. */
  lemma TailSpec<T>(history: seq<T>, n: int)
    ensures var r := Tail(history, n);
      && |r| <= |history| && r == history[|history| - |r|..]
      && (n >= 1 ==> |r| == Min(n, |history|))
      && (n == 0 ==> r == history)
      && (n < 0 ==> |r| == |history| - Min(-n, |history|))
  {
  }

  /** `set(msg['SenderWxid'] for msg in messages)`. */
  function Senders(msgs: seq<Msg>): set<string> {
    if |msgs| == 0 then {} else {msgs[0].sender} + Senders(msgs[1..])
  }

  /** The set holds exactly the senders of the messages. */
  lemma {:induction false} SendersSpec(msgs: seq<Msg>)
    ensures forall i :: 0 <= i < |msgs| ==> msgs[i].sender in Senders(msgs)
    ensures forall id :: id in Senders(msgs) ==> exists i :: 0 <= i < |msgs| && msgs[i].sender == id
  {
    if |msgs| > 0 {
      var rest := msgs[1..];
      SendersSpec(rest);
      assert forall i :: 1 <= i < |msgs| ==> msgs[i] == rest[i - 1];
      forall id | id in Senders(msgs)
        ensures exists i :: 0 <= i < |msgs| && msgs[i].sender == id
      {
        if id != msgs[0].sender {
          var k :| 0 <= k < |rest| && rest[k].sender == id;
          assert msgs[k + 1].sender == id;
        }
      }
    }
  }

  /** The name the host reports for `wxid`; a failed lookup (a missing key) falls back to the wxid. */
  function Resolve(lookup: map<string, string>, wxid: string): string {
    if wxid in lookup then lookup[wxid] else wxid
  }

  /** The nickname table the loop at main.py:136-143 builds: one entry per sender. */
  ghost function NicknameMap(wxids: set<string>, lookup: map<string, string>): map<string, string> {
    map w | w in wxids :: Resolve(lookup, w)
  }

  /** The loop at main.py:136-143: ask the host for each sender's nickname, one sender at a time. */
  method BuildNicknames(wxids: set<string>, lookup: map<string, string>) returns (nicknames: map<string, string>)
    ensures nicknames.Keys == wxids
    ensures forall w :: w in wxids ==> nicknames[w] == Resolve(lookup, w)
    ensures nicknames == NicknameMap(wxids, lookup)
  {
    nicknames := map[];
    var todo := wxids;
    while todo != {}
      invariant todo <= wxids
      invariant nicknames.Keys == wxids - todo
      invariant forall w :: w in nicknames ==> nicknames[w] == Resolve(lookup, w)
      decreases |todo|
    {
      var w :| w in todo;
      nicknames := nicknames[w := Resolve(lookup, w)];
      todo := todo - {w};
    }
    NicknameMapIs(nicknames, wxids, lookup);
  }

  lemma NicknameMapIs(nicknames: map<string, string>, wxids: set<string>, lookup: map<string, string>)
    requires nicknames.Keys == wxids
    requires forall w :: w in wxids ==> nicknames[w] == Resolve(lookup, w)
    ensures nicknames == NicknameMap(wxids, lookup)
  {
  }

  /** `nicknames.get(wxid, wxid)`. */
  function DisplayName(nicknames: map<string, string>, wxid: string): string {
    if wxid in nicknames then nicknames[wxid] else wxid
  }

  /** One transcript line, `name (time): content`. */
  function Line(name: string, time: string, content: string): string {
    name + " (" + time + "): " + content
  }

  /**
   * The list comprehension at main.py:146-149: a line per message, in order, or the exception
   * raised when some message's timestamp cannot be formatted.
   */
  function RenderLines(msgs: seq<Msg>, nicknames: map<string, string>, formatTime: int -> Result<string>): Result<seq<string>> {
    if |msgs| == 0 then Ok([])
    else
      match formatTime(msgs[0].createTime)
      case Err(e) => Err(e)
      case Ok(time) =>
        match RenderLines(msgs[1..], nicknames, formatTime)
        case Err(e) => Err(e)
        case Ok(lines) => Ok([Line(DisplayName(nicknames, msgs[0].sender), time, msgs[0].content)] + lines)
  }

  /**
   * Rendering succeeds exactly when every timestamp formats; it then gives one line per message,
   * in order, and otherwise the exception of the first message whose timestamp did not format.
   */
  lemma {:induction false} RenderLinesSpec(msgs: seq<Msg>, nicknames: map<string, string>, formatTime: int -> Result<string>)
    ensures var r := RenderLines(msgs, nicknames, formatTime);
      && (r.Ok? <==> forall i :: 0 <= i < |msgs| ==> formatTime(msgs[i].createTime).Ok?)
      && (r.Ok? ==> |r.value| == |msgs|)
      && (r.Ok? ==> forall i :: 0 <= i < |msgs| ==>
            r.value[i] == Line(DisplayName(nicknames, msgs[i].sender), formatTime(msgs[i].createTime).value, msgs[i].content))
      && (r.Err? ==>
            exists i ::
              && 0 <= i < |msgs|
              && formatTime(msgs[i].createTime) == Err(r.error)
              && forall k :: 0 <= k < i ==> formatTime(msgs[k].createTime).Ok?)
  {
    if |msgs| > 0 {
      var tail := msgs[1..];
      RenderLinesSpec(tail, nicknames, formatTime);
      assert forall i :: 1 <= i < |msgs| ==> tail[i - 1] == msgs[i];
      var r := RenderLines(msgs, nicknames, formatTime);
      var rest := RenderLines(tail, nicknames, formatTime);
      if formatTime(msgs[0].createTime).Ok? && rest.Err? {
        var k :| 0 <= k < |tail| && formatTime(tail[k].createTime) == Err(rest.error)
          && forall m :: 0 <= m < k ==> formatTime(tail[m].createTime).Ok?;
        assert formatTime(msgs[k + 1].createTime) == Err(r.error);
        assert forall m :: 1 <= m < k + 1 ==> msgs[m] == tail[m - 1];
      }
    }
  }

  /** `"\n".join(lines)`. */
  function JoinLines(lines: seq<string>): string {
    if |lines| == 0 then ""
    else if |lines| == 1 then lines[0]
    else lines[0] + "\n" + JoinLines(lines[1..])
  }

  /** Python's `s.split("\n")`: the pieces between newlines; always at least one piece. */
  function SplitLines(s: string): (r: seq<string>)
    ensures |r| >= 1
  {
    if |s| == 0 then [""]
    else
      var rest := SplitLines(s[1..]);
      if s[0] == '\n' then [""] + rest else [[s[0]] + rest[0]] + rest[1..]
  }

  /** The transcript: the rendered lines joined with newlines. */
  function Render(msgs: seq<Msg>, nicknames: map<string, string>, formatTime: int -> Result<string>): Result<string> {
    match RenderLines(msgs, nicknames, formatTime)
    case Ok(lines) => Ok(JoinLines(lines))
    case Err(e) => Err(e)
  }

  lemma JoinConsChar(c: char, x: string, xs: seq<string>)
    ensures JoinLines([[c] + x] + xs) == [c] + JoinLines([x] + xs)
  {
    if |xs| > 0 {
      assert ([[c] + x] + xs)[1..] == xs;
      assert ([x] + xs)[1..] == xs;
    }
  }

  /** Joining the pieces of a split gives back the string. */
  lemma {:induction false} JoinSplit(s: string)
    ensures JoinLines(SplitLines(s)) == s
  {
    if |s| > 0 {
      var rest := SplitLines(s[1..]);
      JoinSplit(s[1..]);
      if s[0] == '\n' {
        assert ([""] + rest)[1..] == rest;
      } else {
        assert rest == [rest[0]] + rest[1..];
        JoinConsChar(s[0], rest[0], rest[1..]);
      }
    }
  }

  lemma {:induction false} SplitLineThenNewline(a: string, b: string)
    requires '\n' !in a
    ensures SplitLines(a + "\n" + b) == [a] + SplitLines(b)
  {
    if |a| > 0 {
      assert (a + "\n" + b)[1..] == a[1..] + "\n" + b;
      SplitLineThenNewline(a[1..], b);
      assert [a[0]] + a[1..] == a;
    } else {
      assert a + "\n" + b == "\n" + b;
    }
  }

  lemma {:induction false} SplitSingleLine(a: string)
    requires '\n' !in a
    ensures SplitLines(a) == [a]
  {
    if |a| > 0 {
      SplitSingleLine(a[1..]);
      assert [a[0]] + a[1..] == a;
    }
  }

  /** Lines free of newlines come back, one piece per line, when the join is split again. */
  lemma {:induction false} SplitJoin(lines: seq<string>)
    requires |lines| >= 1
    requires forall i :: 0 <= i < |lines| ==> '\n' !in lines[i]
    ensures SplitLines(JoinLines(lines)) == lines
  {
    if |lines| == 1 {
      SplitSingleLine(lines[0]);
    } else {
      SplitJoin(lines[1..]);
      SplitLineThenNewline(lines[0], JoinLines(lines[1..]));
    }
  }

  /** A line built from newline-free parts holds no newline. */
  lemma LineHasNoNewline(name: string, time: string, content: string)
    requires '\n' !in name && '\n' !in time && '\n' !in content
    ensures '\n' !in Line(name, time, content)
  {
  }

  /** Every sender has an entry in the nickname table, so `.get`'s fallback is never used. */
  lemma {:induction false} DisplayNameIsResolved(msgs: seq<Msg>, lookup: map<string, string>, i: nat)
    requires i < |msgs|
    ensures DisplayName(NicknameMap(Senders(msgs), lookup), msgs[i].sender) == Resolve(lookup, msgs[i].sender)
  {
    SendersSpec(msgs);
  }

  /**
   * When names, times and contents contain no newline, the transcript of a non-empty selection
   * splits into exactly one line per message, in the order of the messages, each naming the
   * sender by the nickname the host reported, or by its wxid when the lookup failed.
   */
  lemma TranscriptLines(msgs: seq<Msg>, lookup: map<string, string>, formatTime: int -> Result<string>, t: string)
    requires |msgs| >= 1
    requires Render(msgs, NicknameMap(Senders(msgs), lookup), formatTime) == Ok(t)
    requires forall i :: 0 <= i < |msgs| ==> '\n' !in msgs[i].content && '\n' !in Resolve(lookup, msgs[i].sender)
    requires forall i :: 0 <= i < |msgs| ==> formatTime(msgs[i].createTime).Ok? ==> '\n' !in formatTime(msgs[i].createTime).value
    ensures |SplitLines(t)| == |msgs|
    ensures forall i :: 0 <= i < |msgs| ==>
      && formatTime(msgs[i].createTime).Ok?
      && SplitLines(t)[i] == Line(Resolve(lookup, msgs[i].sender), formatTime(msgs[i].createTime).value, msgs[i].content)
  {
    var names := NicknameMap(Senders(msgs), lookup);
    RenderLinesSpec(msgs, names, formatTime);
    var rendered := RenderLines(msgs, names, formatTime);
    assert rendered.Ok? && t == JoinLines(rendered.value);
    var lines := rendered.value;
    forall i | 0 <= i < |msgs|
      ensures formatTime(msgs[i].createTime).Ok?
      ensures lines[i] == Line(Resolve(lookup, msgs[i].sender), formatTime(msgs[i].createTime).value, msgs[i].content)
      ensures '\n' !in lines[i]
    {
      DisplayNameIsResolved(msgs, lookup, i);
      LineHasNoNewline(Resolve(lookup, msgs[i].sender), formatTime(msgs[i].createTime).value, msgs[i].content);
    }
    SplitJoin(lines);
  }

  /**
   * Three records from two senders and a request for the last two: the transcript holds the
   * second and the third record, in that order, each under the sender's nickname.
   */
  lemma LastTwoOfThreeExample(formatTime: int -> Result<string>)
    requires formatTime(2) == Ok("09:00:02") && formatTime(3) == Ok("09:00:03")
    ensures
      var history := [Msg("g", "a", "hi", 1, true), Msg("g", "b", "yo", 2, true), Msg("g", "a", "bye", 3, true)];
      Render(Tail(history, 2), map["a" := "Alice", "b" := "Bob"], formatTime)
        == Ok(JoinLines([Line("Bob", "09:00:02", "yo"), Line("Alice", "09:00:03", "bye")]))
  {
    var history := [Msg("g", "a", "hi", 1, true), Msg("g", "b", "yo", 2, true), Msg("g", "a", "bye", 3, true)];
    var selected := Tail(history, 2);
    TailSpec(history, 2);
    assert selected == [history[1], history[2]];
    var names := map["a" := "Alice", "b" := "Bob"];
    RenderLinesSpec(selected, names, formatTime);
    var lines := RenderLines(selected, names, formatTime);
    assert lines.Ok? && |lines.value| == 2;
    assert lines.value == [Line("Bob", "09:00:02", "yo"), Line("Alice", "09:00:03", "bye")];
  }

  /** The line format: the name, the time in parentheses, a colon and the content. */
  lemma LineExample()
    ensures Line("Bob", "09:00:02", "yo") == "Bob (09:00:02): yo"
  {
  }
}
