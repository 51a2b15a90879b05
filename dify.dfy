/**
 * What `ChatSummary._get_summary_from_dify` returns once the HTTP exchange is over
 * (main.py:204-216): the answer of a 200 reply, an error text naming the status and the body
 * otherwise, and a fixed retry notice when the exchange or the decoding raised.
 */
module Dify {
  import opened Wrappers
  import Digits
  import Trigger

  /** An HTTP status code as the client reports it: three decimal digits. */
  type StatusCode = n: nat | 100 <= n <= 999 witness 200

  /** The decoded JSON body: an object, with or without an `answer` string, or some other value. */
  datatype JsonBody = Object(answer: Option<string>) | NotAnObject

  /**
   * What the POST produced: an exception in the client (connection, proxy, timeout), or a
   * response with its status, its body text, and the body decoded as JSON (None when
   * `resp.json()` raises).
   */
  datatype Reply = ClientError | Response(status: StatusCode, body: string, json: Option<JsonBody>)

  const ApiErrorPrefix := "总结失败，Dify API 错误: "
  const RetryLater := "总结失败，请稍后重试。"

  /** The error text of a non-200 reply: the status and the body after a fixed prefix. */
  function ErrorText(status: StatusCode, body: string): string {
    ApiErrorPrefix + Digits.DecimalString(status) + " - " + body
  }

  /** The string `_get_summary_from_dify` returns for a reply. */
  function SummaryFromReply(reply: Reply): string {
    match reply
    case ClientError => RetryLater
    case Response(status, body, json) =>
      if status == 200 then
        match json
        case Some(Object(answer)) => answer.GetOr("")
        case _ => RetryLater  // resp.json() or .get raised; the outer handler answers
      else ErrorText(status, body)
  }

  /**
   * Status 200 with a JSON object gives its answer ("" when absent); any other status gives a
   * text containing the status and the body; a client exception or an undecodable 200 body
   * gives the retry notice.
   */
  lemma SummaryFromReplyCases(reply: Reply)
    ensures var summary := SummaryFromReply(reply);
      && (reply.Response? && reply.status == 200 && reply.json.Some? && reply.json.value.Object? ==>
            summary == reply.json.value.answer.GetOr(""))
      && (reply.Response? && reply.status != 200 ==>
            Trigger.Contains(summary, Digits.DecimalString(reply.status)) && Trigger.Contains(summary, reply.body))
      && (reply.ClientError? || (reply.Response? && reply.status == 200 && (reply.json.None? || reply.json.value.NotAnObject?)) ==>
            summary == RetryLater)
  {
    if reply.Response? && reply.status != 200 {
      var code := Digits.DecimalString(reply.status);
      var text := ErrorText(reply.status, reply.body);
      assert Trigger.OccursAt(code, text, |ApiErrorPrefix|) by {
        assert text[|ApiErrorPrefix|..|ApiErrorPrefix| + |code|] == code;
      }
      assert Trigger.OccursAt(reply.body, text, |text| - |reply.body|) by {
        assert text[|text| - |reply.body|..] == reply.body;
      }
    }
  }

  /** A server error: the text names the status 500 and carries the body. */
  lemma ServerErrorExample()
    ensures SummaryFromReply(Response(500, "server error", None)) == ApiErrorPrefix + "500" + " - " + "server error"
    ensures Trigger.Contains(SummaryFromReply(Response(500, "server error", None)), "500")
    ensures Trigger.Contains(SummaryFromReply(Response(500, "server error", None)), "server error")
  {
    Digits.DecimalStringExamples();
    SummaryFromReplyCases(Response(500, "server error", None));
  }
}
