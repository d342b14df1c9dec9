/**
 * The request handler `index`: read and validate the fields, send the
 * message, and update the pending list. On a failed send the message is
 * appended to the pending list; on a successful send every pending message
 * is retried in order and the list is replaced by those that failed again.
 *
 * The pending list is passed in as it was read and the handler returns what
 * it writes back (`None` when it writes nothing). Each send is represented
 * by the transport's response to it, in the order the sends happen.
 */
module Endpoint {
  import opened Wrappers
  import opened Routing
  import opened Formatting
  import opened Delivery
  import opened Intake

  /** The body of the handler's answer. */
  datatype Answer =
    | Rejected(errors: seq<string>)  // 400: the list of missing required fields
    | Forwarded(response: Response)  // 200: the transport's reply to the new message
    | Queued                         // 400: "Failed to send message, added to pending list"

  // ---------------------------------------------------------------------
  // The pending list after a successful send.
  // ---------------------------------------------------------------------

  /** The pending messages whose retry failed, in their original order. */
  function Survivors(pending: seq<Notification>, retries: seq<Response>): seq<Notification>
    requires |retries| == |pending|
  {
    if pending == [] then []
    else
      var n := |pending| - 1;
      Survivors(pending[..n], retries[..n]) + (if Delivered(retries[n]) then [] else [pending[n]])
  }

  /** Strictly increasing indices. */
  ghost predicate Increasing(indices: seq<int>)
  {
    forall a, b :: 0 <= a < b < |indices| ==> indices[a] < indices[b]
  }

  /**
   * The new pending list is exactly the messages whose retry failed, order
   * preserved: `indices` lists, in increasing order, every index whose retry
   * failed and no other, and the survivors are the messages at those indices.
   */
  lemma {:induction false} SurvivorsAreFailedInOrder(pending: seq<Notification>, retries: seq<Response>)
    returns (indices: seq<int>)
    requires |retries| == |pending|
    ensures Increasing(indices)
    ensures |indices| == |Survivors(pending, retries)|
    ensures forall t :: 0 <= t < |indices| ==>
      0 <= indices[t] < |pending| && !Delivered(retries[indices[t]]) &&
      Survivors(pending, retries)[t] == pending[indices[t]]
    ensures forall i :: 0 <= i < |pending| && !Delivered(retries[i]) ==> i in indices
  {
    if pending == [] {
      indices := [];
    } else {
      var n := |pending| - 1;
      var before, outcomes := pending[..n], retries[..n];
      var front := SurvivorsAreFailedInOrder(before, outcomes);
      var survivors := Survivors(pending, retries);
      assert survivors == Survivors(before, outcomes) + (if Delivered(retries[n]) then [] else [pending[n]]);
      indices := if Delivered(retries[n]) then front else front + [n];
      forall t | 0 <= t < |front|
        ensures indices[t] == front[t] && survivors[t] == Survivors(before, outcomes)[t]
        ensures pending[front[t]] == before[front[t]] && retries[front[t]] == outcomes[front[t]]
      {
      }
      forall i | 0 <= i < |pending| && !Delivered(retries[i]) ensures i in indices {
        if i < n {
          assert outcomes[i] == retries[i];
        }
      }
    }
  }

  /** The new pending list is never longer than the old one and holds nothing new. */
  lemma {:induction false} SurvivorsNotLonger(pending: seq<Notification>, retries: seq<Response>)
    requires |retries| == |pending|
    ensures |Survivors(pending, retries)| <= |pending|
    ensures multiset(Survivors(pending, retries)) <= multiset(pending)
  {
    if pending != [] {
      var n := |pending| - 1;
      SurvivorsNotLonger(pending[..n], retries[..n]);
      assert pending == pending[..n] + [pending[n]];
    }
  }

  /** When every retry succeeds the pending list is emptied. */
  lemma {:induction false} SurvivorsAllDelivered(pending: seq<Notification>, retries: seq<Response>)
    requires |retries| == |pending|
    requires forall i :: 0 <= i < |retries| ==> Delivered(retries[i])
    ensures Survivors(pending, retries) == []
  {
    if pending != [] {
      var n := |pending| - 1;
      SurvivorsAllDelivered(pending[..n], retries[..n]);
    }
  }

  /** When every retry fails the pending list is kept as it was. */
  lemma {:induction false} SurvivorsNoneDelivered(pending: seq<Notification>, retries: seq<Response>)
    requires |retries| == |pending|
    requires forall i :: 0 <= i < |retries| ==> !Delivered(retries[i])
    ensures Survivors(pending, retries) == pending
  {
    if pending != [] {
      var n := |pending| - 1;
      SurvivorsNoneDelivered(pending[..n], retries[..n]);
      assert pending == pending[..n] + [pending[n]];
    }
  }

  /**
   * The retry loop of the handler: each pending message is sent again, in
   * order, and those whose send fails are collected into the new list.
   */
  method RetryPending(configs: seq<BotConfig>, findLinks: string -> seq<string>,
                      pending: seq<Notification>, retries: seq<Response>)
    returns (remaining: seq<Notification>, sent: seq<Outgoing>)
    requires CapturesSchemes(findLinks)
    requires |retries| == |pending|
    ensures remaining == Survivors(pending, retries)
    ensures |sent| == |pending|
    ensures forall i :: 0 <= i < |pending| ==> sent[i] == RequestFor(configs, pending[i])
  {
    remaining, sent := [], [];
    for i := 0 to |pending|
      invariant remaining == Survivors(pending[..i], retries[..i])
      invariant |sent| == i
      invariant forall i' :: 0 <= i' < i ==> sent[i'] == RequestFor(configs, pending[i'])
    {
      var msg := pending[i];
      var success, request := SendTelegramMessage(configs, msg, findLinks, retries[i]);
      sent := sent + [request];
      if !success {
        remaining := remaining + [msg];
      }
      assert pending[..i + 1][..i] == pending[..i];
      assert retries[..i + 1][..i] == retries[..i];
    }
    assert pending[..|pending|] == pending;
    assert retries[..|retries|] == retries;
  }

  // ---------------------------------------------------------------------
  // The handler.
  // ---------------------------------------------------------------------

  /** All three required fields are present. */
  predicate Complete(args: map<string, string>, form: map<string, string>)
  {
    Field(args, form, "bot_id").Some? && Field(args, form, "chat_id").Some? &&
    Field(args, form, "title").Some?
  }

  /** The message a complete request describes. */
  function Received(args: map<string, string>, form: map<string, string>): Notification
    requires Complete(args, form)
  {
    Notification(
      Field(args, form, "bot_id").value, Field(args, form, "chat_id").value,
      Field(args, form, "title").value, Field(args, form, "desp"), Field(args, form, "url"))
  }

  /**
   * `index`, from the fields of the request to the answer, the pending list
   * written back and the requests sent. `first` is the response to the new
   * message, `retries[i]` the response to the retry of `pending[i]`.
   */
  method HandleRequest(configs: seq<BotConfig>, findLinks: string -> seq<string>,
                       args: map<string, string>, form: map<string, string>,
                       pending: seq<Notification>, first: Response, retries: seq<Response>)
    returns (status: int, answer: Answer, written: Option<seq<Notification>>, sent: seq<Outgoing>)
    requires CapturesSchemes(findLinks)
    requires |retries| == |pending|
    // A missing required field stops everything: nothing is sent or written.
    ensures !Complete(args, form) ==>
      status == 400 && answer.Rejected? && answer.errors != [] && written == None && sent == []
    ensures answer.Rejected? ==>
      (BotIdError in answer.errors <==> Field(args, form, "bot_id").None?) &&
      (ChatIdError in answer.errors <==> Field(args, form, "chat_id").None?) &&
      (TitleError in answer.errors <==> Field(args, form, "title").None?) &&
      (forall e :: e in answer.errors ==> e == BotIdError || e == ChatIdError || e == TitleError) &&
      forall a, b :: 0 <= a < b < |answer.errors| ==>
        ErrorRank(answer.errors[a]) < ErrorRank(answer.errors[b])
    // Otherwise the new message is sent first, to its routed bot.
    ensures Complete(args, form) ==>
      |sent| >= 1 && sent[0] == RequestFor(configs, Received(args, form))
    // A successful send retries every pending message, in order, and keeps those that failed again.
    ensures Complete(args, form) && Delivered(first) ==>
      status == 200 && answer == Forwarded(first) &&
      written == Some(Survivors(pending, retries)) &&
      |sent| == 1 + |pending| &&
      forall i :: 0 <= i < |pending| ==> sent[i + 1] == RequestFor(configs, pending[i])
    // A failed send appends the new message to the end of the pending list.
    ensures Complete(args, form) && !Delivered(first) ==>
      status == 400 && answer == Queued &&
      written == Some(pending + [Received(args, form)]) && |sent| == 1
  {
    var botId := Field(args, form, "bot_id");
    var chatId := Field(args, form, "chat_id");
    var title := Field(args, form, "title");
    var desp := Field(args, form, "desp");
    var url := Field(args, form, "url");

    var errors := CollectErrors(botId, chatId, title);
    if errors != [] {
      return 400, Rejected(errors), None, [];
    }

    var msg := Notification(botId.value, chatId.value, title.value, desp, url);
    var success, request := SendTelegramMessage(configs, msg, findLinks, first);
    sent := [request];
    if success {
      var remaining, resent := RetryPending(configs, findLinks, pending, retries);
      sent := sent + resent;
      return 200, Forwarded(first), Some(remaining), sent;
    } else {
      var pendingMessages := pending + [msg];
      return 400, Queued, Some(pendingMessages), sent;
    }
  }
}
