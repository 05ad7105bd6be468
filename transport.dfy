/** The Telegram Bot API as the handlers see it: a `send` that either comes
    back with the id of the delivered message or throws. Which of the two
    happens, and which id Telegram picks, is outside the bot, so the answers
    are given to the model in advance as a script, consumed one per send. */
module Transport {
  import opened Text
  import opened Store

  /** The kinds of attachment an admin reply can carry. */
  datatype MediaKind = Photo | Video | Document | Voice | Audio | Sticker

  /** What a request delivers: a Markdown text (`sendMessage`), or a file id
      with an optional caption (`sendPhoto`, `sendVideo`, ...). */
  datatype Body =
    | TextBody(text: string)
    | Media(kind: MediaKind, fileId: string, caption: Option<string>)

  /** One request: target chat, content and the `reply_to_message_id` option. */
  datatype Outgoing = Outgoing(chatId: ChatId, body: Body, replyTo: Option<MessageId>)

  /** Telegram's answer to one request. */
  datatype SendResult = Delivered(messageId: MessageId) | Failed

  /** A delivered request together with the id Telegram gave the new message. */
  datatype Delivery = Delivery(request: Outgoing, messageId: MessageId)

  class Telegram {
    /** The answers to the coming requests, in order. */
    var outcomes: seq<SendResult>
    /** Every request that was delivered so far, in order. */
    var sent: seq<Delivery>

    constructor (outcomes: seq<SendResult>)
      ensures this.outcomes == outcomes && sent == []
    {
      this.outcomes := outcomes;
      sent := [];
    }

    /** Sends one request. An exhausted script answers `Failed`. Only a
        delivered request is recorded in `sent`. */
    method Send(request: Outgoing) returns (r: SendResult)
      modifies this
      ensures old(outcomes) == [] ==> r == Failed && outcomes == []
      ensures old(outcomes) != [] ==> r == old(outcomes[0]) && outcomes == old(outcomes[1..])
      ensures r.Delivered? ==> sent == old(sent) + [Delivery(request, r.messageId)]
      ensures r.Failed? ==> sent == old(sent)
    {
      if outcomes == [] {
        r := Failed;
      } else {
        r := outcomes[0];
        outcomes := outcomes[1..];
        if r.Delivered? {
          sent := sent + [Delivery(request, r.messageId)];
        }
      }
    }
  }
}
