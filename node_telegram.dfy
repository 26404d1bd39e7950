/**
 * The Telegraf notifier of src/adapters/node-telegram.js: the same chunking and
 * grouped message as the fetch-based helper, sent through the bot library. The
 * library call is modelled by the list of messages it was asked to send.
 */
module NodeTelegram {
  import opened Wrappers
  import opened OrderedMap
  import opened Telegram

  /** `NodeTelegramNotifier`; `sent` records the `bot.telegram.sendMessage` calls, in order. */
  class NodeTelegramNotifier {
    const chatId: string
    var sent: seq<Sent>

    /** `new NodeTelegramNotifier(botToken, chatId)`: the chat is kept as `String(chatId)`; the
        token only configures the bot library. */
    constructor(botToken: string, chatId: ChatId)
      ensures this.chatId == chatId.ToString() && sent == []
    {
      this.chatId := chatId.ToString();
      sent := [];
    }

    /** `sendMessage(html)`: one call per part of at most 4096 characters, in HTML parse mode. */
    method SendMessage(html: string)
      modifies this
      ensures sent == old(sent) + SentParts(chatId, Chunks(html))
    {
      var i: nat := 0;
      while i < |html|
        invariant sent + SentParts(chatId, ChunksFrom(html, i)) == old(sent) + SentParts(chatId, Chunks(html))
        decreases |html| - i
      {
        var part := Substring(html, i, i + ChunkSize);
        var rest := ChunksFrom(html, i + ChunkSize);
        assert ChunksFrom(html, i) == [part] + rest;
        assert ([part] + rest)[1..] == rest;
        AppendTwice(sent, [Sent(chatId, part, "HTML")], SentParts(chatId, rest));
        sent := sent + [Sent(chatId, part, "HTML")];
        i := i + ChunkSize;
      }
      assert sent + SentParts(chatId, ChunksFrom(html, i)) == sent + [];
    }

    /** `sendGrouped(title, grouped)`: nothing for a missing or key-less dictionary, otherwise
        the grouped message, built as the fetch-based helper builds it, through `sendMessage`. */
    method SendGrouped(title: string, grouped: Option<OMap<string, seq<string>>>)
      requires grouped.Some? ==> grouped.value.Keyed()
      modifies this
      ensures !SendsGrouped(grouped) ==> sent == old(sent)
      ensures SendsGrouped(grouped) ==> sent == old(sent) + SentParts(chatId, Chunks(GroupedText(title, grouped.value)))
    {
      if grouped.None? || |grouped.value.keys| == 0 {
        return;
      }
      var message := BuildGroupedText(title, grouped.value);
      SendMessage(message);
    }
  }
}
