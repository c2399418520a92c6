/**
 * Notification: the text sent for one processed item and the channels it goes to. The send
 * itself is a sink whose outcome per channel and text is a parameter.
 */
module Notification {
  import opened Wrappers
  import opened Text
  import opened Models

  const TitlePrefix: string := "\U{1F525} "
  const LinkPrefix: string := "\U{1F517} "
  const TimePrefix: string := "\U{1F552} "
  const ScriptHeading: string := "\n\U{1F4DD} Roteiro:"
  const ErrorPrefix: string := "\n\U{26A0}\U{FE0F} Erro ao gerar roteiro: "

  /** The service's state: the credentials of the two channels, each possibly missing. */
  datatype NotificationService = NotificationService(
    telegramToken: Option<string>,
    telegramChatId: Option<string>,
    discordWebhook: Option<string>)

  datatype Channel = Telegram | Discord

  /** One attempted send: the channel, the text handed to it and whether the sink accepted it. */
  datatype Delivery = Delivery(channel: Channel, text: string, delivered: bool)

  /** The constructor: telegram credentials from the optional (token, chat id) pair. */
  function NewNotificationService(telegramCfg: Option<(string, string)>, discordWebhook: Option<string>)
    : (s: NotificationService)
    ensures telegramCfg.None? ==> s.telegramToken.None? && s.telegramChatId.None?
    ensures telegramCfg.Some? ==>
      s.telegramToken == Some(telegramCfg.value.0) && s.telegramChatId == Some(telegramCfg.value.1)
    ensures s.discordWebhook == discordWebhook
  {
    match telegramCfg
    case None => NotificationService(None, None, discordWebhook)
    case Some(cfg) => NotificationService(Some(cfg.0), Some(cfg.1), discordWebhook)
  }

  /** `send_telegram` goes past its guard only with a non-empty token and chat id. */
  predicate TelegramConfigured(s: NotificationService): (r: bool)
    ensures r <==> && s.telegramToken.Some? && s.telegramToken.value != ""
                   && s.telegramChatId.Some? && s.telegramChatId.value != ""
  {
    Truthy(s.telegramToken) && Truthy(s.telegramChatId)
  }

  /** `send_discord` goes past its guard only with a non-empty webhook. */
  predicate DiscordConfigured(s: NotificationService): (r: bool)
    ensures r <==> s.discordWebhook.Some? && s.discordWebhook.value != ""
  {
    Truthy(s.discordWebhook)
  }

  /** Without a telegram configuration, or with an empty token or chat id, telegram is skipped. */
  lemma TelegramGuard(cfg: Option<(string, string)>, webhook: Option<string>)
    ensures var s := NewNotificationService(cfg, webhook);
      && (cfg.None? ==> !TelegramConfigured(s))
      && (cfg.Some? ==> (TelegramConfigured(s) <==> cfg.value.0 != "" && cfg.value.1 != ""))
      && (DiscordConfigured(s) <==> Truthy(webhook))
  {
  }

  /** The header lines: title, link and, for an item with a time, that time. */
  function HeaderLines(news: NewsItem, fmt: int -> string): (r: seq<string>)
    ensures |r| == (if news.published.Some? then 3 else 2)
  {
    [TitlePrefix + news.title, LinkPrefix + news.link]
      + (if news.published.Some? then [TimePrefix + fmt(news.published.value)] else [])
  }

  /** The lines `build_message` joins; `fmt` renders a time the way `str(datetime)` does. */
  function MessageLines(p: ProcessedItem, fmt: int -> string): (r: seq<string>)
    ensures var h := HeaderLines(p.news, fmt);
      && |r| == |h| + (if Truthy(p.script) then 2 else if Truthy(p.error) then 1 else 0)
      && r[..|h|] == h
      && (Truthy(p.script) ==> r[|h|] == ScriptHeading && r[|h| + 1] == p.script.value)
      && (!Truthy(p.script) && Truthy(p.error) ==> r[|h|] == ErrorPrefix + p.error.value)
  {
    HeaderLines(p.news, fmt)
      + (if Truthy(p.script) then [ScriptHeading, p.script.value]
         else if Truthy(p.error) then [ErrorPrefix + p.error.value]
         else [])
  }

  /** The text of the message for `p`. */
  function MessageText(p: ProcessedItem, fmt: int -> string): string {
    Join(MessageLines(p, fmt), "\n")
  }

  /** `build_message`: starts from title and link and appends the optional lines in turn. */
  method BuildMessage(p: ProcessedItem, fmt: int -> string) returns (text: string)
    ensures text == MessageText(p, fmt)
  {
    var news := p.news;
    var lines := [TitlePrefix + news.title, LinkPrefix + news.link];
    if news.published.Some? {
      lines := lines + [TimePrefix + fmt(news.published.value)];
    }
    assert lines == HeaderLines(news, fmt);
    if p.script.Some? && p.script.value != "" {
      lines := lines + [ScriptHeading];
      lines := lines + [p.script.value];
    } else if p.error.Some? && p.error.value != "" {
      lines := lines + [ErrorPrefix + p.error.value];
    }
    assert lines == MessageLines(p, fmt);
    text := Join(lines, "\n");
  }

  /** Line one is the title and line two the link; a time line is third exactly when there is a time. */
  lemma MessageHeader(p: ProcessedItem, fmt: int -> string)
    ensures var lines := MessageLines(p, fmt);
      && |lines| >= 2
      && lines[0] == TitlePrefix + p.news.title
      && lines[1] == LinkPrefix + p.news.link
      && (p.news.published.Some? ==> lines[2] == TimePrefix + fmt(p.news.published.value))
      && (p.news.published.None? && |lines| > 2 ==> lines[2] == ScriptHeading || lines[2] == ErrorPrefix + p.error.value)
    ensures TitlePrefix + p.news.title + "\n" + LinkPrefix + p.news.link <= MessageText(p, fmt)
  {
    var lines := MessageLines(p, fmt);
    var h := HeaderLines(p.news, fmt);
    assert lines[..2] == [TitlePrefix + p.news.title, LinkPrefix + p.news.link];
    JoinPrefix(lines, 2, "\n");
    JoinSnoc([TitlePrefix + p.news.title], LinkPrefix + p.news.link, "\n");
    assert [TitlePrefix + p.news.title] + [LinkPrefix + p.news.link] == lines[..2];
  }

  /** A non-empty script ends the message under its heading, and no error line appears. */
  lemma ScriptBeatsError(p: ProcessedItem, fmt: int -> string)
    requires Truthy(p.script)
    ensures MessageLines(p, fmt) == HeaderLines(p.news, fmt) + [ScriptHeading, p.script.value]
    ensures MessageText(p, fmt) ==
      Join(HeaderLines(p.news, fmt), "\n") + "\n" + ScriptHeading + "\n" + p.script.value
  {
    var h := HeaderLines(p.news, fmt);
    assert h + [ScriptHeading, p.script.value] == (h + [ScriptHeading]) + [p.script.value];
    JoinSnoc(h, ScriptHeading, "\n");
    JoinSnoc(h + [ScriptHeading], p.script.value, "\n");
  }

  /** The error line ends the message exactly when there is no script but there is an error. */
  lemma ErrorLineOnlyWithoutScript(p: ProcessedItem, fmt: int -> string)
    ensures var lines := MessageLines(p, fmt);
      (p.error.Some? && lines == HeaderLines(p.news, fmt) + [ErrorPrefix + p.error.value]) <==>
      (!Truthy(p.script) && Truthy(p.error))
    ensures !Truthy(p.script) && Truthy(p.error) ==>
      MessageText(p, fmt) == Join(HeaderLines(p.news, fmt), "\n") + "\n" + ErrorPrefix + p.error.value
  {
    var h := HeaderLines(p.news, fmt);
    var lines := MessageLines(p, fmt);
    if Truthy(p.script) {
      assert lines[|h|] == ScriptHeading;
      assert |lines| == |h| + 2;
    } else if Truthy(p.error) {
      JoinSnoc(h, ErrorPrefix + p.error.value, "\n");
    } else {
      assert |lines| == |h|;
    }
  }

  /** With neither script nor error the message is the two or three header lines. */
  lemma HeaderOnly(p: ProcessedItem, fmt: int -> string)
    requires !Truthy(p.script) && !Truthy(p.error)
    ensures MessageLines(p, fmt) == HeaderLines(p.news, fmt)
    ensures |MessageLines(p, fmt)| == (if p.news.published.Some? then 3 else 2)
  {
    assert MessageLines(p, fmt) == HeaderLines(p.news, fmt) + [];
  }

  /** The sends `send_all` makes with one text: telegram, then discord, each only if configured. */
  function Dispatch(s: NotificationService, text: string, sink: (Channel, string) -> bool): seq<Delivery> {
    (if TelegramConfigured(s) then [Delivery(Telegram, text, sink(Telegram, text))] else [])
      + (if DiscordConfigured(s) then [Delivery(Discord, text, sink(Discord, text))] else [])
  }

  /** Which channels are tried never depends on whether another channel's send fails. */
  lemma DispatchIsolated(s: NotificationService, text: string, sink1: (Channel, string) -> bool,
                         sink2: (Channel, string) -> bool)
    ensures |Dispatch(s, text, sink1)| == |Dispatch(s, text, sink2)|
    ensures forall i :: 0 <= i < |Dispatch(s, text, sink1)| ==>
      Dispatch(s, text, sink1)[i].channel == Dispatch(s, text, sink2)[i].channel &&
      Dispatch(s, text, sink1)[i].text == Dispatch(s, text, sink2)[i].text
  {
  }

  /** `send_all`: builds the text once and hands that same text to every configured channel. */
  method SendAll(s: NotificationService, p: ProcessedItem, fmt: int -> string, sink: (Channel, string) -> bool)
    returns (deliveries: seq<Delivery>)
    ensures |deliveries| == (if TelegramConfigured(s) then 1 else 0) + (if DiscordConfigured(s) then 1 else 0)
    ensures forall d :: d in deliveries ==> d.text == MessageText(p, fmt) && d.delivered == sink(d.channel, d.text)
    ensures (exists d :: d in deliveries && d.channel == Telegram) <==> TelegramConfigured(s)
    ensures (exists d :: d in deliveries && d.channel == Discord) <==> DiscordConfigured(s)
    ensures !TelegramConfigured(s) && !DiscordConfigured(s) ==> deliveries == []
  {
    var text := BuildMessage(p, fmt);
    deliveries := Dispatch(s, text, sink);
    if TelegramConfigured(s) {
      assert deliveries[0].channel == Telegram;
    }
    if DiscordConfigured(s) {
      assert deliveries[|deliveries| - 1].channel == Discord;
    }
  }
}
