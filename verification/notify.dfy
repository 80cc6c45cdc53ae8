/**
 * The demo notification endpoint, `POST /api/notify` (server.js) and its
 * router twin (routes/notify.js). A three-way branch on the request's
 * `type`: a WhatsApp link built from the phone's digits and the message,
 * a fixed Telegram acknowledgement, or a plain acknowledgement. The two
 * copies differ only in the brand named by the default thank-you text.
 */
module Notify {
  import opened Text
  import opened Base

  /** The JSON body of the reply; absent keys are `None`. */
  datatype Notice = Notice(message: string, url: Option<string>, note: Option<string>)

  const WhatsAppBase := "https://wa.me/"
  const TextParam := "?text="
  const ReadyMessage := "WhatsApp notification ready"
  const TelegramMessage := "Telegram notification sent"
  const TelegramNote := "In production, integrate with Telegram Bot API"
  const SentMessage := "Notification sent"

  function DefaultThanks(b: Brand): string {
    "Thank you for your purchase at " + BrandName(b) + "!"
  }

  /** `message || default`: an absent or empty message is replaced by the thank-you text. */
  function ChosenText(message: Option<string>, b: Brand): (t: string)
    ensures t != []
    ensures OrEmpty(message) != [] ==> t == OrEmpty(message)
  {
    if OrEmpty(message) == [] then DefaultThanks(b) else OrEmpty(message)
  }

  /**
   * The link `https://wa.me/<digits>?text=<encoded>`; `encode` stands for
   * `encodeURIComponent`, which is not part of this model.
   */
  function WhatsAppLink(phone: Option<string>, message: Option<string>, encode: string -> string, b: Brand): string {
    WhatsAppBase + Digits(OrEmpty(phone)) + TextParam + encode(ChosenText(message, b))
  }

  /**
   * Reads a link back: the phone segment runs from the end of the base to
   * the first `?`, which must open the `text` parameter.
   */
  function ParseWhatsAppLink(url: string): Option<(string, string)> {
    if !StartsWith(url, WhatsAppBase) then None
    else
      var rest := url[|WhatsAppBase|..];
      var i := IndexOf(rest, '?');
      if i == -1 || !StartsWith(rest[i..], TextParam) then None
      else Some((rest[..i], rest[i + |TextParam|..]))
  }

  lemma ParseBuiltLink(d: string, e: string)
    requires AllDigits(d)
    ensures ParseWhatsAppLink(WhatsAppBase + d + TextParam + e) == Some((d, e))
  {
    var rest := d + TextParam + e;
    var url := WhatsAppBase + rest;
    assert WhatsAppBase + d + TextParam + e == url;
    assert StartsWith(url, WhatsAppBase) && url[|WhatsAppBase|..] == rest;
    var tail := TextParam + e;
    assert rest == d + tail;
    assert tail[0] == '?';
    assert rest[|d|] == '?' && rest[..|d|] == d && rest[|d|..] == tail;
    IndexOfFirst(rest, '?', |d|);
    assert StartsWith(tail, TextParam) && tail[|TextParam|..] == e;
  }

  /**
   * The link carries exactly the digit characters of the phone (none when
   * the phone is missing) and the encoded message or default text.
   */
  lemma WhatsAppLinkRoundTrip(phone: Option<string>, message: Option<string>, encode: string -> string, b: Brand)
    ensures ParseWhatsAppLink(WhatsAppLink(phone, message, encode, b))
         == Some((Digits(OrEmpty(phone)), encode(ChosenText(message, b))))
  {
    ParseBuiltLink(Digits(OrEmpty(phone)), encode(ChosenText(message, b)));
  }

  /** The handler's decision on `type`. */
  function Dispatch(kind: Option<string>, phone: Option<string>, message: Option<string>,
                    encode: string -> string, b: Brand): (n: Notice)
    ensures n.url.Some? <==> kind == Some("whatsapp")
    ensures n.url.Some? ==>
      n.message == ReadyMessage && n.note.None? &&
      ParseWhatsAppLink(n.url.value) == Some((Digits(OrEmpty(phone)), encode(ChosenText(message, b))))
    ensures kind == Some("telegram") ==> n == Notice(TelegramMessage, None, Some(TelegramNote))
    ensures kind != Some("whatsapp") && kind != Some("telegram") ==> n == Notice(SentMessage, None, None)
  {
    if kind == Some("whatsapp") then
      WhatsAppLinkRoundTrip(phone, message, encode, b);
      Notice(ReadyMessage, Some(WhatsAppLink(phone, message, encode, b)), None)
    else if kind == Some("telegram") then
      Notice(TelegramMessage, None, Some(TelegramNote))
    else
      Notice(SentMessage, None, None)
  }

  /** A missing phone gives an empty phone segment. */
  lemma MissingPhoneEmptySegment(message: Option<string>, encode: string -> string, b: Brand)
    ensures Dispatch(Some("whatsapp"), None, message, encode, b).url
         == Some(WhatsAppBase + TextParam + encode(ChosenText(message, b)))
  {
    var empty: string := [];
    assert Digits(OrEmpty(None)) == empty;
    assert WhatsAppBase + empty == WhatsAppBase;
  }

  /**
   * server.js and routes/notify.js answer alike unless a WhatsApp link is
   * built with no message, where each names its own brand.
   */
  lemma BrandOnlyInDefaultText(kind: Option<string>, phone: Option<string>, message: Option<string>,
                               encode: string -> string)
    ensures Dispatch(kind, phone, message, encode, Kvantum) == Dispatch(kind, phone, message, encode, Quantum)
        <==> kind != Some("whatsapp") || OrEmpty(message) != [] || encode(DefaultThanks(Kvantum)) == encode(DefaultThanks(Quantum))
  {
    if kind == Some("whatsapp") && OrEmpty(message) == [] {
      var k := Dispatch(kind, phone, message, encode, Kvantum);
      var q := Dispatch(kind, phone, message, encode, Quantum);
      if k == q {
        assert ParseWhatsAppLink(k.url.value) == ParseWhatsAppLink(q.url.value);
      }
    }
  }
}
