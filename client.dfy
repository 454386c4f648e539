/**
 * The outbound side of the WhatsApp Cloud API: the payloads the bot sends (plain text,
 * reply buttons, lists) and the client that posts them. The HTTP call itself is a sink
 * whose answer is a parameter of the model; every send is recorded in `sent`.
 */
module Gateway {
  import opened Wrappers
  import Strings

  /** A reply button: the `id` comes back in the user's answer, the `title` is shown. */
  datatype Button = Button(id: string, title: string)

  datatype ListRow = ListRow(id: string, title: string, description: Option<string>)

  datatype ListSection = ListSection(title: string, rows: seq<ListRow>)

  datatype Action =
    | ReplyButtons(buttons: seq<Button>)
    | ListAction(button: string, sections: seq<ListSection>)

  datatype OutboundMessage =
    | TextMessage(to: string, previewUrl: bool, body: string)
    | InteractiveMessage(to: string, header: Option<string>, body: string, footer: Option<string>, action: Action)

  /** The platform shows at most three reply buttons ... */
  const MaxButtons: nat := 3
  /** ... each with a title of at most twenty characters. */
  const MaxButtonTitle: nat := 20

  /** `text && { ... }` inside an object spread: the part is there only for a non-empty text. */
  function OptionalText(text: Option<string>): (r: Option<string>)
    ensures r.Some? <==> text.Some? && text.value != ""
    ensures r.Some? ==> r.value == text.value
  {
    if text.Some? && text.value != "" then text else None
  }

  /** The payload of `sendText`: link previews off, the body is the given text. */
  function TextPayload(to: string, text: string): (m: OutboundMessage)
    ensures m.TextMessage? && m.to == to && !m.previewUrl && m.body == text
  {
    TextMessage(to, false, text)
  }

  /** One reply button as sent: the id unchanged, the title cut to twenty characters. */
  function ReplyButton(b: Button): (r: Button)
    ensures r.id == b.id
    ensures |r.title| <= MaxButtonTitle && r.title <= b.title
    ensures |b.title| <= MaxButtonTitle ==> r.title == b.title
  {
    Button(b.id, Strings.Truncate(b.title, MaxButtonTitle))
  }

  /** `buttons.slice(0, 3).map(...)`: the first three buttons, in their order. */
  function ReplyButtonsOf(buttons: seq<Button>): (r: seq<Button>)
    ensures |r| == if |buttons| < MaxButtons then |buttons| else MaxButtons
    ensures forall i :: 0 <= i < |r| ==> r[i] == ReplyButton(buttons[i])
  {
    var firsts := if |buttons| <= MaxButtons then buttons else buttons[..MaxButtons];
    seq(|firsts|, i requires 0 <= i < |firsts| => ReplyButton(firsts[i]))
  }

  /** The payload of `sendButtons`. */
  function ButtonsPayload(to: string, body: string, buttons: seq<Button>,
                          header: Option<string>, footer: Option<string>): (m: OutboundMessage)
    ensures m.InteractiveMessage? && m.to == to && m.body == body && m.action.ReplyButtons?
    ensures |m.action.buttons| <= MaxButtons
    ensures |buttons| <= MaxButtons ==> |m.action.buttons| == |buttons|
    ensures forall i :: 0 <= i < |m.action.buttons| ==>
      m.action.buttons[i].id == buttons[i].id
      && m.action.buttons[i].title == Strings.Truncate(buttons[i].title, MaxButtonTitle)
    ensures m.header.Some? <==> header.Some? && header.value != ""
    ensures m.footer.Some? <==> footer.Some? && footer.value != ""
    ensures m.header.Some? ==> m.header == header
    ensures m.footer.Some? ==> m.footer == footer
  {
    InteractiveMessage(to, OptionalText(header), body, OptionalText(footer), ReplyButtons(ReplyButtonsOf(buttons)))
  }

  /** The payload of `sendList`: the sections go out exactly as given, with no cap on rows. */
  function ListPayload(to: string, body: string, buttonText: string, sections: seq<ListSection>,
                       header: Option<string>, footer: Option<string>): (m: OutboundMessage)
    ensures m.InteractiveMessage? && m.to == to && m.body == body
    ensures m.action == ListAction(buttonText, sections)
    ensures m.header.Some? <==> header.Some? && header.value != ""
    ensures m.footer.Some? <==> footer.Some? && footer.value != ""
    ensures m.header.Some? ==> m.header == header
    ensures m.footer.Some? ==> m.footer == footer
  {
    InteractiveMessage(to, OptionalText(header), body, OptionalText(footer), ListAction(buttonText, sections))
  }

  /** What the HTTP call does: it answers with an OK or non-OK status, or it throws. */
  datatype HttpOutcome = Responded(ok: bool) | Threw

  /** `sendMessage`'s result: true for an OK response only; an exception becomes false. */
  function Delivered(outcome: HttpOutcome): (ok: bool)
    ensures ok <==> outcome == Responded(true)
  {
    match outcome
    case Responded(status) => status
    case Threw => false
  }

  class WhatsAppClient {
    /** Every payload handed to `sendMessage`, in order. */
    var sent: seq<OutboundMessage>
    /** How the platform answers each post: `transport(n)` is the outcome of the `n`-th one, counted from 0. */
    const transport: nat -> HttpOutcome

    constructor (transport: nat -> HttpOutcome)
      ensures sent == [] && this.transport == transport
    {
      sent := [];
      this.transport := transport;
    }

    /** Posts one payload; never fails, reports delivery as a boolean. */
    method SendMessage(m: OutboundMessage) returns (ok: bool)
      modifies this
      ensures sent == old(sent) + [m]
      ensures ok == Delivered(transport(|old(sent)|))
    {
      ok := Delivered(transport(|sent|));
      sent := sent + [m];
    }

    method SendText(to: string, text: string) returns (ok: bool)
      modifies this
      ensures sent == old(sent) + [TextPayload(to, text)]
      ensures ok == Delivered(transport(|old(sent)|))
    {
      ok := SendMessage(TextPayload(to, text));
    }

    method SendButtons(to: string, body: string, buttons: seq<Button>, header: Option<string>, footer: Option<string>)
      returns (ok: bool)
      modifies this
      ensures sent == old(sent) + [ButtonsPayload(to, body, buttons, header, footer)]
      ensures ok == Delivered(transport(|old(sent)|))
    {
      ok := SendMessage(ButtonsPayload(to, body, buttons, header, footer));
    }

    method SendList(to: string, body: string, buttonText: string, sections: seq<ListSection>,
                    header: Option<string>, footer: Option<string>)
      returns (ok: bool)
      modifies this
      ensures sent == old(sent) + [ListPayload(to, body, buttonText, sections, header, footer)]
      ensures ok == Delivered(transport(|old(sent)|))
    {
      ok := SendMessage(ListPayload(to, body, buttonText, sections, header, footer));
    }
  }
}
