/**
 * The entry point of the bot: an inbound WhatsApp message is flattened to one string, the
 * sender's conversation is fetched (or created idle), and the message is routed on the
 * conversation's step: the greeting, the main menu, the booking flow or the reports flow.
 */
module Router {
  import opened Wrappers
  import Strings
  import opened Conversation
  import Gateway
  import Data
  import opened Runtime
  import Scheduling
  import Reports

  // ----- inbound messages -----

  datatype MessageType =
    | TextType | InteractiveType | ButtonType
    | ImageType | DocumentType | AudioType | VideoType | LocationType

  /** The subtype of an interactive answer; anything but the two reply kinds is `OtherReply`. */
  datatype ReplyKind = ButtonReply | ListReply | OtherReply

  /** The id and title of the button or list row the user picked. */
  datatype Reply = Reply(id: string, title: string)

  datatype Interactive = Interactive(kind: ReplyKind, buttonReply: Option<Reply>, listReply: Option<Reply>)

  /** The answer to a template's quick-reply button. */
  datatype TemplateButton = TemplateButton(payload: Option<string>, text: Option<string>)

  /** One message of the webhook's `messages` array; `text` is the body of a text message. */
  datatype InboundMessage = InboundMessage(
    from: string,
    id: string,
    timestamp: string,
    kind: MessageType,
    text: Option<string>,
    interactive: Option<Interactive>,
    button: Option<TemplateButton>)

  /** `a || b` where `a` may be undefined: an empty string falls through as well. */
  function Or(a: Option<string>, b: string): (r: string)
    ensures Truthy(a) ==> r == a.value
    ensures !Truthy(a) ==> r == b
  {
    if Truthy(a) then a.value else b
  }

  function ReplyIdOf(r: Option<Reply>): Option<string>
  {
    if r.Some? then Some(r.value.id) else None
  }

  /** The interactive answer picks the reply `id` of the kind it announces. */
  predicate Answers(i: Interactive, id: string)
  {
    (i.kind == ButtonReply && i.buttonReply.Some? && i.buttonReply.value.id == id)
    || (i.kind == ListReply && i.listReply.Some? && i.listReply.value.id == id)
  }

  /**
   * `extractMessageContent`: the text body, the id of the picked button or list row, or
   * the template button's payload (its text when the payload is empty); '' otherwise.
   */
  function ExtractContent(m: InboundMessage): (r: string)
    ensures m.kind !in {TextType, InteractiveType, ButtonType} ==> r == ""
    ensures m.kind == TextType ==> (r != "" <==> Truthy(m.text)) && (r != "" ==> m.text == Some(r))
    ensures m.kind == InteractiveType ==>
      (r != "" ==> m.interactive.Some? && Answers(m.interactive.value, r))
      && (forall id :: m.interactive.Some? && Answers(m.interactive.value, id) ==> r == id)
    ensures m.kind == ButtonType ==>
      (r != "" ==> m.button.Some? && (m.button.value.payload == Some(r) || m.button.value.text == Some(r)))
      && (m.button.Some? && Truthy(m.button.value.payload) ==> r == m.button.value.payload.value)
      && (m.button.Some? && !Truthy(m.button.value.payload) ==> r == Or(m.button.value.text, ""))
  {
    match m.kind
    case TextType => Or(m.text, "")
    case InteractiveType =>
      if m.interactive.Some? && m.interactive.value.kind == ButtonReply then Or(ReplyIdOf(m.interactive.value.buttonReply), "")
      else if m.interactive.Some? && m.interactive.value.kind == ListReply then Or(ReplyIdOf(m.interactive.value.listReply), "")
      else ""
    case ButtonType =>
      if m.button.Some? then Or(m.button.value.payload, Or(m.button.value.text, "")) else ""
    case _ => ""
  }

  /** The user's tap on a reply button the bot sent comes back as that button's id. */
  lemma ButtonReplyRoundTrip(sent: Gateway.OutboundMessage, i: nat, reply: InboundMessage)
    requires sent.InteractiveMessage? && sent.action.ReplyButtons? && i < |sent.action.buttons|
    requires reply.kind == InteractiveType
    requires reply.interactive == Some(Interactive(ButtonReply,
      Some(Reply(sent.action.buttons[i].id, sent.action.buttons[i].title)), None))
    ensures ExtractContent(reply) == sent.action.buttons[i].id
  {
    assert Answers(reply.interactive.value, sent.action.buttons[i].id);
  }

  /** The user's pick of a list row the bot sent comes back as that row's id. */
  lemma ListReplyRoundTrip(sent: Gateway.OutboundMessage, j: nat, i: nat, reply: InboundMessage)
    requires sent.InteractiveMessage? && sent.action.ListAction?
    requires j < |sent.action.sections| && i < |sent.action.sections[j].rows|
    requires reply.kind == InteractiveType
    requires var row := sent.action.sections[j].rows[i];
      reply.interactive == Some(Interactive(ListReply, None, Some(Reply(row.id, row.title))))
    ensures ExtractContent(reply) == sent.action.sections[j].rows[i].id
  {
    assert Answers(reply.interactive.value, sent.action.sections[j].rows[i].id);
  }

  // ----- the greeting -----

  const GreetingButtons := [
    Gateway.Button("schedule", "Agendar horario"),
    Gateway.Button("my_appointments", "Meus agendamentos"),
    Gateway.Button("reports", "Relatorios")]

  function GreetingText(senderName: string): string
  {
    "Ola " + senderName + "! Bem-vindo a nossa barbearia.\n\nComo posso ajudar voce hoje?"
  }

  function GreetingMessage(phone: string, senderName: string): Gateway.OutboundMessage
  {
    Gateway.ButtonsPayload(phone, GreetingText(senderName), GreetingButtons, Some("Barbearia Pro"), None)
  }

  /** `sendGreeting`: the conversation moves to the main menu and the three options are offered. */
  function GreetingEffect(s: ConversationState, phone: string, senderName: string, env: Env): Scheduling.Effect
  {
    Scheduling.Effect(Scheduling.Stepped(s, MainMenu, env), [GreetingMessage(phone, senderName)])
  }

  /** The greeting offers exactly the three menu options, with their titles in full, and nothing else. */
  lemma {:induction false} GreetingOffersThree(s: ConversationState, phone: string, senderName: string, env: Env)
    ensures var e := GreetingEffect(s, phone, senderName, env);
      e.state.currentStep == MainMenu && e.state.context == s.context && |e.sent| == 1
      && e.sent[0].InteractiveMessage? && e.sent[0].to == phone && e.sent[0].action.ReplyButtons?
      && e.sent[0].header == Some("Barbearia Pro") && e.sent[0].footer == None
      && e.sent[0].action.buttons == GreetingButtons
  {
    var m := GreetingMessage(phone, senderName);
    var b := m.action.buttons;
    assert |b| == 3;
    forall i | 0 <= i < 3
      ensures b[i] == GreetingButtons[i]
    {
      assert |GreetingButtons[i].title| <= Gateway.MaxButtonTitle;
    }
  }

  // ----- the main menu -----

  const InDevelopmentText := "Funcionalidade de consulta de agendamentos em desenvolvimento."
  const NoPermissionText := "Desculpe, voce nao tem permissao para acessar os relatorios."
  const NotUnderstoodText := "Desculpe, nao entendi. Por favor, escolha uma das opcoes abaixo:"
  /** The name the greeting uses when the menu is re-sent. */
  const FallbackName := "Cliente"

  predicate AsksSchedule(n: string)
  {
    n == "schedule" || Strings.Contains(n, "agendar")
  }

  predicate AsksAppointments(n: string)
  {
    n == "my_appointments" || Strings.Contains(n, "meus agendamentos")
  }

  predicate AsksReports(n: string)
  {
    n == "reports" || Strings.Contains(n, "relatorio")
  }

  /**
   * `handleMainMenu`: the lower-cased, trimmed answer is tested for scheduling, then for the
   * appointments query, then for reports (staff only); anything else re-sends the greeting.
   * The flows are entered with 'start' and the menu's own snapshot, whose step is `main_menu`;
   * `MenuStartsFlows` shows that this lands on the service list and on the reports menu.
   */
  function MainMenuEffect(s: ConversationState, content: string, snapshot: ConversationState,
                          services: seq<Data.Service>, phone: string, env: Env): Scheduling.Effect
  {
    var n := Reports.Normalize(content);
    if AsksSchedule(n) then
      Scheduling.ServiceListEffect(Scheduling.Stepped(s, SelectService, env),
        Data.ShopServices(services, snapshot.barbershopId), phone, env)
    else if AsksAppointments(n) then
      Scheduling.Effect(Scheduling.Stepped(s, Idle, env), [Gateway.TextPayload(phone, InDevelopmentText)])
    else if AsksReports(n) then
      if Reports.IsStaff(snapshot.userRole) then
        Reports.MenuEffect(Scheduling.Stepped(s, ReportsMenu, env), phone, snapshot)
      else
        Scheduling.Effect(Scheduling.Stepped(s, Idle, env), [Gateway.TextPayload(phone, NoPermissionText)])
    else
      var g := GreetingEffect(s, phone, FallbackName, env);
      Scheduling.Effect(g.state, [Gateway.TextPayload(phone, NotUnderstoodText)] + g.sent)
  }

  /**
   * Entered with 'start' from a snapshot at `main_menu`, the booking flow lists the
   * barbershop's services and the reports flow shows its menu.
   */
  lemma MenuStartsFlows(t: ConversationState, snapshot: ConversationState,
                        clients: seq<Data.Client>, services: seq<Data.Service>, barbers: seq<Data.Barber>,
                        appointments: seq<Data.Appointment>, phone: string, env: Env)
    requires ValidEnv(env) && Data.StartTimesSplit(appointments) && snapshot.currentStep == MainMenu
    ensures Scheduling.SchedulingEffect(t, "start", snapshot, clients, services, barbers, appointments, phone, env)
      == Scheduling.ServiceListEffect(t, Data.ShopServices(services, snapshot.barbershopId), phone, env)
    ensures Reports.ReportsEffect(t, "start", snapshot, appointments, barbers, phone, env)
      == Reports.MenuEffect(t, phone, snapshot)
  {
  }

  /**
   * Asking to schedule (from the menu) moves to `select_service` and lists the barbershop's
   * services; with no service the conversation goes back to idle.
   */
  lemma MainMenuSchedules(s: ConversationState, content: string, snapshot: ConversationState,
                          services: seq<Data.Service>, phone: string, env: Env)
    requires AsksSchedule(Reports.Normalize(content))
    ensures var e := MainMenuEffect(s, content, snapshot, services, phone, env);
      var offered := Data.ShopServices(services, snapshot.barbershopId);
      e.state.context == s.context
      && (offered != [] ==> e.state.currentStep == SelectService
                            && e.sent == [Scheduling.ServiceListMessage(phone, offered)])
      && (offered == [] ==> e.state.currentStep == Idle
                            && e.sent == [Gateway.TextPayload(phone, Scheduling.NoServicesText)])
  {
    var offered := Data.ShopServices(services, snapshot.barbershopId);
    var t := Scheduling.Stepped(s, SelectService, env);
    assert MainMenuEffect(s, content, snapshot, services, phone, env)
      == Scheduling.ServiceListEffect(t, offered, phone, env);
  }

  /**
   * Asking for reports reaches `reports_menu`, with the menu for the role, only for a barber,
   * manager or owner; anyone else is refused and sent back to idle.
   */
  lemma MainMenuReportsGate(s: ConversationState, content: string, snapshot: ConversationState,
                            services: seq<Data.Service>, phone: string, env: Env)
    requires var n := Reports.Normalize(content); !AsksSchedule(n) && !AsksAppointments(n) && AsksReports(n)
    ensures var e := MainMenuEffect(s, content, snapshot, services, phone, env);
      e.state.context == s.context
      && (Reports.IsStaff(snapshot.userRole) <==> e.state.currentStep == ReportsMenu)
      && (Reports.IsStaff(snapshot.userRole) ==> e.sent == [Reports.MenuMessage(phone, snapshot.userRole)])
      && (!Reports.IsStaff(snapshot.userRole) ==>
            e.state.currentStep == Idle && e.sent == [Gateway.TextPayload(phone, NoPermissionText)])
  {
    var e := MainMenuEffect(s, content, snapshot, services, phone, env);
    if Reports.IsStaff(snapshot.userRole) {
      assert e == Reports.MenuEffect(Scheduling.Stepped(s, ReportsMenu, env), phone, snapshot);
    } else {
      assert e == Scheduling.Effect(Scheduling.Stepped(s, Idle, env), [Gateway.TextPayload(phone, NoPermissionText)]);
    }
  }

  /** An answer the menu does not recognise apologises and re-sends the greeting: the step stays `main_menu`. */
  lemma MainMenuRepeats(s: ConversationState, content: string, snapshot: ConversationState,
                        services: seq<Data.Service>, phone: string, env: Env)
    requires var n := Reports.Normalize(content); !AsksSchedule(n) && !AsksAppointments(n) && !AsksReports(n)
    ensures var e := MainMenuEffect(s, content, snapshot, services, phone, env);
      e.state.currentStep == MainMenu && e.state.context == s.context
      && e.sent == [Gateway.TextPayload(phone, NotUnderstoodText), GreetingMessage(phone, FallbackName)]
  {
    MenuApologises(s, content, snapshot, services, phone, env);
  }

  /** The menu's answer to the appointments option: a notice, and back to idle. */
  lemma MenuInDevelopment(s: ConversationState, content: string, snapshot: ConversationState,
                          services: seq<Data.Service>, phone: string, env: Env)
    requires var n := Reports.Normalize(content); !AsksSchedule(n) && AsksAppointments(n)
    ensures MainMenuEffect(s, content, snapshot, services, phone, env)
      == Scheduling.Effect(Scheduling.Stepped(s, Idle, env), [Gateway.TextPayload(phone, InDevelopmentText)])
  {
  }

  /** The menu's answer to a reports request from outside the staff: a refusal, and back to idle. */
  lemma MenuRefusesReports(s: ConversationState, content: string, snapshot: ConversationState,
                           services: seq<Data.Service>, phone: string, env: Env)
    requires var n := Reports.Normalize(content); !AsksSchedule(n) && !AsksAppointments(n) && AsksReports(n)
    requires !Reports.IsStaff(snapshot.userRole)
    ensures MainMenuEffect(s, content, snapshot, services, phone, env)
      == Scheduling.Effect(Scheduling.Stepped(s, Idle, env), [Gateway.TextPayload(phone, NoPermissionText)])
  {
  }

  /** The menu's answer to anything else: an apology and the greeting, staying at `main_menu`. */
  lemma MenuApologises(s: ConversationState, content: string, snapshot: ConversationState,
                       services: seq<Data.Service>, phone: string, env: Env)
    requires var n := Reports.Normalize(content); !AsksSchedule(n) && !AsksAppointments(n) && !AsksReports(n)
    ensures MainMenuEffect(s, content, snapshot, services, phone, env)
      == Scheduling.Effect(Scheduling.Stepped(s, MainMenu, env),
                           [Gateway.TextPayload(phone, NotUnderstoodText), GreetingMessage(phone, FallbackName)])
  {
    var g := GreetingEffect(s, phone, FallbackName, env);
    assert MainMenuEffect(s, content, snapshot, services, phone, env)
      == Scheduling.Effect(g.state, [Gateway.TextPayload(phone, NotUnderstoodText)] + g.sent);
  }

  /** A word of lower-case letters and underscores is its own normal form. */
  lemma {:induction false} NormalizeWord(w: string)
    requires w != [] && PlainChars(w)
    ensures Reports.Normalize(w) == w
  {
    PlainIsLower(w);
    PlainIsTrimmed(w);
  }

  lemma PlainIsLower(w: string)
    requires PlainChars(w)
    ensures Strings.ToLower(w) == w
  {
    assert forall i :: 0 <= i < |w| ==> Strings.LowerChar(w[i]) == w[i];
  }

  lemma PlainIsTrimmed(w: string)
    requires w != [] && PlainChars(w)
    ensures Strings.Trim(w) == w
  {
    assert !Strings.IsJsSpace(w[0]) && !Strings.IsJsSpace(w[|w| - 1]);
    assert Strings.TrimStart(w) == w;
    assert Strings.TrimEnd(w) == w;
  }

  /** A word without a 'g' contains neither phrase that asks to schedule or for the appointments. */
  lemma NoScheduleKeyword(w: string)
    requires PlainChars(w)
    ensures !Strings.Contains(w, "agendar") && !Strings.Contains(w, "meus agendamentos")
  {
    assert 'g' !in w;
    KeywordsHaveG();
    Reports.NotContainsChar(w, "agendar", 'g');
    Reports.NotContainsChar(w, "meus agendamentos", 'g');
  }

  lemma KeywordsHaveG()
    ensures 'g' in "agendar" && 'g' in "meus agendamentos"
  {
    assert "agendar"[1] == 'g';
    assert "meus agendamentos"[6] == 'g';
  }

  /** The greeting's button ids are made of lower-case letters and underscores, with no 'g'. */
  predicate PlainChars(w: string)
  {
    forall i :: 0 <= i < |w| ==> (('a' <= w[i] <= 'z') || w[i] == '_') && w[i] != 'g'
  }

  lemma ButtonIdsPlain()
    ensures PlainChars("schedule") && PlainChars("my_appointments") && PlainChars("reports")
  {
  }

  /** The id of the greeting's first button asks to schedule. */
  lemma ScheduleIdRoutes()
    ensures AsksSchedule(Reports.Normalize(GreetingButtons[0].id))
  {
    ButtonIdsPlain();
    NormalizeWord(GreetingButtons[0].id);
  }

  /** The id of the greeting's second button asks for the appointments, and not to schedule. */
  lemma {:induction false} AppointmentsIdRoutes()
    ensures var n := Reports.Normalize(GreetingButtons[1].id); !AsksSchedule(n) && AsksAppointments(n)
  {
    var id := GreetingButtons[1].id;
    assert id == "my_appointments";
    ButtonIdsPlain();
    NormalizeWord(id);
    NoScheduleKeyword(id);
  }

  /** The id of the greeting's third button asks for reports, and for neither earlier option. */
  lemma {:induction false} ReportsIdRoutes()
    ensures var n := Reports.Normalize(GreetingButtons[2].id);
      !AsksSchedule(n) && !AsksAppointments(n) && AsksReports(n)
  {
    var id := GreetingButtons[2].id;
    assert id == "reports";
    ButtonIdsPlain();
    NormalizeWord(id);
    NoScheduleKeyword(id);
  }

  /** Outside the booking steps a conversation relies on no context field. */
  lemma OutsideBookingReady(x: ConversationState)
    requires x.currentStep in {Idle, Greeting, MainMenu, SelectService, ReportsMenu, AwaitingReportQuery}
    ensures Scheduling.Ready(x)
  {
    assert Scheduling.Needs(x.currentStep) == {};
  }

  /** The main menu keeps every conversation ready for the step it reaches. */
  lemma MainMenuKeepsReady(s: ConversationState, content: string, snapshot: ConversationState,
                           services: seq<Data.Service>, phone: string, env: Env)
    ensures Scheduling.Ready(MainMenuEffect(s, content, snapshot, services, phone, env).state)
  {
    var n := Reports.Normalize(content);
    var e := MainMenuEffect(s, content, snapshot, services, phone, env);
    if AsksSchedule(n) {
      MainMenuSchedules(s, content, snapshot, services, phone, env);
    } else if AsksAppointments(n) {
      assert e.state == Scheduling.Stepped(s, Idle, env);
    } else if AsksReports(n) {
      MainMenuReportsGate(s, content, snapshot, services, phone, env);
    } else {
      MainMenuRepeats(s, content, snapshot, services, phone, env);
    }
    OutsideBookingReady(e.state);
  }

  // ----- routing on the step -----

  /** The conversation `getOrCreateState` hands back: the stored one, or a fresh idle one. */
  function Arrived(states: map<string, ConversationState>, phone: string, env: Env): (s: ConversationState)
    ensures Scheduling.ConvKey(phone, env) in states ==> s == states[Scheduling.ConvKey(phone, env)]
    ensures Scheduling.ConvKey(phone, env) !in states ==> s.currentStep == Idle && s.context == map[]
  {
    var k := Scheduling.ConvKey(phone, env);
    if k in states then states[k] else NewState(phone, env.shop, env.now, env.random)
  }

  predicate InScheduling(step: Step)
  {
    step in {SelectService, SelectBarber, SelectDate, SelectTime, ConfirmAppointment}
  }

  predicate InReports(step: Step)
  {
    step == ReportsMenu || step == AwaitingReportQuery
  }

  /** `handleIncomingMessage`'s switch, with the conversation as its own snapshot. */
  function RouterEffect(s: ConversationState, content: string, senderName: string,
                        clients: seq<Data.Client>, services: seq<Data.Service>, barbers: seq<Data.Barber>,
                        appointments: seq<Data.Appointment>, phone: string, env: Env): Scheduling.Effect
    requires ValidEnv(env) && Data.StartTimesSplit(appointments)
  {
    match s.currentStep
    case Idle => GreetingEffect(s, phone, senderName, env)
    case MainMenu => MainMenuEffect(s, content, s, services, phone, env)
    case SelectService => Scheduling.SchedulingEffect(s, content, s, clients, services, barbers, appointments, phone, env)
    case SelectBarber => Scheduling.SchedulingEffect(s, content, s, clients, services, barbers, appointments, phone, env)
    case SelectDate => Scheduling.SchedulingEffect(s, content, s, clients, services, barbers, appointments, phone, env)
    case SelectTime => Scheduling.SchedulingEffect(s, content, s, clients, services, barbers, appointments, phone, env)
    case ConfirmAppointment =>
      Scheduling.SchedulingEffect(s, content, s, clients, services, barbers, appointments, phone, env)
    case ReportsMenu => Reports.ReportsEffect(s, content, s, appointments, barbers, phone, env)
    case AwaitingReportQuery => Reports.ReportsEffect(s, content, s, appointments, barbers, phone, env)
    case Greeting => GreetingEffect(s, phone, senderName, env)
  }

  /**
   * Routing by step: idle and greeting answer with the greeting whatever was sent, the booking
   * steps belong to the booking flow and the two report steps to the reports flow.
   */
  lemma RoutesByStep(s: ConversationState, content: string, senderName: string,
                     clients: seq<Data.Client>, services: seq<Data.Service>, barbers: seq<Data.Barber>,
                     appointments: seq<Data.Appointment>, phone: string, env: Env)
    requires ValidEnv(env) && Data.StartTimesSplit(appointments)
    ensures var e := RouterEffect(s, content, senderName, clients, services, barbers, appointments, phone, env);
      (s.currentStep in {Idle, Greeting} ==>
         e.state.currentStep == MainMenu && e.state.context == s.context && e.sent == [GreetingMessage(phone, senderName)])
      && (InScheduling(s.currentStep) ==>
         e == Scheduling.SchedulingEffect(s, content, s, clients, services, barbers, appointments, phone, env))
      && (InReports(s.currentStep) ==> e == Reports.ReportsEffect(s, content, s, appointments, barbers, phone, env))
  {
  }

  /** A phone with no conversation yet is greeted and lands on the main menu, whatever it sent. */
  lemma NewConversationGreeted(states: map<string, ConversationState>, content: string, senderName: string,
                               clients: seq<Data.Client>, services: seq<Data.Service>, barbers: seq<Data.Barber>,
                               appointments: seq<Data.Appointment>, phone: string, env: Env)
    requires ValidEnv(env) && Data.StartTimesSplit(appointments)
    requires Scheduling.ConvKey(phone, env) !in states
    ensures var e := RouterEffect(Arrived(states, phone, env), content, senderName, clients, services, barbers,
                                  appointments, phone, env);
      e.state.currentStep == MainMenu && e.state.context == map[] && e.sent == [GreetingMessage(phone, senderName)]
  {
  }

  /** Whatever the message, the conversation is left ready for the step it reaches. */
  lemma {:induction false} RouterKeepsReady(s: ConversationState, content: string, senderName: string,
                                            clients: seq<Data.Client>, services: seq<Data.Service>,
                                            barbers: seq<Data.Barber>, appointments: seq<Data.Appointment>,
                                            phone: string, env: Env)
    requires ValidEnv(env) && Data.StartTimesSplit(appointments)
    requires Scheduling.Ready(s)
    ensures Scheduling.Ready(RouterEffect(s, content, senderName, clients, services, barbers, appointments, phone, env).state)
  {
    var e := RouterEffect(s, content, senderName, clients, services, barbers, appointments, phone, env);
    if s.currentStep == MainMenu {
      assert e == MainMenuEffect(s, content, s, services, phone, env);
      MainMenuKeepsReady(s, content, s, services, phone, env);
    } else if InScheduling(s.currentStep) {
      assert e == Scheduling.SchedulingEffect(s, content, s, clients, services, barbers, appointments, phone, env);
      Scheduling.SchedulingKeepsReady(s, content, s, clients, services, barbers, appointments, phone, env);
    } else if InReports(s.currentStep) {
      assert e == Reports.ReportsEffect(s, content, s, appointments, barbers, phone, env);
      Reports.ReportsKeepContext(s, content, s, appointments, barbers, phone, env);
      OutsideBookingReady(e.state);
    } else {
      assert e == GreetingEffect(s, phone, senderName, env);
    }
  }

  // ----- the handlers -----

  method SendGreeting(store: ConversationStateManager, client: Gateway.WhatsAppClient, env: Env,
                      phone: string, senderName: string)
    requires Scheduling.ConvKey(phone, env) in store.states
    modifies store, client
    ensures var e := GreetingEffect(old(store.states)[Scheduling.ConvKey(phone, env)], phone, senderName, env);
      store.states == old(store.states)[Scheduling.ConvKey(phone, env) := e.state] && client.sent == old(client.sent) + e.sent
  {
    var _ := store.SetStep(phone, MainMenu, env.shop, env.now.iso);
    var _ := client.SendButtons(phone, GreetingText(senderName), GreetingButtons, Some("Barbearia Pro"), None);
  }

  /** The menu's scheduling branch: `select_service`, then the flow with 'start'. */
  method EnterScheduling(store: ConversationStateManager, client: Gateway.WhatsAppClient, data: Data.DataStore,
                         env: Env, phone: string, state: ConversationState)
    requires ValidEnv(env) && data.Valid() && Scheduling.ConvKey(phone, env) in store.states
    requires state.currentStep == MainMenu
    modifies store, client, data
    ensures data.Valid() && data.clients == old(data.clients) && data.appointments == old(data.appointments)
    ensures var e := Scheduling.ServiceListEffect(
                       Scheduling.Stepped(old(store.states)[Scheduling.ConvKey(phone, env)], SelectService, env),
                       Data.ShopServices(data.services, state.barbershopId), phone, env);
      store.states == old(store.states)[Scheduling.ConvKey(phone, env) := e.state] && client.sent == old(client.sent) + e.sent
  {
    ghost var k := Scheduling.ConvKey(phone, env);
    ghost var t := Scheduling.Stepped(store.states[k], SelectService, env);
    var _ := store.SetStep(phone, SelectService, env.shop, env.now.iso);
    assert store.states == old(store.states)[k := t];
    MenuStartsFlows(t, state, data.clients, data.services, data.barbers, data.appointments, phone, env);
    Scheduling.HandleSchedulingFlow(store, client, data, env, phone, "start", state);
  }

  /** The menu's reports branch for staff: `reports_menu`, then the flow with 'start'. */
  method EnterReports(store: ConversationStateManager, client: Gateway.WhatsAppClient, data: Data.DataStore,
                      env: Env, phone: string, state: ConversationState)
    requires Scheduling.ConvKey(phone, env) in store.states
    requires state.currentStep == MainMenu
    modifies store, client
    ensures var e := Reports.MenuEffect(
                       Scheduling.Stepped(old(store.states)[Scheduling.ConvKey(phone, env)], ReportsMenu, env), phone, state);
      store.states == old(store.states)[Scheduling.ConvKey(phone, env) := e.state] && client.sent == old(client.sent) + e.sent
  {
    ghost var k := Scheduling.ConvKey(phone, env);
    ghost var t := Scheduling.Stepped(store.states[k], ReportsMenu, env);
    var _ := store.SetStep(phone, ReportsMenu, env.shop, env.now.iso);
    assert store.states == old(store.states)[k := t];
    Reports.HandleReportsFlow(store, client, data, env, phone, "start", state);
    assert Reports.ReportsEffect(t, "start", state, data.appointments, data.barbers, phone, env)
      == Reports.MenuEffect(t, phone, state);
  }

  method HandleMainMenu(store: ConversationStateManager, client: Gateway.WhatsAppClient, data: Data.DataStore,
                        env: Env, phone: string, content: string, state: ConversationState)
    requires ValidEnv(env) && data.Valid() && Scheduling.ConvKey(phone, env) in store.states
    requires state.currentStep == MainMenu
    modifies store, client, data
    ensures data.Valid() && data.clients == old(data.clients) && data.appointments == old(data.appointments)
    ensures var e := MainMenuEffect(old(store.states)[Scheduling.ConvKey(phone, env)], content, state, data.services,
                                    phone, env);
      store.states == old(store.states)[Scheduling.ConvKey(phone, env) := e.state] && client.sent == old(client.sent) + e.sent
  {
    var n := Reports.Normalize(content);
    ghost var s0 := old(store.states)[Scheduling.ConvKey(phone, env)];
    if n == "schedule" || Strings.Contains(n, "agendar") {
      EnterScheduling(store, client, data, env, phone, state);
      return;
    }
    if n == "my_appointments" || Strings.Contains(n, "meus agendamentos") {
      MenuInDevelopment(s0, content, state, data.services, phone, env);
      TextThenIdle(store, client, env, phone, InDevelopmentText);
      return;
    }
    if n == "reports" || Strings.Contains(n, "relatorio") {
      if state.userRole == Some(BarberRole) || state.userRole == Some(ManagerRole) || state.userRole == Some(OwnerRole) {
        EnterReports(store, client, data, env, phone, state);
      } else {
        MenuRefusesReports(s0, content, state, data.services, phone, env);
        TextThenIdle(store, client, env, phone, NoPermissionText);
      }
      return;
    }
    MenuApologises(s0, content, state, data.services, phone, env);
    ApologiseAndGreet(store, client, env, phone);
  }

  /** The menu's answer to anything it does not recognise: an apology, then the greeting again. */
  method ApologiseAndGreet(store: ConversationStateManager, client: Gateway.WhatsAppClient, env: Env, phone: string)
    requires Scheduling.ConvKey(phone, env) in store.states
    modifies store, client
    ensures store.states == old(store.states)[Scheduling.ConvKey(phone, env) :=
              Scheduling.Stepped(old(store.states)[Scheduling.ConvKey(phone, env)], MainMenu, env)]
    ensures client.sent == old(client.sent) + [Gateway.TextPayload(phone, NotUnderstoodText),
                                               GreetingMessage(phone, FallbackName)]
  {
    var _ := client.SendText(phone, NotUnderstoodText);
    SendGreeting(store, client, env, phone, FallbackName);
  }

  /** Sends one text and sends the conversation back to idle. */
  method TextThenIdle(store: ConversationStateManager, client: Gateway.WhatsAppClient, env: Env,
                      phone: string, text: string)
    requires Scheduling.ConvKey(phone, env) in store.states
    modifies store, client
    ensures store.states == old(store.states)[Scheduling.ConvKey(phone, env) :=
              Scheduling.Stepped(old(store.states)[Scheduling.ConvKey(phone, env)], Idle, env)]
    ensures client.sent == old(client.sent) + [Gateway.TextPayload(phone, text)]
  {
    var _ := client.SendText(phone, text);
    var _ := store.SetStep(phone, Idle, env.shop, env.now.iso);
  }

  /** `handleIncomingMessage`'s switch on the step of the conversation it fetched. */
  method Route(store: ConversationStateManager, client: Gateway.WhatsAppClient, data: Data.DataStore,
               env: Env, phone: string, content: string, senderName: string, state: ConversationState)
    requires ValidEnv(env) && data.Valid()
    requires Scheduling.ConvKey(phone, env) in store.states && store.states[Scheduling.ConvKey(phone, env)] == state
    modifies store, client, data
    ensures data.Valid()
    ensures var e := RouterEffect(state, content, senderName, old(data.clients), data.services, data.barbers,
                                  old(data.appointments), phone, env);
      store.states == old(store.states)[Scheduling.ConvKey(phone, env) := e.state]
      && client.sent == old(client.sent) + e.sent
  {
    match state.currentStep {
      case Idle => SendGreeting(store, client, env, phone, senderName);
      case MainMenu => HandleMainMenu(store, client, data, env, phone, content, state);
      case SelectService => Scheduling.HandleSchedulingFlow(store, client, data, env, phone, content, state);
      case SelectBarber => Scheduling.HandleSchedulingFlow(store, client, data, env, phone, content, state);
      case SelectDate => Scheduling.HandleSchedulingFlow(store, client, data, env, phone, content, state);
      case SelectTime => Scheduling.HandleSchedulingFlow(store, client, data, env, phone, content, state);
      case ConfirmAppointment => Scheduling.HandleSchedulingFlow(store, client, data, env, phone, content, state);
      case ReportsMenu => Reports.HandleReportsFlow(store, client, data, env, phone, content, state);
      case AwaitingReportQuery => Reports.HandleReportsFlow(store, client, data, env, phone, content, state);
      case Greeting => SendGreeting(store, client, env, phone, senderName);
    }
  }

  /** The routed update keeps every stored conversation ready for its step. */
  lemma RouteKeepsStoreReady(states: map<string, ConversationState>, content: string, senderName: string,
                             clients: seq<Data.Client>, services: seq<Data.Service>, barbers: seq<Data.Barber>,
                             appointments: seq<Data.Appointment>, phone: string, env: Env)
    requires ValidEnv(env) && Data.StartTimesSplit(appointments)
    requires Scheduling.StoreReady(states)
    ensures var e := RouterEffect(Arrived(states, phone, env), content, senderName, clients, services, barbers,
                                  appointments, phone, env);
      Scheduling.StoreReady(states[Scheduling.ConvKey(phone, env) := e.state])
  {
    var s := Arrived(states, phone, env);
    if Scheduling.ConvKey(phone, env) !in states {
      OutsideBookingReady(s);
    }
    RouterKeepsReady(s, content, senderName, clients, services, barbers, appointments, phone, env);
    var e := RouterEffect(s, content, senderName, clients, services, barbers, appointments, phone, env);
    Scheduling.StoreReadyUpdate(states, Scheduling.ConvKey(phone, env), e.state);
  }

  /**
   * `handleIncomingMessage`: the conversation is fetched or created, the message flattened,
   * and the handler for the conversation's step runs with the conversation as its snapshot.
   */
  method HandleIncomingMessage(store: ConversationStateManager, client: Gateway.WhatsAppClient, data: Data.DataStore,
                               env: Env, message: InboundMessage, senderName: string)
    requires ValidEnv(env) && data.Valid()
    modifies store, client, data
    ensures data.Valid()
    ensures var e := RouterEffect(Arrived(old(store.states), message.from, env), ExtractContent(message), senderName,
                                  old(data.clients), data.services, data.barbers, old(data.appointments),
                                  message.from, env);
      store.states == old(store.states)[Scheduling.ConvKey(message.from, env) := e.state]
      && client.sent == old(client.sent) + e.sent
    ensures Scheduling.StoreReady(old(store.states)) ==> Scheduling.StoreReady(store.states)
  {
    var phone := message.from;
    ghost var k := Scheduling.ConvKey(phone, env);
    var state := store.GetOrCreateState(phone, env.shop, env.now, env.random);
    assert state == Arrived(old(store.states), phone, env);
    assert store.states == old(store.states)[k := state];
    var content := ExtractContent(message);
    ghost var e := RouterEffect(state, content, senderName, data.clients, data.services, data.barbers,
                                data.appointments, phone, env);
    Route(store, client, data, env, phone, content, senderName, state);
    OverwriteEntry(old(store.states), k, state, e.state);
    if Scheduling.StoreReady(old(store.states)) {
      RouteKeepsStoreReady(old(store.states), content, senderName, old(data.clients), data.services, data.barbers,
                           old(data.appointments), phone, env);
    }
  }
}
