/**
 * The reports conversation for staff: a menu of reply buttons (today's report, my weekly
 * commission, ask a question) and a free-text query classifier that tries its patterns in
 * a fixed order, the first match answering. Handlers are specified, like the booking
 * flow's, by the `Effect` they have on the stored conversation and the messages sent.
 */
module Reports {
  import opened Wrappers
  import Strings
  import opened Conversation
  import Gateway
  import Data
  import opened Runtime
  import Scheduling

  // ----- roles -----

  /** Barbers, managers and owners see the report buttons. */
  predicate IsStaff(role: Option<Role>)
  {
    role == Some(BarberRole) || role == Some(ManagerRole) || role == Some(OwnerRole)
  }

  /** Managers and owners may ask about other barbers. */
  predicate IsAdmin(role: Option<Role>)
  {
    role == Some(ManagerRole) || role == Some(OwnerRole)
  }

  // ----- the menu -----

  const MenuText := "*Menu de Relatorios*\n\nEscolha uma opcao:"
  const TodayButton := Gateway.Button("report_today", "Faturamento Hoje")
  const CommissionButton := Gateway.Button("report_my_commission", "Minha Comissao")
  const QueryButton := Gateway.Button("report_query", "Fazer Pergunta")

  /** The buttons of the menu, before the cut to three. */
  function MenuButtons(role: Option<Role>): (buttons: seq<Gateway.Button>)
    ensures 1 <= |buttons| <= Gateway.MaxButtons && buttons[|buttons| - 1] == QueryButton
    ensures |buttons| == 3 <==> IsStaff(role)
    ensures IsStaff(role) ==> buttons[0] == TodayButton && buttons[1] == CommissionButton
  {
    (if IsStaff(role) then [TodayButton, CommissionButton] else []) + [QueryButton]
  }

  function MenuMessage(phone: string, role: Option<Role>): Gateway.OutboundMessage
  {
    Gateway.ButtonsPayload(phone, MenuText, MenuButtons(role), Some("Relatorios"), None)
  }

  /** The menu always has a button to send, so the "no permission" branch after it never runs. */
  lemma MenuOffersAtMostThree(phone: string, role: Option<Role>)
    ensures var m := MenuMessage(phone, role);
      m.action.ReplyButtons? && 1 <= |m.action.buttons| <= Gateway.MaxButtons
      && m.action.buttons[|m.action.buttons| - 1].id == "report_query"
      && (IsStaff(role) <==> |m.action.buttons| == 3)
  {
    var buttons := MenuButtons(role);
    var m := MenuMessage(phone, role);
    assert |m.action.buttons| == |buttons|;
    assert m.action.buttons[|buttons| - 1].id == buttons[|buttons| - 1].id;
  }

  /** `showReportsMenu`: pushes the buttons the role may use, then sends at most three. */
  method ShowReportsMenu(client: Gateway.WhatsAppClient, phone: string, state: ConversationState)
    modifies client
    ensures client.sent == old(client.sent) + [MenuMessage(phone, state.userRole)]
  {
    var buttons: seq<Gateway.Button> := [];
    if IsStaff(state.userRole) {
      buttons := buttons + [TodayButton];
      buttons := buttons + [CommissionButton];
    }
    buttons := buttons + [QueryButton];
    assert buttons == MenuButtons(state.userRole);
    var firsts := buttons[..if |buttons| < 3 then |buttons| else 3];
    assert firsts == buttons;
    var _ := client.SendButtons(phone, MenuText, firsts, Some("Relatorios"), None);
  }

  // ----- money and texts -----

  /** `amount.toFixed(2)` for an amount in cents that may have a fraction of a cent. */
  function CentsLabel(cents: real): string
  {
    if cents >= 0.0 then Scheduling.PriceLabel((cents + 0.5).Floor as nat)
    else "-" + Scheduling.PriceLabel((-cents + 0.5).Floor as nat)
  }

  /** A whole number of cents is shown exactly as the price label shows it. */
  lemma CentsLabelWhole(cents: nat)
    ensures CentsLabel(cents as real) == Scheduling.PriceLabel(cents)
  {
    assert (cents as real + 0.5).Floor == cents;
  }

  const NotIdentifiedText := "Nao foi possivel identificar seu cadastro de barbeiro."
  const ByeText := "Ok! Se precisar de mais alguma coisa, e so chamar."
  const QueryExamplesText :=
    "Voce pode me perguntar coisas como:\n\n- \"Quanto faturei hoje\"\n- \"Minha comissao da semana\"\n"
    + "- \"Quanto o Joao faturou\"\n- \"O que vendeu ontem\"\n- \"Faturamento do mes\"\n\nDigite sua pergunta:"
  const NotUnderstoodText :=
    "Desculpe, nao entendi sua pergunta.\n\nVoce pode perguntar coisas como:\n"
    + "- \"Quanto faturei hoje\"\n- \"Minha comissao da semana\"\n- \"O que vendeu ontem\""

  function TodayText(report: Data.DailyReport, forBarber: bool): string
  {
    "*Relatorio de " + Scheduling.DisplayDate(report.date) + "*\n\n"
    + (if forBarber then "Seus resultados de hoje:\n\n" else "")
    + "Total Faturado: R$ " + Scheduling.PriceLabel(report.totalRevenue) + "\n"
    + "Atendimentos: " + Strings.NatToString(report.completedAppointments) + "\n"
    + (if report.cancelledAppointments > 0
       then "Cancelamentos: " + Strings.NatToString(report.cancelledAppointments) + "\n" else "")
  }

  function CommissionText(c: Data.CommissionReport): string
  {
    "*Sua Comissao da Semana*\n\nFaturamento Total: R$ " + Scheduling.PriceLabel(c.totalRevenue)
    + "\nSua Comissao: R$ " + CentsLabel(c.commission)
    + "\nAtendimentos: " + Strings.NatToString(c.appointments)
  }

  function FiguresText(r: Data.BarberReport): string
  {
    "Total: R$ " + Scheduling.PriceLabel(r.totalRevenue) + "\nComissao: R$ " + CentsLabel(r.commission)
    + "\nAtendimentos: " + Strings.NatToString(r.totalAppointments)
  }

  function OwnRevenueText(range: Range, r: Data.BarberReport): string
  {
    "*Seu faturamento de " + range.period + ":*\n\n" + FiguresText(r)
  }

  function BarberRevenueText(b: Data.Barber, range: Range, r: Data.BarberReport): string
  {
    "*Faturamento de " + Data.FullName(b) + " (" + range.period + "):*\n\n" + FiguresText(r)
  }

  function SalesText(period: string, report: Data.DailyReport): string
  {
    "*Vendas de " + period + ":*\n\nTotal Faturado: R$ " + Scheduling.PriceLabel(report.totalRevenue) + "\n"
    + "Atendimentos: " + Strings.NatToString(report.completedAppointments) + "\n"
  }

  // ----- the query classifier -----

  /** `query.toLowerCase().trim()`. */
  function Normalize(query: string): string
  {
    Strings.Trim(Strings.ToLower(query))
  }

  datatype Range = Range(start: string, end: string, period: string)

  /** The period a revenue question is about: 'ontem' wins over 'semana', which wins over 'mes'. */
  function QueryRange(q: string, env: Env): (r: Range)
    ensures r.period == "ontem" <==> Strings.Contains(q, "ontem")
    ensures r.period == "esta semana" <==> !Strings.Contains(q, "ontem") && Strings.Contains(q, "semana")
    ensures r.period == "este mes" <==>
      !Strings.Contains(q, "ontem") && !Strings.Contains(q, "semana") && Strings.Contains(q, "mes")
    ensures r.period == "hoje" <==>
      !Strings.Contains(q, "ontem") && !Strings.Contains(q, "semana") && !Strings.Contains(q, "mes")
    ensures r.period == "ontem" ==> r.start == r.end == env.yesterday
    ensures r.period != "ontem" ==> r.end == env.today
  {
    if Strings.Contains(q, "ontem") then Range(env.yesterday, env.yesterday, "ontem")
    else if Strings.Contains(q, "semana") then Range(env.weekAgo, env.today, "esta semana")
    else if Strings.Contains(q, "mes") then Range(env.monthStart, env.today, "este mes")
    else Range(env.today, env.today, "hoje")
  }

  predicate AsksOwnRevenue(q: string)
  {
    Strings.Contains(q, "faturei") || Strings.Contains(q, "meu faturamento") || Strings.Contains(q, "minha receita")
  }

  /** The mis-encoded spelling of 'comissão' that the source also tests for. */
  const MisencodedCommission := "comiss\U{C3}\U{A3}o"

  predicate AsksCommission(q: string)
  {
    Strings.Contains(q, "comissao") || Strings.Contains(q, MisencodedCommission)
  }

  predicate AsksSales(q: string)
  {
    Strings.Contains(q, "vendeu") || Strings.Contains(q, "vendas")
  }

  /** The query names the barber: its lower-cased first name or full name occurs in it. */
  predicate Names(q: string, b: Data.Barber)
  {
    Strings.Contains(q, Strings.ToLower(b.firstName)) || Strings.Contains(q, Strings.ToLower(Data.FullName(b)))
  }

  /**
   * The barber a query names, or none exactly when it names none. `NamedBarberIsFirst` states
   * that it is the first in list order that the query names.
   */
  function NamedBarber(q: string, barbers: seq<Data.Barber>): (r: Option<Data.Barber>)
    ensures r.Some? ==> r.value in barbers && Names(q, r.value)
    ensures r.None? <==> forall i :: 0 <= i < |barbers| ==> !Names(q, barbers[i])
  {
    Data.Find(barbers, (b: Data.Barber) => Names(q, b))
  }

  /** What a normalised query asks for. */
  datatype Query =
    | OwnRevenue(range: Range)
    | MyCommission
    | BarberRevenue(barber: Data.Barber, range: Range)
    | Sales(date: string, period: string)
    | Help

  /** The patterns are tried in order and the first one that applies answers. */
  function Classify(q: string, role: Option<Role>, barbers: seq<Data.Barber>, env: Env): Query
  {
    if AsksOwnRevenue(q) then OwnRevenue(QueryRange(q, env))
    else if AsksCommission(q) then MyCommission
    else if IsAdmin(role) && Strings.Contains(q, "quanto") && NamedBarber(q, barbers).Some? then
      BarberRevenue(NamedBarber(q, barbers).value, QueryRange(q, env))
    else if AsksSales(q) then
      if Strings.Contains(q, "ontem") then Sales(env.yesterday, "ontem") else Sales(env.today, "hoje")
    else Help
  }

  /** A query about one's own revenue answers that, whatever else it mentions. */
  lemma OwnRevenueFirst(q: string, role: Option<Role>, barbers: seq<Data.Barber>, env: Env)
    requires AsksOwnRevenue(q)
    ensures Classify(q, role, barbers, env) == OwnRevenue(QueryRange(q, env))
  {
  }

  /** Only a manager or owner gets another barber's figures, and only for a barber the query names. */
  lemma BarberRevenueOnlyForAdmins(q: string, role: Option<Role>, barbers: seq<Data.Barber>, env: Env)
    ensures Classify(q, role, barbers, env).BarberRevenue? ==>
      IsAdmin(role) && Strings.Contains(q, "quanto") && !AsksOwnRevenue(q) && !AsksCommission(q)
      && Classify(q, role, barbers, env).barber == NamedBarber(q, barbers).value
  {
  }

  /**
   * When an admin's 'quanto' query names no barber, it falls through to the sales test, and
   * a sales query is about yesterday exactly when it contains 'ontem'.
   */
  lemma SalesQuery(q: string, role: Option<Role>, barbers: seq<Data.Barber>, env: Env)
    requires !AsksOwnRevenue(q) && !AsksCommission(q) && NamedBarber(q, barbers).None? && AsksSales(q)
    ensures Classify(q, role, barbers, env).Sales?
    ensures Classify(q, role, barbers, env).period == "ontem" <==> Strings.Contains(q, "ontem")
    ensures Classify(q, role, barbers, env).date == if Strings.Contains(q, "ontem") then env.yesterday else env.today
  {
  }

  /** The named barber is the first in list order that the query names. */
  lemma NamedBarberIsFirst(q: string, barbers: seq<Data.Barber>, i: nat)
    requires i < |barbers| && Names(q, barbers[i])
    requires forall j :: 0 <= j < i ==> !Names(q, barbers[j])
    ensures NamedBarber(q, barbers) == Some(barbers[i])
  {
    var r := Data.Find(barbers, (b: Data.Barber) => Names(q, b));
    var k :| 0 <= k < |barbers| && barbers[k] == r.value && Names(q, barbers[k])
             && forall j :: 0 <= j < k ==> !Names(q, barbers[j]);
    assert k == i;
  }

  /** A string with no 'Ã' does not contain a pattern with one. */
  lemma {:induction false} NotContainsChar(s: string, sub: string, c: char)
    requires c in sub && c !in s
    ensures !Strings.Contains(s, sub)
  {
    if Strings.Contains(s, sub) {
      Strings.ContainsChars(s, sub, c);
    }
  }

  /**
   * The mis-encoded spelling is never matched: it holds an upper-case 'Ã', and the query is
   * lower-cased before it is tested.
   */
  lemma MisencodedNeverMatches(query: string)
    ensures !Strings.Contains(Normalize(query), MisencodedCommission)
  {
    Strings.LowerHasNoUpper(query, '\U{C3}');
    assert '\U{C3}' in MisencodedCommission;
    NotContainsChar(Normalize(query), MisencodedCommission, '\U{C3}');
  }

  // ----- effects -----

  type Effect = Scheduling.Effect

  /** `updateState(phone, { barber_id })` as seen from the conversation. */
  function Linked(s: ConversationState, barberId: string, env: Env): ConversationState
  {
    ApplyUpdate(s, StateUpdate(None, None, None, Some(Some(barberId)), None), env.now.iso)
  }

  /** Linking a barber changes the barber id and `updated_at` and nothing else. */
  lemma LinkedChangesBarberOnly(s: ConversationState, barberId: string, env: Env)
    ensures Linked(s, barberId, env) == s.(barberId := Some(barberId), updatedAt := env.now.iso)
  {
    var r := Linked(s, barberId, env);
    assert r.context == s.context + map[] == s.context;
  }

  function MenuEffect(s: ConversationState, phone: string, snapshot: ConversationState): Effect
  {
    Scheduling.Effect(s, [MenuMessage(phone, snapshot.userRole)])
  }

  /** `state.user_role === 'barber' ? state.barber_id || undefined : undefined`. */
  function TodayBarber(snapshot: ConversationState): (r: Option<string>)
    ensures r.Some? <==> snapshot.userRole == Some(BarberRole) && Truthy(snapshot.barberId)
  {
    if snapshot.userRole == Some(BarberRole) && Truthy(snapshot.barberId) then snapshot.barberId else None
  }

  /** `sendTodayReport`: a barber sees their own figures, anyone else the barbershop's. */
  function TodayReportEffect(s: ConversationState, snapshot: ConversationState, appointments: seq<Data.Appointment>,
                             phone: string, env: Env): Effect
  {
    var report := Data.DailyRevenue(appointments, env.today, TodayBarber(snapshot));
    Scheduling.Effect(s, [Gateway.TextPayload(phone, TodayText(report, snapshot.userRole == Some(BarberRole))),
                          MenuMessage(phone, snapshot.userRole)])
  }

  function WeekOf(appointments: seq<Data.Appointment>, barbers: seq<Data.Barber>, barberId: string, env: Env)
    : Data.CommissionReport
  {
    Data.WeeklyCommission(appointments, barbers, barberId, env.weekStart, env.weekEnd)
  }

  /**
   * `sendMyCommission`: without a barber id the barber is looked up by phone and linked to the
   * conversation; when none is found an error is sent instead of figures.
   */
  function CommissionEffect(s: ConversationState, snapshot: ConversationState, appointments: seq<Data.Appointment>,
                            barbers: seq<Data.Barber>, phone: string, env: Env): Effect
  {
    var menu := MenuMessage(phone, snapshot.userRole);
    if Truthy(snapshot.barberId) then
      Scheduling.Effect(s, [Gateway.TextPayload(phone, CommissionText(WeekOf(appointments, barbers, snapshot.barberId.value, env))), menu])
    else
      match Data.BarberByPhone(barbers, snapshot.barbershopId, phone)
      case Some(b) =>
        Scheduling.Effect(Linked(s, b.id, env),
          [Gateway.TextPayload(phone, CommissionText(WeekOf(appointments, barbers, b.id, env))), menu])
      case None => Scheduling.Effect(s, [Gateway.TextPayload(phone, NotIdentifiedText), menu])
  }

  /** The barber looked up by phone, when the conversation has no barber id. */
  function FoundByPhone(snapshot: ConversationState, barbers: seq<Data.Barber>, phone: string): Option<Data.Barber>
  {
    if Truthy(snapshot.barberId) then None else Data.BarberByPhone(barbers, snapshot.barbershopId, phone)
  }

  /** `state.barber_id` after the self-revenue lookup has filled it in from a barber found by phone. */
  function OwnBarberId(snapshot: ConversationState, barbers: seq<Data.Barber>, phone: string): (r: Option<string>)
    ensures Truthy(r) <==> (Truthy(snapshot.barberId)
      || (FoundByPhone(snapshot, barbers, phone).Some? && FoundByPhone(snapshot, barbers, phone).value.id != ""))
  {
    if Truthy(snapshot.barberId) then snapshot.barberId
    else
      match FoundByPhone(snapshot, barbers, phone)
      case Some(b) => Some(b.id)
      case None => snapshot.barberId
  }

  /**
   * The self-revenue branch: a barber found by phone is linked first; without a usable barber
   * id an error is sent and the step is left alone, otherwise the figures are sent and the
   * conversation returns to the reports menu.
   */
  function OwnRevenueEffect(s: ConversationState, range: Range, snapshot: ConversationState,
                            appointments: seq<Data.Appointment>, barbers: seq<Data.Barber>, phone: string, env: Env)
    : Effect
  {
    var found := FoundByPhone(snapshot, barbers, phone);
    var s1 := if found.Some? then Linked(s, found.value.id, env) else s;
    var id := OwnBarberId(snapshot, barbers, phone);
    if !Truthy(id) then Scheduling.Effect(s1, [Gateway.TextPayload(phone, NotIdentifiedText)])
    else
      Scheduling.Effect(Scheduling.Stepped(s1, ReportsMenu, env),
        [Gateway.TextPayload(phone, OwnRevenueText(range, Data.BarberRevenue(appointments, barbers, id.value, range.start, range.end)))])
  }

  /** `handleReportQuery`. */
  function QueryEffect(s: ConversationState, query: string, snapshot: ConversationState,
                       appointments: seq<Data.Appointment>, barbers: seq<Data.Barber>, phone: string, env: Env): Effect
  {
    ClassifiedEffect(s, Classify(Normalize(query), snapshot.userRole, Data.ShopBarbers(barbers, snapshot.barbershopId), env),
                     snapshot, appointments, barbers, phone, env)
  }

  /** What answering a classified question does. */
  function ClassifiedEffect(s: ConversationState, c: Query, snapshot: ConversationState,
                            appointments: seq<Data.Appointment>, barbers: seq<Data.Barber>, phone: string, env: Env): Effect
  {
    if c.OwnRevenue? then OwnRevenueEffect(s, c.range, snapshot, appointments, barbers, phone, env)
    else if c.MyCommission? then CommissionEffect(s, snapshot, appointments, barbers, phone, env)
    else Scheduling.Effect(Scheduling.Stepped(s, ReportsMenu, env), [Gateway.TextPayload(phone, AnswerText(c, appointments, barbers))])
  }

  /** The reply to a question answered straight from the data: another barber's figures, sales or help. */
  function AnswerText(c: Query, appointments: seq<Data.Appointment>, barbers: seq<Data.Barber>): string
    requires !c.OwnRevenue? && !c.MyCommission?
  {
    match c
    case BarberRevenue(b, range) =>
      BarberRevenueText(b, range, Data.BarberRevenue(appointments, barbers, b.id, range.start, range.end))
    case Sales(date, period) => SalesText(period, Data.DailyRevenue(appointments, date, None))
    case Help => NotUnderstoodText
  }

  /** `handleReportsMenu`: the menu's own ids, otherwise the text is taken as a question. */
  function MenuInputEffect(s: ConversationState, content: string, snapshot: ConversationState,
                           appointments: seq<Data.Appointment>, barbers: seq<Data.Barber>, phone: string, env: Env)
    : Effect
  {
    if content == "start" || content == "" then MenuEffect(s, phone, snapshot)
    else if content == "report_today" then TodayReportEffect(s, snapshot, appointments, phone, env)
    else if content == "report_my_commission" then CommissionEffect(s, snapshot, appointments, barbers, phone, env)
    else if content == "report_query" then
      Scheduling.Effect(Scheduling.Stepped(s, AwaitingReportQuery, env), [Gateway.TextPayload(phone, QueryExamplesText)])
    else if content == "report_back" then
      Scheduling.Effect(Scheduling.Stepped(s, Idle, env), [Gateway.TextPayload(phone, ByeText)])
    else QueryEffect(s, content, snapshot, appointments, barbers, phone, env)
  }

  /** `handleReportsFlow`: dispatch on the snapshot's step; any other step shows the menu. */
  function ReportsEffect(s: ConversationState, content: string, snapshot: ConversationState,
                         appointments: seq<Data.Appointment>, barbers: seq<Data.Barber>, phone: string, env: Env)
    : Effect
  {
    match snapshot.currentStep
    case ReportsMenu => MenuInputEffect(s, content, snapshot, appointments, barbers, phone, env)
    case AwaitingReportQuery => QueryEffect(s, content, snapshot, appointments, barbers, phone, env)
    case _ => MenuEffect(s, phone, snapshot)
  }

  // ----- what the flow guarantees -----

  /** The menu's ids: a question moves to waiting for it, 'report_back' leaves the reports. */
  lemma MenuIds(s: ConversationState, snapshot: ConversationState, appointments: seq<Data.Appointment>,
                barbers: seq<Data.Barber>, phone: string, env: Env)
    ensures MenuInputEffect(s, "report_query", snapshot, appointments, barbers, phone, env).state.currentStep
            == AwaitingReportQuery
    ensures MenuInputEffect(s, "report_back", snapshot, appointments, barbers, phone, env).state.currentStep == Idle
    ensures MenuInputEffect(s, "report_today", snapshot, appointments, barbers, phone, env).state == s
  {
  }

  /**
   * A question about one's own revenue that resolves no barber id is answered with an error
   * and leaves the step where it was.
   */
  lemma OwnRevenueUnknownBarber(s: ConversationState, query: string, snapshot: ConversationState,
                                appointments: seq<Data.Appointment>, barbers: seq<Data.Barber>, phone: string, env: Env)
    requires AsksOwnRevenue(Normalize(query)) && !Truthy(OwnBarberId(snapshot, barbers, phone))
    ensures var e := QueryEffect(s, query, snapshot, appointments, barbers, phone, env);
      e.sent == [Gateway.TextPayload(phone, NotIdentifiedText)] && e.state.currentStep == s.currentStep
  {
  }

  /** The self-revenue branch moves to the reports menu exactly when it resolves a barber id. */
  lemma OwnRevenueOutcome(s: ConversationState, range: Range, snapshot: ConversationState,
                          appointments: seq<Data.Appointment>, barbers: seq<Data.Barber>, phone: string, env: Env)
    ensures var e := OwnRevenueEffect(s, range, snapshot, appointments, barbers, phone, env);
      e.state.context == s.context && |e.sent| == 1
      && e.state.currentStep == (if Truthy(OwnBarberId(snapshot, barbers, phone)) then ReportsMenu else s.currentStep)
  {
    var found := FoundByPhone(snapshot, barbers, phone);
    if found.Some? {
      LinkedChangesBarberOnly(s, found.value.id, env);
    }
  }

  /**
   * Every other question, answered or not, ends at the reports menu, except a commission
   * question, which answers and leaves the step as it was.
   */
  lemma QueryEndsAtMenu(s: ConversationState, query: string, snapshot: ConversationState,
                        appointments: seq<Data.Appointment>, barbers: seq<Data.Barber>, phone: string, env: Env)
    requires !(AsksOwnRevenue(Normalize(query)) && !Truthy(OwnBarberId(snapshot, barbers, phone)))
    ensures var e := QueryEffect(s, query, snapshot, appointments, barbers, phone, env);
      e.state.currentStep == (if !AsksOwnRevenue(Normalize(query)) && AsksCommission(Normalize(query))
                              then s.currentStep else ReportsMenu)
  {
    var q := Normalize(query);
    var range := QueryRange(q, env);
    if AsksOwnRevenue(q) {
      OwnRevenueFirst(q, snapshot.userRole, Data.ShopBarbers(barbers, snapshot.barbershopId), env);
      OwnRevenueOutcome(s, range, snapshot, appointments, barbers, phone, env);
    } else if AsksCommission(q) {
      CommissionLinksBarber(s, snapshot, appointments, barbers, phone, env);
    } else {
      OtherQueriesToMenu(s, query, snapshot, appointments, barbers, phone, env);
    }
  }

  /** A question about neither one's own revenue nor one's commission is answered from the reports menu. */
  lemma OtherQueriesToMenu(s: ConversationState, query: string, snapshot: ConversationState,
                           appointments: seq<Data.Appointment>, barbers: seq<Data.Barber>, phone: string, env: Env)
    requires !AsksOwnRevenue(Normalize(query)) && !AsksCommission(Normalize(query))
    ensures QueryEffect(s, query, snapshot, appointments, barbers, phone, env).state == Scheduling.Stepped(s, ReportsMenu, env)
  {
    var q := Normalize(query);
    var c := Classify(q, snapshot.userRole, Data.ShopBarbers(barbers, snapshot.barbershopId), env);
    ClassifiesAsAnswer(q, snapshot.userRole, Data.ShopBarbers(barbers, snapshot.barbershopId), env);
    var t := AnswerText(c, appointments, barbers);
    assert QueryEffect(s, query, snapshot, appointments, barbers, phone, env)
      == Scheduling.Effect(Scheduling.Stepped(s, ReportsMenu, env), [Gateway.TextPayload(phone, t)]);
  }

  /** Neither self-revenue nor commission: the query is answered with figures or with help. */
  lemma ClassifiesAsAnswer(q: string, role: Option<Role>, barbers: seq<Data.Barber>, env: Env)
    requires !AsksOwnRevenue(q) && !AsksCommission(q)
    ensures Classify(q, role, barbers, env).BarberRevenue? || Classify(q, role, barbers, env).Sales?
      || Classify(q, role, barbers, env).Help?
  {
  }

  /** The commission answer links the barber found by phone, and only when the conversation had none. */
  lemma CommissionLinksBarber(s: ConversationState, snapshot: ConversationState, appointments: seq<Data.Appointment>,
                              barbers: seq<Data.Barber>, phone: string, env: Env)
    ensures var e := CommissionEffect(s, snapshot, appointments, barbers, phone, env);
      var found := Data.BarberByPhone(barbers, snapshot.barbershopId, phone);
      e.state.currentStep == s.currentStep && e.state.context == s.context && |e.sent| == 2
      && (!Truthy(snapshot.barberId) && found.Some? ==> e.state.barberId == Some(found.value.id))
      && (Truthy(snapshot.barberId) || found.None? ==> e.state == s)
  {
    var found := Data.BarberByPhone(barbers, snapshot.barbershopId, phone);
    if !Truthy(snapshot.barberId) && found.Some? {
      LinkedChangesBarberOnly(s, found.value.id, env);
    }
  }

  /** A question keeps the context and leaves the step alone or moves it to the reports menu. */
  lemma {:induction false} QueryKeepsContext(s: ConversationState, query: string, snapshot: ConversationState,
                                             appointments: seq<Data.Appointment>, barbers: seq<Data.Barber>,
                                             phone: string, env: Env)
    ensures var e := QueryEffect(s, query, snapshot, appointments, barbers, phone, env);
      e.state.context == s.context && e.state.currentStep in {s.currentStep, ReportsMenu}
  {
    var c := Classify(Normalize(query), snapshot.userRole, Data.ShopBarbers(barbers, snapshot.barbershopId), env);
    QueryCases(s, query, snapshot, appointments, barbers, phone, env);
    if c.OwnRevenue? {
      OwnRevenueOutcome(s, c.range, snapshot, appointments, barbers, phone, env);
    } else if c.MyCommission? {
      CommissionLinksBarber(s, snapshot, appointments, barbers, phone, env);
    }
  }

  /**
   * The reports flow never touches the booking fields: it keeps the context, and it leaves
   * the step alone or moves it to the reports menu, to waiting for a question, or to idle.
   */
  lemma {:induction false} ReportsKeepContext(s: ConversationState, content: string, snapshot: ConversationState,
                                              appointments: seq<Data.Appointment>, barbers: seq<Data.Barber>,
                                              phone: string, env: Env)
    ensures var e := ReportsEffect(s, content, snapshot, appointments, barbers, phone, env);
      e.state.context == s.context
      && e.state.currentStep in {s.currentStep, ReportsMenu, AwaitingReportQuery, Idle}
  {
    var e := ReportsEffect(s, content, snapshot, appointments, barbers, phone, env);
    QueryKeepsContext(s, content, snapshot, appointments, barbers, phone, env);
    CommissionLinksBarber(s, snapshot, appointments, barbers, phone, env);
    if snapshot.currentStep == ReportsMenu {
      assert e == MenuInputEffect(s, content, snapshot, appointments, barbers, phone, env);
      if content == "start" || content == "" || content == "report_today" {
        assert e.state == s;
      } else if content == "report_my_commission" {
        assert e == CommissionEffect(s, snapshot, appointments, barbers, phone, env);
      } else if content == "report_query" {
        assert e.state == Scheduling.Stepped(s, AwaitingReportQuery, env);
      } else if content == "report_back" {
        assert e.state == Scheduling.Stepped(s, Idle, env);
      } else {
        assert e == QueryEffect(s, content, snapshot, appointments, barbers, phone, env);
      }
    } else if snapshot.currentStep == AwaitingReportQuery {
      assert e == QueryEffect(s, content, snapshot, appointments, barbers, phone, env);
    } else {
      assert e == MenuEffect(s, phone, snapshot);
    }
  }

  // ----- the handlers -----

  method SendTodayReport(client: Gateway.WhatsAppClient, data: Data.DataStore, env: Env, phone: string,
                         state: ConversationState)
    modifies client
    ensures client.sent == old(client.sent) + TodayReportEffect(state, state, data.appointments, phone, env).sent
  {
    var report := Data.DailyRevenue(data.appointments, env.today, TodayBarber(state));
    var _ := client.SendText(phone, TodayText(report, state.userRole == Some(BarberRole)));
    ShowReportsMenu(client, phone, state);
  }

  /** `updateState(phone, { barber_id })`: the conversation is linked to the barber found by phone. */
  method LinkBarber(store: ConversationStateManager, env: Env, phone: string, barberId: string)
    requires Scheduling.ConvKey(phone, env) in store.states
    modifies store
    ensures store.states == old(store.states)[Scheduling.ConvKey(phone, env) :=
                                                Linked(old(store.states)[Scheduling.ConvKey(phone, env)], barberId, env)]
  {
    var _ := store.UpdateState(phone, StateUpdate(None, None, None, Some(Some(barberId)), None), env.shop, env.now.iso);
  }

  /** The three outcomes of `sendMyCommission`, one per way the barber id is obtained. */
  lemma CommissionCases(s: ConversationState, snapshot: ConversationState, appointments: seq<Data.Appointment>,
                        barbers: seq<Data.Barber>, phone: string, env: Env)
    ensures var e := CommissionEffect(s, snapshot, appointments, barbers, phone, env);
      var found := Data.BarberByPhone(barbers, snapshot.barbershopId, phone);
      var menu := MenuMessage(phone, snapshot.userRole);
      (Truthy(snapshot.barberId) ==>
         e == Scheduling.Effect(s, [Gateway.TextPayload(phone, CommissionText(WeekOf(appointments, barbers, snapshot.barberId.value, env))), menu]))
      && (!Truthy(snapshot.barberId) && found.Some? ==>
         e == Scheduling.Effect(Linked(s, found.value.id, env),
                                [Gateway.TextPayload(phone, CommissionText(WeekOf(appointments, barbers, found.value.id, env))), menu]))
      && (!Truthy(snapshot.barberId) && found.None? ==>
         e == Scheduling.Effect(s, [Gateway.TextPayload(phone, NotIdentifiedText), menu]))
  {
  }

  method SendMyCommission(store: ConversationStateManager, client: Gateway.WhatsAppClient, data: Data.DataStore,
                          env: Env, phone: string, state: ConversationState)
    requires Scheduling.ConvKey(phone, env) in store.states
    modifies store, client
    ensures var e := CommissionEffect(old(store.states)[Scheduling.ConvKey(phone, env)], state, data.appointments,
                                      data.barbers, phone, env);
      store.states == old(store.states)[Scheduling.ConvKey(phone, env) := e.state] && client.sent == old(client.sent) + e.sent
  {
    ghost var s0 := store.states[Scheduling.ConvKey(phone, env)];
    CommissionCases(s0, state, data.appointments, data.barbers, phone, env);
    if Truthy(state.barberId) {
      SendCommissionFigures(client, data, env, phone, state, state.barberId.value);
    } else {
      var barber := Data.BarberByPhone(data.barbers, state.barbershopId, phone);
      if barber.Some? {
        LinkBarber(store, env, phone, barber.value.id);
        SendCommissionFigures(client, data, env, phone, state, barber.value.id);
      } else {
        var _ := client.SendText(phone, NotIdentifiedText);
        ShowReportsMenu(client, phone, state);
      }
    }
  }

  /** The weekly figures of one barber, followed by the reports menu. */
  method SendCommissionFigures(client: Gateway.WhatsAppClient, data: Data.DataStore, env: Env, phone: string,
                               state: ConversationState, barberId: string)
    modifies client
    ensures client.sent == old(client.sent) + [Gateway.TextPayload(phone, CommissionText(WeekOf(data.appointments, data.barbers, barberId, env))),
                                               MenuMessage(phone, state.userRole)]
  {
    var commission := WeekOf(data.appointments, data.barbers, barberId, env);
    var _ := client.SendText(phone, CommissionText(commission));
    ShowReportsMenu(client, phone, state);
  }

  /** The self-revenue branch of `handleReportQuery`. */
  method AnswerOwnRevenue(store: ConversationStateManager, client: Gateway.WhatsAppClient, data: Data.DataStore,
                          env: Env, phone: string, range: Range, state: ConversationState)
    requires Scheduling.ConvKey(phone, env) in store.states
    modifies store, client
    ensures var e := OwnRevenueEffect(old(store.states)[Scheduling.ConvKey(phone, env)], range, state,
                                      data.appointments, data.barbers, phone, env);
      store.states == old(store.states)[Scheduling.ConvKey(phone, env) := e.state] && client.sent == old(client.sent) + e.sent
  {
    ghost var k := Scheduling.ConvKey(phone, env);
    ghost var s0 := store.states[k];
    OwnRevenueCases(s0, range, state, data.appointments, data.barbers, phone, env);
    var barberId := ResolveOwnBarber(store, data, env, phone, state);
    ghost var s1 := store.states[k];
    if !Truthy(barberId) {
      var _ := client.SendText(phone, NotIdentifiedText);
    } else {
      var report := Data.BarberRevenue(data.appointments, data.barbers, barberId.value, range.start, range.end);
      AnswerFromMenu(store, client, env, phone, OwnRevenueText(range, report));
      OverwriteEntry(old(store.states), k, s1, Scheduling.Stepped(s1, ReportsMenu, env));
    }
  }

  /** Fills in the barber id from the barber found by phone, linking that barber to the conversation. */
  method ResolveOwnBarber(store: ConversationStateManager, data: Data.DataStore, env: Env, phone: string,
                          state: ConversationState) returns (barberId: Option<string>)
    requires Scheduling.ConvKey(phone, env) in store.states
    modifies store
    ensures barberId == OwnBarberId(state, data.barbers, phone)
    ensures var k := Scheduling.ConvKey(phone, env);
      var found := FoundByPhone(state, data.barbers, phone);
      store.states == old(store.states)[k := if found.Some? then Linked(old(store.states)[k], found.value.id, env)
                                             else old(store.states)[k]]
  {
    barberId := state.barberId;
    if !Truthy(barberId) {
      var barber := Data.BarberByPhone(data.barbers, state.barbershopId, phone);
      if barber.Some? {
        barberId := Some(barber.value.id);
        LinkBarber(store, env, phone, barber.value.id);
      }
    }
  }

  /** The two outcomes of the self-revenue branch, written out. */
  lemma OwnRevenueCases(s: ConversationState, range: Range, snapshot: ConversationState,
                        appointments: seq<Data.Appointment>, barbers: seq<Data.Barber>, phone: string, env: Env)
    ensures var e := OwnRevenueEffect(s, range, snapshot, appointments, barbers, phone, env);
      var found := FoundByPhone(snapshot, barbers, phone);
      var s1 := if found.Some? then Linked(s, found.value.id, env) else s;
      var id := OwnBarberId(snapshot, barbers, phone);
      (!Truthy(id) ==> e == Scheduling.Effect(s1, [Gateway.TextPayload(phone, NotIdentifiedText)]))
      && (Truthy(id) ==> e == Scheduling.Effect(Scheduling.Stepped(s1, ReportsMenu, env),
            [Gateway.TextPayload(phone, OwnRevenueText(range, Data.BarberRevenue(appointments, barbers, id.value, range.start, range.end)))]))
  {
  }

  method HandleReportQuery(store: ConversationStateManager, client: Gateway.WhatsAppClient, data: Data.DataStore,
                           env: Env, phone: string, query: string, state: ConversationState)
    requires Scheduling.ConvKey(phone, env) in store.states
    modifies store, client
    ensures var e := QueryEffect(old(store.states)[Scheduling.ConvKey(phone, env)], query, state, data.appointments,
                                 data.barbers, phone, env);
      store.states == old(store.states)[Scheduling.ConvKey(phone, env) := e.state] && client.sent == old(client.sent) + e.sent
  {
    var q := Normalize(query);
    var c := Classify(q, state.userRole, Data.ShopBarbers(data.barbers, state.barbershopId), env);
    AnswerQuery(store, client, data, env, phone, c, state);
  }

  /** Answers a classified question: own revenue, commission, or an answer followed by the menu. */
  method AnswerQuery(store: ConversationStateManager, client: Gateway.WhatsAppClient, data: Data.DataStore,
                     env: Env, phone: string, c: Query, state: ConversationState)
    requires Scheduling.ConvKey(phone, env) in store.states
    modifies store, client
    ensures var e := ClassifiedEffect(old(store.states)[Scheduling.ConvKey(phone, env)], c, state, data.appointments,
                                      data.barbers, phone, env);
      store.states == old(store.states)[Scheduling.ConvKey(phone, env) := e.state] && client.sent == old(client.sent) + e.sent
  {
    if c.OwnRevenue? {
      AnswerOwnRevenue(store, client, data, env, phone, c.range, state);
    } else if c.MyCommission? {
      SendMyCommission(store, client, data, env, phone, state);
    } else {
      var t := AnswerText(c, data.appointments, data.barbers);
      AnswerFromMenu(store, client, env, phone, t);
    }
  }

  /** The three kinds of outcome of a question, written out. */
  lemma QueryCases(s: ConversationState, query: string, snapshot: ConversationState,
                   appointments: seq<Data.Appointment>, barbers: seq<Data.Barber>, phone: string, env: Env)
    ensures var c := Classify(Normalize(query), snapshot.userRole, Data.ShopBarbers(barbers, snapshot.barbershopId), env);
      var e := QueryEffect(s, query, snapshot, appointments, barbers, phone, env);
      (c.OwnRevenue? ==> e == OwnRevenueEffect(s, c.range, snapshot, appointments, barbers, phone, env))
      && (c.MyCommission? ==> e == CommissionEffect(s, snapshot, appointments, barbers, phone, env))
      && (!c.OwnRevenue? && !c.MyCommission? ==>
            e == Scheduling.Effect(Scheduling.Stepped(s, ReportsMenu, env),
                                   [Gateway.TextPayload(phone, AnswerText(c, appointments, barbers))]))
  {
  }

  /** Sends one answer and moves the conversation to the reports menu. */
  method AnswerFromMenu(store: ConversationStateManager, client: Gateway.WhatsAppClient, env: Env, phone: string,
                        text: string)
    requires Scheduling.ConvKey(phone, env) in store.states
    modifies store, client
    ensures var k := Scheduling.ConvKey(phone, env);
      store.states == old(store.states)[k := Scheduling.Stepped(old(store.states)[k], ReportsMenu, env)]
      && client.sent == old(client.sent) + [Gateway.TextPayload(phone, text)]
  {
    var _ := client.SendText(phone, text);
    var _ := store.SetStep(phone, ReportsMenu, env.shop, env.now.iso);
  }

  method HandleReportsMenu(store: ConversationStateManager, client: Gateway.WhatsAppClient, data: Data.DataStore,
                           env: Env, phone: string, content: string, state: ConversationState)
    requires Scheduling.ConvKey(phone, env) in store.states
    modifies store, client
    ensures var e := MenuInputEffect(old(store.states)[Scheduling.ConvKey(phone, env)], content, state,
                                     data.appointments, data.barbers, phone, env);
      store.states == old(store.states)[Scheduling.ConvKey(phone, env) := e.state] && client.sent == old(client.sent) + e.sent
  {
    if content == "start" || content == "" {
      ShowReportsMenu(client, phone, state);
      return;
    }
    ghost var s0 := store.states[Scheduling.ConvKey(phone, env)];
    if content == "report_today" {
      assert store.states == old(store.states)[Scheduling.ConvKey(phone, env) := s0];
      SendTodayReport(client, data, env, phone, state);
    } else if content == "report_my_commission" {
      SendMyCommission(store, client, data, env, phone, state);
    } else if content == "report_query" {
      var _ := store.SetStep(phone, AwaitingReportQuery, env.shop, env.now.iso);
      var _ := client.SendText(phone, QueryExamplesText);
    } else if content == "report_back" {
      var _ := store.SetStep(phone, Idle, env.shop, env.now.iso);
      var _ := client.SendText(phone, ByeText);
    } else {
      assert MenuInputEffect(s0, content, state, data.appointments, data.barbers, phone, env)
        == QueryEffect(s0, content, state, data.appointments, data.barbers, phone, env);
      HandleReportQuery(store, client, data, env, phone, content, state);
    }
  }

  method HandleReportsFlow(store: ConversationStateManager, client: Gateway.WhatsAppClient, data: Data.DataStore,
                           env: Env, phone: string, content: string, state: ConversationState)
    requires Scheduling.ConvKey(phone, env) in store.states
    modifies store, client
    ensures var e := ReportsEffect(old(store.states)[Scheduling.ConvKey(phone, env)], content, state,
                                   data.appointments, data.barbers, phone, env);
      store.states == old(store.states)[Scheduling.ConvKey(phone, env) := e.state] && client.sent == old(client.sent) + e.sent
  {
    match state.currentStep
    case ReportsMenu => HandleReportsMenu(store, client, data, env, phone, content, state);
    case AwaitingReportQuery => HandleReportQuery(store, client, data, env, phone, content, state);
    case _ => ShowReportsMenu(client, phone, state);
  }
}
