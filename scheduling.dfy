/**
 * The booking conversation: select_service -> select_barber -> select_date -> select_time
 * -> confirm_appointment -> idle. Each step accepts only its own reply ids; anything else
 * re-shows the step. Each handler is specified by an `Effect`, the state it leaves under the
 * conversation's key and the messages it sends, computed from the state it found.
 */
module Scheduling {
  import opened Wrappers
  import Strings
  import opened Conversation
  import Gateway
  import Data
  import opened Runtime

  // ----- what a conversation must carry at each step -----

  /** The context fields a step relies on, as text. */
  function Needs(step: Step): set<ContextKey>
  {
    match step
    case SelectBarber => {SelectedServiceId, SelectedServiceName}
    case SelectDate => {SelectedServiceId, SelectedServiceName, SelectedBarberName}
    case SelectTime => {SelectedServiceId, SelectedServiceName, SelectedBarberName, SelectedDate}
    case ConfirmAppointment =>
      {SelectedServiceId, SelectedServiceName, SelectedBarberName, SelectedDate, SelectedTime}
    case _ => {}
  }

  predicate HasText(ctx: Context, k: ContextKey)
  {
    k in ctx && ctx[k].Text?
  }

  /** The context carries, as text, every field the step relies on. */
  predicate ReadyFor(ctx: Context, step: Step)
  {
    forall k :: k in Needs(step) ==> HasText(ctx, k)
  }

  predicate Ready(s: ConversationState)
  {
    ReadyFor(s.context, s.currentStep)
  }

  /** Every stored conversation is ready for its step. */
  predicate StoreReady(states: map<string, ConversationState>)
  {
    forall k :: k in states ==> Ready(states[k])
  }

  /** Each step relies on what the step before it relies on. */
  lemma NeedsGrow()
    ensures Needs(SelectBarber) <= Needs(SelectDate) <= Needs(SelectTime) <= Needs(ConfirmAppointment)
  {
  }

  // ----- reading the context as the templates do -----

  /** A context field as a template literal shows it; a missing field shows as 'undefined'. */
  function Shown(ctx: Context, k: ContextKey): string
  {
    if k in ctx then
      match ctx[k]
      case Text(t) => t
      case Times(slots) => Strings.Join(slots, ',')
      case Undefined => "undefined"
    else "undefined"
  }

  /** A context field handed on as an optional string. */
  function OptText(ctx: Context, k: ContextKey): (r: Option<string>)
    ensures r.Some? <==> HasText(ctx, k)
  {
    if HasText(ctx, k) then Some(ctx[k].text) else None
  }

  /** A text field the step relies on is what the template shows and what is handed on. */
  lemma ReadyFieldsShown(s: ConversationState, k: ContextKey)
    requires Ready(s) && k in Needs(s.currentStep)
    ensures Shown(s.context, k) == s.context[k].text && OptText(s.context, k) == Some(s.context[k].text)
  {
  }

  // ----- reply ids -----

  /** `content.startsWith(prefix)` then `content.replace(prefix, '')`. */
  function ReplyId(content: string, prefix: string): (r: Option<string>)
    ensures r.Some? <==> prefix <= content
    ensures r.Some? ==> prefix + r.value == content
  {
    if prefix <= content then Some(Strings.StripPrefix(content, prefix)) else None
  }

  /** A row id sent out with a prefix comes back as the id it was built from. */
  lemma {:induction false} ReplyIdRoundTrip(prefix: string, id: string)
    ensures ReplyId(prefix + id, prefix) == Some(id)
  {
    assert prefix <= prefix + id;
    var r := ReplyId(prefix + id, prefix).value;
    assert prefix + r == prefix + id;
    assert r == (prefix + r)[|prefix|..] == (prefix + id)[|prefix|..] == id;
  }

  // ----- rows of the lists -----

  const MaxRows: nat := 10
  const MaxRowTitle: nat := 24
  const MaxRowDescription: nat := 72

  /**
   * `price.toFixed(2)` for a price in cents: the whole units, a '.', then exactly two digits
   * of cents.
   */
  function PriceLabel(cents: nat): (r: string)
    ensures |r| >= 4 && r[|r| - 3] == '.'
    ensures forall i :: 0 <= i < |r| && i != |r| - 3 ==> '0' <= r[i] <= '9'
  {
    Strings.NatToString(cents / 100) + "." + Strings.Pad2(cents % 100)
  }

  /** Read back, the digits before the '.' give the whole units and the two after it the cents. */
  lemma PriceLabelDigits(cents: nat)
    ensures var r := PriceLabel(cents);
      && Strings.DigitsValue(r[..|r| - 3]) == cents / 100
      && Strings.DigitsValue(r[|r| - 2..]) == cents % 100
  {
    var units := Strings.NatToString(cents / 100);
    var fraction := Strings.Pad2(cents % 100);
    var r := PriceLabel(cents);
    assert r == units + "." + fraction && |fraction| == 2;
    assert r[..|r| - 3] == units by {
      assert |r| - 3 == |units|;
    }
    assert r[|r| - 2..] == fraction by {
      assert |r| - 2 == |units| + 1;
    }
    Strings.NatToStringRoundTrip(cents / 100);
    Strings.Pad2RoundTrip(cents % 100);
  }

  /** The price in cents a label shows: the units before the '.' times 100 plus the two cent digits. */
  function LabelValue(shown: string): nat
    requires |shown| >= 3
  {
    Strings.DigitsValue(shown[..|shown| - 3]) * 100 + Strings.DigitsValue(shown[|shown| - 2..])
  }

  /** The label reads back to the price it shows. */
  lemma PriceLabelRoundTrip(cents: nat)
    ensures LabelValue(PriceLabel(cents)) == cents
  {
    PriceLabelDigits(cents);
  }

  /** Different prices never show the same label. */
  lemma PriceLabelInjective(a: nat, b: nat)
    requires a != b
    ensures PriceLabel(a) != PriceLabel(b)
  {
    PriceLabelRoundTrip(a);
    PriceLabelRoundTrip(b);
  }

  function ServiceRow(s: Data.Service): Gateway.ListRow
  {
    Gateway.ListRow("service_" + s.id, Strings.Truncate(s.name, MaxRowTitle),
      Some("R$ " + PriceLabel(s.price) + " - " + Strings.NatToString(s.durationMinutes) + "min"))
  }

  /** The rows of the service list: the first ten services, titles cut to 24 characters. */
  function ServiceRows(services: seq<Data.Service>): (rows: seq<Gateway.ListRow>)
    ensures |rows| == if |services| < MaxRows then |services| else MaxRows
    ensures forall i :: 0 <= i < |rows| ==>
      rows[i].id == "service_" + services[i].id
      && |rows[i].title| <= MaxRowTitle && rows[i].title <= services[i].name
  {
    var firsts := if |services| <= MaxRows then services else services[..MaxRows];
    seq(|firsts|, i requires 0 <= i < |firsts| => ServiceRow(firsts[i]))
  }

  const AnyBarberRow := Gateway.ListRow("barber_any", "Qualquer Barbeiro", Some("Primeiro disponivel"))

  /** `barber.bio?.slice(0, 72) || 'Barbeiro profissional'`. */
  function BarberDescription(b: Data.Barber): (d: string)
    ensures 0 < |d| <= MaxRowDescription
  {
    if b.bio.Some? && Strings.Truncate(b.bio.value, MaxRowDescription) != "" then
      Strings.Truncate(b.bio.value, MaxRowDescription)
    else "Barbeiro profissional"
  }

  function BarberRow(b: Data.Barber): Gateway.ListRow
  {
    Gateway.ListRow("barber_" + b.id, Strings.Truncate(Data.FullName(b), MaxRowTitle), Some(BarberDescription(b)))
  }

  /** The rows of the barber list: the "any barber" row, then the first nine barbers. */
  function BarberRows(barbers: seq<Data.Barber>): (rows: seq<Gateway.ListRow>)
    ensures |rows| == 1 + (if |barbers| < MaxRows - 1 then |barbers| else MaxRows - 1)
    ensures |rows| <= MaxRows && rows[0] == AnyBarberRow
    ensures forall i :: 1 <= i < |rows| ==>
      rows[i].id == "barber_" + barbers[i - 1].id
      && |rows[i].title| <= MaxRowTitle
      && rows[i].description.Some? && |rows[i].description.value| <= MaxRowDescription
  {
    var firsts := if |barbers| <= MaxRows - 1 then barbers else barbers[..MaxRows - 1];
    [AnyBarberRow] + seq(|firsts|, i requires 0 <= i < |firsts| => BarberRow(firsts[i]))
  }

  const DayNames: seq<string> := ["Domingo", "Segunda", "Terca", "Quarta", "Quinta", "Sexta", "Sabado"]

  /** `${date.getDate()}/${date.getMonth() + 1}`. */
  function DayLabel(d: CalendarDay): string
  {
    Strings.NatToString(d.day) + "/" + Strings.NatToString(d.month)
  }

  function DateTitle(i: nat, d: CalendarDay): string
    requires d.weekday < 7
  {
    if i == 0 then "Hoje (" + DayLabel(d) + ")" else DayNames[d.weekday] + " (" + DayLabel(d) + ")"
  }

  function DateRow(i: nat, d: CalendarDay): Gateway.ListRow
    requires d.weekday < 7
  {
    Gateway.ListRow("date_" + d.iso, DateTitle(i, d), Some("Verificar horarios disponiveis"))
  }

  /** The seven date rows, today first. */
  function DateRowsOf(days: seq<CalendarDay>): (rows: seq<Gateway.ListRow>)
    requires |days| >= 7 && forall i :: 0 <= i < |days| ==> days[i].weekday < 7
    ensures |rows| == 7
  {
    seq(7, i requires 0 <= i < 7 => DateRow(i, days[i]))
  }

  /** `showDateOptions`'s loop: one row per day for the next seven days. */
  method DateRows(days: seq<CalendarDay>) returns (rows: seq<Gateway.ListRow>)
    requires |days| >= 7 && forall i :: 0 <= i < |days| ==> days[i].weekday < 7
    ensures rows == DateRowsOf(days)
  {
    rows := [];
    for i := 0 to 7
      invariant |rows| == i
      invariant forall j :: 0 <= j < i ==> rows[j] == DateRow(j, days[j])
    {
      rows := rows + [DateRow(i, days[i])];
    }
  }

  /** Only the first day's title starts with 'Hoje'. */
  lemma {:induction false} DateTitleToday(i: nat, d: CalendarDay)
    requires d.weekday < 7
    ensures ("Hoje" <= DateTitle(i, d)) <==> i == 0
  {
    var rest := " (" + DayLabel(d) + ")";
    if i == 0 {
      assert DateTitle(i, d) == "Hoje" + rest;
    } else {
      var name := DayNames[d.weekday];
      assert DateTitle(i, d) == name + rest;
      assert DateTitle(i, d)[0] == name[0] != 'H';
    }
  }

  /** Only the first date row is labelled 'Hoje'; every row's id gives back its ISO date. */
  lemma DateRowsLabels(days: seq<CalendarDay>, i: nat)
    requires |days| >= 7 && forall j :: 0 <= j < |days| ==> days[j].weekday < 7
    requires i < 7
    ensures ("Hoje" <= DateRowsOf(days)[i].title) <==> i == 0
    ensures ReplyId(DateRowsOf(days)[i].id, "date_") == Some(days[i].iso)
  {
    assert DateRowsOf(days)[i] == DateRow(i, days[i]);
    ReplyIdRoundTrip("date_", days[i].iso);
    DateTitleToday(i, days[i]);
  }

  /** `[year, month, day] = date.split('-')` shown as `${day}/${month}/${year}`. */
  function DisplayDate(date: string): string
  {
    var parts := Strings.Split(date, '-');
    Part(parts, 2) + "/" + Part(parts, 1) + "/" + parts[0]
  }

  /** A destructured array element: missing ones show as 'undefined'. */
  function Part(parts: seq<string>, i: nat): string
  {
    if i < |parts| then parts[i] else "undefined"
  }

  /** An ISO date `YYYY-MM-DD` is shown as `DD/MM/YYYY`. */
  lemma DisplayIsoDate(year: string, month: string, day: string)
    requires '-' !in year && '-' !in month && '-' !in day
    ensures DisplayDate(year + "-" + month + "-" + day) == day + "/" + month + "/" + year
  {
    assert year + "-" + month + "-" + day == year + ['-'] + (month + ['-'] + day);
    Strings.SplitAtFirst(year, '-', month + ['-'] + day);
    Strings.SplitAtFirst(month, '-', day);
    Strings.SplitNoSeparator(day, '-');
  }

  function TimeRow(slot: string, shownDate: string): Gateway.ListRow
  {
    Gateway.ListRow("time_" + slot, slot, Some("Horario disponivel em " + shownDate))
  }

  /** The rows of the slot list: the first ten slots, each id the slot prefixed by `time_`. */
  function TimeRows(slots: seq<string>, shownDate: string): (rows: seq<Gateway.ListRow>)
    ensures |rows| == if |slots| < MaxRows then |slots| else MaxRows
    ensures forall i :: 0 <= i < |rows| ==> rows[i].id == "time_" + slots[i] && rows[i].title == slots[i]
  {
    var firsts := if |slots| <= MaxRows then slots else slots[..MaxRows];
    seq(|firsts|, i requires 0 <= i < |firsts| => TimeRow(firsts[i], shownDate))
  }

  // ----- messages -----

  const NoServicesText := "Desculpe, nao ha servicos disponiveis no momento."
  const ServiceNotFoundText := "Servico nao encontrado. Por favor, escolha da lista:"
  const NoBarbersText := "Desculpe, nao ha barbeiros disponiveis no momento."
  const NoSlotsText := "Desculpe, nao ha horarios disponiveis nesta data. Por favor, escolha outra data."
  const BookingErrorText := "Desculpe, ocorreu um erro ao criar o agendamento. Por favor, tente novamente."
  const BookingCancelledText := "Agendamento cancelado. Se precisar de algo mais, e so me chamar!"
  const AnyBarberName := "Qualquer Barbeiro"
  /** The name `createClient` gives a client created from a chat. */
  const ChatClientName := "Cliente WhatsApp"

  function ServiceListMessage(phone: string, services: seq<Data.Service>): Gateway.OutboundMessage
  {
    Gateway.ListPayload(phone, "Qual servico voce deseja agendar?", "Ver Servicos",
      [Gateway.ListSection("Servicos Disponiveis", ServiceRows(services))], Some("Escolha um Servico"), None)
  }

  function BarberListMessage(phone: string, barbers: seq<Data.Barber>, serviceName: string): Gateway.OutboundMessage
  {
    Gateway.ListPayload(phone, "Otimo! Voce escolheu: " + serviceName + "\n\nAgora escolha um barbeiro:",
      "Ver Barbeiros", [Gateway.ListSection("Barbeiros", BarberRows(barbers))], Some("Escolha um Barbeiro"), None)
  }

  function DateListMessage(phone: string, env: Env): Gateway.OutboundMessage
    requires ValidEnv(env)
  {
    Gateway.ListPayload(phone, "Qual data voce prefere?", "Ver Datas",
      [Gateway.ListSection("Proximos Dias", DateRowsOf(env.upcoming))], Some("Escolha uma Data"), None)
  }

  function TimeListMessage(phone: string, date: string, slots: seq<string>): Gateway.OutboundMessage
  {
    Gateway.ListPayload(phone, "Horarios disponiveis para " + DisplayDate(date) + ":", "Ver Horarios",
      [Gateway.ListSection("Horarios Disponiveis", TimeRows(slots, DisplayDate(date)))], Some("Escolha um Horario"), None)
  }

  /** `state.context.selected_date || ''`. */
  function DateOrEmpty(ctx: Context): string
  {
    if HasText(ctx, SelectedDate) then ctx[SelectedDate].text else ""
  }

  function ConfirmationMessage(phone: string, ctx: Context, time: string): Gateway.OutboundMessage
  {
    Gateway.ButtonsPayload(phone,
      "\n*Confirme seu Agendamento:*\n\nServico: " + Shown(ctx, SelectedServiceName)
      + "\nBarbeiro: " + Shown(ctx, SelectedBarberName)
      + "\nData: " + DisplayDate(DateOrEmpty(ctx))
      + "\nHorario: " + time
      + "\n\nDeseja confirmar este agendamento?",
      [Gateway.Button("confirm_yes", "Confirmar"), Gateway.Button("confirm_no", "Cancelar")],
      Some("Confirmacao"), None)
  }

  function BookedText(ctx: Context): string
  {
    "*Agendamento Confirmado!*\n\nServico: " + Shown(ctx, SelectedServiceName)
    + "\nBarbeiro: " + Shown(ctx, SelectedBarberName)
    + "\nData: " + DisplayDate(DateOrEmpty(ctx))
    + "\nHorario: " + Shown(ctx, SelectedTime)
    + "\n\nAguardamos voce! Caso precise cancelar ou remarcar, entre em contato conosco."
  }

  // ----- effects -----

  /** What a handler leaves behind: the conversation's new state and the messages it sent, in order. */
  datatype Effect = Effect(state: ConversationState, sent: seq<Gateway.OutboundMessage>)

  /** `setStep` as seen from the conversation: the step and `updated_at` change. */
  function Stepped(s: ConversationState, step: Step, env: Env): ConversationState
  {
    s.(currentStep := step, updatedAt := env.now.iso)
  }

  /** `updateContext` as seen from the conversation: the context is merged, `updated_at` changes. */
  function Merged(s: ConversationState, ctx: Context, env: Env): ConversationState
  {
    s.(context := s.context + ctx, updatedAt := env.now.iso)
  }

  /** `showServiceList`: with no service the conversation goes back to idle. */
  function ServiceListEffect(s: ConversationState, services: seq<Data.Service>, phone: string, env: Env): Effect
  {
    if services == [] then Effect(Stepped(s, Idle, env), [Gateway.TextPayload(phone, NoServicesText)])
    else Effect(s, [ServiceListMessage(phone, services)])
  }

  /** `showBarberList`: with no barber the conversation goes back to idle. */
  function BarberListEffect(s: ConversationState, barbers: seq<Data.Barber>, serviceName: string,
                            phone: string, env: Env): Effect
  {
    if barbers == [] then Effect(Stepped(s, Idle, env), [Gateway.TextPayload(phone, NoBarbersText)])
    else Effect(s, [BarberListMessage(phone, barbers, serviceName)])
  }

  /** The slots offered for a date: the generated slots less those booked for the barber. */
  function OfferedSlots(appointments: seq<Data.Appointment>, date: string, barberId: Option<string>, env: Env)
    : seq<string>
    requires Data.StartTimesSplit(appointments)
  {
    Data.FreeSlots(Data.SlotsFrom(Data.StartHour(date == env.slotCutoffDate, env.currentHour)),
      Data.BookedTimes(appointments, date, barberId))
  }

  /**
   * The slots offered for a date are labels of hours before closing time: from opening time on
   * another day, and only after the current hour on the current day.
   */
  lemma OfferedSlotHours(appointments: seq<Data.Appointment>, date: string, barberId: Option<string>, env: Env)
    requires Data.StartTimesSplit(appointments)
    ensures forall t :: t in OfferedSlots(appointments, date, barberId, env) ==>
      exists h: nat :: Data.OpeningHour <= h < Data.ClosingHour
        && (date == env.slotCutoffDate ==> env.currentHour < h)
        && (t == Data.SlotLabel(h, false) || t == Data.SlotLabel(h, true))
  {
    var start := Data.StartHour(date == env.slotCutoffDate, env.currentHour);
    assert forall t :: t in OfferedSlots(appointments, date, barberId, env) ==> t in Data.SlotsFrom(start);
  }

  /** `showTimeSlots`: with no slot the conversation goes back to select_date; otherwise the slots are cached. */
  function TimeSlotsEffect(s: ConversationState, date: string, slots: seq<string>, phone: string, env: Env): Effect
    requires ValidEnv(env)
  {
    if slots == [] then
      Effect(Stepped(s, SelectDate, env), [Gateway.TextPayload(phone, NoSlotsText), DateListMessage(phone, env)])
    else
      Effect(Merged(s, map[AvailableTimes := Times(slots)], env), [TimeListMessage(phone, date, slots)])
  }

  /** The service a `service_<id>` reply names among the barbershop's services. */
  function ServiceChoice(content: string, services: seq<Data.Service>): (r: Option<Data.Service>)
    ensures r.Some? ==> r.value in services && ReplyId(content, "service_") == Some(r.value.id)
  {
    match ReplyId(content, "service_")
    case None => None
    case Some(id) => Data.Find(services, (s: Data.Service) => s.id == id)
  }

  function ServiceContext(sv: Data.Service): Context
  {
    map[SelectedServiceId := Text(sv.id), SelectedServiceName := Text(sv.name)]
  }

  /** `handleServiceSelection`. `snapshot` is the state read when the message arrived. */
  function ServiceSelectionEffect(s: ConversationState, content: string, snapshot: ConversationState,
                                  services: seq<Data.Service>, barbers: seq<Data.Barber>, phone: string, env: Env)
    : Effect
  {
    if content == "start" || content == "" then ServiceListEffect(s, services, phone, env)
    else
      match ServiceChoice(content, services)
      case Some(sv) =>
        BarberListEffect(Stepped(Merged(s, ServiceContext(sv), env), SelectBarber, env), barbers,
          Shown(snapshot.context, SelectedServiceName), phone, env)
      case None =>
        var e := ServiceListEffect(s, services, phone, env);
        Effect(e.state, [Gateway.TextPayload(phone, ServiceNotFoundText)] + e.sent)
  }

  /** The barber a `barber_<id>` reply names among the barbershop's barbers. */
  function BarberChoice(content: string, barbers: seq<Data.Barber>): (r: Option<Data.Barber>)
    ensures r.Some? ==> r.value in barbers && ReplyId(content, "barber_") == Some(r.value.id)
  {
    match ReplyId(content, "barber_")
    case None => None
    case Some(id) => Data.Find(barbers, (b: Data.Barber) => b.id == id)
  }

  /** `handleBarberSelection`: 'barber_any' is tested before the generic prefix. */
  function BarberSelectionEffect(s: ConversationState, content: string, snapshot: ConversationState,
                                 barbers: seq<Data.Barber>, phone: string, env: Env): Effect
    requires ValidEnv(env)
  {
    if content == "barber_any" then
      Effect(Stepped(Merged(s, map[SelectedBarberId := Undefined, SelectedBarberName := Text(AnyBarberName)], env),
        SelectDate, env), [DateListMessage(phone, env)])
    else
      match BarberChoice(content, barbers)
      case Some(b) =>
        Effect(Stepped(Merged(s, map[SelectedBarberId := Text(b.id), SelectedBarberName := Text(Data.FullName(b))], env),
          SelectDate, env), [DateListMessage(phone, env)])
      case None =>
        BarberListEffect(s, barbers, Shown(snapshot.context, SelectedServiceName), phone, env)
  }

  /** `handleDateSelection`; `slots` are the slots offered for the chosen date. */
  function DateSelectionEffect(s: ConversationState, content: string, slots: seq<string>, phone: string, env: Env)
    : Effect
    requires ValidEnv(env)
  {
    match ReplyId(content, "date_")
    case Some(date) =>
      TimeSlotsEffect(Stepped(Merged(s, map[SelectedDate := Text(date)], env), SelectTime, env), date, slots, phone, env)
    case None => Effect(s, [DateListMessage(phone, env)])
  }

  /** `handleTimeSelection`; `slots` are the slots offered again for the stored date. */
  function TimeSelectionEffect(s: ConversationState, content: string, snapshot: ConversationState,
                               slots: seq<string>, phone: string, env: Env): Effect
    requires ValidEnv(env)
  {
    match ReplyId(content, "time_")
    case Some(time) =>
      Effect(Stepped(Merged(s, map[SelectedTime := Text(time)], env), ConfirmAppointment, env),
        [ConfirmationMessage(phone, snapshot.context, time)])
    case None =>
      if Truthy(OptText(snapshot.context, SelectedDate)) then
        TimeSlotsEffect(s, snapshot.context[SelectedDate].text, slots, phone, env)
      else Effect(s, [])
  }

  /** `handleAppointmentConfirmation`; `booked` says whether the appointment was created. */
  function ConfirmationEffect(s: ConversationState, content: string, snapshot: ConversationState,
                              booked: bool, phone: string, env: Env): Effect
  {
    if content == "confirm_yes" then
      Effect(Stepped(s, Idle, env), [Gateway.TextPayload(phone, if booked then BookedText(snapshot.context) else BookingErrorText)])
    else if content == "confirm_no" then
      Effect(Stepped(s, Idle, env), [Gateway.TextPayload(phone, BookingCancelledText)])
    else if Truthy(OptText(snapshot.context, SelectedTime)) then
      Effect(s, [ConfirmationMessage(phone, snapshot.context, snapshot.context[SelectedTime].text)])
    else Effect(s, [])
  }

  /** The booking a confirmed conversation asks for. */
  function BookingRequest(snapshot: ConversationState, phone: string, clientId: string): Data.AppointmentRequest
  {
    Data.AppointmentRequest(snapshot.barbershopId, OptText(snapshot.context, SelectedBarberId), clientId,
      Shown(snapshot.context, SelectedServiceId), Shown(snapshot.context, SelectedDate),
      Shown(snapshot.context, SelectedTime), phone)
  }

  // ----- the handlers -----

  /** The conversation handled under `phone` is stored under the default tenant. */
  function ConvKey(phone: string, env: Env): string
  {
    Key(phone, env.shop)
  }

  method ShowServiceList(store: ConversationStateManager, client: Gateway.WhatsAppClient, data: Data.DataStore,
                         env: Env, phone: string, state: ConversationState)
    requires ConvKey(phone, env) in store.states
    modifies store, client
    ensures var e := ServiceListEffect(old(store.states)[ConvKey(phone, env)],
                                       Data.ShopServices(data.services, state.barbershopId), phone, env);
      store.states == old(store.states)[ConvKey(phone, env) := e.state] && client.sent == old(client.sent) + e.sent
  {
    var services := Data.ShopServices(data.services, state.barbershopId);
    if services == [] {
      var _ := client.SendText(phone, NoServicesText);
      var _ := store.SetStep(phone, Idle, env.shop, env.now.iso);
      return;
    }
    var _ := client.SendList(phone, "Qual servico voce deseja agendar?", "Ver Servicos",
      [Gateway.ListSection("Servicos Disponiveis", ServiceRows(services))], Some("Escolha um Servico"), None);
  }

  method ShowBarberList(store: ConversationStateManager, client: Gateway.WhatsAppClient, data: Data.DataStore,
                        env: Env, phone: string, state: ConversationState)
    requires ConvKey(phone, env) in store.states
    modifies store, client
    ensures var e := BarberListEffect(old(store.states)[ConvKey(phone, env)],
                                      Data.ShopBarbers(data.barbers, state.barbershopId),
                                      Shown(state.context, SelectedServiceName), phone, env);
      store.states == old(store.states)[ConvKey(phone, env) := e.state] && client.sent == old(client.sent) + e.sent
  {
    var barbers := Data.ShopBarbers(data.barbers, state.barbershopId);
    if barbers == [] {
      var _ := client.SendText(phone, NoBarbersText);
      var _ := store.SetStep(phone, Idle, env.shop, env.now.iso);
      return;
    }
    var _ := client.SendList(phone,
      "Otimo! Voce escolheu: " + Shown(state.context, SelectedServiceName) + "\n\nAgora escolha um barbeiro:",
      "Ver Barbeiros", [Gateway.ListSection("Barbeiros", BarberRows(barbers))], Some("Escolha um Barbeiro"), None);
  }

  method ShowDateOptions(client: Gateway.WhatsAppClient, env: Env, phone: string)
    requires ValidEnv(env)
    modifies client
    ensures client.sent == old(client.sent) + [DateListMessage(phone, env)]
  {
    var rows := DateRows(env.upcoming);
    var _ := client.SendList(phone, "Qual data voce prefere?", "Ver Datas",
      [Gateway.ListSection("Proximos Dias", rows)], Some("Escolha uma Data"), None);
  }

  method ShowTimeSlots(store: ConversationStateManager, client: Gateway.WhatsAppClient, data: Data.DataStore,
                       env: Env, phone: string, state: ConversationState, date: string)
    requires ValidEnv(env) && data.Valid() && ConvKey(phone, env) in store.states
    modifies store, client
    ensures var e := TimeSlotsEffect(old(store.states)[ConvKey(phone, env)], date,
                       OfferedSlots(data.appointments, date, OptText(state.context, SelectedBarberId), env), phone, env);
      store.states == old(store.states)[ConvKey(phone, env) := e.state] && client.sent == old(client.sent) + e.sent
  {
    var slots := data.AvailableSlots(date, OptText(state.context, SelectedBarberId),
      date == env.slotCutoffDate, env.currentHour);
    if slots == [] {
      var _ := client.SendText(phone, NoSlotsText);
      var _ := store.SetStep(phone, SelectDate, env.shop, env.now.iso);
      ShowDateOptions(client, env, phone);
      return;
    }
    var _ := store.UpdateContext(phone, map[AvailableTimes := Times(slots)], env.shop, env.now.iso);
    var shownDate := DisplayDate(date);
    var _ := client.SendList(phone, "Horarios disponiveis para " + shownDate + ":", "Ver Horarios",
      [Gateway.ListSection("Horarios Disponiveis", TimeRows(slots, shownDate))], Some("Escolha um Horario"), None);
  }

  method ShowConfirmation(client: Gateway.WhatsAppClient, phone: string, state: ConversationState, time: string)
    modifies client
    ensures client.sent == old(client.sent) + [ConfirmationMessage(phone, state.context, time)]
  {
    var shownDate := DisplayDate(DateOrEmpty(state.context));
    var summary := "\n*Confirme seu Agendamento:*\n\nServico: " + Shown(state.context, SelectedServiceName)
      + "\nBarbeiro: " + Shown(state.context, SelectedBarberName)
      + "\nData: " + shownDate
      + "\nHorario: " + time
      + "\n\nDeseja confirmar este agendamento?";
    var _ := client.SendButtons(phone, summary,
      [Gateway.Button("confirm_yes", "Confirmar"), Gateway.Button("confirm_no", "Cancelar")], Some("Confirmacao"), None);
  }

  method HandleServiceSelection(store: ConversationStateManager, client: Gateway.WhatsAppClient, data: Data.DataStore,
                                env: Env, phone: string, content: string, state: ConversationState)
    requires ConvKey(phone, env) in store.states
    modifies store, client
    ensures var e := ServiceSelectionEffect(old(store.states)[ConvKey(phone, env)], content, state,
                       Data.ShopServices(data.services, state.barbershopId),
                       Data.ShopBarbers(data.barbers, state.barbershopId), phone, env);
      store.states == old(store.states)[ConvKey(phone, env) := e.state] && client.sent == old(client.sent) + e.sent
  {
    if content == "start" || content == "" {
      ShowServiceList(store, client, data, env, phone, state);
      return;
    }
    ghost var k := ConvKey(phone, env);
    ghost var s0 := store.states[k];
    var services := Data.ShopServices(data.services, state.barbershopId);
    var choice := ServiceChoice(content, services);
    if choice.Some? {
      var _ := store.UpdateContext(phone, ServiceContext(choice.value), env.shop, env.now.iso);
      var _ := store.SetStep(phone, SelectBarber, env.shop, env.now.iso);
      ghost var s1 := Stepped(Merged(s0, ServiceContext(choice.value), env), SelectBarber, env);
      assert store.states == old(store.states)[k := s1];
      ShowBarberList(store, client, data, env, phone, state);
      return;
    }
    var _ := client.SendText(phone, ServiceNotFoundText);
    assert store.states == old(store.states) && client.sent == old(client.sent) + [Gateway.TextPayload(phone, ServiceNotFoundText)];
    ShowServiceList(store, client, data, env, phone, state);
  }

  method HandleBarberSelection(store: ConversationStateManager, client: Gateway.WhatsAppClient, data: Data.DataStore,
                               env: Env, phone: string, content: string, state: ConversationState)
    requires ValidEnv(env) && ConvKey(phone, env) in store.states
    modifies store, client
    ensures var e := BarberSelectionEffect(old(store.states)[ConvKey(phone, env)], content, state,
                       Data.ShopBarbers(data.barbers, state.barbershopId), phone, env);
      store.states == old(store.states)[ConvKey(phone, env) := e.state] && client.sent == old(client.sent) + e.sent
  {
    if content == "barber_any" {
      var _ := store.UpdateContext(phone,
        map[SelectedBarberId := Undefined, SelectedBarberName := Text(AnyBarberName)], env.shop, env.now.iso);
      var _ := store.SetStep(phone, SelectDate, env.shop, env.now.iso);
      ShowDateOptions(client, env, phone);
      return;
    }
    var barbers := Data.ShopBarbers(data.barbers, state.barbershopId);
    var choice := BarberChoice(content, barbers);
    if choice.Some? {
      var b := choice.value;
      var _ := store.UpdateContext(phone,
        map[SelectedBarberId := Text(b.id), SelectedBarberName := Text(Data.FullName(b))], env.shop, env.now.iso);
      var _ := store.SetStep(phone, SelectDate, env.shop, env.now.iso);
      ShowDateOptions(client, env, phone);
      return;
    }
    ShowBarberList(store, client, data, env, phone, state);
  }

  method HandleDateSelection(store: ConversationStateManager, client: Gateway.WhatsAppClient, data: Data.DataStore,
                             env: Env, phone: string, content: string, state: ConversationState)
    requires ValidEnv(env) && data.Valid() && ConvKey(phone, env) in store.states
    modifies store, client
    ensures var date := ReplyId(content, "date_");
      var slots := if date.Some? then OfferedSlots(data.appointments, date.value, OptText(state.context, SelectedBarberId), env) else [];
      var e := DateSelectionEffect(old(store.states)[ConvKey(phone, env)], content, slots, phone, env);
      store.states == old(store.states)[ConvKey(phone, env) := e.state] && client.sent == old(client.sent) + e.sent
  {
    var date := ReplyId(content, "date_");
    ghost var k := ConvKey(phone, env);
    ghost var s0 := store.states[k];
    if date.Some? {
      var _ := store.UpdateContext(phone, map[SelectedDate := Text(date.value)], env.shop, env.now.iso);
      var _ := store.SetStep(phone, SelectTime, env.shop, env.now.iso);
      ghost var s1 := Stepped(Merged(s0, map[SelectedDate := Text(date.value)], env), SelectTime, env);
      assert store.states == old(store.states)[k := s1];
      ShowTimeSlots(store, client, data, env, phone, state, date.value);
      return;
    }
    ShowDateOptions(client, env, phone);
  }

  method HandleTimeSelection(store: ConversationStateManager, client: Gateway.WhatsAppClient, data: Data.DataStore,
                             env: Env, phone: string, content: string, state: ConversationState)
    requires ValidEnv(env) && data.Valid() && ConvKey(phone, env) in store.states
    modifies store, client
    ensures var date := DateOrEmpty(state.context);
      var e := TimeSelectionEffect(old(store.states)[ConvKey(phone, env)], content, state,
                 OfferedSlots(data.appointments, date, OptText(state.context, SelectedBarberId), env), phone, env);
      store.states == old(store.states)[ConvKey(phone, env) := e.state] && client.sent == old(client.sent) + e.sent
  {
    var time := ReplyId(content, "time_");
    if time.Some? {
      var _ := store.UpdateContext(phone, map[SelectedTime := Text(time.value)], env.shop, env.now.iso);
      var _ := store.SetStep(phone, ConfirmAppointment, env.shop, env.now.iso);
      ShowConfirmation(client, phone, state, time.value);
      return;
    }
    if Truthy(OptText(state.context, SelectedDate)) {
      ShowTimeSlots(store, client, data, env, phone, state, state.context[SelectedDate].text);
    }
  }

  /** The id of the client a booking is made for: the known client with that phone, or a new one. */
  function BookingClientId(clients: seq<Data.Client>, snapshot: ConversationState, phone: string, env: Env): string
  {
    var known := Data.Find(clients, (c: Data.Client) => c.barbershopId == snapshot.barbershopId && c.phone == phone);
    if known.Some? then known.value.id else Data.NewClient(snapshot.barbershopId, phone, ChatClientName, env.now.millis).id
  }

  /** The appointment a confirmed conversation books, if any. */
  function Booking(clients: seq<Data.Client>, services: seq<Data.Service>, barbers: seq<Data.Barber>,
                   snapshot: ConversationState, phone: string, env: Env): Option<Data.Appointment>
  {
    var req := BookingRequest(snapshot, phone, BookingClientId(clients, snapshot, phone, env));
    var planned := Data.PlannedAppointment(services, barbers, req, env.now.millis);
    if planned.Some? && env.validTimestamp(Data.StartTime(req.date, req.time)) then planned else None
  }

  /** The client the booking is for: the one with this phone in the barbershop, created when missing. */
  method FindOrCreateClient(data: Data.DataStore, env: Env, phone: string, state: ConversationState)
    returns (clientId: string)
    requires data.Valid()
    modifies data
    ensures data.Valid() && data.appointments == old(data.appointments)
    ensures clientId == BookingClientId(old(data.clients), state, phone, env)
    ensures var known := old(data.ClientByPhone(state.barbershopId, phone));
      data.clients == old(data.clients)
        + (if known.Some? then [] else [Data.NewClient(state.barbershopId, phone, ChatClientName, env.now.millis)])
  {
    var known := data.ClientByPhone(state.barbershopId, phone);
    if known.None? {
      var created := data.CreateClient(state.barbershopId, phone, ChatClientName, env.now.millis);
      clientId := created.id;
    } else {
      clientId := known.value.id;
    }
  }

  /** The `try` block of the confirmation: finds or creates the client, then creates the appointment. */
  method Book(data: Data.DataStore, env: Env, phone: string, state: ConversationState) returns (booked: bool)
    requires data.Valid()
    modifies data
    ensures data.Valid()
    ensures var known := old(data.ClientByPhone(state.barbershopId, phone));
      data.clients == old(data.clients)
        + (if known.Some? then [] else [Data.NewClient(state.barbershopId, phone, ChatClientName, env.now.millis)])
    ensures var b := Booking(old(data.clients), data.services, data.barbers, state, phone, env);
      booked == b.Some?
      && data.appointments == old(data.appointments) + (if b.Some? then [b.value] else [])
  {
    var clientId := FindOrCreateClient(data, env, phone, state);
    var req := BookingRequest(state, phone, clientId);
    var outcome := data.CreateAppointment(req, env.now.millis, env.validTimestamp(Data.StartTime(req.date, req.time)));
    booked := outcome.Ok? && outcome.value.Some?;
  }

  method HandleAppointmentConfirmation(store: ConversationStateManager, client: Gateway.WhatsAppClient,
                                       data: Data.DataStore, env: Env, phone: string, content: string,
                                       state: ConversationState)
    requires data.Valid() && ConvKey(phone, env) in store.states
    modifies store, client, data
    ensures data.Valid()
    ensures content != "confirm_yes" ==> data.clients == old(data.clients) && data.appointments == old(data.appointments)
    ensures var booked := content == "confirm_yes"
                          && Booking(old(data.clients), data.services, data.barbers, state, phone, env).Some?;
      var e := ConfirmationEffect(old(store.states)[ConvKey(phone, env)], content, state, booked, phone, env);
      store.states == old(store.states)[ConvKey(phone, env) := e.state] && client.sent == old(client.sent) + e.sent
  {
    if content == "confirm_yes" {
      var booked := Book(data, env, phone, state);
      if booked {
        var _ := client.SendText(phone, BookedText(state.context));
      } else {
        var _ := client.SendText(phone, BookingErrorText);
      }
      var _ := store.ResetState(phone, env.shop, env.now.iso);
      return;
    }
    if content == "confirm_no" {
      var _ := client.SendText(phone, BookingCancelledText);
      var _ := store.ResetState(phone, env.shop, env.now.iso);
      return;
    }
    if Truthy(OptText(state.context, SelectedTime)) {
      ShowConfirmation(client, phone, state, state.context[SelectedTime].text);
    }
  }

  /**
   * `handleSchedulingFlow`: dispatch on the step of the snapshot; a step outside the flow
   * shows the service list. `s` is the stored state, which may already be ahead of `snapshot`.
   */
  function SchedulingEffect(s: ConversationState, content: string, snapshot: ConversationState,
                            clients: seq<Data.Client>, services: seq<Data.Service>, barbers: seq<Data.Barber>,
                            appointments: seq<Data.Appointment>, phone: string, env: Env): Effect
    requires ValidEnv(env) && Data.StartTimesSplit(appointments)
  {
    var shopServices := Data.ShopServices(services, snapshot.barbershopId);
    var shopBarbers := Data.ShopBarbers(barbers, snapshot.barbershopId);
    var barberId := OptText(snapshot.context, SelectedBarberId);
    match snapshot.currentStep
    case SelectService => ServiceSelectionEffect(s, content, snapshot, shopServices, shopBarbers, phone, env)
    case SelectBarber => BarberSelectionEffect(s, content, snapshot, shopBarbers, phone, env)
    case SelectDate =>
      var date := ReplyId(content, "date_");
      DateSelectionEffect(s, content, if date.Some? then OfferedSlots(appointments, date.value, barberId, env) else [],
        phone, env)
    case SelectTime =>
      TimeSelectionEffect(s, content, snapshot, OfferedSlots(appointments, DateOrEmpty(snapshot.context), barberId, env),
        phone, env)
    case ConfirmAppointment =>
      ConfirmationEffect(s, content, snapshot,
        content == "confirm_yes" && Booking(clients, services, barbers, snapshot, phone, env).Some?, phone, env)
    case _ => ServiceListEffect(s, shopServices, phone, env)
  }

  method HandleSchedulingFlow(store: ConversationStateManager, client: Gateway.WhatsAppClient, data: Data.DataStore,
                              env: Env, phone: string, content: string, state: ConversationState)
    requires ValidEnv(env) && data.Valid() && ConvKey(phone, env) in store.states
    modifies store, client, data
    ensures data.Valid()
    ensures !(state.currentStep == ConfirmAppointment && content == "confirm_yes") ==>
      data.clients == old(data.clients) && data.appointments == old(data.appointments)
    ensures var e := SchedulingEffect(old(store.states)[ConvKey(phone, env)], content, state, old(data.clients),
                       data.services, data.barbers, old(data.appointments), phone, env);
      store.states == old(store.states)[ConvKey(phone, env) := e.state] && client.sent == old(client.sent) + e.sent
    ensures (StoreReady(old(store.states)) && Ready(state)
             && old(store.states)[ConvKey(phone, env)].context == state.context) ==> StoreReady(store.states)
  {
    ghost var k := ConvKey(phone, env);
    ghost var before := store.states;
    ghost var e := SchedulingEffect(before[k], content, state, data.clients, data.services, data.barbers,
                                    data.appointments, phone, env);
    if StoreReady(before) && Ready(state) && before[k].context == state.context {
      SchedulingKeepsReady(before[k], content, state, data.clients, data.services, data.barbers,
        data.appointments, phone, env);
      StoreReadyUpdate(before, k, e.state);
    }
    match state.currentStep
    case SelectService => HandleServiceSelection(store, client, data, env, phone, content, state);
    case SelectBarber => HandleBarberSelection(store, client, data, env, phone, content, state);
    case SelectDate => HandleDateSelection(store, client, data, env, phone, content, state);
    case SelectTime => HandleTimeSelection(store, client, data, env, phone, content, state);
    case ConfirmAppointment => HandleAppointmentConfirmation(store, client, data, env, phone, content, state);
    case _ => ShowServiceList(store, client, data, env, phone, state);
  }

  // ----- what the flow guarantees -----

  /** Replacing one conversation by a ready one keeps the store ready. */
  lemma StoreReadyUpdate(states: map<string, ConversationState>, k: string, s: ConversationState)
    requires StoreReady(states) && Ready(s)
    ensures StoreReady(states[k := s])
  {
  }

  /**
   * The flow keeps every conversation ready for its step: it never reaches a step without
   * the fields that step shows or books with, whatever the reply.
   */
  lemma {:induction false} SchedulingKeepsReady(s: ConversationState, content: string, snapshot: ConversationState,
                                                clients: seq<Data.Client>, services: seq<Data.Service>,
                                                barbers: seq<Data.Barber>, appointments: seq<Data.Appointment>,
                                                phone: string, env: Env)
    requires ValidEnv(env) && Data.StartTimesSplit(appointments)
    requires Ready(s) && Ready(snapshot) && s.context == snapshot.context
    ensures Ready(SchedulingEffect(s, content, snapshot, clients, services, barbers, appointments, phone, env).state)
  {
    var shopServices := Data.ShopServices(services, snapshot.barbershopId);
    var shopBarbers := Data.ShopBarbers(barbers, snapshot.barbershopId);
    var barberId := OptText(snapshot.context, SelectedBarberId);
    match snapshot.currentStep
    case SelectService =>
      ServiceSelectionKeepsReady(s, content, snapshot, shopServices, shopBarbers, phone, env);
    case SelectBarber =>
      BarberSelectionKeepsReady(s, content, snapshot, shopBarbers, phone, env);
    case SelectDate =>
      var date := ReplyId(content, "date_");
      DateSelectionKeepsReady(s, content,
        if date.Some? then OfferedSlots(appointments, date.value, barberId, env) else [], phone, env);
    case SelectTime =>
      TimeSelectionKeepsReady(s, content, snapshot,
        OfferedSlots(appointments, DateOrEmpty(snapshot.context), barberId, env), phone, env);
    case ConfirmAppointment =>
      ConfirmationKeepsReady(s, content, snapshot,
        content == "confirm_yes" && Booking(clients, services, barbers, snapshot, phone, env).Some?, phone, env);
    case _ =>
      assert SchedulingEffect(s, content, snapshot, clients, services, barbers, appointments, phone, env)
        == ServiceListEffect(s, shopServices, phone, env);
  }

  lemma ServiceSelectionKeepsReady(s: ConversationState, content: string, snapshot: ConversationState,
                                   services: seq<Data.Service>, barbers: seq<Data.Barber>, phone: string, env: Env)
    requires Ready(s)
    ensures Ready(ServiceSelectionEffect(s, content, snapshot, services, barbers, phone, env).state)
  {
  }

  lemma BarberSelectionKeepsReady(s: ConversationState, content: string, snapshot: ConversationState,
                                  barbers: seq<Data.Barber>, phone: string, env: Env)
    requires ValidEnv(env) && Ready(s) && ReadyFor(s.context, SelectBarber)
    ensures Ready(BarberSelectionEffect(s, content, snapshot, barbers, phone, env).state)
  {
    var choice := BarberChoice(content, barbers);
    if content == "barber_any" {
      MergeKeepsReady(s.context, map[SelectedBarberId := Undefined, SelectedBarberName := Text(AnyBarberName)],
        SelectBarber, SelectDate);
    } else if choice.Some? {
      var b := choice.value;
      MergeKeepsReady(s.context, map[SelectedBarberId := Text(b.id), SelectedBarberName := Text(Data.FullName(b))],
        SelectBarber, SelectDate);
    }
  }

  lemma DateSelectionKeepsReady(s: ConversationState, content: string, slots: seq<string>, phone: string, env: Env)
    requires ValidEnv(env) && Ready(s) && ReadyFor(s.context, SelectDate)
    ensures Ready(DateSelectionEffect(s, content, slots, phone, env).state)
  {
    var date := ReplyId(content, "date_");
    if date.Some? {
      var extra := map[SelectedDate := Text(date.value)];
      MergeKeepsReady(s.context, extra, SelectDate, SelectTime);
      var s1 := Stepped(Merged(s, extra, env), SelectTime, env);
      TimeSlotsKeepReady(s1, date.value, slots, phone, env);
    }
  }

  /** `showTimeSlots` from a conversation ready for the dates keeps it ready. */
  lemma TimeSlotsKeepReady(s: ConversationState, date: string, slots: seq<string>, phone: string, env: Env)
    requires ValidEnv(env) && Ready(s) && ReadyFor(s.context, SelectDate)
    ensures Ready(TimeSlotsEffect(s, date, slots, phone, env).state)
  {
    if slots != [] {
      MergeKeepsReady(s.context, map[AvailableTimes := Times(slots)], s.currentStep, s.currentStep);
    }
  }

  /**
   * Merging fields into a context ready for `from` leaves it ready for `to`, when every field
   * `to` adds is merged in as text and no field `from` relies on is overwritten by a non-text.
   */
  lemma MergeKeepsReady(ctx: Context, extra: Context, from: Step, to: Step)
    requires ReadyFor(ctx, from)
    requires forall k :: k in Needs(to) ==> k in Needs(from) || (k in extra && extra[k].Text?)
    requires forall k :: k in extra && k in Needs(to) ==> extra[k].Text?
    ensures ReadyFor(ctx + extra, to)
  {
    forall k | k in Needs(to)
      ensures HasText(ctx + extra, k)
    {
      if k in extra {
        assert (ctx + extra)[k] == extra[k];
      } else {
        assert HasText(ctx, k);
      }
    }
  }

  lemma TimeSelectionKeepsReady(s: ConversationState, content: string, snapshot: ConversationState,
                                slots: seq<string>, phone: string, env: Env)
    requires ValidEnv(env) && Ready(s) && ReadyFor(s.context, SelectTime)
    ensures Ready(TimeSelectionEffect(s, content, snapshot, slots, phone, env).state)
  {
    var time := ReplyId(content, "time_");
    if time.Some? {
      MergeKeepsReady(s.context, map[SelectedTime := Text(time.value)], SelectTime, ConfirmAppointment);
    } else if Truthy(OptText(snapshot.context, SelectedDate)) {
      MergeKeepsReady(s.context, map[], SelectTime, SelectDate);
      assert s.context + map[] == s.context;
      TimeSlotsKeepReady(s, snapshot.context[SelectedDate].text, slots, phone, env);
    }
  }

  lemma ConfirmationKeepsReady(s: ConversationState, content: string, snapshot: ConversationState, booked: bool,
                               phone: string, env: Env)
    requires Ready(s)
    ensures Ready(ConfirmationEffect(s, content, snapshot, booked, phone, env).state)
  {
  }

  /** A reply naming a service of the barbershop stores it and moves on to the barbers (or to idle when there are none). */
  lemma ServiceReplyAdvances(s: ConversationState, snapshot: ConversationState, services: seq<Data.Service>,
                             barbers: seq<Data.Barber>, sv: Data.Service, phone: string, env: Env)
    requires sv in services && forall t :: t in services && t.id == sv.id ==> t == sv
    ensures var e := ServiceSelectionEffect(s, "service_" + sv.id, snapshot, services, barbers, phone, env);
      e.state.context == s.context + ServiceContext(sv)
      && e.state.currentStep == (if barbers == [] then Idle else SelectBarber)
  {
    ReplyIdRoundTrip("service_", sv.id);
    assert "service_" + sv.id != "start" && "service_" + sv.id != "";
  }

  /** Any reply that names no service of the barbershop keeps the step (idle when the barbershop has no service). */
  lemma OtherServiceReplyKeepsStep(s: ConversationState, content: string, snapshot: ConversationState,
                                   services: seq<Data.Service>, barbers: seq<Data.Barber>, phone: string, env: Env)
    requires ServiceChoice(content, services).None? || content == "start" || content == ""
    ensures var e := ServiceSelectionEffect(s, content, snapshot, services, barbers, phone, env);
      e.state.context == s.context
      && e.state.currentStep == (if services == [] then Idle else s.currentStep)
  {
  }

  /**
   * 'barber_any' is tested before the generic prefix: it clears the barber id and names
   * 'Qualquer Barbeiro' even when a barber with id 'any' exists.
   */
  lemma AnyBarberFirst(s: ConversationState, snapshot: ConversationState, barbers: seq<Data.Barber>,
                       phone: string, env: Env)
    requires ValidEnv(env)
    ensures var e := BarberSelectionEffect(s, "barber_any", snapshot, barbers, phone, env);
      e.state.currentStep == SelectDate
      && e.state.context == s.context[SelectedBarberId := Undefined][SelectedBarberName := Text(AnyBarberName)]
  {
    var e := BarberSelectionEffect(s, "barber_any", snapshot, barbers, phone, env);
    assert e.state.context == s.context + map[SelectedBarberId := Undefined, SelectedBarberName := Text(AnyBarberName)];
  }

  /** A barber reply naming no barber of the barbershop keeps the step (idle when there is no barber). */
  lemma UnknownBarberKeepsStep(s: ConversationState, content: string, snapshot: ConversationState,
                               barbers: seq<Data.Barber>, phone: string, env: Env)
    requires ValidEnv(env) && content != "barber_any" && BarberChoice(content, barbers).None?
    ensures var e := BarberSelectionEffect(s, content, snapshot, barbers, phone, env);
      e.state.context == s.context && e.state.currentStep == (if barbers == [] then Idle else s.currentStep)
  {
  }

  /**
   * A `date_<d>` reply stores the date; the conversation then waits for a time, unless no
   * slot is free, in which case it goes back to the dates. Free slots are cached.
   */
  lemma DateReplyOutcome(s: ConversationState, date: string, slots: seq<string>, phone: string, env: Env)
    requires ValidEnv(env)
    ensures var e := DateSelectionEffect(s, "date_" + date, slots, phone, env);
      e.state.context[SelectedDate] == Text(date)
      && e.state.currentStep == (if slots == [] then SelectDate else SelectTime)
      && (slots != [] ==> e.state.context[AvailableTimes] == Times(slots))
  {
    ReplyIdRoundTrip("date_", date);
  }

  /** Any `time_<t>` reply is taken, whether or not `t` is among the offered slots. */
  lemma TimeReplyUnchecked(s: ConversationState, time: string, snapshot: ConversationState, slots: seq<string>,
                           phone: string, env: Env)
    requires ValidEnv(env)
    ensures var e := TimeSelectionEffect(s, "time_" + time, snapshot, slots, phone, env);
      e.state.currentStep == ConfirmAppointment && e.state.context == s.context[SelectedTime := Text(time)]
  {
    ReplyIdRoundTrip("time_", time);
    var e := TimeSelectionEffect(s, "time_" + time, snapshot, slots, phone, env);
    assert e.state.context == s.context + map[SelectedTime := Text(time)];
  }

  /**
   * 'confirm_yes', whatever its outcome, and 'confirm_no' end the flow at idle with the
   * context kept; any other reply keeps the step and sends at most the summary again.
   */
  lemma ConfirmationOutcome(s: ConversationState, content: string, snapshot: ConversationState, booked: bool,
                            phone: string, env: Env)
    ensures var e := ConfirmationEffect(s, content, snapshot, booked, phone, env);
      e.state.context == s.context && |e.sent| <= 1
      && (content == "confirm_yes" || content == "confirm_no" ==> e.state.currentStep == Idle && |e.sent| == 1)
      && (content != "confirm_yes" && content != "confirm_no" ==> e.state == s)
  {
  }
}
