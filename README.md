# Barbershop WhatsApp bot: a verified model of its core

This project models the core of a barbershop management system. Most of that core is a WhatsApp bot. A client books a haircut through it, and staff ask it for revenue and commission reports.

The model covers these parts of the system:

- **Conversation store** (`Conversation`). A class holding a map from `barbershopId:phone` to a conversation state. Its methods are get-or-create, update, set-step, update-context, reset and delete. Each method states the whole new map.
- **Outbound payloads** (`Gateway`). The text, reply-button and list messages sent to the WhatsApp Cloud API:
  - at most three buttons;
  - button titles cut to 20 characters;
  - header and footer only when non-empty.

  The client class records every message it sends. The HTTP answer to the n-th send is an input (`transport(n)`, an `HttpOutcome`).
- **Data service** (`Data`). The in-memory tables of services, barbers, clients and appointments, and the rules over them:
  - 30-minute slots between 09:00 and 18:00, minus booked ones, starting after the current hour on the same day;
  - how a client's name is split;
  - the defaults of a new appointment;
  - daily revenue, weekly commission and barber revenue.
- **Router** (`Router`). Flattens an inbound message to one string, dispatches on the conversation's step, and runs the greeting and the main menu, including the role gate for reports.
- **Booking flow** (`Scheduling`). `select_service → select_barber → select_date → select_time → confirm_appointment → idle`.
- **Reports flow** (`Reports`). A menu that depends on the user's role, and a free-text classifier that tries its patterns in a fixed order.
- **Webhook** (`Webhook`). The subscription handshake, and the walk over entries, changes and messages of a delivery.
- **Fiscal invoices** (`Fiscal`). The invoice status machine `pending → authorized | rejected`, `any → cancelled`, item numbering, invoice numbers and the dashboard figures.
- **Barbershop setup** (`Setup`). The guards of the onboarding endpoint, the slug pipeline and the seeded rows.

Every handler that changes the store or sends messages is a method. Each one ensures that the stored conversation becomes `e.state` and the sent messages grow by `e.sent`, where `e` is a pure effect function of the state before the call. The properties of the flows are lemmas about those effect functions.

One invariant runs through the whole bot: a stored conversation always carries, as text, the context fields its step shows or books with (`Scheduling.Ready`, `Scheduling.StoreReady`). `Router.HandleIncomingMessage` preserves it for the whole store.

Some inputs of the model come from outside the code. The clock, the calendar and the random suffix of ids arrive in `Runtime.Env`. Whether a date string parses is `Env.validTimestamp`. The database failures are inputs too. The setup route's are a `Failures` record. The fiscal writes' are `writeError`, `insertError`, `itemsError`, `updateError` and `updateFails`. The fiscal provider's answers are a `ProviderOutcome` and a `providerError`. The WhatsApp platform's answer to each send is the client's `transport` function.

Where the code and its documentation disagree, the model follows the code:

- `resetState` merges `{}` into the context, so it does not empty it.
- The main menu calls each flow with its own snapshot, whose step is still `main_menu`. The booking flow therefore lands in its default branch and shows the service list, and the reports flow shows its menu.
- A time reply is accepted without checking it against the cached `available_times`.
- The lookup `.single()` of the setup route yields no row when an owner already has two or more shops. The route then creates yet another one.

## Model

| member | source | states |
|---|---|---|
| Conversation.DefaultBarbershopId | lib/whatsapp/state-menanger.ts:7 | the tenant id is never empty, and is the configured one when that is set and non-empty |
| Conversation.KeySeparatesTenants | lib/whatsapp/state-menanger.ts:10-12 | the same phone under two barbershops gets two different keys |
| Conversation.KeySeparatesPhones | lib/whatsapp/state-menanger.ts:10-12 | two phones in one barbershop get two different keys |
| Conversation.KeyInjective | lib/whatsapp/state-menanger.ts:10-12 | when shop ids hold no ':', equal keys mean the same phone and the same shop |
| Conversation.KeyParts | lib/whatsapp/state-menanger.ts:10-12 | a key is the shop id, then ':', then the phone, and each part can be read back |
| Conversation.NewState | lib/whatsapp/state-menanger.ts:26-37 | a new conversation is idle, with empty context, no role, barber or client, and equal creation and update times |
| Conversation.ApplyUpdate | lib/whatsapp/state-menanger.ts:66-71 | identity fields and creation time are kept; each field the update names is replaced and the others are kept; the context merge is shallow, with named keys overwritten and the rest untouched |
| Conversation.ConversationStateManager.constructor | lib/whatsapp/state-menanger.ts:4 | the store starts empty |
| Conversation.ConversationStateManager.GetState | lib/whatsapp/state-menanger.ts:14-17 | a state is returned exactly when the key is stored, and it is the stored one |
| Conversation.ConversationStateManager.CreateState | lib/whatsapp/state-menanger.ts:19-41 | stores a fresh idle state under the key and changes no other key |
| Conversation.ConversationStateManager.GetOrCreateState | lib/whatsapp/state-menanger.ts:43-52 | an existing state is returned and the store is unchanged; otherwise a fresh state is stored and returned |
| Conversation.ConversationStateManager.UpdateState | lib/whatsapp/state-menanger.ts:54-75 | an absent key gives null and an unchanged store; otherwise only that key changes, to the merged state |
| Conversation.ConversationStateManager.SetStep | lib/whatsapp/state-menanger.ts:77-83 | only the step and the update time of that conversation change; null and no change when it is absent |
| Conversation.ConversationStateManager.UpdateContext | lib/whatsapp/state-menanger.ts:85-105 | only the context (shallow merge) and the update time change; null and no change when the key is absent |
| Conversation.ConversationStateManager.ResetState | lib/whatsapp/state-menanger.ts:107-119 | the step becomes idle while role, links and the context entries are kept |
| Conversation.ConversationStateManager.DeleteState | lib/whatsapp/state-menanger.ts:121-127 | says whether the key existed and removes exactly that key |
| Conversation.GetOrCreateTwice | lib/whatsapp/state-menanger.ts:43-52 | two calls in a row return the same state, with the same id |
| Gateway.OptionalText | lib/whatsapp/client.ts:83-96 | a header or footer is present exactly when the text given is non-empty |
| Gateway.TextPayload | lib/whatsapp/client.ts:47-57 | a text message to the recipient with the given body and no URL preview |
| Gateway.ReplyButton | lib/whatsapp/client.ts:70-73 | keeps the id and cuts the title to a prefix of at most 20 characters, leaving short titles whole |
| Gateway.ReplyButtonsOf | lib/whatsapp/client.ts:68-74 | the first three buttons at most, in their original order |
| Gateway.ButtonsPayload | lib/whatsapp/client.ts:61-101 | at most three buttons, ids copied and titles truncated in order; header and footer each present exactly when non-empty |
| Gateway.ListPayload | lib/whatsapp/client.ts:105-139 | the sections are passed through unchanged, with no row cap; header and footer each present exactly when non-empty |
| Gateway.Delivered | lib/whatsapp/client.ts:34-44 | a send succeeds exactly when the API answered OK; an error answer or a thrown fetch gives false |
| Gateway.WhatsAppClient.constructor | lib/whatsapp/client.ts:15-18 | nothing sent yet |
| Gateway.WhatsAppClient.SendMessage | lib/whatsapp/client.ts:20-45 | the message is recorded as sent, and the result is whether the transport's answer to this, the n-th send, counts as delivered; it never throws |
| Gateway.WhatsAppClient.SendText | lib/whatsapp/client.ts:47-59 | sends exactly the text payload |
| Gateway.WhatsAppClient.SendButtons | lib/whatsapp/client.ts:61-103 | sends exactly the capped buttons payload |
| Gateway.WhatsAppClient.SendList | lib/whatsapp/client.ts:105-141 | sends exactly the list payload |
| Data.FilterDisjoint | lib/whatsapp/data-service.ts:254-264 | two filters that no item passes both select at most as many items as there are |
| Data.ShopServices | lib/whatsapp/data-service.ts:85-88 | exactly the active services of the barbershop |
| Data.ShopBarbers | lib/whatsapp/data-service.ts:90-95 | exactly the active barbers of the barbershop |
| Data.BarberByPhone | lib/whatsapp/data-service.ts:339-347 | a barber of the shop with that phone, and null exactly when there is none |
| Data.BarberByName | lib/whatsapp/data-service.ts:349-361 | a barber of the shop whose lower-cased full name contains the lower-cased name, and null exactly when there is none |
| Data.StartHour | lib/whatsapp/data-service.ts:111-117 | 9 on another day; on the same day the later of 9 and the current hour plus one, so past the current hour |
| Data.SlotsFrom | lib/whatsapp/data-service.ts:119-123 | 2·(18 − start) slots, or none at or after 18; a label is among them exactly when it is HH:00 or HH:30 for an hour from the start hour up to, not including, 18 |
| Data.SlotsFromContents | lib/whatsapp/data-service.ts:119-123 | the generated sequence holds exactly the two labels of each hour from the start hour to closing time |
| Data.DatePart | lib/whatsapp/data-service.ts:128 | the date part has no 'T' and is a prefix of the timestamp |
| Data.TimePart | lib/whatsapp/data-service.ts:132-133 | the time part has at most five characters |
| Data.StartTime | lib/whatsapp/data-service.ts:199 | a start time always has a date/time separator |
| Data.StartTimeRoundTrip | lib/whatsapp/data-service.ts:128-133 | the date and the HH:MM time of a built start time are read back unchanged |
| Data.BookedTimes | lib/whatsapp/data-service.ts:126-134 | exactly the times of appointments on that date for that barber, or for any barber when none is given |
| Data.FreeSlots | lib/whatsapp/data-service.ts:136 | exactly the generated slots that are not booked |
| Data.BookingTakesSlot | lib/whatsapp/data-service.ts:126-136 | once an appointment is stored, its time is no longer offered for its date and barber |
| Data.RevenueOfFilter | lib/whatsapp/data-service.ts:254-257 | the revenue of a subset never exceeds the whole |
| Data.DailyRevenue | lib/whatsapp/data-service.ts:241-267 | the day's appointments are the Filter of the list by date and optional barber; total, completed and cancelled are the sizes of that list and of its completed and cancelled parts; revenue is the price sum of the completed ones of the day, so it never exceeds the day's whole revenue |
| Data.DailyRevenueAppend | lib/whatsapp/data-service.ts:241-267 | one more appointment adds 1 to the counts it falls under and, when completed, its price to the revenue, and only when it is on that day (and of that barber) |
| Data.RateOf | lib/whatsapp/data-service.ts:290 | the barber's non-zero rate, else 50 |
| Data.Commission | lib/whatsapp/data-service.ts:294 | at the default rate the commission is half the revenue, and no revenue gives no commission |
| Data.WeeklyCommission | lib/whatsapp/data-service.ts:269-297 | count and revenue of the barber's completed appointments whose start time lies between the week's bounds (compared as text), and the commission at the barber's rate (50% when the rate is missing or 0) |
| Data.WeeklyCommissionAppend | lib/whatsapp/data-service.ts:269-297 | an appointment outside the barber's completed week changes nothing; one inside adds 1 to the count and its price to the revenue |
| Data.WeeklyCommissionDefaultRate | lib/whatsapp/data-service.ts:290-294 | a barber without a rate (or with rate 0) earns half the revenue |
| Data.BarberRevenue | lib/whatsapp/data-service.ts:299-337 | an unknown barber gets an all-zero report; otherwise the completed appointments in the date range and the commission |
| Data.RangeInclusive | lib/whatsapp/data-service.ts:317-325 | the range includes appointments on its first and on its last day |
| Data.NewClient | lib/whatsapp/data-service.ts:147-169 | names are never empty and the first name has no space; the id comes from the clock |
| Data.ClientNameRoundTrip | lib/whatsapp/data-service.ts:153-159 | first and last name joined by a space give back a name of two or more words |
| Data.ClientSingleWord | lib/whatsapp/data-service.ts:153-159 | a one-word name is the first name and the last name defaults to 'WhatsApp' |
| Data.ChosenBarber | lib/whatsapp/data-service.ts:191-197 | the requested barber; otherwise the first active one, or none |
| Data.PlannedAppointment | lib/whatsapp/data-service.ts:184-217 | an appointment exists exactly when the service is known and a barber is found; it is confirmed, priced as the service and starts at date T time :00 |
| Data.DataStore.constructor | lib/whatsapp/data-service.ts:81-82 | the seed services and barbers, and no clients or appointments |
| Data.DataStore.ClientByPhone | lib/whatsapp/data-service.ts:139-145 | a client of that shop with that phone, and null exactly when there is none |
| Data.DataStore.AvailableSlots | lib/whatsapp/data-service.ts:97-137 | the loop yields the generated slots from the start hour minus the booked times |
| Data.DataStore.CreateClient | lib/whatsapp/data-service.ts:147-172 | appends the new client and returns it; appointments untouched |
| Data.DataStore.CreateAppointment | lib/whatsapp/data-service.ts:184-221 | null for an unknown service or no barber; an error for an unparsable start; otherwise the planned appointment is appended and returned |
| Data.SlotsInOpeningHours | lib/whatsapp/data-service.ts:110-123 | every slot is HH:00 or HH:30 for an hour HH with 9 ≤ start hour ≤ HH < 18 |
| Fiscal.NextInvoiceNumber | lib/fiscal/fiscal-service.ts:395-402 | the RPC's number when it gives one; otherwise the type, '-' and the timestamp |
| Fiscal.NewInvoice | lib/fiscal/fiscal-service.ts:87-107 | a pending invoice whose taxable amount is the total less the deduction; series and service code come from the config when not given |
| Fiscal.NumberedItems | lib/fiscal/fiscal-service.ts:114-120 | one row per requested item, in input order, with sequence i + 1 |
| Fiscal.ItemSequencesIncrease | lib/fiscal/fiscal-service.ts:115-120 | item sequences strictly increase with the input order |
| Fiscal.Lookup | lib/fiscal/fiscal-service.ts:145-152 | an invoice is found exactly when it exists and belongs to the shop |
| Fiscal.ProviderOf | lib/fiscal/fiscal-service.ts:158-161 | a provider exists exactly when the shop's config names one |
| Fiscal.EmitPrecheck | lib/fiscal/fiscal-service.ts:144-161 | emission goes on exactly for a pending invoice of the shop; otherwise not-found or not-pending |
| Fiscal.EmittedRow | lib/fiscal/fiscal-service.ts:173-215 | a refusal makes the row rejected with its reason, an acceptance makes it authorized with the provider's ids, and a throw leaves no update |
| Fiscal.EmitAnswer | lib/fiscal/fiscal-service.ts:173-248 | success exactly when the provider accepted, with status authorized; otherwise rejected, with the error message |
| Fiscal.AfterUpdate | lib/fiscal/fiscal-service.ts:210-217 | a failed row update after an acceptance becomes a thrown error; any other outcome stays as it was |
| Fiscal.UnwrittenEmissionStaysPending | lib/fiscal/fiscal-service.ts:210-248 | when the row update fails the answer is a rejection, with the provider's reason after a refusal or the update's error after an acceptance |
| Fiscal.AnswerMatchesRow | lib/fiscal/fiscal-service.ts:233-248 | the answer and the stored row agree, except after a throw, where the answer says rejected and the row stays pending |
| Fiscal.CancelledRow | lib/fiscal/fiscal-service.ts:334-340 | cancelled with the reason, from any status, the same document otherwise |
| Fiscal.CountWhere | lib/fiscal/fiscal-service.ts:362-372 | a count never exceeds the number of invoices; `Fiscal.CountWhereAppend` fixes the count itself |
| Fiscal.CountWhereAppend | lib/fiscal/fiscal-service.ts:362-372 | the empty list counts 0, and one more invoice adds 1 exactly when it satisfies the condition |
| Fiscal.RevenueAppend | lib/fiscal/fiscal-service.ts:374-375 | revenue and tax sums add up over concatenation |
| Fiscal.InsertNewest | lib/fiscal/fiscal-service.ts:377 | inserting keeps newest-first order and the same invoices |
| Fiscal.SortNewestFirst | lib/fiscal/fiscal-service.ts:377 | newest first and a permutation of the input |
| Fiscal.Recent | lib/fiscal/fiscal-service.ts:377 | at most ten invoices, newest first, all taken from the list |
| Fiscal.RecentAreNewest | lib/fiscal/fiscal-service.ts:377 | no invoice left out of the recent list is newer than one in it |
| Fiscal.Dashboard | lib/fiscal/fiscal-service.ts:354-390 | total, per-status counts (pending, authorized, rejected, cancelled) and per-type counts (nfse, nfe), each a count of the matching invoices and at most the total; revenue, taxes and recent list of the whole list; a certificate warning exactly when a certificate expires soon, naming the first one |
| Fiscal.DashboardAppend | lib/fiscal/fiscal-service.ts:354-390 | one more invoice adds 1 to the total, to the count of its status and of its type, and its amount to the revenue |
| Fiscal.StatusCountsAddUp | lib/fiscal/fiscal-service.ts:362-367 | the four status counts add up to the total |
| Fiscal.FiscalService.constructor | lib/fiscal/fiscal-service.ts:13-14 | empty tables |
| Fiscal.FiscalService.GetFiscalConfig | lib/fiscal/fiscal-service.ts:63-72 | the shop's config exactly when one is stored |
| Fiscal.FiscalService.GetInvoice | lib/fiscal/fiscal-service.ts:282-292 | the stored invoice itself, exactly when it exists and belongs to the shop |
| Fiscal.FiscalService.SaveFiscalConfig | lib/fiscal/fiscal-service.ts:19-58 | a failed write (`writeError`) answers its error and changes nothing; otherwise an upsert keyed by shop in which an existing config keeps its id; nothing else changes |
| Fiscal.FiscalService.CreateInvoice | lib/fiscal/fiscal-service.ts:77-139 | fails with no config and changes nothing; a failed insert (`insertError`) stores nothing; otherwise the pending invoice is stored, and its numbered items too unless their insert fails (`itemsError`), which answers that error with the invoice kept |
| Fiscal.FiscalService.EmitInvoice | lib/fiscal/fiscal-service.ts:144-249 | the precheck errors change nothing; otherwise the row is updated as the provider's outcome says unless the update fails (`updateError`), and the answer follows `AfterUpdate` of the outcome |
| Fiscal.FiscalService.CancelInvoice | lib/fiscal/fiscal-service.ts:311-349 | an unknown invoice fails; the provider is called only for an authorized invoice with a provider id, and its failure (`providerError`) leaves the row; otherwise the answer is success and the row is cancelled unless the unchecked update fails (`updateFails`) |
| Fiscal.EmitStatuses | lib/fiscal/fiscal-service.ts:154-215 | emission moves a pending invoice only to authorized or rejected, or leaves it pending |
| Router.ExtractContent | lib/whatsapp/message-handler.ts:55-75 | text body, picked button or list id, or template payload (else its text); '' for anything else |
| Router.ButtonReplyRoundTrip | lib/whatsapp/message-handler.ts:60-63 | tapping a button the bot sent gives back that button's id |
| Router.ListReplyRoundTrip | lib/whatsapp/message-handler.ts:64-66 | picking a row of a list the bot sent gives back that row's id |
| Router.GreetingOffersThree | lib/whatsapp/message-handler.ts:86-98 | the greeting moves to main_menu and offers exactly the three options, with full titles |
| Router.MenuStartsFlows | lib/whatsapp/message-handler.ts:109-137 | entered with 'start' and a main-menu snapshot, the booking flow lists services and the reports flow shows its menu |
| Router.MainMenuSchedules | lib/whatsapp/message-handler.ts:109-113 | 'schedule' or 'agendar' moves to select_service with the service list, or to idle when there is no service |
| Router.MainMenuReportsGate | lib/whatsapp/message-handler.ts:125-138 | reports reach reports_menu exactly for barber, manager or owner; anyone else is refused and sent to idle |
| Router.MainMenuRepeats | lib/whatsapp/message-handler.ts:140-145 | unrecognised input apologises, re-sends the greeting and stays at main_menu |
| Router.MenuInDevelopment | lib/whatsapp/message-handler.ts:115-123 | the appointments option answers with a notice and goes idle |
| Router.MenuRefusesReports | lib/whatsapp/message-handler.ts:130-136 | a reports request from a non-staff role is refused and goes idle |
| Router.MenuApologises | lib/whatsapp/message-handler.ts:140-145 | the effect of unrecognised input: the apology, then the greeting to 'Cliente' |
| Router.NormalizeWord | lib/whatsapp/message-handler.ts:106 | a plain lower-case id survives lower-casing and trimming unchanged |
| Router.ScheduleIdRoutes | lib/whatsapp/message-handler.ts:92-96 | the 'schedule' button id is recognised as scheduling |
| Router.AppointmentsIdRoutes | lib/whatsapp/message-handler.ts:92-96 | the 'my_appointments' button id reaches the appointments branch |
| Router.ReportsIdRoutes | lib/whatsapp/message-handler.ts:92-96 | the 'reports' button id reaches the reports branch |
| Router.MainMenuKeepsReady | lib/whatsapp/message-handler.ts:101-146 | the main menu leaves the conversation ready for the step it reaches |
| Router.Arrived | lib/whatsapp/message-handler.ts:15 | the stored conversation, or a fresh idle one with empty context |
| Router.RoutesByStep | lib/whatsapp/message-handler.ts:26-52 | idle greets; booking steps go to the booking flow; report steps go to the reports flow |
| Router.NewConversationGreeted | lib/whatsapp/message-handler.ts:15-28 | a first message from a phone is greeted and lands on main_menu, whatever it says |
| Router.RouterKeepsReady | lib/whatsapp/message-handler.ts:26-52 | every message leaves the conversation ready for its step |
| Router.SendGreeting | lib/whatsapp/message-handler.ts:86-99 | sets main_menu and sends the greeting buttons |
| Router.EnterScheduling | lib/whatsapp/message-handler.ts:109-113 | sets select_service, then runs the booking flow with 'start' |
| Router.EnterReports | lib/whatsapp/message-handler.ts:127-129 | sets reports_menu, then runs the reports flow with 'start' |
| Router.HandleMainMenu | lib/whatsapp/message-handler.ts:101-146 | performs the main-menu effect on the store and the sent messages |
| Router.ApologiseAndGreet | lib/whatsapp/message-handler.ts:140-145 | sends the apology and the greeting and ends at main_menu |
| Router.TextThenIdle | lib/whatsapp/message-handler.ts:117-121 | sends one text and sets idle |
| Router.Route | lib/whatsapp/message-handler.ts:26-52 | performs the routed effect for the fetched conversation |
| Router.RouteKeepsStoreReady | lib/whatsapp/message-handler.ts:7-53 | a store whose conversations are all ready stays so after a message |
| Router.HandleIncomingMessage | lib/whatsapp/message-handler.ts:7-53 | fetches or creates the conversation, flattens the message, performs the routed effect and keeps the store ready |
| Scheduling.NeedsGrow | lib/whatsapp/flows/sheduling-flow.ts:321-367 | each booking step relies on the fields of the step before it |
| Scheduling.ReadyFieldsShown | lib/whatsapp/flows/sheduling-flow.ts:321-330 | a field the step relies on is shown and booked with its text, never 'undefined' |
| Scheduling.ReplyId | lib/whatsapp/flows/sheduling-flow.ts:55-56 | a reply has an id exactly when it starts with the prefix, and prefix plus id is the reply |
| Scheduling.ReplyIdRoundTrip | lib/whatsapp/flows/sheduling-flow.ts:55-58 | a row id built with a prefix gives back the id it was built from |
| Scheduling.PriceLabel | lib/whatsapp/flows/sheduling-flow.ts:94 | a price shows as digits, a '.', and two more digits; `Scheduling.PriceLabelRoundTrip` reads the value back |
| Scheduling.PriceLabelDigits | lib/whatsapp/flows/sheduling-flow.ts:94 | the digits before the '.' read back as the whole units and the two after it as the cents |
| Scheduling.PriceLabelRoundTrip | lib/whatsapp/flows/sheduling-flow.ts:94 | the label reads back to the price it shows |
| Scheduling.PriceLabelInjective | lib/whatsapp/flows/sheduling-flow.ts:94 | different prices never show the same label |
| Scheduling.ServiceRows | lib/whatsapp/flows/sheduling-flow.ts:88-97 | at most ten rows, the first services in order, ids service_ + id, titles prefixes of at most 24 characters |
| Scheduling.BarberDescription | lib/whatsapp/flows/sheduling-flow.ts:166 | a non-empty description of at most 72 characters |
| Scheduling.BarberRows | lib/whatsapp/flows/sheduling-flow.ts:157-168 | the 'any' row first, then at most nine barbers in order: at most ten rows with capped titles and descriptions |
| Scheduling.DateRowsOf | lib/whatsapp/flows/sheduling-flow.ts:190-215 | exactly seven date rows |
| Scheduling.DateRows | lib/whatsapp/flows/sheduling-flow.ts:186-224 | the loop builds the seven date rows |
| Scheduling.DateTitleToday | lib/whatsapp/flows/sheduling-flow.ts:202 | a title starts with 'Hoje' exactly for the first day |
| Scheduling.DateRowsLabels | lib/whatsapp/flows/sheduling-flow.ts:200-203 | only row 0 is labelled 'Hoje', and each row's id gives back its ISO date |
| Scheduling.DisplayIsoDate | lib/whatsapp/flows/sheduling-flow.ts:272-273 | YYYY-MM-DD is shown as DD/MM/YYYY |
| Scheduling.TimeRows | lib/whatsapp/flows/sheduling-flow.ts:275-284 | at most ten slot rows, in order, ids time_ + slot |
| Scheduling.ServiceChoice | lib/whatsapp/flows/sheduling-flow.ts:55-60 | the chosen service is one of the shop's, and the reply names its id |
| Scheduling.BarberChoice | lib/whatsapp/flows/sheduling-flow.ts:125-130 | the chosen barber is one of the shop's, and the reply names its id |
| Scheduling.ShowServiceList | lib/whatsapp/flows/sheduling-flow.ts:76-106 | performs the service-list effect: no service means idle |
| Scheduling.ShowBarberList | lib/whatsapp/flows/sheduling-flow.ts:145-184 | performs the barber-list effect: no barber means idle |
| Scheduling.ShowDateOptions | lib/whatsapp/flows/sheduling-flow.ts:186-224 | sends the seven-day list |
| Scheduling.ShowTimeSlots | lib/whatsapp/flows/sheduling-flow.ts:245-293 | performs the slot-list effect on the free slots: none goes back to select_date, otherwise the slots are cached |
| Scheduling.ShowConfirmation | lib/whatsapp/flows/sheduling-flow.ts:316-343 | sends the summary with confirm and cancel buttons |
| Scheduling.HandleServiceSelection | lib/whatsapp/flows/sheduling-flow.ts:44-74 | performs the service-step effect |
| Scheduling.HandleBarberSelection | lib/whatsapp/flows/sheduling-flow.ts:108-143 | performs the barber-step effect |
| Scheduling.HandleDateSelection | lib/whatsapp/flows/sheduling-flow.ts:226-243 | performs the date-step effect with the slots free on the chosen date |
| Scheduling.HandleTimeSelection | lib/whatsapp/flows/sheduling-flow.ts:295-314 | performs the time-step effect |
| Scheduling.FindOrCreateClient | lib/whatsapp/flows/sheduling-flow.ts:352-356 | the known client of that phone, or a new 'Cliente WhatsApp' appended to the clients |
| Scheduling.Book | lib/whatsapp/flows/sheduling-flow.ts:351-367 | books exactly the planned appointment, appending it, and reports whether it did |
| Scheduling.HandleAppointmentConfirmation | lib/whatsapp/flows/sheduling-flow.ts:345-415 | performs the confirmation effect; only 'confirm_yes' touches clients and appointments |
| Scheduling.HandleSchedulingFlow | lib/whatsapp/flows/sheduling-flow.ts:13-42 | dispatches on the snapshot's step, performs its effect and keeps a ready store ready |
| Scheduling.SchedulingKeepsReady | lib/whatsapp/flows/sheduling-flow.ts:13-42 | whatever the reply, the booking flow leaves the conversation ready for its step |
| Scheduling.ServiceSelectionKeepsReady | lib/whatsapp/flows/sheduling-flow.ts:44-74 | the service step keeps the conversation ready |
| Scheduling.BarberSelectionKeepsReady | lib/whatsapp/flows/sheduling-flow.ts:108-143 | the barber step keeps the conversation ready |
| Scheduling.DateSelectionKeepsReady | lib/whatsapp/flows/sheduling-flow.ts:226-243 | the date step keeps the conversation ready |
| Scheduling.TimeSlotsKeepReady | lib/whatsapp/flows/sheduling-flow.ts:245-269 | showing slots keeps the conversation ready |
| Scheduling.TimeSelectionKeepsReady | lib/whatsapp/flows/sheduling-flow.ts:295-314 | the time step keeps the conversation ready |
| Scheduling.ConfirmationKeepsReady | lib/whatsapp/flows/sheduling-flow.ts:345-415 | the confirmation step keeps the conversation ready |
| Scheduling.ServiceReplyAdvances | lib/whatsapp/flows/sheduling-flow.ts:55-67 | a reply naming a shop service stores its id and name and moves to select_barber (idle with no barbers) |
| Scheduling.OtherServiceReplyKeepsStep | lib/whatsapp/flows/sheduling-flow.ts:49-74 | any other reply keeps context and step (idle when the shop has no service) |
| Scheduling.AnyBarberFirst | lib/whatsapp/flows/sheduling-flow.ts:113-122 | 'barber_any' clears the barber id, names 'Qualquer Barbeiro' and moves to select_date, even if a barber has id 'any' |
| Scheduling.UnknownBarberKeepsStep | lib/whatsapp/flows/sheduling-flow.ts:124-142 | a reply naming no shop barber keeps context and step (idle with no barbers) |
| Scheduling.DateReplyOutcome | lib/whatsapp/flows/sheduling-flow.ts:231-269 | a date reply stores the date, moves to select_time and caches the slots, or goes back to select_date when none is free |
| Scheduling.OfferedSlotHours | lib/whatsapp/data-service.ts:110-136 | every slot offered for a date is HH:00 or HH:30 with 9 ≤ HH < 18, and on the current day HH is after the current hour |
| Scheduling.TimeReplyUnchecked | lib/whatsapp/flows/sheduling-flow.ts:300-307 | any time_ reply is stored and moves to confirm_appointment, offered or not |
| Scheduling.ConfirmationOutcome | lib/whatsapp/flows/sheduling-flow.ts:345-415 | yes (booked or not) and no end at idle with the context kept; anything else changes nothing and re-sends at most the summary |
| Reports.MenuButtons | lib/whatsapp/flows/reports-flow.ts:84-91 | staff get today and commission ahead of the question button; others only the question button |
| Reports.MenuOffersAtMostThree | lib/whatsapp/flows/reports-flow.ts:84-102 | one to three buttons, the last always the question, three exactly for staff; so the no-permission branch never runs |
| Reports.ShowReportsMenu | lib/whatsapp/flows/reports-flow.ts:79-103 | builds the buttons for the role and sends the menu |
| Reports.CentsLabelWhole | lib/whatsapp/flows/reports-flow.ts:122 | a whole amount shows as the price label shows it |
| Reports.QueryRange | lib/whatsapp/flows/reports-flow.ts:212-220 | 'ontem' wins over 'semana', which wins over 'mes', else today; each period's bounds |
| Reports.NamedBarber | lib/whatsapp/flows/reports-flow.ts:252-262 | none exactly when the query names no barber (by lower-cased first or full name); otherwise a barber of the list that it names, the first one by `Reports.NamedBarberIsFirst` |
| Reports.OwnRevenueFirst | lib/whatsapp/flows/reports-flow.ts:190-195 | a self-revenue query is answered as such, whatever else it mentions |
| Reports.BarberRevenueOnlyForAdmins | lib/whatsapp/flows/reports-flow.ts:246-264 | another barber's figures only for manager or owner, a query with 'quanto', and the named barber |
| Reports.SalesQuery | lib/whatsapp/flows/reports-flow.ts:294-304 | a sales query targets yesterday exactly when it says 'ontem', else today |
| Reports.NamedBarberIsFirst | lib/whatsapp/flows/reports-flow.ts:255-261 | when a barber is named and no earlier one is, that barber is the one found: the loop breaks at the first match |
| Reports.MisencodedNeverMatches | lib/whatsapp/flows/reports-flow.ts:241 | the mis-encoded 'comissão' test can never match a lower-cased query |
| Reports.LinkedChangesBarberOnly | lib/whatsapp/flows/reports-flow.ts:145 | linking a barber changes only the barber id and the update time |
| Reports.TodayBarber | lib/whatsapp/flows/reports-flow.ts:109 | today's report is restricted to a barber exactly when the role is barber and a barber id is set |
| Reports.OwnBarberId | lib/whatsapp/flows/reports-flow.ts:196-204 | a usable barber id exists exactly when the conversation has one or one is found by phone |
| Reports.MenuIds | lib/whatsapp/flows/reports-flow.ts:52-71 | report_query waits for a question, report_back goes idle, report_today keeps the state |
| Reports.OwnRevenueUnknownBarber | lib/whatsapp/flows/reports-flow.ts:204-210 | with no barber resolved, one error text and the step is kept |
| Reports.OwnRevenueOutcome | lib/whatsapp/flows/reports-flow.ts:196-237 | one message; reports_menu exactly when a barber id is resolved; context kept |
| Reports.QueryEndsAtMenu | lib/whatsapp/flows/reports-flow.ts:168-331 | every answered query ends at reports_menu, except commission, which keeps the step |
| Reports.OtherQueriesToMenu | lib/whatsapp/flows/reports-flow.ts:246-331 | neither self-revenue nor commission: answered and back to reports_menu |
| Reports.ClassifiesAsAnswer | lib/whatsapp/flows/reports-flow.ts:246-331 | such a query is another barber's revenue, sales or help |
| Reports.CommissionLinksBarber | lib/whatsapp/flows/reports-flow.ts:140-166 | two messages, step and context kept; the barber found by phone is linked only when none was set |
| Reports.QueryKeepsContext | lib/whatsapp/flows/reports-flow.ts:168-331 | a query keeps the context and leaves the step alone or moves it to reports_menu |
| Reports.ReportsKeepContext | lib/whatsapp/flows/reports-flow.ts:13-30 | the reports flow keeps the context and moves only to reports_menu, awaiting_report_query or idle |
| Reports.SendTodayReport | lib/whatsapp/flows/reports-flow.ts:105-138 | sends today's figures (the barber's own for a barber), then the menu |
| Reports.LinkBarber | lib/whatsapp/flows/reports-flow.ts:145 | stores the barber id on the conversation |
| Reports.CommissionCases | lib/whatsapp/flows/reports-flow.ts:140-166 | the three commission outcomes: known id, id found by phone (linked), none found (error) |
| Reports.SendMyCommission | lib/whatsapp/flows/reports-flow.ts:140-166 | performs the commission effect |
| Reports.SendCommissionFigures | lib/whatsapp/flows/reports-flow.ts:157-165 | sends the weekly figures, then the menu |
| Reports.AnswerOwnRevenue | lib/whatsapp/flows/reports-flow.ts:190-238 | performs the self-revenue effect |
| Reports.ResolveOwnBarber | lib/whatsapp/flows/reports-flow.ts:196-202 | yields the resolved barber id and links a barber found by phone |
| Reports.OwnRevenueCases | lib/whatsapp/flows/reports-flow.ts:196-237 | the two self-revenue outcomes, error or figures |
| Reports.HandleReportQuery | lib/whatsapp/flows/reports-flow.ts:168-331 | performs the query effect |
| Reports.AnswerQuery | lib/whatsapp/flows/reports-flow.ts:190-331 | performs the effect of the classified question: own revenue, commission, or one answer followed by reports_menu |
| Reports.QueryCases | lib/whatsapp/flows/reports-flow.ts:190-331 | each classification leads to its own effect |
| Reports.AnswerFromMenu | lib/whatsapp/flows/reports-flow.ts:288-289 | sends one answer and sets reports_menu |
| Reports.HandleReportsMenu | lib/whatsapp/flows/reports-flow.ts:32-77 | performs the menu-input effect |
| Reports.HandleReportsFlow | lib/whatsapp/flows/reports-flow.ts:13-30 | dispatches on the snapshot's step and performs its effect |
| Webhook.Verify | app/api/whatsapp/webhook/route.ts:6-22 | 200 with the challenge exactly for 'subscribe' with the configured token; otherwise 403 'Forbidden' |
| Webhook.UnsetTokenRefuses | app/api/whatsapp/webhook/route.ts:13-21 | with no configured token every handshake is refused |
| Webhook.WrongTokenRefuses | app/api/whatsapp/webhook/route.ts:15-21 | any other token is refused |
| Webhook.SenderName | app/api/whatsapp/webhook/route.ts:46-47 | 'Cliente' without contacts or without a contact of the sender; otherwise the name of the FIRST contact whose id is the sender's, or 'Cliente' when that name is empty |
| Webhook.Then | app/api/whatsapp/webhook/route.ts:35-61 | a throw ends the walk: after one, the next part adds nothing; otherwise the dispatches are concatenated |
| Webhook.ThenAssociative | app/api/whatsapp/webhook/route.ts:35-61 | the nested loops may be grouped either way |
| Webhook.ChangeWalk | app/api/whatsapp/webhook/route.ts:37-59 | a change that is not a 'messages' change with messages is skipped; without metadata it throws before any hand-off; otherwise one dispatch per message |
| Webhook.ChangeDispatches | app/api/whatsapp/webhook/route.ts:37-59 | nothing for a non-qualifying change; otherwise one dispatch per message, in order |
| Webhook.ChangesAppend | app/api/whatsapp/webhook/route.ts:36-60 | walking a run of changes is walking its first half `Then` its second: the second adds its dispatches only when the first did not throw |
| Webhook.EntriesAppend | app/api/whatsapp/webhook/route.ts:35-61 | the same for a run of entries: every message is dispatched once, in payload order, up to the first throw |
| Webhook.EntriesStopAtThrow | app/api/whatsapp/webhook/route.ts:35-61 | once a run of entries throws, the entries after it dispatch nothing |
| Webhook.ChangesStopAtThrow | app/api/whatsapp/webhook/route.ts:36-60 | once a run of changes throws, the changes after it dispatch nothing |
| Webhook.MissingChangesKeepsEarlierDispatches | app/api/whatsapp/webhook/route.ts:35-36 | an entry without `changes` throws: the messages handed off before it stay dispatched and nothing after it is |
| Webhook.WellFormedNeverThrows | app/api/whatsapp/webhook/route.ts:35-61 | a delivery whose entries all have changes and whose qualifying changes all have metadata is walked to the end |
| Webhook.ChangesNeverThrow | app/api/whatsapp/webhook/route.ts:36-60 | a run of changes that are skipped or have metadata never throws |
| Webhook.NothingQualifiesNothingDispatched | app/api/whatsapp/webhook/route.ts:37-42 | status-only changes dispatch nothing |
| Webhook.DispatchedFromQualifying | app/api/whatsapp/webhook/route.ts:36-59 | every dispatched message comes from a qualifying change |
| Webhook.DispatchChange | app/api/whatsapp/webhook/route.ts:37-59 | the loop dispatches exactly what the change's walk dispatches and reports its throw: nothing for a skipped change, a throw before any hand-off without metadata |
| Webhook.DispatchEntry | app/api/whatsapp/webhook/route.ts:36-60 | the loop walks the entry's changes, keeps the dispatches made before a throw and stops there |
| Webhook.Post | app/api/whatsapp/webhook/route.ts:25-70 | always 200; 'error' and nothing dispatched for an unreadable body; 'ignored' for another object; otherwise the walk of the payload: the messages handed off before a throw stay dispatched, and the answer is 'error' after a throw, 'received' otherwise |
| Setup.StripSymbols | app/api/barbershop/setup/route.ts:57 | the word characters of the name survive, in order (`Words` is unchanged); a name of word characters, white space and hyphens only is left as it is |
| Setup.StripSymbolsAppend | app/api/barbershop/setup/route.ts:57 | the global replacement works character by character: stripping a concatenation strips each part |
| Setup.DashSpaces | app/api/barbershop/setup/route.ts:58 | the first character is kept, or becomes '-' when it is white space; `Setup.DashSpacesChars` and `Setup.DashSpacesKeepsWords` state the rest |
| Setup.DashSpacesChars | app/api/barbershop/setup/route.ts:58 | every character left is '-' or a non-white-space character of the input |
| Setup.DashSpacesKeepsWords | app/api/barbershop/setup/route.ts:58 | the word characters survive, in order |
| Setup.DashSpacesRun | app/api/barbershop/setup/route.ts:58 | one maximal run of white space between two pieces of text becomes exactly one hyphen |
| Setup.CollapseDashes | app/api/barbershop/setup/route.ts:59 | no '--' is left and the first character is kept; `Setup.CollapseDashesChars` and `Setup.CollapseDashesKeepsNonDash` state the rest |
| Setup.CollapseDashesChars | app/api/barbershop/setup/route.ts:59 | no character is added |
| Setup.CollapseDashesKeepsNonDash | app/api/barbershop/setup/route.ts:59 | the characters other than '-' survive, in order |
| Setup.CollapseDashesRun | app/api/barbershop/setup/route.ts:59 | one maximal run of hyphens between two pieces of text becomes exactly one hyphen |
| Setup.BaseSlugShape | app/api/barbershop/setup/route.ts:55-59 | the base slug is made of lower-case letters, digits, '_' and '-', with no '--' |
| Setup.BaseSlugKeepsWords | app/api/barbershop/setup/route.ts:55-59 | the slug keeps every letter, digit and '_' of the lower-cased name, in order: only separators and symbols differ |
| Setup.BaseSlugIdempotent | app/api/barbershop/setup/route.ts:55-59 | slugging a slug changes nothing |
| Setup.StoredSlug | app/api/barbershop/setup/route.ts:67 | the base slug, '-', then the digits of the timestamp |
| Setup.StoredSlugShape | app/api/barbershop/setup/route.ts:55-67 | the stored slug is made only of slug characters |
| Setup.OrNull | app/api/barbershop/setup/route.ts:68-75 | an empty or missing field is stored as null |
| Setup.NewShop | app/api/barbershop/setup/route.ts:62-79 | the owner, the name, the slug, the optional fields or null, the email falling back to the user's, UTC, USD, active |
| Setup.DefaultServices | app/api/barbershop/setup/route.ts:106-141 | four active services of the shop with distinct names |
| Setup.DefaultWorkingHours | app/api/barbershop/setup/route.ts:152-165 | Monday to Saturday from 09:00, closing at 18:00, and at 17:00 on Saturday |
| Setup.Owned | app/api/barbershop/setup/route.ts:19-23 | exactly the shops of the owner |
| Setup.ExistingShop | app/api/barbershop/setup/route.ts:19-25 | a shop id exactly when the owner has exactly one shop |
| Setup.SetupThenExists | app/api/barbershop/setup/route.ts:18-30 | after a first setup, a second call finds the shop instead of creating one |
| Setup.Status | app/api/barbershop/setup/route.ts:11-188 | 201 exactly for a created shop, 200 exactly for an existing one |
| Setup.Database.constructor | app/api/barbershop/setup/route.ts:6 | the given shops and profiles, and no services or hours |
| Setup.Database.LinkedProfiles | app/api/barbershop/setup/route.ts:92-98 | only the user's profile changes, to the new shop and role owner |
| Setup.Database.Setup | app/api/barbershop/setup/route.ts:4-189 | 401, 200, 500 and 400 change nothing; a failed insert changes nothing; otherwise the shop is added, and the profile, services and hours are added unless their write fails |
| Strings.Truncate | lib/whatsapp/flows/sheduling-flow.ts:93 | a prefix of at most n characters, the whole string when short |
| Strings.ToLower | lib/whatsapp/flows/reports-flow.ts:173 | same length, each character lower-cased |
| Strings.LowerHasNoUpper | lib/whatsapp/flows/reports-flow.ts:173 | no upper-case letter of the modelled ranges survives lower-casing |
| Strings.Trim | lib/whatsapp/flows/reports-flow.ts:173 | the result is a middle slice of the input with only white space cut off on either side, and neither of its ends is white space |
| Strings.TrimSlice | lib/whatsapp/flows/reports-flow.ts:173 | cutting a blank prefix and then a blank suffix leaves a middle slice with blank surroundings |
| Strings.TrimChars | lib/whatsapp/flows/reports-flow.ts:173 | trimming adds no character |
| Strings.Split | lib/whatsapp/flows/sheduling-flow.ts:272 | at least one part; two or more exactly when the separator occurs; no part holds it |
| Strings.JoinSplit | lib/whatsapp/data-service.ts:153-159 | joining the split parts gives back the string |
| Strings.Pad2Injective | lib/whatsapp/data-service.ts:121-122 | different hours below 100 get different two-digit labels |
| Strings.NatToStringRoundTrip | lib/whatsapp/flows/sheduling-flow.ts:94 | the decimal text of a number reads back as the number |
| Strings.Pad2RoundTrip | lib/whatsapp/data-service.ts:121-122 | a two-digit padded number below 100 reads back as the number |

## Left out

- React pages, components and the other API routes: user interface and forms.
- `lib/whatsapp/conversation-handler.ts`: a divergent duplicate of the flow, with different step and field names. It is not part of this model.
- The import paths differ between files (`state-manager`, `state-menager`, `scheduling-flow`). The model has one store and one booking flow.
- `fetch` in `sendMessage`: its answer is the client's `transport` input, one `HttpOutcome` per send, not a network call.
- Supabase: every table is a `seq` or `map` field. The write errors are inputs:
  - the setup route's `Failures` record;
  - the fiscal writes' `writeError`, `insertError`, `itemsError` and `updateError`;
  - the unchecked cancel update's `updateFails`;
  - the provider's `ProviderOutcome` and `providerError`.

  The booking and reports flows read the data service's in-memory tables, which the source keeps in module-level arrays and which cannot fail.
- Fiscal.FiscalService.GetFiscalConfig, Fiscal.FiscalService.GetInvoice: a read error other than "no row" (`PGRST116`) throws in the source; the model's reads only find a row or none, because the in-memory tables have no other failure.
- The webhook does not await its dispatch and catches errors asynchronously. The model records each hand-off as a `Dispatch`, in order, and does not model concurrency.
- The clock, timezones and `Date` parsing: today, yesterday, the week bounds, the current hour and the coming seven days are `Env` inputs.
- `createAppointment`'s end time (start plus the service duration, via `Date` and `toISOString`): it is not modelled. The stored `Appointment` has no end-time field. Only the throw of an invalid start date is kept, as the `validStart` input.
- Floating point: prices and revenues are integer cents, and commission is a `real`.
- `toFixed(2)` rounding is `CentsLabel`, which rounds half up. It does not model binary floating-point ties.
- Message wording: the texts are kept as written, but there is no localisation.
- The `services_breakdown` loops in the reports: the source always gives an empty breakdown, so those loops never add text and are not rendered.
- Reports.ShowReportsMenu: the no-permission branch after the buttons are built is not modelled as a path. `MenuOffersAtMostThree` proves it can never run.
- Router.Arrived: assumes the store's `getOrCreateState` under the default tenant, as the router calls it with one argument.
- Strings.ToLower: covers ASCII and Latin-1 letters only, not full Unicode case mapping.
- Strings.Truncate: counts Unicode characters, while JavaScript's `slice(0, n)` counts UTF-16 code units. A button title, row title or barber bio with characters outside the Basic Multilingual Plane, such as emoji, is therefore cut at a later character than in the source. The source can also split a surrogate pair, leaving half a character, which the model cannot express.
- Setup.Database.Setup: names that are not strings are out of scope, because the body is typed and a non-string name cannot be expressed. Errors of the profile, services and hours writes are inputs that only skip that write, as the route ignores them.
- Fiscal providers, certificate storage and encryption (`focus-nfe`, `plug-notas`, mock provider, `certificate-service.ts`): foreign HTTP and crypto code. Only their outcome enters the model.
- Logging (`console.log`, `console.error`): it has no effect on state.
