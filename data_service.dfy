/**
 * The in-memory data behind the bot: services, barbers, clients and appointments,
 * the 30-minute slot generator, client and appointment creation, and the revenue and
 * commission reports. Money is kept in integer cents.
 */
module Data {
  import opened Wrappers
  import Strings

  datatype Service = Service(
    id: string,
    barbershopId: string,
    name: string,
    durationMinutes: nat,
    price: nat,
    isActive: bool)

  datatype Barber = Barber(
    id: string,
    barbershopId: string,
    firstName: string,
    lastName: string,
    phone: Option<string>,
    bio: Option<string>,
    isActive: bool,
    commissionRate: Option<real>)

  datatype Client = Client(
    id: string,
    barbershopId: string,
    firstName: string,
    lastName: string,
    phone: string,
    notes: string)

  datatype AppointmentStatus = Pending | Confirmed | InProgress | Completed | Cancelled | NoShow

  datatype Appointment = Appointment(
    id: string,
    barbershopId: string,
    barberId: string,
    clientId: string,
    serviceId: string,
    startTime: string,
    status: AppointmentStatus,
    notes: string,
    totalPrice: nat)

  /** The seed services every barbershop id `default-barbershop` starts with. */
  const MockServices: seq<Service> := [
    Service("service-1", "default-barbershop", "Corte Masculino", 30, 4500, true),
    Service("service-2", "default-barbershop", "Barba", 20, 3000, true),
    Service("service-3", "default-barbershop", "Corte + Barba", 45, 6500, true)
  ]

  const MockBarbers: seq<Barber> := [
    Barber("barber-1", "default-barbershop", "Carlos", "Silva", Some("11999999999"),
      Some("Especialista em cortes modernos"), true, Some(50.0)),
    Barber("barber-2", "default-barbershop", "Joao", "Santos", Some("11988888888"),
      Some("Especialista em barbas"), true, Some(50.0))
  ]

  /** `${first_name} ${last_name}`, the display name of a barber. */
  function FullName(b: Barber): string
  {
    b.firstName + " " + b.lastName
  }

  /** `array.filter(p)`: the elements satisfying `p`, in their order. */
  function Filter<T(!new)>(s: seq<T>, p: T -> bool): (r: seq<T>)
    ensures |r| <= |s|
    ensures forall x :: x in r <==> x in s && p(x)
  {
    if s == [] then []
    else if p(s[0]) then [s[0]] + Filter(s[1..], p)
    else Filter(s[1..], p)
  }

  /** `array.find(p)`: the first element satisfying `p`, if any. */
  function Find<T>(s: seq<T>, p: T -> bool): (r: Option<T>)
    ensures r.None? <==> forall i :: 0 <= i < |s| ==> !p(s[i])
    ensures r.Some? ==> exists i :: 0 <= i < |s| && s[i] == r.value && p(s[i])
                                    && forall j :: 0 <= j < i ==> !p(s[j])
  {
    if s == [] then None
    else if p(s[0]) then Some(s[0])
    else
      var r := Find(s[1..], p);
      assert r.Some? ==> exists i :: 0 <= i < |s[1..]| && s[1..][i] == r.value && p(s[1..][i])
                                      && forall j :: 0 <= j < i ==> !p(s[1..][j]);
      r
  }

  /** Filtering a longer list: the filtered prefix, then the new element when it passes. */
  lemma {:induction false} FilterAppend<T(!new)>(s: seq<T>, x: T, p: T -> bool)
    ensures Filter(s + [x], p) == Filter(s, p) + (if p(x) then [x] else [])
  {
    if s == [] {
      assert [] + [x] == [x];
      assert [x][1..] == [];
    } else {
      assert (s + [x])[0] == s[0] && (s + [x])[1..] == s[1..] + [x];
      FilterAppend(s[1..], x, p);
    }
  }

  /** Two conditions that never hold together select at most as many elements as there are. */
  lemma {:induction false} FilterDisjoint<T(!new)>(s: seq<T>, p: T -> bool, q: T -> bool)
    requires forall x :: !(p(x) && q(x))
    ensures |Filter(s, p)| + |Filter(s, q)| <= |s|
  {
    if s != [] {
      FilterDisjoint(s[1..], p, q);
    }
  }

  /** `getServices`: the active services of the barbershop, in table order. */
  function ShopServices(services: seq<Service>, barbershopId: string): (r: seq<Service>)
    ensures forall s :: s in r <==> s in services && s.barbershopId == barbershopId && s.isActive
  {
    Filter(services, (s: Service) => s.barbershopId == barbershopId && s.isActive)
  }

  /** `getBarbers`: the active barbers of the barbershop, in table order. */
  function ShopBarbers(barbers: seq<Barber>, barbershopId: string): (r: seq<Barber>)
    ensures forall b :: b in r <==> b in barbers && b.barbershopId == barbershopId && b.isActive
  {
    Filter(barbers, (b: Barber) => b.barbershopId == barbershopId && b.isActive)
  }

  /** `getBarberByPhone`: the first barber of the barbershop, active or not, with that phone. */
  function BarberByPhone(barbers: seq<Barber>, barbershopId: string, phone: string): (r: Option<Barber>)
    ensures r.Some? ==> r.value in barbers && r.value.barbershopId == barbershopId && r.value.phone == Some(phone)
    ensures r.None? <==> forall b :: b in barbers ==> b.barbershopId != barbershopId || b.phone != Some(phone)
  {
    Find(barbers, (b: Barber) => b.barbershopId == barbershopId && b.phone == Some(phone))
  }

  /** `getBarberByName`: the first barber of the barbershop whose lower-cased full name contains the lower-cased name. */
  function BarberByName(barbers: seq<Barber>, barbershopId: string, name: string): (r: Option<Barber>)
    ensures r.Some? ==> r.value in barbers && r.value.barbershopId == barbershopId
                        && Strings.Contains(Strings.ToLower(FullName(r.value)), Strings.ToLower(name))
    ensures r.None? <==> forall b :: b in barbers ==>
      b.barbershopId != barbershopId || !Strings.Contains(Strings.ToLower(FullName(b)), Strings.ToLower(name))
  {
    Find(barbers, (b: Barber) => b.barbershopId == barbershopId && Strings.Contains(Strings.ToLower(FullName(b)), Strings.ToLower(name)))
  }

  // ----- time slots -----

  const OpeningHour: nat := 9
  const ClosingHour: nat := 18

  /** The first bookable hour: 9, or on the current day the hour after the current one when that is later. */
  function StartHour(sameDay: bool, currentHour: nat): (h: nat)
    ensures h >= OpeningHour
    ensures !sameDay ==> h == OpeningHour
    ensures sameDay ==> h > currentHour && (h == OpeningHour || h == currentHour + 1)
  {
    if sameDay && currentHour + 1 > OpeningHour then currentHour + 1 else OpeningHour
  }

  /** The slot label `HH:00` or `HH:30`. */
  function SlotLabel(hour: nat, halfPast: bool): string
  {
    Strings.Pad2(hour) + (if halfPast then ":30" else ":00")
  }

  /**
   * The half-hour slots from `hour` up to closing time, ascending, two per hour: slot `i`
   * is `i / 2` hours after the first, on the hour for even `i` and at half past for odd `i`.
   */
  function SlotsFrom(hour: nat): (r: seq<string>)
    ensures |r| == if hour < ClosingHour then 2 * (ClosingHour - hour) else 0
    ensures forall i :: 0 <= i < |r| ==> hour + i / 2 < ClosingHour
    ensures forall t :: t in r <==>
      exists h: nat :: hour <= h < ClosingHour && (t == SlotLabel(h, false) || t == SlotLabel(h, true))
  {
    var count := if hour < ClosingHour then 2 * (ClosingHour - hour) else 0;
    var r := seq(count, i requires 0 <= i < count => SlotLabel(hour + i / 2, i % 2 == 1));
    SlotsFromContents(hour, r);
    r
  }

  /** The slot sequence holds exactly the two labels of each hour from `hour` to closing time. */
  lemma SlotsFromContents(hour: nat, r: seq<string>)
    requires |r| == if hour < ClosingHour then 2 * (ClosingHour - hour) else 0
    requires forall i :: 0 <= i < |r| ==> r[i] == SlotLabel(hour + i / 2, i % 2 == 1)
    ensures forall t :: t in r <==>
      exists h: nat :: hour <= h < ClosingHour && (t == SlotLabel(h, false) || t == SlotLabel(h, true))
  {
    forall t | t in r
      ensures exists h: nat :: hour <= h < ClosingHour && (t == SlotLabel(h, false) || t == SlotLabel(h, true))
    {
      var i :| 0 <= i < |r| && r[i] == t;
      assert hour + i / 2 < ClosingHour;
      assert t == SlotLabel(hour + i / 2, i % 2 == 1);
    }
    forall h: nat, half: bool | hour <= h < ClosingHour
      ensures SlotLabel(h, half) in r
    {
      var i := 2 * (h - hour) + (if half then 1 else 0);
      assert i / 2 == h - hour && (i % 2 == 1) == half;
      assert r[i] == SlotLabel(h, half);
    }
  }

  /** The date part of an ISO timestamp: the text before the first 'T'. */
  function DatePart(timestamp: string): (d: string)
    ensures 'T' !in d && d <= timestamp
  {
    var parts := Strings.Split(timestamp, 'T');
    Strings.JoinSplit(timestamp, 'T');
    assert parts[0] <= timestamp by {
      if |parts| > 1 {
        assert Strings.Join(parts, 'T') == parts[0] + ['T'] + Strings.Join(parts[1..], 'T');
      }
    }
    parts[0]
  }

  /** `start_time.split('T')[1].substring(0, 5)`: the `HH:MM` of an ISO timestamp. */
  function TimePart(timestamp: string): (t: string)
    requires 'T' in timestamp
    ensures |t| <= 5
  {
    Strings.Truncate(Strings.Split(timestamp, 'T')[1], 5)
  }

  /** The stored start time of a booking, `date + 'T' + time + ':00'`. */
  function StartTime(date: string, time: string): (s: string)
    ensures 'T' in s
  {
    assert (date + "T" + time + ":00")[|date|] == 'T';
    date + "T" + time + ":00"
  }

  /** A start time gives back the booked date and, for an `HH:MM` time, the booked time. */
  lemma StartTimeRoundTrip(date: string, time: string)
    requires 'T' !in date && 'T' !in time && |time| == 5
    ensures DatePart(StartTime(date, time)) == date
    ensures TimePart(StartTime(date, time)) == time
  {
    assert StartTime(date, time) == date + ['T'] + (time + ":00");
    Strings.SplitAtFirst(date, 'T', time + ":00");
    Strings.SplitNoSeparator(time + ":00", 'T');
    assert (time + ":00")[..5] == time;
  }

  /** Whether an appointment blocks the slots of a date for the requested barber (any barber when none is given). */
  predicate Blocks(a: Appointment, date: string, barberId: Option<string>)
  {
    DatePart(a.startTime) == date && (!Truthy(barberId) || a.barberId == barberId.value)
  }

  /** `Blocks` as the condition of a filter. */
  function OnDay(date: string, barberId: Option<string>): Appointment -> bool
  {
    (a: Appointment) => Blocks(a, date, barberId)
  }

  /** The booked `HH:MM` start times on the date, in appointment order. */
  function BookedTimes(appointments: seq<Appointment>, date: string, barberId: Option<string>): (r: seq<string>)
    requires forall i :: 0 <= i < |appointments| ==> 'T' in appointments[i].startTime
    ensures forall t :: t in r <==> exists a :: a in appointments && Blocks(a, date, barberId) && t == TimePart(a.startTime)
  {
    if appointments == [] then []
    else
      var last := appointments[|appointments| - 1];
      var front := BookedTimes(appointments[..|appointments| - 1], date, barberId);
      assert forall a :: a in appointments <==> a in appointments[..|appointments| - 1] || a == last;
      front + (if Blocks(last, date, barberId) then [TimePart(last.startTime)] else [])
  }

  /** `slots.filter(slot => !booked.includes(slot))`. */
  function FreeSlots(slots: seq<string>, booked: seq<string>): (r: seq<string>)
    ensures forall t :: t in r <==> t in slots && t !in booked
  {
    Filter(slots, (t: string) => t !in booked)
  }

  /** A slot taken by a new booking on that date is no longer offered for its barber nor for "any barber". */
  lemma BookingTakesSlot(appointments: seq<Appointment>, a: Appointment, date: string, time: string,
                         barberId: Option<string>, slots: seq<string>)
    requires forall i :: 0 <= i < |appointments| ==> 'T' in appointments[i].startTime
    requires 'T' !in date && 'T' !in time && |time| == 5
    requires a.startTime == StartTime(date, time)
    requires !Truthy(barberId) || barberId.value == a.barberId
    ensures time !in FreeSlots(slots, BookedTimes(appointments + [a], date, barberId))
  {
    StartTimeRoundTrip(date, time);
    assert a in appointments + [a] && Blocks(a, date, barberId);
  }

  // ----- reports -----

  /** `reduce((sum, a) => sum + a.total_price, 0)`. */
  function Revenue(appointments: seq<Appointment>): nat
  {
    if appointments == [] then 0 else appointments[0].totalPrice + Revenue(appointments[1..])
  }

  /** The sum of a longer list grows by the price of the new appointment. */
  lemma {:induction false} RevenueAppendOne(appointments: seq<Appointment>, a: Appointment)
    ensures Revenue(appointments + [a]) == Revenue(appointments) + a.totalPrice
  {
    if appointments == [] {
      assert [] + [a] == [a];
      assert [a][1..] == [];
    } else {
      assert (appointments + [a])[1..] == appointments[1..] + [a];
      RevenueAppendOne(appointments[1..], a);
    }
  }

  /** The condition `a.status === status`. */
  function HasStatus(status: AppointmentStatus): Appointment -> bool
  {
    (a: Appointment) => a.status == status
  }

  function WithStatus(appointments: seq<Appointment>, status: AppointmentStatus): seq<Appointment>
  {
    Filter(appointments, HasStatus(status))
  }

  /** A sum over the completed appointments never exceeds the sum over all of them. */
  lemma {:induction false} RevenueOfFilter(appointments: seq<Appointment>, p: Appointment -> bool)
    ensures Revenue(Filter(appointments, p)) <= Revenue(appointments)
  {
    if appointments != [] {
      RevenueOfFilter(appointments[1..], p);
    }
  }

  datatype DailyReport = DailyReport(
    date: string,
    totalRevenue: nat,
    totalAppointments: nat,
    completedAppointments: nat,
    cancelledAppointments: nat)

  /** `getDailyRevenue`: the appointments of the date (of one barber when given); revenue from completed ones only. */
  function DailyRevenue(appointments: seq<Appointment>, date: string, barberId: Option<string>): (r: DailyReport)
    ensures r.date == date
    ensures r.completedAppointments + r.cancelledAppointments <= r.totalAppointments
    ensures var day := Filter(appointments, OnDay(date, barberId));
      && r.totalAppointments == |day|
      && r.completedAppointments == |WithStatus(day, Completed)|
      && r.cancelledAppointments == |WithStatus(day, Cancelled)|
      && r.totalRevenue == Revenue(WithStatus(day, Completed))
      && r.totalRevenue <= Revenue(day)
  {
    var day := Filter(appointments, OnDay(date, barberId));
    var completed := WithStatus(day, Completed);
    FilterDisjoint(day, HasStatus(Completed), HasStatus(Cancelled));
    RevenueOfFilter(day, HasStatus(Completed));
    DailyReport(date, Revenue(completed), |day|, |completed|, |WithStatus(day, Cancelled)|)
  }

  /**
   * The report grows one appointment at a time: an appointment of another date or barber
   * changes nothing; one of the day is counted, and adds to the revenue only when completed.
   */
  lemma DailyRevenueAppend(appointments: seq<Appointment>, a: Appointment, date: string, barberId: Option<string>)
    ensures var before := DailyRevenue(appointments, date, barberId);
      var after := DailyRevenue(appointments + [a], date, barberId);
      var counted := Blocks(a, date, barberId);
      && after.totalAppointments == before.totalAppointments + (if counted then 1 else 0)
      && after.completedAppointments == before.completedAppointments + (if counted && a.status == Completed then 1 else 0)
      && after.cancelledAppointments == before.cancelledAppointments + (if counted && a.status == Cancelled then 1 else 0)
      && after.totalRevenue == before.totalRevenue + (if counted && a.status == Completed then a.totalPrice else 0)
  {
    var day := Filter(appointments, OnDay(date, barberId));
    var day' := Filter(appointments + [a], OnDay(date, barberId));
    FilterAppend(appointments, a, OnDay(date, barberId));
    assert OnDay(date, barberId)(a) == Blocks(a, date, barberId);
    if !Blocks(a, date, barberId) {
      assert day' == day;
    } else {
      assert day' == day + [a];
      StatusAppend(day, a, Completed);
      StatusAppend(day, a, Cancelled);
      if a.status == Completed {
        RevenueAppendOne(WithStatus(day, Completed), a);
      } else {
        assert WithStatus(day', Completed) == WithStatus(day, Completed);
      }
    }
  }

  lemma StatusAppend(day: seq<Appointment>, a: Appointment, status: AppointmentStatus)
    ensures WithStatus(day + [a], status) == WithStatus(day, status) + (if a.status == status then [a] else [])
  {
    FilterAppend(day, a, HasStatus(status));
    assert HasStatus(status)(a) == (a.status == status);
  }

  /** `commission_rate || 50`: an unknown barber, a null rate and a zero rate all mean 50%. */
  function RateOf(barber: Option<Barber>): (rate: real)
    ensures barber.Some? && barber.value.commissionRate.Some? && barber.value.commissionRate.value != 0.0
      ==> rate == barber.value.commissionRate.value
    ensures barber.None? || barber.value.commissionRate.None? || barber.value.commissionRate.value == 0.0
      ==> rate == 50.0
  {
    if barber.Some? && barber.value.commissionRate.Some? && barber.value.commissionRate.value != 0.0
    then barber.value.commissionRate.value
    else 50.0
  }

  /** The commission earned on a revenue at a percentage rate. */
  function Commission(revenue: nat, rate: real): (c: real)
    ensures rate == 50.0 ==> c * 2.0 == revenue as real
    ensures revenue == 0 ==> c == 0.0
  {
    revenue as real * rate / 100.0
  }

  datatype CommissionReport = CommissionReport(totalRevenue: nat, commission: real, appointments: nat)

  /** The completed appointments of a barber inside the week window, both ends included. */
  predicate InWeek(a: Appointment, barberId: string, weekStart: string, weekEnd: string)
  {
    a.barberId == barberId && a.status == Completed
    && Strings.LexLe(weekStart, a.startTime) && Strings.LexLe(a.startTime, weekEnd)
  }

  /** `InWeek` as the condition of a filter. */
  function OfWeek(barberId: string, weekStart: string, weekEnd: string): Appointment -> bool
  {
    (a: Appointment) => InWeek(a, barberId, weekStart, weekEnd)
  }

  /** `getWeeklyCommission`: revenue and commission of the barber's completed appointments of the last seven days. */
  function WeeklyCommission(appointments: seq<Appointment>, barbers: seq<Barber>, barberId: string,
                            weekStart: string, weekEnd: string): (r: CommissionReport)
    ensures r.appointments == |Filter(appointments, OfWeek(barberId, weekStart, weekEnd))|
    ensures r.totalRevenue == Revenue(Filter(appointments, OfWeek(barberId, weekStart, weekEnd)))
    ensures r.commission == Commission(r.totalRevenue, RateOf(Find(barbers, (b: Barber) => b.id == barberId)))
  {
    var mine := Filter(appointments, OfWeek(barberId, weekStart, weekEnd));
    var revenue := Revenue(mine);
    CommissionReport(revenue, Commission(revenue, RateOf(Find(barbers, (b: Barber) => b.id == barberId))), |mine|)
  }

  /**
   * The weekly report grows one appointment at a time: one that is not a completed appointment
   * of the barber inside the week changes nothing; one that is adds one appointment and its price.
   */
  lemma WeeklyCommissionAppend(appointments: seq<Appointment>, barbers: seq<Barber>, barberId: string,
                               weekStart: string, weekEnd: string, a: Appointment)
    ensures var before := WeeklyCommission(appointments, barbers, barberId, weekStart, weekEnd);
      var after := WeeklyCommission(appointments + [a], barbers, barberId, weekStart, weekEnd);
      && (!InWeek(a, barberId, weekStart, weekEnd) ==> after == before)
      && (InWeek(a, barberId, weekStart, weekEnd) ==>
            after.appointments == before.appointments + 1
            && after.totalRevenue == before.totalRevenue + a.totalPrice)
  {
    var mine := OfWeek(barberId, weekStart, weekEnd);
    FilterAppend(appointments, a, mine);
    assert mine(a) == InWeek(a, barberId, weekStart, weekEnd);
    if !InWeek(a, barberId, weekStart, weekEnd) {
      assert Filter(appointments + [a], mine) == Filter(appointments, mine) + [];
      assert Filter(appointments, mine) + [] == Filter(appointments, mine);
    } else {
      RevenueAppendOne(Filter(appointments, mine), a);
    }
  }

  /** A barber without a stored rate (or with a zero rate, or not found) earns half of the week's revenue. */
  lemma WeeklyCommissionDefaultRate(appointments: seq<Appointment>, barbers: seq<Barber>, barberId: string,
                                    weekStart: string, weekEnd: string)
    requires forall b :: b in barbers && b.id == barberId ==> b.commissionRate.None? || b.commissionRate == Some(0.0)
    ensures var r := WeeklyCommission(appointments, barbers, barberId, weekStart, weekEnd);
      r.commission * 2.0 == r.totalRevenue as real
  {
    var found := Find(barbers, (b: Barber) => b.id == barberId);
    if found.Some? {
      var i :| 0 <= i < |barbers| && barbers[i] == found.value && barbers[i].id == barberId;
      assert barbers[i] in barbers;
    }
    assert RateOf(found) == 50.0;
  }

  datatype BarberReport = BarberReport(
    barberId: string,
    barberName: string,
    totalRevenue: nat,
    commission: real,
    totalAppointments: nat)

  /** A completed appointment of the barber whose date lies in `[startDate, endDate]`, both ends included. */
  predicate InRange(a: Appointment, barberId: string, startDate: string, endDate: string)
  {
    a.barberId == barberId && a.status == Completed
    && Strings.LexLe(startDate, DatePart(a.startTime)) && Strings.LexLe(DatePart(a.startTime), endDate)
  }

  /** `getBarberRevenue`: an unknown barber gets an all-zero report named 'Desconhecido'. */
  function BarberRevenue(appointments: seq<Appointment>, barbers: seq<Barber>, barberId: string,
                         startDate: string, endDate: string): (r: BarberReport)
    ensures r.barberId == barberId
    ensures Find(barbers, (b: Barber) => b.id == barberId).None? ==>
      r == BarberReport(barberId, "Desconhecido", 0, 0.0, 0)
    ensures Find(barbers, (b: Barber) => b.id == barberId).Some? ==>
      var b := Find(barbers, (b: Barber) => b.id == barberId).value;
      var counted := Filter(appointments, (a: Appointment) => InRange(a, barberId, startDate, endDate));
      r.barberName == FullName(b) && r.totalAppointments == |counted| && r.totalRevenue == Revenue(counted)
      && r.commission == Commission(r.totalRevenue, RateOf(Some(b)))
  {
    var barber := Find(barbers, (b: Barber) => b.id == barberId);
    if barber.None? then BarberReport(barberId, "Desconhecido", 0, 0.0, 0)
    else
      var counted := Filter(appointments, (a: Appointment) => InRange(a, barberId, startDate, endDate));
      var revenue := Revenue(counted);
      BarberReport(barberId, FullName(barber.value), revenue, Commission(revenue, RateOf(barber)), |counted|)
  }

  /** `<=` on strings is reflexive, so both ends of a date range are inside it. */
  lemma {:induction false} LexLeRefl(s: string)
    ensures Strings.LexLe(s, s)
  {
    if s != [] {
      LexLeRefl(s[1..]);
    }
  }

  /** The range of `getBarberRevenue` includes both of its end dates. */
  lemma RangeInclusive(a: Appointment, startDate: string, endDate: string)
    requires a.status == Completed && Strings.LexLe(startDate, endDate)
    requires DatePart(a.startTime) == startDate || DatePart(a.startTime) == endDate
    ensures InRange(a, a.barberId, startDate, endDate)
  {
    LexLeRefl(startDate);
    LexLeRefl(endDate);
  }

  // ----- clients and appointments -----

  /** The client `createClient` builds: the first word of the name, the rest joined by spaces. */
  function NewClient(barbershopId: string, phone: string, name: string, millis: nat): (c: Client)
    ensures c.firstName != "" && c.lastName != ""
    ensures ' ' !in c.firstName
    ensures c.id == "client-" + Strings.NatToString(millis)
    ensures c.barbershopId == barbershopId && c.phone == phone
  {
    var parts := Strings.Split(name, ' ');
    var rest := Strings.Join(parts[1..], ' ');
    Client("client-" + Strings.NatToString(millis), barbershopId,
      if parts[0] != "" then parts[0] else "Cliente",
      if rest != "" then rest else "WhatsApp",
      phone, "Cadastrado via WhatsApp")
  }

  /** When the name has a non-empty first word and more words, first and last name give the name back. */
  lemma ClientNameRoundTrip(barbershopId: string, phone: string, name: string, millis: nat)
    requires Strings.Split(name, ' ')[0] != "" && Strings.Join(Strings.Split(name, ' ')[1..], ' ') != ""
    ensures NewClient(barbershopId, phone, name, millis).firstName + " "
            + NewClient(barbershopId, phone, name, millis).lastName == name
  {
    var parts := Strings.Split(name, ' ');
    Strings.JoinSplit(name, ' ');
    assert |parts| >= 2;
  }

  /** A one-word name keeps the word as first name and gets 'WhatsApp' as last name. */
  lemma ClientSingleWord(barbershopId: string, phone: string, name: string, millis: nat)
    requires name != "" && ' ' !in name
    ensures NewClient(barbershopId, phone, name, millis).firstName == name
    ensures NewClient(barbershopId, phone, name, millis).lastName == "WhatsApp"
  {
    Strings.SplitNoSeparator(name, ' ');
  }

  /** The arguments of `createAppointment`. */
  datatype AppointmentRequest = AppointmentRequest(
    barbershopId: string,
    barberId: Option<string>,
    clientId: string,
    serviceId: string,
    date: string,
    time: string,
    clientPhone: string)

  /** The barber that serves a request: the requested one, else the first active barber of any barbershop. */
  function ChosenBarber(barbers: seq<Barber>, requested: Option<string>): (r: Option<string>)
    ensures Truthy(requested) ==> r == requested
    ensures !Truthy(requested) && Find(barbers, (b: Barber) => b.isActive).Some? ==>
      r == Some(Find(barbers, (b: Barber) => b.isActive).value.id)
    ensures !Truthy(requested) && Find(barbers, (b: Barber) => b.isActive).None? ==> r == None
  {
    if Truthy(requested) then requested
    else
      var first := Find(barbers, (b: Barber) => b.isActive);
      if first.Some? then Some(first.value.id) else None
  }

  /**
   * The appointment `createAppointment` stores, or `None` when the service is unknown or
   * no barber can be chosen. The service is looked up in the whole table.
   */
  function PlannedAppointment(services: seq<Service>, barbers: seq<Barber>, req: AppointmentRequest, millis: nat)
    : (r: Option<Appointment>)
    ensures r.Some? <==> Find(services, (s: Service) => s.id == req.serviceId).Some?
                         && Truthy(ChosenBarber(barbers, req.barberId))
    ensures r.Some? ==>
      var service := Find(services, (s: Service) => s.id == req.serviceId).value;
      r.value.status == Confirmed && r.value.totalPrice == service.price
      && r.value.serviceId == req.serviceId && service in services
      && r.value.barberId == ChosenBarber(barbers, req.barberId).value
      && r.value.clientId == req.clientId && r.value.barbershopId == req.barbershopId
      && r.value.startTime == StartTime(req.date, req.time)
      && r.value.id == "apt-" + Strings.NatToString(millis)
  {
    var service := Find(services, (s: Service) => s.id == req.serviceId);
    var barberId := ChosenBarber(barbers, req.barberId);
    if service.None? || !Truthy(barberId) then None
    else
      Some(Appointment("apt-" + Strings.NatToString(millis), req.barbershopId, barberId.value, req.clientId,
        req.serviceId, StartTime(req.date, req.time), Confirmed,
        "Agendado via WhatsApp - Tel: " + req.clientPhone, service.value.price))
  }

  /** Every start time has a 'T' separating date and time. */
  predicate StartTimesSplit(appointments: seq<Appointment>)
  {
    forall i :: 0 <= i < |appointments| ==> 'T' in appointments[i].startTime
  }

  /** The tables. Services and barbers are fixed; clients and appointments grow. */
  class DataStore {
    const services: seq<Service>
    const barbers: seq<Barber>
    var clients: seq<Client>
    var appointments: seq<Appointment>

    /** Every stored start time has a 'T' separating date and time. */
    predicate Valid()
      reads this
    {
      StartTimesSplit(appointments)
    }

    constructor (services: seq<Service>, barbers: seq<Barber>)
      ensures this.services == services && this.barbers == barbers
      ensures clients == [] && appointments == []
      ensures Valid()
    {
      this.services := services;
      this.barbers := barbers;
      clients := [];
      appointments := [];
    }

    /** `getClientByPhone`: the first client of the barbershop with that phone. */
    function ClientByPhone(barbershopId: string, phone: string): (r: Option<Client>)
      reads this
      ensures r.Some? ==> r.value in clients && r.value.barbershopId == barbershopId && r.value.phone == phone
      ensures r.None? <==> forall c :: c in clients ==> c.barbershopId != barbershopId || c.phone != phone
    {
      Find(clients, (c: Client) => c.barbershopId == barbershopId && c.phone == phone)
    }

    /**
     * `getAvailableSlots`: the half-hour slots from the start hour to closing time, less the
     * times already booked on that date. `sameDay` is the runtime's verdict that the date
     * is today.
     */
    method AvailableSlots(date: string, barberId: Option<string>, sameDay: bool, currentHour: nat)
      returns (slots: seq<string>)
      requires Valid()
      ensures slots == FreeSlots(SlotsFrom(StartHour(sameDay, currentHour)), BookedTimes(appointments, date, barberId))
    {
      var startHour := StartHour(sameDay, currentHour);
      var generated: seq<string> := [];
      var hour := startHour;
      while hour < ClosingHour
        invariant startHour <= hour && (hour <= ClosingHour || hour == startHour)
        invariant |generated| == 2 * (hour - startHour)
        invariant forall i :: 0 <= i < |generated| ==> generated[i] == SlotLabel(startHour + i / 2, i % 2 == 1)
        decreases ClosingHour - hour
      {
        generated := generated + [SlotLabel(hour, false)];
        generated := generated + [SlotLabel(hour, true)];
        hour := hour + 1;
      }
      if startHour < ClosingHour {
        assert hour == ClosingHour;
      } else {
        assert hour == startHour && generated == [];
      }
      assert |generated| == |SlotsFrom(startHour)|;
      assert forall i :: 0 <= i < |generated| ==> generated[i] == SlotsFrom(startHour)[i];
      assert generated == SlotsFrom(startHour);
      slots := FreeSlots(generated, BookedTimes(appointments, date, barberId));
    }

    /** `createClient`: appends the new client. */
    method CreateClient(barbershopId: string, phone: string, name: string, millis: nat) returns (c: Client)
      modifies this
      ensures c == NewClient(barbershopId, phone, name, millis)
      ensures clients == old(clients) + [c] && appointments == old(appointments)
    {
      c := NewClient(barbershopId, phone, name, millis);
      clients := clients + [c];
    }

    /**
     * `createAppointment`: appends the planned appointment when there is one. `validStart` is
     * whether `new Date(startTime)` is a valid date; when it is not, computing the end time
     * throws after the service and barber have been found, and nothing is stored.
     */
    method CreateAppointment(req: AppointmentRequest, millis: nat, validStart: bool)
      returns (r: Result<Option<Appointment>, string>)
      requires Valid()
      modifies this
      ensures PlannedAppointment(services, barbers, req, millis).None? ==> r == Ok(None)
      ensures PlannedAppointment(services, barbers, req, millis).Some? && !validStart ==> r.Err?
      ensures PlannedAppointment(services, barbers, req, millis).Some? && validStart ==>
        r == Ok(PlannedAppointment(services, barbers, req, millis))
      ensures r == Ok(PlannedAppointment(services, barbers, req, millis)) && r.value.Some?
        ==> appointments == old(appointments) + [r.value.value]
      ensures !(r.Ok? && r.value.Some?) ==> appointments == old(appointments)
      ensures clients == old(clients) && Valid()
    {
      var planned := PlannedAppointment(services, barbers, req, millis);
      if planned.None? {
        return Ok(None);
      }
      if !validStart {
        return Err("RangeError: Invalid time value");
      }
      appointments := appointments + [planned.value];
      r := Ok(planned);
    }
  }

  /** Every generated slot is `HH:00` or `HH:30` for an hour between the start hour and closing time. */
  lemma SlotsInOpeningHours(startHour: nat, i: nat)
    requires startHour >= OpeningHour && i < |SlotsFrom(startHour)|
    ensures exists h: nat :: OpeningHour <= startHour <= h < ClosingHour
              && (SlotsFrom(startHour)[i] == SlotLabel(h, false) || SlotsFrom(startHour)[i] == SlotLabel(h, true))
  {
    var h := startHour + i / 2;
    assert SlotsFrom(startHour)[i] == SlotLabel(h, i % 2 == 1);
  }
}
