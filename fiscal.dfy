/**
 * The fiscal invoice service: a barbershop's configuration, its invoices and their items,
 * and the invoice status machine `pending -> authorized | rejected`, `any -> cancelled`.
 * The database tables are fields of the service; the external fiscal provider is seen only
 * through its answer, which is a parameter.
 */
module Fiscal {
  import opened Wrappers
  import Strings
  import Data

  datatype Status = Pending | Authorized | Rejected | Cancelled

  function StatusName(s: Status): string
  {
    match s
    case Pending => "pending"
    case Authorized => "authorized"
    case Rejected => "rejected"
    case Cancelled => "cancelled"
  }

  /** The barbershop's fiscal settings; `provider` names the fiscal provider to use, if any. */
  datatype FiscalConfig = FiscalConfig(id: string, defaultServiceCode: string, defaultNfeSeries: nat,
                                       provider: Option<string>)

  /** The fields copied unchanged from the request into the invoice row. */
  datatype InvoiceParties = InvoiceParties(
    appointmentId: Option<string>,
    transactionId: Option<string>,
    clientId: Option<string>,
    clientName: Option<string>,
    clientCpfCnpj: Option<string>,
    clientEmail: Option<string>,
    serviceDescription: Option<string>)

  /** One row of `fiscal_invoices`; amounts in cents, `createdAt` in milliseconds. */
  datatype Invoice = Invoice(
    id: string,
    barbershopId: string,
    fiscalConfigId: string,
    invoiceType: string,
    parties: InvoiceParties,
    municipalServiceCode: string,
    invoiceNumber: string,
    invoiceSeries: string,
    totalAmount: int,
    deductionAmount: int,
    taxableAmount: int,
    issAmount: Option<int>,
    cofinsAmount: Option<int>,
    pisAmount: Option<int>,
    status: Status,
    statusReason: Option<string>,
    fiscalProviderId: Option<string>,
    authorizationCode: Option<string>,
    authorizationDate: Option<string>,
    xmlContent: Option<string>,
    pdfUrl: Option<string>,
    accessKey: Option<string>,
    createdAt: nat)

  datatype ItemRequest = ItemRequest(description: string, quantity: nat, unitPrice: int, totalPrice: int)

  datatype CreateInvoiceRequest = CreateInvoiceRequest(
    invoiceType: string,
    parties: InvoiceParties,
    municipalServiceCode: Option<string>,
    totalAmount: int,
    deductionAmount: Option<int>,
    items: Option<seq<ItemRequest>>)

  /** One row of `fiscal_invoice_items`: the requested item, its invoice and its position. */
  datatype InvoiceItem = InvoiceItem(invoiceId: string, barbershopId: string, sequence: nat, item: ItemRequest)

  // ----- creating an invoice -----

  const NoConfigError := "Barbershop fiscal configuration not found"
  /** The database's "no row" answer to a single-row query. */
  const RowNotFound := "PGRST116"

  /**
   * `getNextInvoiceNumber`: the number the database function hands out, or, when it yields
   * nothing, the invoice type, a '-' and the clock in milliseconds.
   */
  function NextInvoiceNumber(rpc: Option<string>, invoiceType: string, millis: nat): (n: string)
    ensures n != ""
    ensures Truthy(rpc) ==> n == rpc.value
    ensures !Truthy(rpc) ==>
      invoiceType + "-" <= n && forall i :: |invoiceType| + 1 <= i < |n| ==> '0' <= n[i] <= '9'
  {
    if Truthy(rpc) then rpc.value else invoiceType + "-" + Strings.NatToString(millis)
  }

  /** `request.deduction_amount || 0`. */
  function Deduction(request: CreateInvoiceRequest): int
  {
    if request.deductionAmount.Some? then request.deductionAmount.value else 0
  }

  /** The tax base is the total less the deduction, an absent deduction counting as zero. */
  predicate Taxed(inv: Invoice)
  {
    inv.taxableAmount == inv.totalAmount - inv.deductionAmount
  }

  /** The row `createInvoice` inserts: pending, numbered, with the config's defaults filled in. */
  function NewInvoice(id: string, shop: string, config: FiscalConfig, request: CreateInvoiceRequest,
                      number: string, millis: nat): (inv: Invoice)
    ensures inv.id == id && inv.barbershopId == shop && inv.fiscalConfigId == config.id
    ensures inv.status == Pending && inv.statusReason == None && inv.fiscalProviderId == None
    ensures Taxed(inv) && inv.totalAmount == request.totalAmount
    ensures request.deductionAmount.None? ==> inv.taxableAmount == request.totalAmount
    ensures inv.parties == request.parties && inv.invoiceType == request.invoiceType
    ensures inv.invoiceNumber == number && inv.invoiceSeries == Strings.NatToString(config.defaultNfeSeries)
    ensures Truthy(request.municipalServiceCode) ==> inv.municipalServiceCode == request.municipalServiceCode.value
    ensures !Truthy(request.municipalServiceCode) ==> inv.municipalServiceCode == config.defaultServiceCode
  {
    Invoice(id, shop, config.id, request.invoiceType, request.parties,
      if Truthy(request.municipalServiceCode) then request.municipalServiceCode.value else config.defaultServiceCode,
      number, Strings.NatToString(config.defaultNfeSeries),
      request.totalAmount, Deduction(request), request.totalAmount - Deduction(request),
      None, None, None, Pending, None, None, None, None, None, None, None, millis)
  }

  /** The item rows: the requested items in order, numbered from 1. */
  function NumberedItems(requested: Option<seq<ItemRequest>>, invoiceId: string, shop: string): (rows: seq<InvoiceItem>)
    ensures requested.None? ==> rows == []
    ensures requested.Some? ==> |rows| == |requested.value|
    ensures requested.Some? ==> forall i :: 0 <= i < |rows| ==>
      rows[i].sequence == i + 1 && rows[i].item == requested.value[i]
      && rows[i].invoiceId == invoiceId && rows[i].barbershopId == shop
  {
    if requested.None? || |requested.value| == 0 then []
    else
      var r := requested.value;
      seq(|r|, i requires 0 <= i < |r| => InvoiceItem(invoiceId, shop, i + 1, r[i]))
  }

  /** Item sequence numbers are 1..n: distinct and increasing in the request's order. */
  lemma ItemSequencesIncrease(requested: seq<ItemRequest>, invoiceId: string, shop: string, i: nat, j: nat)
    requires i < j < |requested|
    ensures var rows := NumberedItems(Some(requested), invoiceId, shop);
      rows[i].sequence < rows[j].sequence && rows[|requested| - 1].sequence == |requested|
  {
  }

  // ----- emitting an invoice -----

  const NoProviderError := "Fiscal provider not configured"
  const UnknownError := "Unknown error"

  /** What the provider (with the certificate lookup before it) did with the emission. */
  datatype ProviderOutcome =
    | Refused(errorMessage: Option<string>)
    | Accepted(providerId: Option<string>, authorizationCode: Option<string>, xml: Option<string>,
               pdfUrl: Option<string>, accessKey: Option<string>)
    /** An exception inside the `try`; `message` is `None` for a thrown value that is not an `Error`. */
    | Threw(message: Option<string>)

  datatype EmitResponse = EmitResponse(success: bool, invoiceId: string, fiscalProviderId: Option<string>,
                                       status: Status, error: Option<string>)

  /** The invoice of this barbershop with this id, as the single-row select finds it. */
  function Lookup(invoices: map<string, Invoice>, shop: string, id: string): (r: Option<Invoice>)
    ensures r.Some? <==> id in invoices && invoices[id].barbershopId == shop
    ensures r.Some? ==> r.value == invoices[id]
  {
    if id in invoices && invoices[id].barbershopId == shop then Some(invoices[id]) else None
  }

  /** `config?.fiscal_provider`, when it names a provider. */
  function ProviderOf(configs: map<string, FiscalConfig>, shop: string): (p: Option<string>)
    ensures p.Some? <==> shop in configs && Truthy(configs[shop].provider)
  {
    if shop in configs && Truthy(configs[shop].provider) then configs[shop].provider else None
  }

  /** The checks before the `try`: the invoice exists, is pending, and a provider is configured. */
  function EmitPrecheck(invoices: map<string, Invoice>, configs: map<string, FiscalConfig>, shop: string, id: string)
    : (r: Result<Invoice, string>)
    ensures r.Ok? <==> Lookup(invoices, shop, id).Some? && Lookup(invoices, shop, id).value.status == Pending
                       && ProviderOf(configs, shop).Some?
    ensures r.Ok? ==> r.value == invoices[id]
    ensures Lookup(invoices, shop, id).Some? && Lookup(invoices, shop, id).value.status != Pending ==>
      r == Err("Invoice status is " + StatusName(invoices[id].status) + ", cannot emit")
  {
    var found := Lookup(invoices, shop, id);
    if found.None? then Err(RowNotFound)
    else if found.value.status != Pending then
      Err("Invoice status is " + StatusName(found.value.status) + ", cannot emit")
    else if ProviderOf(configs, shop).None? then Err(NoProviderError)
    else Ok(found.value)
  }

  /** The document itself: everything but the status and the provider's answer. */
  predicate SameDocument(a: Invoice, b: Invoice)
  {
    a.id == b.id && a.barbershopId == b.barbershopId && a.fiscalConfigId == b.fiscalConfigId
    && a.invoiceType == b.invoiceType && a.parties == b.parties && a.municipalServiceCode == b.municipalServiceCode
    && a.invoiceNumber == b.invoiceNumber && a.invoiceSeries == b.invoiceSeries
    && a.totalAmount == b.totalAmount && a.deductionAmount == b.deductionAmount && a.taxableAmount == b.taxableAmount
    && a.issAmount == b.issAmount && a.cofinsAmount == b.cofinsAmount && a.pisAmount == b.pisAmount
    && a.createdAt == b.createdAt
  }

  /**
   * The row the emission writes: rejected with the provider's reason, or authorized with the
   * provider's id, code, documents and access key; nothing when the attempt threw.
   */
  function EmittedRow(inv: Invoice, outcome: ProviderOutcome, now: string): (r: Option<Invoice>)
    ensures r.Some? <==> !outcome.Threw?
    ensures r.Some? ==> SameDocument(inv, r.value)
    ensures outcome.Refused? ==> r.value.status == Rejected && r.value.statusReason == outcome.errorMessage
    ensures outcome.Accepted? ==>
      r.value.status == Authorized && r.value.fiscalProviderId == outcome.providerId
      && r.value.authorizationCode == outcome.authorizationCode && r.value.accessKey == outcome.accessKey
      && r.value.authorizationDate == Some(now)
  {
    match outcome
    case Refused(message) => Some(inv.(status := Rejected, statusReason := message))
    case Accepted(providerId, code, xml, pdf, key) =>
      Some(inv.(status := Authorized, fiscalProviderId := providerId, authorizationCode := code,
                authorizationDate := Some(now), xmlContent := xml, pdfUrl := pdf, accessKey := key))
    case Threw(_) => None
  }

  /** What `emitInvoice` returns once the checks have passed. */
  function EmitAnswer(id: string, outcome: ProviderOutcome): (r: EmitResponse)
    ensures r.invoiceId == id
    ensures r.success <==> outcome.Accepted?
    ensures r.success <==> r.status == Authorized
    ensures !r.success ==> r.status == Rejected && r.fiscalProviderId == None
    ensures outcome.Threw? ==> r.error == Some(outcome.message.GetOr(UnknownError))
  {
    match outcome
    case Refused(message) => EmitResponse(false, id, None, Rejected, message)
    case Accepted(providerId, _, _, _, _) => EmitResponse(true, id, providerId, Authorized, None)
    case Threw(message) => EmitResponse(false, id, None, Rejected, Some(message.GetOr(UnknownError)))
  }

  /**
   * The outcome `emitInvoice` ends with once the row update has run: a failed update after an
   * acceptance throws inside the `try` and is caught like a provider exception.
   */
  function AfterUpdate(outcome: ProviderOutcome, updateError: Option<Option<string>>): (final: ProviderOutcome)
    ensures updateError.None? || !outcome.Accepted? ==> final == outcome
    ensures updateError.Some? && outcome.Accepted? ==> final == Threw(updateError.value)
  {
    if outcome.Accepted? && updateError.Some? then Threw(updateError.value) else outcome
  }

  /**
   * When the row update fails, the invoice stays pending while the answer reports a failure:
   * rejected with the provider's reason after a refusal, or with the update's error after an acceptance.
   */
  lemma UnwrittenEmissionStaysPending(inv: Invoice, outcome: ProviderOutcome, updateError: Option<Option<string>>)
    requires inv.status == Pending && updateError.Some?
    ensures var answer := EmitAnswer(inv.id, AfterUpdate(outcome, updateError));
      !answer.success && answer.status == Rejected
      && (outcome.Refused? ==> answer.error == outcome.errorMessage)
      && (outcome.Accepted? ==> answer.error == Some(updateError.value.GetOr(UnknownError)))
  {
  }

  /**
   * The answer and the row agree on the status, except after an exception: then the answer
   * says rejected while the row stays pending.
   */
  lemma {:induction false} AnswerMatchesRow(inv: Invoice, outcome: ProviderOutcome, now: string)
    requires inv.status == Pending
    ensures var row := EmittedRow(inv, outcome, now);
      (row.Some? ==> row.value.status == EmitAnswer(inv.id, outcome).status)
      && (row.None? ==> EmitAnswer(inv.id, outcome).status == Rejected && inv.status == Pending)
  {
    var row := EmittedRow(inv, outcome, now);
    if outcome.Accepted? {
      assert row.value.status == Authorized;
    } else if outcome.Refused? {
      assert row.value.status == Rejected;
    }
  }

  // ----- cancelling an invoice -----

  /** One call of the provider's cancel operation. */
  datatype CancelCall = CancelCall(providerInvoiceId: string, reason: string)

  /** The provider is asked to cancel only an authorized invoice that it knows, and only when one is configured. */
  predicate CallsProvider(inv: Invoice, configs: map<string, FiscalConfig>, shop: string)
  {
    inv.status == Authorized && Truthy(inv.fiscalProviderId) && ProviderOf(configs, shop).Some?
  }

  function CancelledRow(inv: Invoice, reason: string): (r: Invoice)
    ensures r.status == Cancelled && r.statusReason == Some(reason) && SameDocument(inv, r)
    ensures r.fiscalProviderId == inv.fiscalProviderId
  {
    inv.(status := Cancelled, statusReason := Some(reason))
  }

  // ----- the dashboard -----

  /** `list.filter(p).length`. */
  function CountWhere(list: seq<Invoice>, p: Invoice -> bool): (n: nat)
    ensures n <= |list|
  {
    |Data.Filter(list, p)|
  }

  /** The count of the empty list is 0, and one more invoice adds 1 exactly when it satisfies the condition. */
  lemma CountWhereAppend(list: seq<Invoice>, x: Invoice, p: Invoice -> bool)
    ensures CountWhere([], p) == 0
    ensures CountWhere(list + [x], p) == CountWhere(list, p) + (if p(x) then 1 else 0)
  {
    Data.FilterAppend(list, x, p);
  }

  /** The condition `i.status === status`. */
  function StatusIs(status: Status): Invoice -> bool
  {
    (i: Invoice) => i.status == status
  }

  /** The condition `i.invoice_type === invoiceType`. */
  function TypeIs(invoiceType: string): Invoice -> bool
  {
    (i: Invoice) => i.invoiceType == invoiceType
  }

  /** `reduce` over `total_amount || 0`. */
  function Revenue(list: seq<Invoice>): int
  {
    if list == [] then 0 else list[0].totalAmount + Revenue(list[1..])
  }

  function TaxesOf(inv: Invoice): int
  {
    inv.issAmount.GetOr(0) + inv.cofinsAmount.GetOr(0) + inv.pisAmount.GetOr(0)
  }

  function Taxes(list: seq<Invoice>): int
  {
    if list == [] then 0 else TaxesOf(list[0]) + Taxes(list[1..])
  }

  /** Sums add up across a split of the list. */
  lemma {:induction false} RevenueAppend(a: seq<Invoice>, b: seq<Invoice>)
    ensures Revenue(a + b) == Revenue(a) + Revenue(b)
    ensures Taxes(a + b) == Taxes(a) + Taxes(b)
  {
    if a != [] {
      assert (a + b)[1..] == a[1..] + b;
      RevenueAppend(a[1..], b);
    } else {
      assert a + b == b;
    }
  }

  predicate NewestFirst(s: seq<Invoice>)
  {
    forall i, j :: 0 <= i < j < |s| ==> s[i].createdAt >= s[j].createdAt
  }

  /** Puts `x` before the first invoice that is not newer than it. */
  function InsertNewest(x: Invoice, s: seq<Invoice>): (r: seq<Invoice>)
    requires NewestFirst(s)
    ensures NewestFirst(r) && multiset(r) == multiset(s) + multiset{x}
  {
    if s == [] then [x]
    else if s[0].createdAt <= x.createdAt then [x] + s
    else
      var rest := InsertNewest(x, s[1..]);
      assert s == [s[0]] + s[1..];
      BelowHead(s, x, rest);
      [s[0]] + rest
  }

  /** Whatever is inserted behind the head of a newest-first list that is older than it stays behind it. */
  lemma BelowHead(s: seq<Invoice>, x: Invoice, rest: seq<Invoice>)
    requires s != [] && NewestFirst(s) && x.createdAt < s[0].createdAt
    requires NewestFirst(rest) && multiset(rest) == multiset(s[1..]) + multiset{x}
    ensures NewestFirst([s[0]] + rest)
  {
    forall k | 0 <= k < |rest|
      ensures rest[k].createdAt <= s[0].createdAt
    {
      assert rest[k] in multiset(rest);
      if rest[k] != x {
        assert rest[k] in multiset(s[1..]);
        var m :| 0 <= m < |s[1..]| && s[1..][m] == rest[k];
        assert s[m + 1] == rest[k];
      }
    }
  }

  /** `sort((a, b) => time(b) - time(a))`: newest first. */
  function SortNewestFirst(s: seq<Invoice>): (r: seq<Invoice>)
    ensures NewestFirst(r) && multiset(r) == multiset(s)
  {
    if s == [] then []
    else
      assert s == [s[0]] + s[1..];
      InsertNewest(s[0], SortNewestFirst(s[1..]))
  }

  const RecentLimit: nat := 10

  /** The ten newest invoices, newest first. */
  function Recent(list: seq<Invoice>): (r: seq<Invoice>)
    ensures |r| <= RecentLimit && NewestFirst(r)
    ensures |list| <= RecentLimit ==> multiset(r) == multiset(list)
    ensures forall x :: x in r ==> x in list
  {
    var sorted := SortNewestFirst(list);
    var r := if |sorted| <= RecentLimit then sorted else sorted[..RecentLimit];
    assert forall x :: x in r ==> x in multiset(sorted);
    r
  }

  /** The invoices left out of the recent list are no newer than any invoice in it. */
  lemma {:induction false} RecentAreNewest(list: seq<Invoice>, x: Invoice, y: Invoice)
    requires x in multiset(list) - multiset(Recent(list)) && y in Recent(list)
    ensures x.createdAt <= y.createdAt
  {
    var sorted := SortNewestFirst(list);
    if |list| > RecentLimit {
      RecentSplit(list);
      assert x in sorted[RecentLimit..];
      TailNoNewer(sorted, RecentLimit, x, y);
    }
  }

  /** In a list sorted newest first, nothing after position `n` is newer than anything before it. */
  lemma TailNoNewer(sorted: seq<Invoice>, n: nat, x: Invoice, y: Invoice)
    requires NewestFirst(sorted) && n <= |sorted|
    requires x in sorted[n..] && y in sorted[..n]
    ensures x.createdAt <= y.createdAt
  {
    var j :| n <= j < |sorted| && sorted[j] == x;
    var i :| 0 <= i < n && sorted[i] == y;
  }

  /** Past the limit, the recent list is the head of the sorted list and the tail is what it leaves out. */
  lemma RecentSplit(list: seq<Invoice>)
    requires |list| > RecentLimit
    ensures |SortNewestFirst(list)| == |list|
    ensures Recent(list) == SortNewestFirst(list)[..RecentLimit]
    ensures multiset(list) - multiset(Recent(list)) == multiset(SortNewestFirst(list)[RecentLimit..])
  {
    var sorted := SortNewestFirst(list);
    assert |sorted| == |list| by {
      assert |multiset(sorted)| == |multiset(list)|;
    }
    assert sorted == sorted[..RecentLimit] + sorted[RecentLimit..];
  }

  datatype DashboardStats = DashboardStats(
    totalInvoices: nat,
    pending: nat, authorized: nat, rejected: nat, cancelled: nat,
    nfse: nat, nfe: nat,
    totalRevenue: int,
    totalTaxes: int,
    recentInvoices: seq<Invoice>,
    certificateExpiringSoon: Option<string>)

  /**
   * `getDashboardStats` over the rows the query returned (`null` counts as none) and the
   * expiring certificates the certificate service lists.
   */
  function Dashboard(rows: Option<seq<Invoice>>, expiring: seq<string>): (d: DashboardStats)
    ensures var list := rows.GetOr([]);
      && d.totalInvoices == |list|
      && d.pending == CountWhere(list, StatusIs(Pending)) && d.authorized == CountWhere(list, StatusIs(Authorized))
      && d.rejected == CountWhere(list, StatusIs(Rejected)) && d.cancelled == CountWhere(list, StatusIs(Cancelled))
      && d.nfse == CountWhere(list, TypeIs("nfse")) && d.nfe == CountWhere(list, TypeIs("nfe"))
      && d.pending <= d.totalInvoices && d.authorized <= d.totalInvoices
      && d.rejected <= d.totalInvoices && d.cancelled <= d.totalInvoices
      && d.nfse <= d.totalInvoices && d.nfe <= d.totalInvoices
      && d.totalRevenue == Revenue(list) && d.totalTaxes == Taxes(list)
      && d.recentInvoices == Recent(list)
    ensures d.certificateExpiringSoon.Some? <==> |expiring| > 0
    ensures |expiring| > 0 ==> d.certificateExpiringSoon == Some(expiring[0])
  {
    var list := rows.GetOr([]);
    DashboardStats(
      |list|,
      CountWhere(list, StatusIs(Pending)),
      CountWhere(list, StatusIs(Authorized)),
      CountWhere(list, StatusIs(Rejected)),
      CountWhere(list, StatusIs(Cancelled)),
      CountWhere(list, TypeIs("nfse")),
      CountWhere(list, TypeIs("nfe")),
      Revenue(list), Taxes(list), Recent(list),
      if |expiring| > 0 then Some(expiring[0]) else None)
  }

  /**
   * One more invoice is counted under its own status and its own type and under no other,
   * and adds its amount to the revenue.
   */
  lemma DashboardAppend(list: seq<Invoice>, x: Invoice, expiring: seq<string>)
    ensures var before := Dashboard(Some(list), expiring);
      var after := Dashboard(Some(list + [x]), expiring);
      && after.totalInvoices == before.totalInvoices + 1
      && after.pending == before.pending + (if x.status == Pending then 1 else 0)
      && after.authorized == before.authorized + (if x.status == Authorized then 1 else 0)
      && after.rejected == before.rejected + (if x.status == Rejected then 1 else 0)
      && after.cancelled == before.cancelled + (if x.status == Cancelled then 1 else 0)
      && after.nfse == before.nfse + (if x.invoiceType == "nfse" then 1 else 0)
      && after.nfe == before.nfe + (if x.invoiceType == "nfe" then 1 else 0)
      && after.totalRevenue == before.totalRevenue + x.totalAmount
  {
    CountWhereAppend(list, x, StatusIs(Pending));
    CountWhereAppend(list, x, StatusIs(Authorized));
    CountWhereAppend(list, x, StatusIs(Rejected));
    CountWhereAppend(list, x, StatusIs(Cancelled));
    CountWhereAppend(list, x, TypeIs("nfse"));
    CountWhereAppend(list, x, TypeIs("nfe"));
    RevenueAppend(list, [x]);
    assert Revenue([x]) == x.totalAmount;
  }

  /** With four statuses, the per-status counts add up to the total. */
  lemma {:induction false} StatusCountsAddUp(list: seq<Invoice>)
    ensures var d := Dashboard(Some(list), []);
      d.pending + d.authorized + d.rejected + d.cancelled == d.totalInvoices
  {
    if list != [] {
      StatusCountsAddUp(list[1..]);
    }
  }

  // ----- the service -----

  class FiscalService {
    /** `fiscal_configs`, one per barbershop. */
    var configs: map<string, FiscalConfig>
    /** `fiscal_invoices` by id. */
    var invoices: map<string, Invoice>
    /** `fiscal_invoice_items`, in insertion order. */
    var items: seq<InvoiceItem>
    /** The cancel requests sent to the provider, in order. */
    var cancelCalls: seq<CancelCall>

    /**
     * Every invoice is stored under its own id and keeps its tax base equal to the total
     * less the deduction; every item belongs to a stored invoice.
     */
    predicate Valid()
      reads this
    {
      (forall id :: id in invoices ==> invoices[id].id == id && Taxed(invoices[id]))
      && (forall i :: 0 <= i < |items| ==> items[i].invoiceId in invoices)
    }

    constructor ()
      ensures configs == map[] && invoices == map[] && items == [] && cancelCalls == []
      ensures Valid()
    {
      configs := map[];
      invoices := map[];
      items := [];
      cancelCalls := [];
    }

    /** `getFiscalConfig`: the configuration, or `None` when the barbershop has none. */
    function GetFiscalConfig(shop: string): (r: Option<FiscalConfig>)
      reads this
      ensures r.Some? <==> shop in configs
      ensures r.Some? ==> r.value == configs[shop]
    {
      if shop in configs then Some(configs[shop]) else None
    }

    /** `getInvoice`: the invoice when it belongs to the barbershop. */
    function GetInvoice(id: string, shop: string): (r: Option<Invoice>)
      reads this
      ensures r.Some? <==> id in invoices && invoices[id].barbershopId == shop
      ensures r.Some? ==> r.value == invoices[id]
      ensures r.Some? ==> r.value.id == id || !Valid()
    {
      Lookup(invoices, shop, id)
    }

    /**
     * `saveFiscalConfig`: updates the existing configuration in place or inserts a new one.
     * `writeError` is the error the update or insert returns, which is thrown.
     */
    method SaveFiscalConfig(shop: string, config: FiscalConfig, newId: string, writeError: Option<string>)
      returns (r: Result<FiscalConfig, string>)
      requires Valid()
      modifies this
      ensures Valid()
      ensures writeError.Some? ==> r == Err(writeError.value) && configs == old(configs)
      ensures writeError.None? && shop in old(configs) ==> r == Ok(config.(id := old(configs)[shop].id))
      ensures writeError.None? && shop !in old(configs) ==> r == Ok(config.(id := newId))
      ensures writeError.None? ==> configs == old(configs)[shop := r.value]
      ensures invoices == old(invoices) && items == old(items) && cancelCalls == old(cancelCalls)
    {
      var saved;
      if shop in configs {
        saved := config.(id := configs[shop].id);
      } else {
        saved := config.(id := newId);
      }
      if writeError.Some? {
        return Err(writeError.value);
      }
      configs := configs[shop := saved];
      r := Ok(saved);
    }

    /**
     * `createInvoice`: refuses without a configuration; otherwise inserts a pending invoice
     * under the id the database hands out, then its items numbered from 1. `insertError` and
     * `itemsError` are the errors the two inserts return; each is thrown, and a failed item
     * insert leaves the invoice stored without its items.
     */
    method CreateInvoice(shop: string, request: CreateInvoiceRequest, newId: string, rpcNumber: Option<string>,
                         millis: nat, insertError: Option<string>, itemsError: Option<string>)
      returns (r: Result<Invoice, string>)
      requires Valid() && newId !in invoices
      modifies this
      ensures Valid()
      ensures shop !in old(configs) ==> r == Err(NoConfigError) && invoices == old(invoices) && items == old(items)
      ensures shop in old(configs) && insertError.Some? ==>
        r == Err(insertError.value) && invoices == old(invoices) && items == old(items)
      ensures shop in old(configs) && insertError.None? ==>
        var inv := NewInvoice(newId, shop, old(configs)[shop], request,
                              NextInvoiceNumber(rpcNumber, request.invoiceType, millis), millis);
        var hasItems := request.items.Some? && |request.items.value| > 0;
        && invoices == old(invoices)[newId := inv]
        && (hasItems && itemsError.Some? ==> r == Err(itemsError.value) && items == old(items))
        && (!(hasItems && itemsError.Some?) ==>
              r == Ok(inv) && items == old(items) + NumberedItems(request.items, newId, shop))
      ensures configs == old(configs) && cancelCalls == old(cancelCalls)
    {
      var config := GetFiscalConfig(shop);
      if config.None? {
        return Err(NoConfigError);
      }
      var number := NextInvoiceNumber(rpcNumber, request.invoiceType, millis);
      if insertError.Some? {
        return Err(insertError.value);
      }
      var inv := NewInvoice(newId, shop, config.value, request, number, millis);
      invoices := invoices[newId := inv];
      if request.items.Some? && |request.items.value| > 0 {
        if itemsError.Some? {
          return Err(itemsError.value);
        }
        items := items + NumberedItems(request.items, newId, shop);
      }
      r := Ok(inv);
    }

    /**
     * `emitInvoice`: the checks throw (an `Err`); past them the provider's answer decides the
     * row written and the answer returned, and an exception writes nothing. `updateError` is
     * the error of the row update (`Some(None)` for one that is not an `Error`): ignored after a
     * refusal, thrown and caught after an acceptance; either way the row is not written.
     */
    method EmitInvoice(shop: string, id: string, outcome: ProviderOutcome, now: string,
                       updateError: Option<Option<string>>)
      returns (r: Result<EmitResponse, string>)
      requires Valid()
      modifies this
      ensures Valid()
      ensures var pre := EmitPrecheck(old(invoices), configs, shop, id);
        (pre.Err? ==> r == Err(pre.error) && invoices == old(invoices))
        && (pre.Ok? ==>
              r == Ok(EmitAnswer(id, AfterUpdate(outcome, updateError)))
              && invoices == (if outcome.Threw? || updateError.Some? then old(invoices)
                              else old(invoices)[id := EmittedRow(pre.value, outcome, now).value]))
      ensures configs == old(configs) && items == old(items) && cancelCalls == old(cancelCalls)
    {
      var pre := EmitPrecheck(invoices, configs, shop, id);
      if pre.Err? {
        return Err(pre.error);
      }
      var row := EmittedRow(pre.value, outcome, now);
      if row.Some? && updateError.None? {
        invoices := invoices[id := row.value];
      }
      r := Ok(EmitAnswer(id, AfterUpdate(outcome, updateError)));
    }

    /**
     * `cancelInvoice`: an authorized invoice the provider knows is cancelled at the provider
     * first (when one is configured); an exception there (`providerError`) stops the
     * cancellation. Otherwise the invoice becomes cancelled with the reason, whatever its status.
     */
    method CancelInvoice(shop: string, id: string, reason: string, providerError: Option<string>, updateFails: bool)
      returns (r: Result<(), string>)
      requires Valid()
      modifies this
      ensures Valid()
      ensures Lookup(old(invoices), shop, id).None? ==>
        r == Err(RowNotFound) && invoices == old(invoices) && cancelCalls == old(cancelCalls)
      ensures Lookup(old(invoices), shop, id).Some? ==>
        var inv := old(invoices)[id];
        (CallsProvider(inv, configs, shop) ==>
           cancelCalls == old(cancelCalls) + [CancelCall(inv.fiscalProviderId.value, reason)])
        && (!CallsProvider(inv, configs, shop) ==> cancelCalls == old(cancelCalls))
        && (CallsProvider(inv, configs, shop) && providerError.Some? ==>
              r == Err(providerError.value) && invoices == old(invoices))
        && (!(CallsProvider(inv, configs, shop) && providerError.Some?) ==>
              r == Ok(())
              && invoices == (if updateFails then old(invoices) else old(invoices)[id := CancelledRow(inv, reason)]))
      ensures configs == old(configs) && items == old(items)
    {
      var found := GetInvoice(id, shop);
      if found.None? {
        return Err(RowNotFound);
      }
      var inv := found.value;
      if inv.status == Authorized && Truthy(inv.fiscalProviderId) {
        if ProviderOf(configs, shop).Some? {
          cancelCalls := cancelCalls + [CancelCall(inv.fiscalProviderId.value, reason)];
          if providerError.Some? {
            return Err(providerError.value);
          }
        }
      }
      if !updateFails {
        invoices := invoices[id := CancelledRow(inv, reason)];
      }
      r := Ok(());
    }
  }

  /** Emission leaves a pending invoice authorized, rejected or (after an exception) pending. */
  lemma EmitStatuses(invoices: map<string, Invoice>, configs: map<string, FiscalConfig>, shop: string, id: string,
                     outcome: ProviderOutcome, now: string)
    requires EmitPrecheck(invoices, configs, shop, id).Ok?
    ensures var inv := EmitPrecheck(invoices, configs, shop, id).value;
      var row := EmittedRow(inv, outcome, now);
      inv.status == Pending
      && (row.Some? ==> row.value.status in {Authorized, Rejected} && SameDocument(inv, row.value))
      && (outcome.Refused? ==> row.value.statusReason == outcome.errorMessage)
  {
  }
}
