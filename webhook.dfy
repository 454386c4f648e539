/**
 * The HTTP entry point the WhatsApp Cloud API calls: the `GET` subscription handshake and
 * the `POST` delivery walk over entries, changes and messages. Each message is handed to
 * the router without being awaited; here that hand-off is a `Dispatch` record, and the
 * records come out in payload order.
 */
module Webhook {
  import opened Wrappers
  import Data
  import Router

  // ----- the handshake -----

  /** The `hub.*` query parameters; an absent parameter is `None` (`null`). */
  datatype VerifyQuery = VerifyQuery(mode: Option<string>, token: Option<string>, challenge: Option<string>)

  /** An HTTP answer; the body of the handshake echo is empty when the challenge is absent. */
  datatype Response = Response(status: nat, body: Option<string>)

  const Forbidden := Response(403, Some("Forbidden"))

  /**
   * `GET`: the challenge is echoed with 200 exactly when the mode is 'subscribe' and the token
   * equals the configured one. An absent parameter (`null`) never equals an unset
   * configuration (`undefined`).
   */
  function Verify(q: VerifyQuery, verifyToken: Option<string>): (r: Response)
    ensures r.status == 200 <==> q.mode == Some("subscribe") && q.token.Some? && q.token == verifyToken
    ensures r.status == 200 ==> r.body == q.challenge
    ensures r.status != 200 ==> r == Forbidden
  {
    if q.mode == Some("subscribe") && q.token.Some? && q.token == verifyToken then Response(200, q.challenge)
    else Forbidden
  }

  /** With no verify token configured, every handshake is refused. */
  lemma UnsetTokenRefuses(q: VerifyQuery)
    ensures Verify(q, None) == Forbidden
  {
  }

  /** Only the configured token opens the handshake: a different one is refused whatever the challenge. */
  lemma WrongTokenRefuses(q: VerifyQuery, verifyToken: string)
    requires q.token != Some(verifyToken)
    ensures Verify(q, Some(verifyToken)) == Forbidden
  {
  }

  // ----- the delivery payload -----

  /** A contact card: `profile.name` may be missing, `wa_id` is the sender's number. */
  datatype Contact = Contact(name: Option<string>, waId: string)

  /** A change's value; `phoneNumberId` is `None` when the `metadata` object is missing. */
  datatype ChangeValue = ChangeValue(
    phoneNumberId: Option<string>,
    contacts: Option<seq<Contact>>,
    messages: Option<seq<Router.InboundMessage>>)

  datatype Change = Change(field: string, value: ChangeValue)

  /** An entry; `changes` is `None` when the array is missing. */
  datatype Entry = Entry(id: string, changes: Option<seq<Change>>)

  /** A delivery; `entry` is `None` when the array is missing. */
  datatype Payload = Payload(objectType: string, entry: Option<seq<Entry>>)

  /** One call of `handleIncomingMessage`, started and not awaited. */
  datatype Dispatch = Dispatch(message: Router.InboundMessage, senderName: string, phoneNumberId: string)

  const BusinessAccount := "whatsapp_business_account"
  const DefaultSenderName := "Cliente"

  /** `contact?.profile?.name || 'Cliente'` for a contact that was found. */
  function NameOf(c: Contact): string
  {
    if Truthy(c.name) then c.name.value else DefaultSenderName
  }

  /**
   * `contacts?.find(c => c.wa_id === message.from)?.profile?.name || 'Cliente'`: the name of
   * the first contact whose number is the sender's, when it is a non-empty name. A later
   * contact with the same number is never consulted.
   */
  function SenderName(contacts: Option<seq<Contact>>, from: string): (name: string)
    ensures contacts.None? ==> name == DefaultSenderName
    ensures contacts.Some? && (forall i :: 0 <= i < |contacts.value| ==> contacts.value[i].waId != from) ==>
      name == DefaultSenderName
    ensures contacts.Some? ==> forall i ::
              (0 <= i < |contacts.value| && contacts.value[i].waId == from
               && forall j :: 0 <= j < i ==> contacts.value[j].waId != from)
              ==> name == NameOf(contacts.value[i])
  {
    var c := if contacts.Some? then Data.Find(contacts.value, (c: Contact) => c.waId == from) else None;
    if c.Some? then NameOf(c.value) else DefaultSenderName
  }

  /** The change carries user messages: its field is 'messages' and the array is non-empty. */
  predicate Qualifies(c: Change)
  {
    c.field == "messages" && c.value.messages.Some? && |c.value.messages.value| > 0
  }

  /** The dispatches of a qualifying change with its metadata: one per message, in order. */
  function ChangeDispatches(c: Change): (ds: seq<Dispatch>)
    requires Qualifies(c) && c.value.phoneNumberId.Some?
    ensures |ds| == |c.value.messages.value|
    ensures forall i :: 0 <= i < |ds| ==>
      ds[i].message == c.value.messages.value[i]
      && ds[i].senderName == SenderName(c.value.contacts, c.value.messages.value[i].from)
      && ds[i].phoneNumberId == c.value.phoneNumberId.value
  {
    var ms := c.value.messages.value;
    seq(|ms|, i requires 0 <= i < |ms| =>
      Dispatch(ms[i], SenderName(c.value.contacts, ms[i].from), c.value.phoneNumberId.value))
  }

  /**
   * What a part of the walk does: the messages it hands off, in order, and whether it throws.
   * A throw ends the walk: nothing after it is handed off.
   */
  datatype Walk = Walk(dispatched: seq<Dispatch>, failed: bool)

  const Quiet := Walk([], false)
  const Throws := Walk([], true)

  /** One part of the walk after another: the second runs only when the first did not throw. */
  function Then(a: Walk, b: Walk): (w: Walk)
    ensures a.failed ==> w == a
    ensures !a.failed ==> w.dispatched == a.dispatched + b.dispatched && w.failed == b.failed
  {
    if a.failed then a else Walk(a.dispatched + b.dispatched, b.failed)
  }

  lemma ThenAssociative(a: Walk, b: Walk, c: Walk)
    ensures Then(Then(a, b), c) == Then(a, Then(b, c))
  {
    if !a.failed && !b.failed {
      assert (a.dispatched + b.dispatched) + c.dispatched == a.dispatched + (b.dispatched + c.dispatched);
    }
  }

  /**
   * The two inner loops for one change: nothing unless it is a 'messages' change with
   * messages; then a throw before the first hand-off when the metadata is missing, or one
   * dispatch per message.
   */
  function ChangeWalk(c: Change): (w: Walk)
    ensures !Qualifies(c) ==> w == Quiet
    ensures Qualifies(c) && c.value.phoneNumberId.None? ==> w == Throws
    ensures Qualifies(c) && c.value.phoneNumberId.Some? ==> w == Walk(ChangeDispatches(c), false)
  {
    if !Qualifies(c) then Quiet
    else if c.value.phoneNumberId.None? then Throws
    else Walk(ChangeDispatches(c), false)
  }

  /** The walk over a run of changes, in order. */
  function ChangesWalk(cs: seq<Change>): Walk
  {
    if cs == [] then Quiet else Then(ChangesWalk(cs[..|cs| - 1]), ChangeWalk(cs[|cs| - 1]))
  }

  /** One entry: a missing `changes` array throws. */
  function EntryWalk(e: Entry): Walk
  {
    if e.changes.None? then Throws else ChangesWalk(e.changes.value)
  }

  /** The walk over a run of entries, in order. */
  function EntriesWalk(es: seq<Entry>): Walk
  {
    if es == [] then Quiet else Then(EntriesWalk(es[..|es| - 1]), EntryWalk(es[|es| - 1]))
  }

  /** The walk is compositional: a run of changes is walked as its two halves, one after the other. */
  lemma {:induction false} ChangesAppend(a: seq<Change>, b: seq<Change>)
    ensures ChangesWalk(a + b) == Then(ChangesWalk(a), ChangesWalk(b))
    decreases |b|
  {
    if b != [] {
      assert (a + b)[..|a + b| - 1] == a + b[..|b| - 1];
      ChangesAppend(a, b[..|b| - 1]);
      ThenAssociative(ChangesWalk(a), ChangesWalk(b[..|b| - 1]), ChangeWalk(b[|b| - 1]));
    } else {
      assert a + b == a;
      assert Then(ChangesWalk(a), Quiet).dispatched == ChangesWalk(a).dispatched + [];
    }
  }

  /** The same for entries: every message of the payload is dispatched once, in payload order. */
  lemma {:induction false} EntriesAppend(a: seq<Entry>, b: seq<Entry>)
    ensures EntriesWalk(a + b) == Then(EntriesWalk(a), EntriesWalk(b))
    decreases |b|
  {
    if b != [] {
      assert (a + b)[..|a + b| - 1] == a + b[..|b| - 1];
      EntriesAppend(a, b[..|b| - 1]);
      ThenAssociative(EntriesWalk(a), EntriesWalk(b[..|b| - 1]), EntryWalk(b[|b| - 1]));
    } else {
      assert a + b == a;
      assert Then(EntriesWalk(a), Quiet).dispatched == EntriesWalk(a).dispatched + [];
    }
  }

  /** Once a run of entries throws, the entries after it hand off nothing more. */
  lemma EntriesStopAtThrow(a: seq<Entry>, b: seq<Entry>)
    requires EntriesWalk(a).failed
    ensures EntriesWalk(a + b) == EntriesWalk(a)
  {
    EntriesAppend(a, b);
  }

  /**
   * An entry without its `changes` array, after entries that did not throw: the messages
   * handed off before it stay dispatched, and nothing after it is.
   */
  lemma MissingChangesKeepsEarlierDispatches(a: seq<Entry>, e: Entry, b: seq<Entry>)
    requires !EntriesWalk(a).failed && e.changes.None?
    ensures EntriesWalk(a + [e] + b) == Walk(EntriesWalk(a).dispatched, true)
  {
    assert (a + [e])[..|a + [e]| - 1] == a;
    assert EntriesWalk(a + [e]) == Walk(EntriesWalk(a).dispatched + [], true);
    assert EntriesWalk(a).dispatched + [] == EntriesWalk(a).dispatched;
    EntriesStopAtThrow(a + [e], b);
  }

  /** The same for a run of changes inside an entry. */
  lemma ChangesStopAtThrow(a: seq<Change>, b: seq<Change>)
    requires ChangesWalk(a).failed
    ensures ChangesWalk(a + b) == ChangesWalk(a)
  {
    ChangesAppend(a, b);
  }

  /** A change that does not throw: it is skipped, or it has its metadata. */
  predicate WellFormedChange(c: Change)
  {
    !Qualifies(c) || c.value.phoneNumberId.Some?
  }

  /** A delivery of the documented shape is walked to the end. */
  lemma {:induction false} WellFormedNeverThrows(es: seq<Entry>)
    requires forall i :: 0 <= i < |es| ==> es[i].changes.Some?
    requires forall i, k :: 0 <= i < |es| && 0 <= k < |es[i].changes.value| ==> WellFormedChange(es[i].changes.value[k])
    ensures !EntriesWalk(es).failed
    decreases |es|
  {
    if es != [] {
      WellFormedNeverThrows(es[..|es| - 1]);
      var cs := es[|es| - 1].changes.value;
      assert forall k :: 0 <= k < |cs| ==> WellFormedChange(cs[k]);
      ChangesNeverThrow(cs);
    }
  }

  lemma {:induction false} ChangesNeverThrow(cs: seq<Change>)
    requires forall k :: 0 <= k < |cs| ==> WellFormedChange(cs[k])
    ensures !ChangesWalk(cs).failed
    decreases |cs|
  {
    if cs != [] {
      ChangesNeverThrow(cs[..|cs| - 1]);
    }
  }

  /** Status-only deliveries start nothing and do not throw. */
  lemma {:induction false} NothingQualifiesNothingDispatched(cs: seq<Change>)
    requires forall i :: 0 <= i < |cs| ==> !Qualifies(cs[i])
    ensures ChangesWalk(cs) == Quiet
    decreases |cs|
  {
    if cs != [] {
      NothingQualifiesNothingDispatched(cs[..|cs| - 1]);
      assert Then(Quiet, Quiet).dispatched == [] + [];
    }
  }

  /** Every dispatch of a run of changes carries a message of a qualifying change of that run. */
  lemma {:induction false} DispatchedFromQualifying(cs: seq<Change>, d: Dispatch)
    requires d in ChangesWalk(cs).dispatched
    ensures exists i :: 0 <= i < |cs| && Qualifies(cs[i]) && d.message in cs[i].value.messages.value
    decreases |cs|
  {
    var front := ChangesWalk(cs[..|cs| - 1]);
    var last := cs[|cs| - 1];
    if d in front.dispatched {
      DispatchedFromQualifying(cs[..|cs| - 1], d);
      var i :| 0 <= i < |cs[..|cs| - 1]| && Qualifies(cs[..|cs| - 1][i])
               && d.message in cs[..|cs| - 1][i].value.messages.value;
      assert cs[i] == cs[..|cs| - 1][i];
    } else {
      assert !front.failed && d in ChangeWalk(last).dispatched;
      var ds := ChangeDispatches(last);
      var k :| 0 <= k < |ds| && ds[k] == d;
      assert d.message == last.value.messages.value[k];
      assert Qualifies(cs[|cs| - 1]);
    }
  }

  // ----- POST -----

  /** The body of the innermost two loops of `POST` for one change. */
  method DispatchChange(change: Change) returns (dispatched: seq<Dispatch>, failed: bool)
    ensures Walk(dispatched, failed) == ChangeWalk(change)
  {
    dispatched := [];
    failed := false;
    if change.field != "messages" {
      return;
    }
    var messages := change.value.messages;
    if messages.None? || |messages.value| == 0 {
      return;
    }
    if change.value.phoneNumberId.None? {
      failed := true;
      return;
    }
    for m := 0 to |messages.value|
      invariant dispatched == ChangeDispatches(change)[..m]
    {
      var message := messages.value[m];
      var senderName := SenderName(change.value.contacts, message.from);
      dispatched := dispatched + [Dispatch(message, senderName, change.value.phoneNumberId.value)];
    }
    assert ChangeDispatches(change)[..|messages.value|] == ChangeDispatches(change);
  }

  /** The JSON answer of `POST`: always status 200, with 'ignored', 'received' or 'error'. */
  datatype Ack = Ignored | Received | ProcessingError

  /** `for (const entry of body.entry)`: a missing array throws at once. */
  function PayloadWalk(entries: Option<seq<Entry>>): Walk
  {
    if entries.None? then Throws else EntriesWalk(entries.value)
  }

  /**
   * `POST`: a body that is not JSON (`None`) is acknowledged as an error; another object kind
   * is ignored; otherwise the entries are walked in order. A throw partway (a missing array or
   * `metadata`) is caught: the messages handed off before it stay dispatched and the answer is
   * 'error'. The status is 200 every time.
   */
  method Post(body: Option<Payload>) returns (status: nat, ack: Ack, dispatched: seq<Dispatch>)
    ensures status == 200
    ensures body.None? ==> ack == ProcessingError && dispatched == []
    ensures body.Some? && body.value.objectType != BusinessAccount ==> ack == Ignored && dispatched == []
    ensures body.Some? && body.value.objectType == BusinessAccount ==>
      var w := PayloadWalk(body.value.entry);
      dispatched == w.dispatched && ack == (if w.failed then ProcessingError else Received)
  {
    status := 200;
    dispatched := [];
    if body.None? {
      ack := ProcessingError;
      return;
    }
    var payload := body.value;
    if payload.objectType != BusinessAccount {
      ack := Ignored;
      return;
    }
    if payload.entry.None? {
      ack := ProcessingError;
      return;
    }
    var entries := payload.entry.value;
    var failed := false;
    var e := 0;
    while e < |entries| && !failed
      invariant 0 <= e <= |entries|
      invariant Walk(dispatched, failed) == EntriesWalk(entries[..e])
    {
      var ds, f := DispatchEntry(entries[e]);
      assert entries[..e + 1][..e] == entries[..e];
      dispatched := dispatched + ds;
      failed := f;
      e := e + 1;
    }
    if e < |entries| {
      EntriesStopAtThrow(entries[..e], entries[e..]);
      assert entries[..e] + entries[e..] == entries;
    } else {
      assert entries[..e] == entries;
    }
    ack := if failed then ProcessingError else Received;
  }

  /** The middle loop of `POST`: the changes of one entry, in order, up to a throw. */
  method DispatchEntry(entry: Entry) returns (dispatched: seq<Dispatch>, failed: bool)
    ensures Walk(dispatched, failed) == EntryWalk(entry)
  {
    dispatched := [];
    failed := false;
    if entry.changes.None? {
      failed := true;
      return;
    }
    var changes := entry.changes.value;
    var c := 0;
    while c < |changes| && !failed
      invariant 0 <= c <= |changes|
      invariant Walk(dispatched, failed) == ChangesWalk(changes[..c])
    {
      var ds, f := DispatchChange(changes[c]);
      assert changes[..c + 1][..c] == changes[..c];
      dispatched := dispatched + ds;
      failed := f;
      c := c + 1;
    }
    if c < |changes| {
      ChangesStopAtThrow(changes[..c], changes[c..]);
      assert changes[..c] + changes[c..] == changes;
    } else {
      assert changes[..c] == changes;
    }
  }
}
