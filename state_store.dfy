/**
 * The conversation state store: a keyed map from `barbershopId:phoneNumber` to the
 * state of one chat conversation, with get-or-create, partial update with a shallow
 * merge of the context, set-step, reset and delete.
 */
module Conversation {
  import opened Wrappers
  import Strings

  /** The nodes of the conversation's step graph. */
  datatype Step =
    | Idle | Greeting | MainMenu
    | SelectService | SelectBarber | SelectDate | SelectTime | ConfirmAppointment
    | ReportsMenu | AwaitingReportQuery

  datatype Role = ClientRole | BarberRole | ManagerRole | OwnerRole

  /** The fields of the flow-scoped scratchpad. */
  datatype ContextKey =
    | SelectedServiceId | SelectedServiceName | SelectedBarberId | SelectedBarberName
    | SelectedDate | SelectedTime | AvailableTimes

  /** A context field is either explicitly `undefined`, a string, or a list of time slots. */
  datatype ContextValue = Undefined | Text(text: string) | Times(slots: seq<string>)

  type Context = map<ContextKey, ContextValue>

  /** A reading of the clock: `Date.now()` and `new Date().toISOString()`. */
  datatype Instant = Instant(millis: nat, iso: string)

  datatype ConversationState = ConversationState(
    id: string,
    phoneNumber: string,
    barbershopId: string,
    currentStep: Step,
    context: Context,
    userRole: Option<Role>,
    barberId: Option<string>,
    clientId: Option<string>,
    createdAt: string,
    updatedAt: string)

  /**
   * The partial record accepted by `updateState`: a field that is `None` is not named
   * in the update; `Some(None)` sets a nullable field to `null`.
   */
  datatype StateUpdate = StateUpdate(
    step: Option<Step>,
    context: Option<Context>,
    userRole: Option<Option<Role>>,
    barberId: Option<Option<string>>,
    clientId: Option<Option<string>>)

  function StepUpdate(step: Step): StateUpdate
  {
    StateUpdate(Some(step), None, None, None, None)
  }

  /** `process.env.DEFAULT_BARBERSHOP_ID || 'default-barbershop'`. */
  function DefaultBarbershopId(configured: Option<string>): (id: string)
    ensures id != ""
    ensures configured.Some? && configured.value != "" ==> id == configured.value
  {
    if configured.Some? && configured.value != "" then configured.value else "default-barbershop"
  }

  /** The store key of a conversation. */
  function Key(phoneNumber: string, barbershopId: string): string
  {
    barbershopId + ":" + phoneNumber
  }

  /** The same phone number under two tenants has two distinct keys. */
  lemma KeySeparatesTenants(phoneNumber: string, shop1: string, shop2: string)
    requires shop1 != shop2
    ensures Key(phoneNumber, shop1) != Key(phoneNumber, shop2)
  {
    if |shop1| == |shop2| {
      var i :| 0 <= i < |shop1| && shop1[i] != shop2[i];
      assert Key(phoneNumber, shop1)[i] == shop1[i];
      assert Key(phoneNumber, shop2)[i] == shop2[i];
    }
  }

  /** Two phone numbers of one tenant have two distinct keys. */
  lemma KeySeparatesPhones(phone1: string, phone2: string, shop: string)
    requires phone1 != phone2
    ensures Key(phone1, shop) != Key(phone2, shop)
  {
    if |phone1| == |phone2| {
      var i :| 0 <= i < |phone1| && phone1[i] != phone2[i];
      assert Key(phone1, shop)[|shop| + 1 + i] == phone1[i];
      assert Key(phone2, shop)[|shop| + 1 + i] == phone2[i];
    }
  }

  /** When no tenant id contains ':' the key determines both the tenant and the phone number. */
  lemma KeyInjective(phone1: string, shop1: string, phone2: string, shop2: string)
    requires ':' !in shop1 && ':' !in shop2
    requires Key(phone1, shop1) == Key(phone2, shop2)
    ensures phone1 == phone2 && shop1 == shop2
  {
    KeyParts(phone1, shop1);
    KeyParts(phone2, shop2);
  }

  /** The key is the tenant id, a ':' and the phone number, in that order. */
  lemma KeyParts(phoneNumber: string, barbershopId: string)
    ensures |Key(phoneNumber, barbershopId)| == |barbershopId| + 1 + |phoneNumber|
    ensures Key(phoneNumber, barbershopId)[..|barbershopId|] == barbershopId
    ensures Key(phoneNumber, barbershopId)[|barbershopId|] == ':'
    ensures Key(phoneNumber, barbershopId)[|barbershopId| + 1..] == phoneNumber
  {
  }

  /** Writing a key twice leaves only the second write. */
  lemma OverwriteEntry(states: map<string, ConversationState>, k: string, a: ConversationState, b: ConversationState)
    ensures states[k := a][k := b] == states[k := b]
  {
  }

  /** `conv_${Date.now()}_${random}`. */
  function ConversationId(clock: Instant, random: string): string
  {
    "conv_" + Strings.NatToString(clock.millis) + "_" + random
  }

  /** The state `createState` stores for a new conversation. */
  function NewState(phoneNumber: string, barbershopId: string, clock: Instant, random: string): (s: ConversationState)
    ensures s.currentStep == Idle && s.context == map[]
    ensures s.userRole == None && s.barberId == None && s.clientId == None
    ensures s.phoneNumber == phoneNumber && s.barbershopId == barbershopId
    ensures s.createdAt == s.updatedAt == clock.iso
  {
    ConversationState(ConversationId(clock, random), phoneNumber, barbershopId, Idle, map[],
      None, None, None, clock.iso, clock.iso)
  }

  /**
   * The state `updateState` writes: the named fields are replaced, the context is merged
   * shallowly (`{ ...old, ...new }`), and `updated_at` is refreshed.
   */
  function ApplyUpdate(s: ConversationState, u: StateUpdate, now: string): (r: ConversationState)
    ensures r.id == s.id && r.phoneNumber == s.phoneNumber && r.barbershopId == s.barbershopId
    ensures r.createdAt == s.createdAt && r.updatedAt == now
    ensures u.step.None? ==> r.currentStep == s.currentStep
    ensures u.step.Some? ==> r.currentStep == u.step.value
    ensures u.userRole.None? ==> r.userRole == s.userRole
    ensures u.userRole.Some? ==> r.userRole == u.userRole.value
    ensures u.barberId.None? ==> r.barberId == s.barberId
    ensures u.barberId.Some? ==> r.barberId == u.barberId.value
    ensures u.clientId.None? ==> r.clientId == s.clientId
    ensures u.clientId.Some? ==> r.clientId == u.clientId.value
    // the merge is shallow: the old keys survive, the named keys take the new values
    ensures forall k :: k in r.context <==> k in s.context || (u.context.Some? && k in u.context.value)
    ensures u.context.Some? ==> forall k :: k in u.context.value ==> r.context[k] == u.context.value[k]
    ensures forall k :: k in s.context && (u.context.None? || k !in u.context.value) ==> r.context[k] == s.context[k]
  {
    s.(currentStep := u.step.GetOr(s.currentStep),
       context := if u.context.Some? then s.context + u.context.value else s.context,
       userRole := u.userRole.GetOr(s.userRole),
       barberId := u.barberId.GetOr(s.barberId),
       clientId := u.clientId.GetOr(s.clientId),
       updatedAt := now)
  }

  /** The in-memory store shared by every conversation. */
  class ConversationStateManager {
    var states: map<string, ConversationState>

    constructor ()
      ensures states == map[]
    {
      states := map[];
    }

    function GetState(phoneNumber: string, barbershopId: string): (r: Option<ConversationState>)
      reads this
      ensures r.Some? <==> Key(phoneNumber, barbershopId) in states
      ensures r.Some? ==> r.value == states[Key(phoneNumber, barbershopId)]
    {
      var k := Key(phoneNumber, barbershopId);
      if k in states then Some(states[k]) else None
    }

    /** Stores a fresh idle state under the key, replacing any state already there. */
    method CreateState(phoneNumber: string, barbershopId: string, clock: Instant, random: string)
      returns (s: ConversationState)
      modifies this
      ensures s == NewState(phoneNumber, barbershopId, clock, random)
      ensures states == old(states)[Key(phoneNumber, barbershopId) := s]
    {
      s := NewState(phoneNumber, barbershopId, clock, random);
      states := states[Key(phoneNumber, barbershopId) := s];
    }

    /** Returns the stored state untouched, or creates one when the key is absent. */
    method GetOrCreateState(phoneNumber: string, barbershopId: string, clock: Instant, random: string)
      returns (s: ConversationState)
      modifies this
      ensures Key(phoneNumber, barbershopId) in old(states) ==>
        s == old(states)[Key(phoneNumber, barbershopId)] && states == old(states)
      ensures Key(phoneNumber, barbershopId) !in old(states) ==>
        s == NewState(phoneNumber, barbershopId, clock, random)
        && states == old(states)[Key(phoneNumber, barbershopId) := s]
      ensures Key(phoneNumber, barbershopId) in states && states[Key(phoneNumber, barbershopId)] == s
    {
      var existing := GetState(phoneNumber, barbershopId);
      if existing.Some? {
        return existing.value;
      }
      s := CreateState(phoneNumber, barbershopId, clock, random);
    }

    /** Applies a partial update; an absent key yields `None` and leaves the store as it was. */
    method UpdateState(phoneNumber: string, u: StateUpdate, barbershopId: string, now: string)
      returns (r: Option<ConversationState>)
      modifies this
      ensures Key(phoneNumber, barbershopId) !in old(states) ==> r == None && states == old(states)
      ensures Key(phoneNumber, barbershopId) in old(states) ==>
        r == Some(ApplyUpdate(old(states)[Key(phoneNumber, barbershopId)], u, now))
        && states == old(states)[Key(phoneNumber, barbershopId) := r.value]
    {
      var k := Key(phoneNumber, barbershopId);
      if k !in states {
        return None;
      }
      var updated := ApplyUpdate(states[k], u, now);
      states := states[k := updated];
      r := Some(updated);
    }

    /** Changes only the step (and `updated_at`) of the conversation. */
    method SetStep(phoneNumber: string, step: Step, barbershopId: string, now: string)
      returns (r: Option<ConversationState>)
      modifies this
      ensures Key(phoneNumber, barbershopId) !in old(states) ==> r == None && states == old(states)
      ensures Key(phoneNumber, barbershopId) in old(states) ==>
        r == Some(old(states)[Key(phoneNumber, barbershopId)].(currentStep := step, updatedAt := now))
        && states == old(states)[Key(phoneNumber, barbershopId) := r.value]
    {
      r := UpdateState(phoneNumber, StepUpdate(step), barbershopId, now);
    }

    /** Merges `context` into the conversation's context; nothing but the context and `updated_at` changes. */
    method UpdateContext(phoneNumber: string, context: Context, barbershopId: string, now: string)
      returns (r: Option<ConversationState>)
      modifies this
      ensures Key(phoneNumber, barbershopId) !in old(states) ==> r == None && states == old(states)
      ensures Key(phoneNumber, barbershopId) in old(states) ==>
        var s := old(states)[Key(phoneNumber, barbershopId)];
        r == Some(s.(context := s.context + context, updatedAt := now))
        && states == old(states)[Key(phoneNumber, barbershopId) := r.value]
    {
      var k := Key(phoneNumber, barbershopId);
      if k !in states {
        return None;
      }
      var s := states[k];
      var updated := s.(context := s.context + context, updatedAt := now);
      states := states[k := updated];
      r := Some(updated);
    }

    /**
     * Sends the conversation back to `idle`. The empty context it passes goes through the
     * shallow merge, so the context entries already there are kept.
     */
    method ResetState(phoneNumber: string, barbershopId: string, now: string)
      returns (r: Option<ConversationState>)
      modifies this
      ensures Key(phoneNumber, barbershopId) !in old(states) ==> r == None && states == old(states)
      ensures Key(phoneNumber, barbershopId) in old(states) ==>
        r == Some(old(states)[Key(phoneNumber, barbershopId)].(currentStep := Idle, updatedAt := now))
        && states == old(states)[Key(phoneNumber, barbershopId) := r.value]
    {
      var k := Key(phoneNumber, barbershopId);
      if k in states {
        assert states[k].context + map[] == states[k].context;
      }
      r := UpdateState(phoneNumber, StateUpdate(Some(Idle), Some(map[]), None, None, None), barbershopId, now);
    }

    /** Removes the conversation; the result says whether it was there. */
    method DeleteState(phoneNumber: string, barbershopId: string) returns (existed: bool)
      modifies this
      ensures existed == (Key(phoneNumber, barbershopId) in old(states))
      ensures states == old(states) - {Key(phoneNumber, barbershopId)}
    {
      var k := Key(phoneNumber, barbershopId);
      existed := k in states;
      states := states - {k};
    }
  }

  /** Two `getOrCreateState` calls in a row return states with the same `id`. */
  method GetOrCreateTwice(store: ConversationStateManager, phoneNumber: string, barbershopId: string,
                          clock1: Instant, random1: string, clock2: Instant, random2: string)
    returns (first: ConversationState, second: ConversationState)
    modifies store
    ensures first == second && first.id == second.id
    ensures store.states == old(store.states)[Key(phoneNumber, barbershopId) := first]
  {
    first := store.GetOrCreateState(phoneNumber, barbershopId, clock1, random1);
    second := store.GetOrCreateState(phoneNumber, barbershopId, clock2, random2);
  }
}
