/**
 * The Telegram handlers of main.py. A `Session` is the per-user FSM context
 * (its state and its key/value payload); each handler is a method that
 * updates the session and the `Store`, and returns the outbound effects it
 * produces, in order. Sends whose failure the source catches take the failure
 * as a parameter; a failed send produces no effect, except a failed deletion,
 * which is recorded as an attempt with `deleted == false`.
 */
module Bot {
  import opened Base
  import opened Validation
  import opened Database

  /** The messages the bot sends, by meaning (their wording is Russian in the source). */
  datatype Text =
    | Welcome                                  // main.py:72
    | AskPhone                                 // main.py:81, main.py:210
    | AskOldPhone                              // main.py:89-91
    | BadOldPhoneFormat                        // main.py:108
    | ClientNotFound                           // main.py:116
    | ClientFound(oldPhone: string)            // main.py:120
    | BadNewPhoneFormat                        // main.py:134
    | PhoneChanged(newPhone: string)           // main.py:143
    | YourPhoneChanged(newPhone: string)       // main.py:144
    | NotifyClientFailed                       // main.py:149
    | NoClientInfo                             // main.py:153
    | BadPhoneFormat                           // main.py:165
    | PhoneReceived(phone: string)             // main.py:169
    | ConfirmPrompt                            // main.py:170-176, with the confirm/change keyboard
    | PhoneSaved(savedPhone: Option<string>)   // main.py:188
    | NewClient(clientPhone: Option<string>, client: int)  // main.py:191

  datatype Effect =
    | Answer(chat: int, text: Text)            // message.answer in the chat of the update
    | Send(chat: int, text: Text)              // bot.send_message
    | AdminMenu(user: int)                     // main_menu_admin
    | ClientMenu(user: int)                    // main_menu_client
    | Delete(chat: int, messageId: int, deleted: bool)  // bot.delete_message, attempted
    | AckCallback                              // callback.answer

  /**
   * `check_admin`: membership in the allow-list read from the environment;
   * `None` stands for a list that does not parse, which counts as empty.
   */
  function CheckAdmin(u: int, allowList: Option<seq<int>>): (b: bool)
    ensures b <==> u in allowList.GetOr([])
  {
    allowList.Some? && u in allowList.value
  }

  /** The deletion attempts for `ids`, in order; attempt `k` fails when `k` is in `failing`. */
  function Deletions(chat: int, ids: seq<int>, failing: set<nat>): (es: seq<Effect>)
    ensures |es| == |ids|
    ensures forall k :: 0 <= k < |ids| ==> es[k] == Delete(chat, ids[k], k !in failing)
  {
    seq(|ids|, k requires 0 <= k < |ids| => Delete(chat, ids[k], k !in failing))
  }

  /**
   * `safely_delete_last_message`: tries to delete every recorded message of
   * user `u` from `chat`, skipping the ones that fail, then clears the record
   * whatever the deletions did.
   */
  method SafelyDeleteLastMessage(store: Store, u: int, chat: int, failing: set<nat>) returns (effects: seq<Effect>)
    modifies store
    ensures store.clients == old(store.clients) && store.admins == old(store.admins)
    ensures store.reachable == old(store.reachable)
    ensures effects == Deletions(chat, if old(store.reachable) then StoredIds(old(store.users), u) else [], failing)
    ensures store.users == if old(store.reachable) then Cleared(old(store.users), u) else old(store.users)
  {
    var ids := store.GetLastMessages(u);
    effects := [];
    for k := 0 to |ids|
      invariant effects == Deletions(chat, ids[..k], failing)
    {
      effects := effects + [Delete(chat, ids[k], k !in failing)];
    }
    assert ids[..|ids|] == ids;
    store.ClearLastMessages(u);
  }

  /**
   * The notifications of a new client sent to the administrators `order`, in
   * that order; a send to an administrator in `unreachable` fails and is skipped.
   */
  function AdminNotifications(order: seq<int>, phone: Option<string>, client: int, unreachable: set<int>): (ns: seq<Effect>)
    ensures |ns| <= |order|
  {
    if order == [] then []
    else
      var rest := AdminNotifications(order[..|order| - 1], phone, client, unreachable);
      var a := order[|order| - 1];
      if a in unreachable then rest else rest + [Send(a, NewClient(phone, client))]
  }

  /** Every reachable administrator, and nobody else, receives the notification. */
  lemma {:induction false} AdminNotificationsReachAll(order: seq<int>, phone: Option<string>, client: int, unreachable: set<int>, a: int)
    ensures Send(a, NewClient(phone, client)) in AdminNotifications(order, phone, client, unreachable)
        <==> a in order && a !in unreachable
    ensures forall e :: e in AdminNotifications(order, phone, client, unreachable) ==>
        e.Send? && e.text == NewClient(phone, client) && e.chat in order
  {
    if order != [] {
      var init := order[..|order| - 1];
      AdminNotificationsReachAll(init, phone, client, unreachable, a);
      assert order == init + [order[|order| - 1]];
    }
  }

  /**
   * Each administrator is notified at most once: with an `order` that lists
   * every administrator once, no two notifications go to the same chat.
   */
  lemma {:induction false} AdminNotificationsOnce(order: seq<int>, phone: Option<string>, client: int, unreachable: set<int>)
    requires NoDup(order)
    ensures var ns := AdminNotifications(order, phone, client, unreachable);
      forall i, j :: 0 <= i < j < |ns| ==> ns[i].Send? && ns[j].Send? && ns[i].chat != ns[j].chat
  {
    if order != [] {
      var init, a := order[..|order| - 1], order[|order| - 1];
      assert NoDup(init);
      AdminNotificationsOnce(init, phone, client, unreachable);
      AdminNotificationsReachAll(init, phone, client, unreachable, a);
      var rest := AdminNotifications(init, phone, client, unreachable);
      forall e | e in rest ensures e.Send? && e.chat != a {
        assert e.chat in init;
      }
    }
  }

  /** The loop at main.py:192-197: one send per administrator, failures logged and skipped. */
  method NotifyAdmins(order: seq<int>, phone: Option<string>, client: int, unreachable: set<int>) returns (effects: seq<Effect>)
    ensures effects == AdminNotifications(order, phone, client, unreachable)
  {
    effects := [];
    for i := 0 to |order|
      invariant effects == AdminNotifications(order[..i], phone, client, unreachable)
    {
      assert order[..i + 1][..i] == order[..i];
      if order[i] !in unreachable {
        effects := effects + [Send(order[i], NewClient(phone, client))];
      }
    }
    assert order[..|order|] == order;
  }

  /** The FSM states: `Idle` is the cleared context. */
  datatype State = Idle | WaitingForPhone | WaitingForOldPhone | WaitingForNewPhone

  /** A payload value: a phone text or a Telegram id. */
  datatype Value = Str(s: string) | Int(n: int)

  /**
   * The keys the handlers write into the payload: "phone_number",
   * "old_phone" and "client_tg_id". No other key is ever written.
   */
  datatype Key = PhoneNumberKey | OldPhoneKey | ClientIdKey

  /** What the handlers keep in the payload: validated phones and an integer client id. */
  ghost predicate PayloadOk(d: map<Key, Value>) {
    && (PhoneNumberKey in d ==> d[PhoneNumberKey].Str? && IsValidPhone(d[PhoneNumberKey].s))
    && (OldPhoneKey in d ==> d[OldPhoneKey].Str? && IsValidPhone(d[OldPhoneKey].s))
    && (ClientIdKey in d ==> d[ClientIdKey].Int?)
  }

  /** Every phone in `client_info` has the validated shape. */
  ghost predicate PhonesValid(clients: map<int, Option<string>>) {
    forall u :: u in clients && clients[u].Some? ==> IsValidPhone(clients[u].value)
  }

  /** `data.get(key)` for a phone entry of a well-formed payload. */
  function PhoneEntry(d: map<Key, Value>, key: Key): Option<string> {
    if key in d && d[key].Str? then Some(d[key].s) else None
  }

  /** `data.get('client_tg_id')` tested for truthiness: present and non-zero. */
  function ClientIdEntry(d: map<Key, Value>): Option<int> {
    if ClientIdKey in d && d[ClientIdKey].Int? && d[ClientIdKey].n != 0 then Some(d[ClientIdKey].n) else None
  }

  /** The FSM context of one user: its state and its key/value payload. */
  class Session {
    var state: State
    var data: map<Key, Value>

    ghost predicate Valid()
      reads this
    {
      PayloadOk(data)
    }

    constructor ()
      ensures Valid() && state == Idle && data == map[]
    {
      state, data := Idle, map[];
    }

    /** `state.clear()`: back to no state with an empty payload. */
    method Clear()
      modifies this
      ensures Valid() && state == Idle && data == map[]
    {
      state, data := Idle, map[];
    }

    /**
     * `start_command`. A known chat gets its menu and nothing changes. A new
     * user is welcomed and registered; an administrator is also added to
     * `admin_info` and shown the admin menu, a client is asked for a phone
     * and the session waits for it (the payload is kept).
     */
    method Start(store: Store, from: int, chat: int, allowList: Option<seq<int>>) returns (effects: seq<Effect>)
      requires Valid()
      modifies this, store
      ensures Valid() && data == old(data)
      ensures store.reachable == old(store.reachable) && store.clients == old(store.clients)
      ensures old(store.reachable) && chat in old(store.users) ==>
        && effects == [if CheckAdmin(from, allowList) then AdminMenu(from) else ClientMenu(from)]
        && state == old(state) && store.users == old(store.users) && store.admins == old(store.admins)
      ensures !(old(store.reachable) && chat in old(store.users)) && CheckAdmin(from, allowList) ==>
        && effects == [Answer(chat, Welcome), AdminMenu(from)]
        && state == old(state)
        && store.users == (if old(store.reachable) then RegisteredUser(old(store.users), from, Admin) else old(store.users))
        && store.admins == (if old(store.reachable) then old(store.admins) + {from} else old(store.admins))
      ensures !(old(store.reachable) && chat in old(store.users)) && !CheckAdmin(from, allowList) ==>
        && effects == [Answer(chat, Welcome), Answer(chat, AskPhone)]
        && state == WaitingForPhone
        && store.users == (if old(store.reachable) then RegisteredUser(old(store.users), from, Client) else old(store.users))
        && store.admins == old(store.admins)
    {
      var isAdmin := CheckAdmin(from, allowList);
      var known := store.UserExists(chat);
      if known {
        effects := [if isAdmin then AdminMenu(from) else ClientMenu(from)];
        return;
      }
      effects := [Answer(chat, Welcome)];
      if isAdmin {
        store.UserRegistration(from, Admin);
        store.AdminRegistration(from);
        effects := effects + [AdminMenu(from)];
      } else {
        store.UserRegistration(from, Client);
        effects := effects + [Answer(chat, AskPhone)];
        state := WaitingForPhone;
      }
    }

    /**
     * `callback_admin_change_phone`: clears the session and waits for the
     * old phone. No role is checked here.
     */
    method AdminChangePhone(chat: int) returns (effects: seq<Effect>)
      modifies this
      ensures Valid() && state == WaitingForOldPhone && data == map[]
      ensures effects == [Answer(chat, AskOldPhone), AckCallback]
    {
      Clear();
      effects := [Answer(chat, AskOldPhone)];
      state := WaitingForOldPhone;
      effects := effects + [AckCallback];
    }

    /**
     * `process_old_phone`. The cancel token is tested first and always ends
     * the session. A malformed phone changes nothing. A well-formed one is put
     * in the payload before the lookup, so it stays there when no client has
     * it; a client found (with a non-zero id) is put in the payload and the
     * session moves on to the new phone. A failed lookup raises after the
     * payload update.
     */
    method ProcessOldPhone(store: Store, from: int, chat: int, text: Option<string>) returns (effects: seq<Effect>)
      requires Valid() && state == WaitingForOldPhone
      modifies this
      ensures Valid()
      ensures text.None? ==> state == old(state) && data == old(data) && effects == []
      ensures text.Some? && IsCancel(Strip(text.value), OldPhoneCancelTokens) ==>
        state == Idle && data == map[] && effects == [AdminMenu(from)]
      ensures text.Some? && !IsCancel(Strip(text.value), OldPhoneCancelTokens) && !PhonePatternMatches(Strip(text.value)) ==>
        state == old(state) && data == old(data) && effects == [Answer(chat, BadOldPhoneFormat)]
      ensures text.Some? && !IsCancel(Strip(text.value), OldPhoneCancelTokens) && PhonePatternMatches(Strip(text.value)) ==>
        var t := Strip(text.value);
        && IsValidPhone(t)
        && (state == WaitingForOldPhone || state == WaitingForNewPhone)
        && (state == WaitingForOldPhone ==>
              && data == old(data)[OldPhoneKey := Str(t)]
              && effects == (if store.reachable then [Answer(chat, ClientNotFound)] else []))
        && (state == WaitingForNewPhone ==>
              && store.reachable
              && ClientIdEntry(data).Some? && ClientIdEntry(data).value in PhoneOwners(store.clients, t)
              && data == old(data)[OldPhoneKey := Str(t)][ClientIdKey := Int(ClientIdEntry(data).value)]
              && effects == [Answer(chat, ClientFound(t))])
        && (store.reachable && PhoneOwners(store.clients, t) == {} ==> state == WaitingForOldPhone)
        && (store.reachable && PhoneOwners(store.clients, t) != {} && 0 !in PhoneOwners(store.clients, t) ==>
              state == WaitingForNewPhone)
    {
      if text.None? {
        return [];
      }
      var t := Strip(text.value);
      if IsCancel(t, OldPhoneCancelTokens) {
        Clear();
        return [AdminMenu(from)];
      }
      if !PhonePatternMatches(t) {
        return [Answer(chat, BadOldPhoneFormat)];
      }
      PatternOnStrippedText(text.value);
      data := data[OldPhoneKey := Str(t)];
      var found := store.GetIdFromPhone(t);
      if found.Err? {
        return [];
      }
      if found.value.None? || found.value.value == 0 {
        return [Answer(chat, ClientNotFound)];
      }
      data := data[ClientIdKey := Int(found.value.value)];
      effects := [Answer(chat, ClientFound(t))];
      state := WaitingForNewPhone;
    }

    /**
     * `change_new_phone`. The cancel token ends the session; a malformed phone
     * changes nothing. A well-formed phone with a client id in the payload
     * updates that client's phone, tells the administrator and the client (or
     * the administrator that the client could not be told), and ends the
     * session; without a client id the session ends too, despite the
     * "try again" text. A failed update raises before anything is sent.
     */
    method ChangeNewPhone(store: Store, from: int, chat: int, text: Option<string>, clientUnreachable: bool)
      returns (effects: seq<Effect>)
      requires Valid() && state == WaitingForNewPhone
      modifies this, store
      ensures Valid() && (PhonesValid(old(store.clients)) ==> PhonesValid(store.clients))
      ensures store.users == old(store.users) && store.admins == old(store.admins)
      ensures store.reachable == old(store.reachable)
      ensures text.None? ==> state == old(state) && data == old(data) && effects == [] && store.clients == old(store.clients)
      ensures text.Some? && IsCancel(Strip(text.value), NewPhoneCancelTokens) ==>
        state == Idle && data == map[] && effects == [AdminMenu(from)] && store.clients == old(store.clients)
      ensures text.Some? && !IsCancel(Strip(text.value), NewPhoneCancelTokens) && !PhonePatternMatches(Strip(text.value)) ==>
        && state == old(state) && data == old(data) && store.clients == old(store.clients)
        && effects == [Answer(chat, BadNewPhoneFormat)]
      ensures text.Some? && !IsCancel(Strip(text.value), NewPhoneCancelTokens) && PhonePatternMatches(Strip(text.value)) ==>
        var t := Strip(text.value);
        && IsValidPhone(t)
        && (ClientIdEntry(old(data)).None? ==>
              state == Idle && data == map[] && store.clients == old(store.clients)
              && effects == [Answer(chat, NoClientInfo)])
        && (ClientIdEntry(old(data)).Some? && !old(store.reachable) ==>
              state == old(state) && data == old(data) && store.clients == old(store.clients) && effects == [])
        && (ClientIdEntry(old(data)).Some? && old(store.reachable) ==>
              var c := ClientIdEntry(old(data)).value;
              && state == Idle && data == map[]
              && store.clients == ChangedPhone(old(store.clients), c, t)
              && effects == [Answer(chat, PhoneChanged(t))]
                 + (if clientUnreachable then [Send(from, NotifyClientFailed)] else [Send(c, YourPhoneChanged(t))])
                 + [AdminMenu(from)])
    {
      if text.None? {
        return [];
      }
      var t := Strip(text.value);
      if IsCancel(t, NewPhoneCancelTokens) {
        Clear();
        return [AdminMenu(from)];
      }
      if !PhonePatternMatches(t) {
        return [Answer(chat, BadNewPhoneFormat)];
      }
      PatternOnStrippedText(text.value);
      var clientId := ClientIdEntry(data);
      if clientId.Some? {
        var ok := store.ChangePhone(clientId.value, t);
        if !ok {
          return [];
        }
        effects := [Answer(chat, PhoneChanged(t))];
        if clientUnreachable {
          effects := effects + [Send(from, NotifyClientFailed)];
        } else {
          effects := effects + [Send(clientId.value, YourPhoneChanged(t))];
        }
        Clear();
        effects := effects + [AdminMenu(from)];
      } else {
        effects := [Answer(chat, NoClientInfo)];
      }
      Clear();
    }

    /**
     * `process_phone_number`. A malformed phone changes nothing. A well-formed
     * one is stored in the payload, the confirmation prompt is sent and its
     * message id `sentId` is recorded for later deletion; the state stays
     * `WaitingForPhone`.
     */
    method ProcessPhoneNumber(store: Store, from: int, chat: int, text: Option<string>, sentId: int)
      returns (effects: seq<Effect>)
      requires Valid() && state == WaitingForPhone
      modifies this, store
      ensures Valid() && state == old(state)
      ensures store.clients == old(store.clients) && store.admins == old(store.admins)
      ensures store.reachable == old(store.reachable)
      ensures text.None? ==> data == old(data) && store.users == old(store.users) && effects == []
      ensures text.Some? && !PhonePatternMatches(Strip(text.value)) ==>
        data == old(data) && store.users == old(store.users) && effects == [Answer(chat, BadPhoneFormat)]
      ensures text.Some? && PhonePatternMatches(Strip(text.value)) ==>
        var t := Strip(text.value);
        && IsValidPhone(t)
        && data == old(data)[PhoneNumberKey := Str(t)]
        && effects == [Answer(chat, PhoneReceived(t)), Answer(chat, ConfirmPrompt)]
        && (old(store.reachable) ==> Recorded(old(store.users), store.users, from, [sentId]))
        && (!old(store.reachable) ==> store.users == old(store.users))
    {
      if text.None? {
        return [];
      }
      var t := Strip(text.value);
      if !PhonePatternMatches(t) {
        return [Answer(chat, BadPhoneFormat)];
      }
      PatternOnStrippedText(text.value);
      data := data[PhoneNumberKey := Str(t)];
      effects := [Answer(chat, PhoneReceived(t)), Answer(chat, ConfirmPrompt)];
      store.SetLastMessage(from, One(sentId));
    }

    /**
     * `callback_confirm_phone`, accepted in any state. Deletes the recorded
     * messages, registers the client with the payload's phone (None when
     * there is none), confirms, notifies every administrator, then clears the
     * session and shows the client menu. A failed administrator query raises
     * after the confirmation, leaving the session as it was.
     */
    method ConfirmPhone(store: Store, from: int, chat: int, deleteFailing: set<nat>, unreachableAdmins: set<int>)
      returns (effects: seq<Effect>)
      requires Valid()
      modifies this, store
      ensures Valid() && (PhonesValid(old(store.clients)) ==> PhonesValid(store.clients))
      ensures store.reachable == old(store.reachable) && store.admins == old(store.admins)
      ensures var phone := PhoneEntry(old(data), PhoneNumberKey);
        var dels := Deletions(chat, if old(store.reachable) then StoredIds(old(store.users), from) else [], deleteFailing);
        && store.users == (if old(store.reachable) then Cleared(old(store.users), from) else old(store.users))
        && store.clients == (if old(store.reachable) then RegisteredClient(old(store.clients), from, phone) else old(store.clients))
        && (!old(store.reachable) ==>
              state == old(state) && data == old(data) && effects == dels + [Answer(chat, PhoneSaved(phone))])
        && (old(store.reachable) ==>
              && state == Idle && data == map[]
              && exists order :: NoDup(order) && Elems(order) == old(store.admins)
                   && effects == dels + [Answer(chat, PhoneSaved(phone))]
                      + AdminNotifications(order, phone, from, unreachableAdmins) + [ClientMenu(chat), AckCallback])
    {
      effects := SafelyDeleteLastMessage(store, from, chat, deleteFailing);
      var phone := PhoneEntry(data, PhoneNumberKey);
      store.ClientRegistration(from, phone);
      effects := effects + [Answer(chat, PhoneSaved(phone))];
      var admins := store.GetAllAdminIds();
      if admins.Err? {
        return;
      }
      var sent := NotifyAdmins(admins.value, phone, from, unreachableAdmins);
      effects := effects + sent;
      Clear();
      effects := effects + [ClientMenu(chat), AckCallback];
    }

    /**
     * `callback_change_phone`: clears the session, deletes the recorded
     * messages, asks for the phone again and waits for it.
     */
    method ChangePhone(store: Store, from: int, chat: int, deleteFailing: set<nat>) returns (effects: seq<Effect>)
      requires Valid()
      modifies this, store
      ensures Valid() && state == WaitingForPhone && data == map[]
      ensures store.clients == old(store.clients) && store.admins == old(store.admins)
      ensures store.reachable == old(store.reachable)
      ensures store.users == if old(store.reachable) then Cleared(old(store.users), from) else old(store.users)
      ensures effects ==
        Deletions(chat, if old(store.reachable) then StoredIds(old(store.users), from) else [], deleteFailing)
        + [Answer(chat, AskPhone), AckCallback]
    {
      Clear();
      effects := SafelyDeleteLastMessage(store, from, chat, deleteFailing);
      effects := effects + [Answer(chat, AskPhone)];
      state := WaitingForPhone;
      effects := effects + [AckCallback];
    }
  }
}
