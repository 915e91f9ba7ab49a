/**
 * The message handler over the bot's FSM storage: one store shared by all
 * chats, updated in place through the storage operations the handler uses
 * (get_state, get_data, set_state, update_data, clear).
 */
module FeedbackBot {
  import opened Wrappers
  import opened Text
  import opened Menu
  import opened Conversation

  class Bot {
    /** The menu's content and whether an administrator chat id (a non-empty ADMIN_CHAT_ID) is set, fixed at start-up. */
    const config: Config
    /** The in-memory FSM storage: each chat's state and data. */
    var store: map<ChatId, Session>

    /** Every stored session satisfies the reachability invariant. */
    ghost predicate Valid()
      reads this
    {
      forall chat :: chat in store ==> Consistent(store[chat])
    }

    constructor (adminConfigured: bool)
      ensures Valid()
      ensures config == Config(BotCatalogue, adminConfigured) && store == map[]
    {
      config := Config(BotCatalogue, adminConfigured);
      store := map[];
    }

    /** A chat's state and data; a chat the storage has never seen is idle with empty data. */
    function Get(chat: ChatId): Session
      reads this
    {
      if chat in store then store[chat] else Initial
    }

    /** `state.set_state(st)`: the state changes, the data stays; the data must support the new state. */
    method SetState(chat: ChatId, st: FsmState)
      requires Valid()
      requires st == Idle ==> Get(chat).draft == EmptyDraft
      requires st == WaitingContact ==> Get(chat).draft.name.Some?
      requires st == WaitingMessage ==> Get(chat).draft.name.Some? && Get(chat).draft.contact.Some?
      modifies this
      ensures Valid()
      ensures store == old(store)[chat := Session(st, old(Get(chat)).draft)]
    {
      var s := Get(chat);
      store := store[chat := Session(st, s.draft)];
    }

    /** `state.update_data(name=...)`: the name is stored, the state and the contact stay. */
    method UpdateName(chat: ChatId, name: string)
      requires Valid() && Get(chat).state != Idle
      modifies this
      ensures Valid()
      ensures store == old(store)[chat := old(Get(chat)).(draft := old(Get(chat)).draft.(name := Some(name)))]
    {
      var s := Get(chat);
      store := store[chat := s.(draft := s.draft.(name := Some(name)))];
    }

    /** `state.update_data(contact=...)`: the contact is stored, the state and the name stay. */
    method UpdateContact(chat: ChatId, contact: string)
      requires Valid() && Get(chat).state != Idle
      modifies this
      ensures Valid()
      ensures store == old(store)[chat := old(Get(chat)).(draft := old(Get(chat)).draft.(contact := Some(contact)))]
    {
      var s := Get(chat);
      store := store[chat := s.(draft := s.draft.(contact := Some(contact)))];
    }

    /** `state.clear()`: no state, empty data. */
    method Clear(chat: ChatId)
      requires Valid()
      modifies this
      ensures Valid()
      ensures store == old(store)[chat := Initial]
    {
      store := store[chat := Initial];
    }

    /**
     * Handles one text message from `chat`. `c` says how the administrator
     * notification and the log write turn out if they are attempted. The chat's
     * session moves as Step says, the effects are Step's, no other chat's entry
     * changes, and a message that leaves the session as it was leaves the storage as it was.
     */
    method Handle(chat: ChatId, raw: string, c: Collaborators) returns (effects: seq<Effect>, raised: bool)
      requires Valid()
      modifies this
      ensures Valid()
      ensures var o := Step(old(Get(chat)), raw, config, c);
              && Get(chat) == o.session && effects == o.effects && raised == o.raised
              && (o.session == old(Get(chat)) ==> store == old(store))
      ensures forall other :: other != chat ==> Get(other) == old(Get(other))
      ensures store.Keys <= old(store.Keys) + {chat}
    {
      ghost var before := Get(chat);
      assert Consistent(before);
      StepKeepsConsistent(before, raw, config, c);
      var text := Trim(raw);
      raised := false;
      if text == DirectionsLabel {
        var txt := RenderDirections(config.catalogue.directions);
        effects := [Reply(txt)];
      } else if text == FaqLabel {
        var out := RenderFaq(config.catalogue.faq);
        effects := [Reply(out)];
      } else if text == ContactsLabel {
        effects := [Reply(config.catalogue.contacts)];
      } else if text == LinksLabel {
        effects := [Reply(config.catalogue.links)];
      } else if text == FeedbackLabel {
        SetState(chat, WaitingName);
        effects := [Reply(AskName)];
      } else {
        var st := Get(chat).state;
        if st == WaitingName {
          UpdateName(chat, text);
          SetState(chat, WaitingContact);
          effects := [Reply(AskContact)];
        } else if st == WaitingContact {
          UpdateContact(chat, text);
          SetState(chat, WaitingMessage);
          effects := [Reply(AskMessage)];
        } else if st == WaitingMessage {
          var data := Get(chat).draft;
          var summary := Summary(data.name, data.contact, text);
          effects := [];
          if config.adminConfigured {
            effects := effects + [Notify(summary, c.notifyDelivered)];
          }
          effects := effects + [Append(summary + Separator, c.appendWritten)];
          if !c.appendWritten {
            raised := true;
            return;
          }
          effects := effects + [Reply(Thanks)];
          Clear(chat);
        } else {
          effects := [Reply(Fallback)];
        }
      }
    }
  }

  /**
   * Two chats going through the bot at once: chat `a` completes the feedback
   * flow while chat `b` reads the contacts in the middle of it, and neither
   * disturbs the other.
   */
  method TwoChats(a: ChatId, b: ChatId, name: string, contact: string, msg: string)
    requires a != b
    requires IsFreeText(name) && IsFreeText(contact) && IsFreeText(msg)
  {
    var bot := new Bot(true);
    var ok := Collaborators(true, true);
    LabelTrimmed(FeedbackLabel);
    LabelTrimmed(ContactsLabel);

    FeedbackLabelRestarts(Initial, FeedbackLabel, bot.config, ok);
    var e, r := bot.Handle(a, FeedbackLabel, ok);
    var s1 := Session(WaitingName, EmptyDraft);
    assert bot.Get(a) == s1 && bot.Get(b) == Initial;

    InfoLabelKeepsSession(Initial, ContactsLabel, bot.config, ok);
    e, r := bot.Handle(b, ContactsLabel, ok);
    assert e == [Reply(ContactsText)] && bot.Get(b) == Initial && bot.Get(a) == s1;

    NameRecorded(s1, name, bot.config, ok);
    e, r := bot.Handle(a, name, ok);
    var s2 := Session(WaitingContact, Draft(Some(Trim(name)), None));
    assert bot.Get(a) == s2;

    ContactRecorded(s2, contact, bot.config, ok);
    e, r := bot.Handle(a, contact, ok);
    var s3 := Session(WaitingMessage, Draft(Some(Trim(name)), Some(Trim(contact))));
    assert bot.Get(a) == s3;

    MessageSubmitted(s3, msg, bot.config, ok);
    e, r := bot.Handle(a, msg, ok);
    var summary := Summary(Some(Trim(name)), Some(Trim(contact)), Trim(msg));
    assert e == [Notify(summary, true)] + [Append(summary + Separator, true)] + [Reply(Thanks)];
    assert bot.Get(a) == Initial && bot.Get(b) == Initial && !r;
  }
}
