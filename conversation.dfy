/**
 * The feedback conversation machine as a pure transition function: given one
 * chat's session and one inbound text, the new session and the external
 * actions the handler performs, in order.
 */
module Conversation {
  import opened Wrappers
  import opened Text
  import opened Menu

  /** The identity of a chat, the key of the FSM storage. */
  type ChatId = int

  /** `FeedbackStates`, with `Idle` standing for "no state set". */
  datatype FsmState = Idle | WaitingName | WaitingContact | WaitingMessage

  /** A chat's data dictionary; the only keys the handler ever writes are `name` and `contact`. */
  datatype Draft = Draft(name: Option<string>, contact: Option<string>)

  const EmptyDraft: Draft := Draft(None, None)

  /** What the FSM storage holds for one chat. */
  datatype Session = Session(state: FsmState, draft: Draft)

  /** A chat that has never written to the storage, or whose state was cleared. */
  const Initial: Session := Session(Idle, EmptyDraft)

  /**
   * The handler's calls to the outside, in the order it makes them: a reply in
   * the user's chat, a message to the administrator (and whether it got
   * through), a record appended to the feedback log (and whether it was written).
   */
  datatype Effect =
    | Reply(text: string)
    | Notify(text: string, delivered: bool)
    | Append(text: string, written: bool)

  /** How the two collaborators behave if they are called while this message is handled. */
  datatype Collaborators = Collaborators(notifyDelivered: bool, appendWritten: bool)

  /** What the handler is configured with at start-up: the menu's content and whether an administrator chat is set. */
  datatype Config = Config(catalogue: Catalogue, adminConfigured: bool)

  /** The new session, the effects, and whether the handler ended with an exception. */
  datatype Outcome = Outcome(session: Session, effects: seq<Effect>, raised: bool)

  const AskName: string := "Оставь, пожалуйста, своё имя."
  const AskContact: string := "Оставь свой контакт (телефон или e-mail)."
  const AskMessage: string := "Опиши свой вопрос или сообщение."
  const Thanks: string := "Спасибо! Сообщение отправлено. \U{1F60A}"
  const Fallback: string := "Выбери пункт меню, пожалуйста \U{1F60A}"
  const Separator: string := "\n---\n"

  /** How an f-string renders `data.get(key)`: the value, or `None` when the key is missing. */
  function Show(v: Option<string>): string
  {
    match v
    case Some(s) => s
    case None => "None"
  }

  /** The feedback summary sent to the administrator and written to the log. */
  function Summary(name: Option<string>, contact: Option<string>, msg: string): string
  {
    "Сообщение от " + Show(name) + "\nКонтакт: " + Show(contact) + "\nТекст:\n" + msg
  }

  /**
   * The final step of the flow. The administrator is notified only when an
   * administrator chat is configured, and a failed notification is ignored.
   * The log write is not guarded: when it fails the exception escapes, so the
   * user gets no thanks and the session is left as it was.
   */
  function Submit(s: Session, msg: string, cfg: Config, c: Collaborators): Outcome
  {
    var summary := Summary(s.draft.name, s.draft.contact, msg);
    var notified := if cfg.adminConfigured then [Notify(summary, c.notifyDelivered)] else [];
    if c.appendWritten then
      Outcome(Initial, notified + [Append(summary + Separator, true), Reply(Thanks)], false)
    else
      Outcome(s, notified + [Append(summary + Separator, false)], true)
  }

  /**
   * One inbound text: the informational labels first, then the feedback label,
   * then the current state, and the fallback reply when nothing matches.
   */
  function Step(s: Session, raw: string, cfg: Config, c: Collaborators): Outcome
  {
    var text := Trim(raw);
    if IsInfoLabel(text) then
      Outcome(s, [Reply(Dispatch(cfg.catalogue, text).value)], false)
    else if text == FeedbackLabel then
      Outcome(Session(WaitingName, s.draft), [Reply(AskName)], false)
    else
      match s.state
      case WaitingName =>
        Outcome(Session(WaitingContact, s.draft.(name := Some(text))), [Reply(AskContact)], false)
      case WaitingContact =>
        Outcome(Session(WaitingMessage, s.draft.(contact := Some(text))), [Reply(AskMessage)], false)
      case WaitingMessage =>
        Submit(s, text, cfg, c)
      case Idle =>
        Outcome(s, [Reply(Fallback)], false)
  }

  /** The texts that reached the feedback log, in order. */
  function Logged(effects: seq<Effect>): (log: seq<string>)
    ensures |log| <= |effects|
  {
    if effects == [] then []
    else
      var last := effects[|effects| - 1];
      Logged(effects[..|effects| - 1]) + (if last.Append? && last.written then [last.text] else [])
  }

  /** The texts the bot sent the user, in order. */
  function Replies(effects: seq<Effect>): (rs: seq<string>)
    ensures |rs| <= |effects|
  {
    if effects == [] then []
    else
      var last := effects[|effects| - 1];
      Replies(effects[..|effects| - 1]) + (if last.Reply? then [last.text] else [])
  }

  lemma {:induction false} LoggedAppend(a: seq<Effect>, b: seq<Effect>)
    ensures Logged(a + b) == Logged(a) + Logged(b)
    decreases |b|
  {
    if b == [] {
      assert a + b == a;
    } else {
      assert (a + b)[..|a + b| - 1] == a + b[..|b| - 1];
      LoggedAppend(a, b[..|b| - 1]);
    }
  }

  lemma {:induction false} RepliesAppend(a: seq<Effect>, b: seq<Effect>)
    ensures Replies(a + b) == Replies(a) + Replies(b)
    decreases |b|
  {
    if b == [] {
      assert a + b == a;
    } else {
      assert (a + b)[..|a + b| - 1] == a + b[..|b| - 1];
      RepliesAppend(a, b[..|b| - 1]);
    }
  }

  /** What a single effect contributes to the log and to the user's chat. */
  lemma OneEffect(e: Effect)
    ensures Logged([e]) == (if e.Append? && e.written then [e.text] else [])
    ensures Replies([e]) == (if e.Reply? then [e.text] else [])
  {
    assert [e][..0] == [];
  }

  /** A text that the flow takes as data rather than as a menu command. */
  predicate IsFreeText(raw: string)
  {
    !IsInfoLabel(Trim(raw)) && Trim(raw) != FeedbackLabel
  }

  /** A message from the informational menu gets its fixed reply and touches nothing, whatever the state. */
  lemma InfoLabelKeepsSession(s: Session, raw: string, cfg: Config, c: Collaborators)
    requires IsInfoLabel(Trim(raw))
    ensures var o := Step(s, raw, cfg, c);
            o.session == s && !o.raised && o.effects == [Reply(Dispatch(cfg.catalogue, Trim(raw)).value)]
    ensures Trim(raw) == DirectionsLabel ==> Step(s, raw, cfg, c).effects == [Reply(DirectionsReply(cfg.catalogue.directions))]
    ensures Trim(raw) == FaqLabel ==> Step(s, raw, cfg, c).effects == [Reply(FaqReply(cfg.catalogue.faq))]
    ensures Trim(raw) == ContactsLabel ==> Step(s, raw, cfg, c).effects == [Reply(cfg.catalogue.contacts)]
    ensures Trim(raw) == LinksLabel ==> Step(s, raw, cfg, c).effects == [Reply(cfg.catalogue.links)]
  {
  }

  /** The feedback label restarts the flow from any state and keeps the stored data as it is. */
  lemma FeedbackLabelRestarts(s: Session, raw: string, cfg: Config, c: Collaborators)
    requires Trim(raw) == FeedbackLabel
    ensures Step(s, raw, cfg, c) == Outcome(Session(WaitingName, s.draft), [Reply(AskName)], false)
  {
    LabelsDistinct();
  }

  /** While the name is awaited, any other text becomes the name, stripped, and the contact is asked for. */
  lemma NameRecorded(s: Session, raw: string, cfg: Config, c: Collaborators)
    requires s.state == WaitingName && IsFreeText(raw)
    ensures Step(s, raw, cfg, c)
         == Outcome(Session(WaitingContact, Draft(Some(Trim(raw)), s.draft.contact)), [Reply(AskContact)], false)
  {
  }

  /** While the contact is awaited, any other text becomes the contact, stripped, and the message is asked for. */
  lemma ContactRecorded(s: Session, raw: string, cfg: Config, c: Collaborators)
    requires s.state == WaitingContact && IsFreeText(raw)
    ensures Step(s, raw, cfg, c)
         == Outcome(Session(WaitingMessage, Draft(s.draft.name, Some(Trim(raw)))), [Reply(AskMessage)], false)
  {
  }

  /**
   * The message completes the flow: one log record, the summary followed by the
   * separator; a notification exactly when an administrator is configured; and,
   * once the record is written, the thanks and a cleared session.
   */
  lemma MessageSubmitted(s: Session, raw: string, cfg: Config, c: Collaborators)
    requires s.state == WaitingMessage && IsFreeText(raw)
    ensures var summary := Summary(s.draft.name, s.draft.contact, Trim(raw));
            var o := Step(s, raw, cfg, c);
            && o.effects == (if cfg.adminConfigured then [Notify(summary, c.notifyDelivered)] else [])
                            + [Append(summary + Separator, c.appendWritten)]
                            + (if c.appendWritten then [Reply(Thanks)] else [])
            && Logged(o.effects) == (if c.appendWritten then [summary + Separator] else [])
            && Replies(o.effects) == (if c.appendWritten then [Thanks] else [])
            && (c.appendWritten ==> o.session == Initial && !o.raised)
            && (!c.appendWritten ==> o.session == s && o.raised)
  {
    var summary := Summary(s.draft.name, s.draft.contact, Trim(raw));
    var notified := if cfg.adminConfigured then [Notify(summary, c.notifyDelivered)] else [];
    SubmissionRecords(notified, summary + Separator, c.appendWritten);
  }

  /** A possible notification, the log append and, if it was written, the thanks: one record and at most one reply. */
  lemma SubmissionRecords(notified: seq<Effect>, record: string, written: bool)
    requires notified == [] || (|notified| == 1 && notified[0].Notify?)
    ensures var e := notified + [Append(record, written)] + (if written then [Reply(Thanks)] else []);
            && Logged(e) == (if written then [record] else [])
            && Replies(e) == (if written then [Thanks] else [])
  {
    var append := [Append(record, written)];
    var thanks := if written then [Reply(Thanks)] else [];
    LoggedAppend(notified + append, thanks);
    LoggedAppend(notified, append);
    RepliesAppend(notified + append, thanks);
    RepliesAppend(notified, append);
    OneEffect(Append(record, written));
    if notified != [] {
      assert notified == [notified[0]];
      OneEffect(notified[0]);
    }
    if written {
      OneEffect(Reply(Thanks));
    }
  }

  /**
   * A failed notification is swallowed: whether it got through changes neither
   * the new session, nor the replies, nor the log, nor whether the handler raised.
   */
  lemma NotifyFailureIgnored(s: Session, raw: string, cfg: Config, written: bool)
    ensures var ok := Step(s, raw, cfg, Collaborators(true, written));
            var failed := Step(s, raw, cfg, Collaborators(false, written));
            && ok.session == failed.session && ok.raised == failed.raised
            && Replies(ok.effects) == Replies(failed.effects)
            && Logged(ok.effects) == Logged(failed.effects)
  {
    if s.state == WaitingMessage && IsFreeText(raw) {
      MessageSubmitted(s, raw, cfg, Collaborators(true, written));
      MessageSubmitted(s, raw, cfg, Collaborators(false, written));
    }
  }

  /** Idle, with no label matched: the fallback prompt, and the session stays as it is. */
  lemma IdleFallback(s: Session, raw: string, cfg: Config, c: Collaborators)
    requires s.state == Idle && IsFreeText(raw)
    ensures Step(s, raw, cfg, c) == Outcome(s, [Reply(Fallback)], false)
  {
  }

  /**
   * The reachability invariant: an idle chat has no data, the contact is
   * awaited only once a name is stored, the message only once a name and a
   * contact are stored.
   */
  predicate Consistent(s: Session)
  {
    && (s.state == Idle ==> s.draft == EmptyDraft)
    && (s.state == WaitingContact ==> s.draft.name.Some?)
    && (s.state == WaitingMessage ==> s.draft.name.Some? && s.draft.contact.Some?)
  }

  lemma StepKeepsConsistent(s: Session, raw: string, cfg: Config, c: Collaborators)
    requires Consistent(s)
    ensures Consistent(Step(s, raw, cfg, c).session)
  {
  }

  /** In a consistent session the summary shows the stored name and contact, never a bare `None`. */
  lemma SummaryOfConsistent(s: Session, msg: string)
    requires Consistent(s) && s.state == WaitingMessage
    ensures Summary(s.draft.name, s.draft.contact, msg)
            == "Сообщение от " + s.draft.name.value + "\nКонтакт: " + s.draft.contact.value + "\nТекст:\n" + msg
  {
  }

  /** One inbound message and how the collaborators behave while it is handled. */
  datatype Inbound = Inbound(text: string, collaborators: Collaborators)

  /**
   * A chat's messages handled one after another, in arrival order: the final
   * session and all effects. The messages are those the text handler receives;
   * the `/start` command goes to its own handler and is not among them.
   */
  function Run(s: Session, msgs: seq<Inbound>, cfg: Config): Outcome
    decreases |msgs|
  {
    if msgs == [] then Outcome(s, [], false)
    else
      var o := Step(s, msgs[0].text, cfg, msgs[0].collaborators);
      var rest := Run(o.session, msgs[1..], cfg);
      Outcome(rest.session, o.effects + rest.effects, o.raised || rest.raised)
  }

  /** No sequence of messages leads a consistent session out of the invariant. */
  lemma {:induction false} RunKeepsConsistent(s: Session, msgs: seq<Inbound>, cfg: Config)
    requires Consistent(s)
    ensures Consistent(Run(s, msgs, cfg).session)
    decreases |msgs|
  {
    if msgs != [] {
      StepKeepsConsistent(s, msgs[0].text, cfg, msgs[0].collaborators);
      RunKeepsConsistent(Step(s, msgs[0].text, cfg, msgs[0].collaborators).session, msgs[1..], cfg);
    }
  }

  /** Handling a non-empty run: the first message, then the rest from the session it leaves. */
  lemma RunCons(s: Session, m: Inbound, rest: seq<Inbound>, cfg: Config)
    ensures var o := Step(s, m.text, cfg, m.collaborators);
            var r := Run(o.session, rest, cfg);
            Run(s, [m] + rest, cfg) == Outcome(r.session, o.effects + r.effects, o.raised || r.raised)
  {
    assert ([m] + rest)[1..] == rest;
  }

  /** The effects of the flow: the three prompts, then those of the submission. */
  lemma FlowOutcome(s: Session, fb: string, name: string, contact: string, msg: string,
                    cfg: Config, c0: Collaborators, c1: Collaborators,
                    c2: Collaborators, c3: Collaborators)
    requires Trim(fb) == FeedbackLabel
    requires IsFreeText(name) && IsFreeText(contact) && IsFreeText(msg)
    requires c3.appendWritten
    ensures var s3 := Session(WaitingMessage, Draft(Some(Trim(name)), Some(Trim(contact))));
            Run(s, [Inbound(fb, c0), Inbound(name, c1), Inbound(contact, c2), Inbound(msg, c3)], cfg)
            == Outcome(Initial, [Reply(AskName)] + ([Reply(AskContact)] + [Reply(AskMessage)])
                                + Step(s3, msg, cfg, c3).effects, false)
  {
    var m0, m1, m2, m3 := Inbound(fb, c0), Inbound(name, c1), Inbound(contact, c2), Inbound(msg, c3);
    var s1 := Session(WaitingName, s.draft);
    var s2 := Session(WaitingContact, Draft(Some(Trim(name)), s.draft.contact));
    var s3 := Session(WaitingMessage, Draft(Some(Trim(name)), Some(Trim(contact))));
    var o3 := Step(s3, msg, cfg, c3);
    assert o3.session == Initial && !o3.raised by {
      MessageSubmitted(s3, msg, cfg, c3);
    }
    RunCons(s3, m3, [], cfg);
    assert [m3] + [] == [m3];
    assert Run(s3, [m3], cfg) == Outcome(Initial, o3.effects + [], false);
    assert Step(s2, contact, cfg, c2) == Outcome(s3, [Reply(AskMessage)], false) by {
      ContactRecorded(s2, contact, cfg, c2);
    }
    RunCons(s2, m2, [m3], cfg);
    assert [m2] + [m3] == [m2, m3];
    assert Run(s2, [m2, m3], cfg) == Outcome(Initial, [Reply(AskMessage)] + (o3.effects + []), false);
    assert Step(s1, name, cfg, c1) == Outcome(s2, [Reply(AskContact)], false) by {
      NameRecorded(s1, name, cfg, c1);
    }
    RunCons(s1, m1, [m2, m3], cfg);
    assert [m1] + [m2, m3] == [m1, m2, m3];
    assert Run(s1, [m1, m2, m3], cfg)
        == Outcome(Initial, [Reply(AskContact)] + ([Reply(AskMessage)] + (o3.effects + [])), false);
    assert Step(s, fb, cfg, c0) == Outcome(s1, [Reply(AskName)], false) by {
      FeedbackLabelRestarts(s, fb, cfg, c0);
    }
    RunCons(s, m0, [m1, m2, m3], cfg);
    assert [m0] + [m1, m2, m3] == [m0, m1, m2, m3];
  }

  /**
   * The whole flow from any session: the feedback label, then a name, a contact
   * and a message. Exactly one record reaches the log, holding those three texts
   * stripped and in that order, the user sees the three prompts and the thanks,
   * and the chat ends cleared.
   */
  lemma FeedbackFlow(s: Session, fb: string, name: string, contact: string, msg: string,
                     cfg: Config, c0: Collaborators, c1: Collaborators,
                     c2: Collaborators, c3: Collaborators)
    requires Trim(fb) == FeedbackLabel
    requires IsFreeText(name) && IsFreeText(contact) && IsFreeText(msg)
    requires c3.appendWritten
    ensures var o := Run(s, [Inbound(fb, c0), Inbound(name, c1), Inbound(contact, c2), Inbound(msg, c3)], cfg);
            && o.session == Initial && !o.raised
            && Logged(o.effects) == [Summary(Some(Trim(name)), Some(Trim(contact)), Trim(msg)) + Separator]
            && Replies(o.effects) == [AskName, AskContact, AskMessage, Thanks]
  {
    var s3 := Session(WaitingMessage, Draft(Some(Trim(name)), Some(Trim(contact))));
    var e3 := Step(s3, msg, cfg, c3).effects;
    var record := Summary(Some(Trim(name)), Some(Trim(contact)), Trim(msg)) + Separator;
    FlowOutcome(s, fb, name, contact, msg, cfg, c0, c1, c2, c3);
    assert Logged(e3) == [record] && Replies(e3) == [Thanks] by {
      MessageSubmitted(s3, msg, cfg, c3);
    }
    RepliesFirst(AskName, AskContact, AskMessage, e3);
    assert [Reply(AskName)] + ([Reply(AskContact)] + [Reply(AskMessage)]) == [Reply(AskName), Reply(AskContact), Reply(AskMessage)];
  }

  /** Replies put before some effects add nothing to the log and come first in the chat. */
  lemma RepliesFirst(a: string, b: string, c: string, e: seq<Effect>)
    ensures Logged([Reply(a), Reply(b), Reply(c)] + e) == Logged(e)
    ensures Replies([Reply(a), Reply(b), Reply(c)] + e) == [a, b, c] + Replies(e)
  {
    var p := [Reply(a), Reply(b), Reply(c)];
    LoggedAppend(p, e);
    RepliesAppend(p, e);
    var p2, p1 := [Reply(a), Reply(b)], [Reply(a)];
    assert p[..2] == p2 && p2[..1] == p1 && p1[..0] == [];
    assert Logged(p1) == [] && Replies(p1) == [a];
    assert Logged(p2) == [] && Replies(p2) == [a, b];
    assert Logged(p) == [] && Replies(p) == [a, b, c];
  }

  /**
   * The worked example: feedback, "Иван", "ivan@example.com", "Когда экзамены?"
   * from a fresh chat ends with one record in the log and the chat cleared.
   */
  lemma IvanScenario(cfg: Config, c: Collaborators)
    requires c.appendWritten
    ensures var o := Run(Initial, [Inbound(FeedbackLabel, c), Inbound("Иван", c),
                                   Inbound("ivan@example.com", c), Inbound("Когда экзамены?", c)], cfg);
            && o.session == Initial
            && Logged(o.effects)
               == ["Сообщение от " + "Иван" + "\nКонтакт: " + "ivan@example.com" + "\nТекст:\n" + "Когда экзамены?" + "\n---\n"]
  {
    var name, contact, msg := "Иван", "ivan@example.com", "Когда экзамены?";
    LabelTrimmed(FeedbackLabel);
    LetterLedTextIsFree(name);
    LetterLedTextIsFree(contact);
    LetterLedTextIsFree(msg);
    FeedbackFlow(Initial, FeedbackLabel, name, contact, msg, cfg, c, c, c, c);
    assert Summary(Some(Trim(name)), Some(Trim(contact)), Trim(msg))
        == "Сообщение от " + name + "\nКонтакт: " + contact + "\nТекст:\n" + msg;
  }

  /** A text that starts with a Latin or Cyrillic letter and does not end in white space is its own stripped form and no menu caption. */
  lemma LetterLedTextIsFree(t: string)
    requires |t| > 0 && ('a' <= t[0] <= 'z' || 'А' <= t[0] <= 'я') && !IsSpace(t[|t| - 1])
    ensures Trim(t) == t && IsFreeText(t)
  {
    TrimUnchanged(t);
  }

  /**
   * The flow takes blank text as data: a name made of white space only is
   * stored as the empty string; the handler does not check for blank fields.
   */
  lemma BlankNameAccepted(d: Draft, raw: string, cfg: Config, c: Collaborators)
    requires forall k :: 0 <= k < |raw| ==> IsSpace(raw[k])
    ensures Step(Session(WaitingName, d), raw, cfg, c).session
         == Session(WaitingContact, d.(name := Some("")))
  {
    TrimBlank(raw);
  }
}
