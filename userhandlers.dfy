/** The menu handlers a registered user talks to: news and FAQ browsing,
    the subscription menu and consultation mode. Their per-user state lives
    in four module-level dictionaries (`userNewsIndex`, `userFaqIndex`,
    `userSubscriptionState`, `userConsultationMode`), modelled as the fields
    of one `UserHandlers` object. */
module UserHandlers {
  import opened Text
  import opened Markdown
  import opened Locales
  import opened Store
  import opened Transport
  import opened Selection

  /** `user?.language || "uz_cyrillic"`: the language a handler speaks to a user in. */
  function LanguageOf(user: Option<UserRecord>): (lang: string)
    ensures lang != []
    ensures user.Some? && user.value.language != [] ==> lang == user.value.language
    ensures user.None? || user.value.language == [] ==> lang == DefaultLanguage
  {
    if user.Some? && user.value.language != [] then user.value.language else DefaultLanguage
  }

  /** The `from` fields the relays print; an unset name is the empty string. */
  datatype Sender = Sender(id: UserId, firstName: string, lastName: string, username: string)

  /** The inline buttons of the news and FAQ screens. */
  datatype Button = NewsPrev(index: int) | NewsNext(index: int) | FaqNext(index: int) | MainMenu

  /** The callback data a button sends back. */
  function CallbackData(b: Button): string {
    match b
    case NewsPrev(i) => "news_prev_" + IntToString(i)
    case NewsNext(i) => "news_next_" + IntToString(i)
    case FaqNext(i) => "faq_next_" + IntToString(i)
    case MainMenu => "main_menu"
  }

  /** The keyboard of `sendNewsWithNavigation`. */
  function NewsButtons(index: int, total: int): (buttons: seq<Button>)
    ensures NewsPrev(index) in buttons <==> index > 0
    ensures NewsNext(index) in buttons <==> index < total - 1
    ensures |buttons| >= 1 && buttons[|buttons| - 1] == MainMenu
    ensures MainMenu !in buttons[..|buttons| - 1]
    ensures forall b :: b in buttons ==> b == NewsPrev(index) || b == NewsNext(index) || b == MainMenu
  {
    (if index > 0 then [NewsPrev(index)] else [])
    + (if index < total - 1 then [NewsNext(index)] else [])
    + [MainMenu]
  }

  /** The keyboard of `sendFaqWithNavigation`. */
  function FaqButtons(index: int, total: int): (buttons: seq<Button>)
    ensures FaqNext(index) in buttons <==> index < total - 1
    ensures |buttons| >= 1 && buttons[|buttons| - 1] == MainMenu
    ensures MainMenu !in buttons[..|buttons| - 1]
    ensures forall b :: b in buttons ==> b == FaqNext(index) || b == MainMenu
  {
    (if index < total - 1 then [FaqNext(index)] else []) + [MainMenu]
  }

  /** A stored index, with an absent entry read as 0 (`index[userId] || 0`). */
  function StoredIndex(indices: map<UserId, nat>, userId: UserId): nat {
    if userId in indices then indices[userId] else 0
  }

  /** The step a news callback asks for. */
  function NewsStep(data: string): int {
    if Contains(data, "news_next") then 1
    else if Contains(data, "news_prev") then -1
    else 0
  }

  /** The news index after a navigation callback: one step from the stored
      index, then clamped to the list. */
  function NewsIndexAfter(stored: nat, data: string, total: nat): (i: nat)
    requires total > 0
    ensures i < total
    ensures stored < total ==> stored - 1 <= i <= stored + 1
    ensures 0 <= stored + NewsStep(data) < total ==> i == stored + NewsStep(data)
    ensures stored + NewsStep(data) < 0 ==> i == 0
    ensures stored + NewsStep(data) >= total ==> i == total - 1
  {
    var moved := stored + NewsStep(data);
    if moved < 0 then 0 else if moved >= total then total - 1 else moved
  }

  /** The FAQ index after a navigation callback: one past the stored index,
      back to the first question after the last. */
  function NextFaqIndex(stored: nat, total: nat): (i: nat)
    requires total > 0
    ensures i < total
    ensures i == 0 || i == stored + 1
  {
    if stored + 1 >= total then 0 else stored + 1
  }

  /** Where a user stands after opening the FAQ and pressing Next `k` times. */
  function FaqAfter(k: nat, total: nat): nat
    requires total > 0
  {
    if k == 0 then 0 else NextFaqIndex(FaqAfter(k - 1, total), total)
  }

  /** Pressing Next from the start walks the questions in order. */
  lemma {:induction false} FaqAfterWalks(k: nat, total: nat)
    requires k < total
    ensures FaqAfter(k, total) == k
  {
    if k > 0 {
      FaqAfterWalks(k - 1, total);
    }
  }

  /** After the last question the walk starts over: pressing Next `total`
      more times always comes back to the same question. */
  lemma {:induction false} FaqAfterCycles(k: nat, total: nat)
    requires total > 0
    ensures FaqAfter(k + total, total) == FaqAfter(k, total)
  {
    if k == 0 {
      FaqAfterWalks(total - 1, total);
    } else {
      FaqAfterCycles(k - 1, total);
      assert k + total - 1 == (k - 1) + total;
    }
  }

  /** The digits of a number are decimal digits. */
  lemma {:induction false} NatToStringDigits(n: nat)
    ensures forall k :: 0 <= k < |NatToString(n)| ==> '0' <= NatToString(n)[k] <= '9'
  {
    if n >= 10 {
      NatToStringDigits(n / 10);
    }
  }

  /** The data of a Next button asks for a step forward. */
  lemma NextDataSteps(i: nat)
    ensures NewsStep(CallbackData(NewsNext(i))) == 1
  {
    var data := CallbackData(NewsNext(i));
    assert data[..9] == "news_next";
  }

  /** The data of a Prev button asks for a step back: "news_next" occurs
      nowhere in it. */
  lemma PrevDataSteps(i: nat)
    ensures NewsStep(CallbackData(NewsPrev(i))) == -1
  {
    var digits := NatToString(i);
    var data := CallbackData(NewsPrev(i));
    assert data == "news_prev_" + digits;
    NatToStringDigits(i);
    forall k | 0 <= k <= |data| - 9 ensures !OccursAt(data, "news_next", k) {
      var window := data[k..k + 9];
      if k == 0 {
        assert window[5] == data[5] == 'p';
      } else if k < 10 {
        assert window[0] == data[k] != 'n';
      } else {
        assert window[0] == data[k] == digits[k - 10];
      }
    }
    ContainsOccurs(data, "news_next");
    assert data[..9] == "news_prev";
  }

  /** Every arrow the news screen shows moves the reader by exactly one
      item when pressed. */
  lemma NewsButtonMoves(index: nat, total: nat, b: Button)
    requires index < total && b in NewsButtons(index, total) && b != MainMenu
    ensures b.NewsNext? ==> NewsIndexAfter(index, CallbackData(b), total) == index + 1
    ensures b.NewsPrev? ==> NewsIndexAfter(index, CallbackData(b), total) == index - 1
  {
    if b.NewsNext? {
      NextDataSteps(index);
    } else {
      PrevDataSteps(index);
    }
  }

  /** Next followed by Prev brings the reader back to the same item. */
  lemma NewsNextThenPrev(index: nat, total: nat)
    requires index < total - 1
    ensures NewsIndexAfter(NewsIndexAfter(index, CallbackData(NewsNext(index)), total),
                           CallbackData(NewsPrev(index + 1)), total) == index
  {
    NextDataSteps(index);
    PrevDataSteps(index + 1);
  }

  /** The FAQ screen shows Next exactly when pressing it moves on rather
      than starting over. */
  lemma FaqNextShownIffMovesOn(index: nat, total: nat)
    requires index < total
    ensures FaqNext(index) in FaqButtons(index, total) <==> NextFaqIndex(index, total) == index + 1
  {
    if NextFaqIndex(index, total) == index + 1 {
      assert index + 1 < total;
    }
  }

  /** The user-attributed text both relays send to the admin group. */
  function ForwardHeader(sender: Sender): string {
    "👤 *User:* " + EscapeMarkdown(sender.firstName) + " " + EscapeMarkdown(sender.lastName)
    + "\n🆔 ID: `" + IntToString(sender.id) + "`\n📱 Username: "
    + (if sender.username != [] then EscapeMarkdown("@" + sender.username) else "Yo'q")
    + "\n\n💬 *Xabar:*\n"
  }

  function ForwardText(sender: Sender, text: string): string {
    ForwardHeader(sender) + EscapeMarkdown(text)
  }

  /** The user's words can be read back out of the forwarded text under
      MarkdownV2's escaping, so two different messages never look the same. */
  lemma ForwardTextCarriesMessage(sender: Sender, text: string)
    ensures |ForwardHeader(sender)| <= |ForwardText(sender, text)|
    ensures Unescape(ForwardText(sender, text)[|ForwardHeader(sender)|..]) == text
  {
    var header := ForwardHeader(sender);
    assert ForwardText(sender, text)[|header|..] == EscapeMarkdown(text);
    UnescapeEscape(text);
  }

  lemma ForwardTextInjective(sender: Sender, a: string, b: string)
    requires ForwardText(sender, a) == ForwardText(sender, b)
    ensures a == b
  {
    ForwardTextCarriesMessage(sender, a);
    ForwardTextCarriesMessage(sender, b);
  }

  /** What a handler shows the user: a notice or a callback alert with the
      locale entry `key` in language `lang` (its text is `T(key, lang)`), or
      one of the navigation screens. */
  datatype Screen =
    | Notice(key: string, lang: string)
    | Alert(key: string, lang: string)
    | NewsPage(index: nat, buttons: seq<Button>)
    | FaqPage(index: nat, buttons: seq<Button>)
    | SubscriptionMenu(selected: seq<string>)

  /** How `handleConsultationMessage` ended. */
  datatype ConsultationOutcome = NotInMode | Cancelled | Forwarded(messageId: MessageId) | ForwardFailed

  class UserHandlers {
    var newsIndex: map<UserId, nat>
    var faqIndex: map<UserId, nat>
    var subscriptionState: map<UserId, seq<string>>
    var consultationMode: set<UserId>

    constructor ()
      ensures newsIndex == map[] && faqIndex == map[] && subscriptionState == map[]
      ensures consultationMode == {}
    {
      newsIndex := map[];
      faqIndex := map[];
      subscriptionState := map[];
      consultationMode := {};
    }

    /** The selection being edited, with an absent entry read as `[]`. */
    function Selected(userId: UserId): seq<string>
      reads this
    {
      if userId in subscriptionState then subscriptionState[userId] else []
    }

    /** `handleNewsCommand`: opens the news at the first item. */
    method HandleNewsCommand(userId: UserId, db: Database) returns (screen: Screen)
      modifies this
      ensures db.news == [] ==> (screen == Notice("no_news", LanguageOf(db.GetUser(userId)))
        && newsIndex == old(newsIndex))
      ensures db.news != [] ==> (newsIndex == old(newsIndex)[userId := 0]
        && screen == NewsPage(0, NewsButtons(0, |db.news|)))
      ensures faqIndex == old(faqIndex) && subscriptionState == old(subscriptionState)
      ensures consultationMode == old(consultationMode)
    {
      if db.news == [] {
        screen := Notice("no_news", LanguageOf(db.GetUser(userId)));
        return;
      }
      newsIndex := newsIndex[userId := 0];
      screen := NewsPage(0, NewsButtons(0, |db.news|));
    }

    /** `handleNewsNavigation`: steps the stored index and clamps it. */
    method HandleNewsNavigation(userId: UserId, data: string, db: Database) returns (screen: Screen)
      modifies this
      ensures db.news == [] ==> (screen == Alert("no_news", LanguageOf(db.GetUser(userId)))
        && newsIndex == old(newsIndex))
      ensures db.news != [] ==>
        var i := NewsIndexAfter(StoredIndex(old(newsIndex), userId), data, |db.news|);
        newsIndex == old(newsIndex)[userId := i] && screen == NewsPage(i, NewsButtons(i, |db.news|))
      ensures faqIndex == old(faqIndex) && subscriptionState == old(subscriptionState)
      ensures consultationMode == old(consultationMode)
    {
      var lang := LanguageOf(db.GetUser(userId));
      if db.news == [] {
        screen := Alert("no_news", lang);
      } else {
        var current := NewsIndexAfter(StoredIndex(newsIndex, userId), data, |db.news|);
        newsIndex := newsIndex[userId := current];
        screen := NewsPage(current, NewsButtons(current, |db.news|));
      }
    }

    /** `handleFaqCommand`: opens the FAQ at the first question. */
    method HandleFaqCommand(userId: UserId, db: Database) returns (screen: Screen)
      modifies this
      ensures db.faq == [] ==> (screen == Notice("no_faq", LanguageOf(db.GetUser(userId)))
        && faqIndex == old(faqIndex))
      ensures db.faq != [] ==> (faqIndex == old(faqIndex)[userId := 0]
        && screen == FaqPage(0, FaqButtons(0, |db.faq|)))
      ensures newsIndex == old(newsIndex) && subscriptionState == old(subscriptionState)
      ensures consultationMode == old(consultationMode)
    {
      if db.faq == [] {
        screen := Notice("no_faq", LanguageOf(db.GetUser(userId)));
        return;
      }
      faqIndex := faqIndex[userId := 0];
      screen := FaqPage(0, FaqButtons(0, |db.faq|));
    }

    /** `handleFaqNavigation`: moves to the next question, wrapping around. */
    method HandleFaqNavigation(userId: UserId, db: Database) returns (screen: Screen)
      modifies this
      ensures db.faq == [] ==> (screen == Alert("no_faq", LanguageOf(db.GetUser(userId)))
        && faqIndex == old(faqIndex))
      ensures db.faq != [] ==>
        var i := NextFaqIndex(StoredIndex(old(faqIndex), userId), |db.faq|);
        faqIndex == old(faqIndex)[userId := i] && screen == FaqPage(i, FaqButtons(i, |db.faq|))
      ensures newsIndex == old(newsIndex) && subscriptionState == old(subscriptionState)
      ensures consultationMode == old(consultationMode)
    {
      var lang := LanguageOf(db.GetUser(userId));
      if db.faq == [] {
        screen := Alert("no_faq", lang);
      } else {
        var current := NextFaqIndex(StoredIndex(faqIndex, userId), |db.faq|);
        faqIndex := faqIndex[userId := current];
        screen := FaqPage(current, FaqButtons(current, |db.faq|));
      }
    }

    /** `handleSubscriptionCommand`: starts editing from the stored list. */
    method HandleSubscriptionCommand(userId: UserId, db: Database) returns (screen: Screen)
      modifies this
      ensures db.subscriptions == [] ==> (screen == Notice("select_min_one", LanguageOf(db.GetUser(userId)))
        && subscriptionState == old(subscriptionState))
      ensures db.subscriptions != [] ==>
        subscriptionState == old(subscriptionState)[userId := db.GetUserSubscriptions(userId)]
        && screen == SubscriptionMenu(db.GetUserSubscriptions(userId))
      ensures newsIndex == old(newsIndex) && faqIndex == old(faqIndex)
      ensures consultationMode == old(consultationMode)
    {
      if db.subscriptions == [] {
        screen := Notice("select_min_one", LanguageOf(db.GetUser(userId)));
        return;
      }
      var current := db.GetUserSubscriptions(userId);
      subscriptionState := subscriptionState[userId := current];
      screen := SubscriptionMenu(current);
    }

    /** `handleSubscriptionSelection`: `sub_confirm` stores a non-empty
        selection and forgets it; any other data toggles one name. */
    method HandleSubscriptionSelection(userId: UserId, data: string, db: Database) returns (screen: Screen)
      modifies this, db
      ensures data == "sub_confirm" && old(Selected(userId)) == [] ==>
        screen == Alert("select_min_one", LanguageOf(old(db.GetUser(userId))))
        && subscriptionState == old(subscriptionState) && db.users == old(db.users)
      ensures data == "sub_confirm" && old(Selected(userId)) != [] ==>
        (old(userId in db.users) ==> db.users == old(db.users)[userId := old(db.users[userId]).(subscription := old(Selected(userId)))])
        && (old(userId !in db.users) ==> db.users == old(db.users))
        && subscriptionState == old(subscriptionState) - {userId}
        && screen == Notice("subscribe_selected", LanguageOf(old(db.GetUser(userId))))
      ensures data != "sub_confirm" ==>
        var selected := Toggle(old(Selected(userId)), CallbackName(data));
        subscriptionState == old(subscriptionState)[userId := selected]
        && screen == SubscriptionMenu(selected) && db.users == old(db.users)
      ensures db.threads == old(db.threads) && db.sessions == old(db.sessions) && db.settings == old(db.settings)
      ensures db.subscriptions == old(db.subscriptions) && db.news == old(db.news) && db.faq == old(db.faq)
      ensures newsIndex == old(newsIndex) && faqIndex == old(faqIndex)
      ensures consultationMode == old(consultationMode)
    {
      var lang := LanguageOf(db.GetUser(userId));
      if data == "sub_confirm" {
        var selected := Selected(userId);
        if selected == [] {
          screen := Alert("select_min_one", lang);
          return;
        }
        db.UpdateUserSubscription(userId, selected);
        subscriptionState := subscriptionState - {userId};
        screen := Notice("subscribe_selected", lang);
        return;
      }
      var name := CallbackName(data);
      var selected := Toggle(Selected(userId), name);
      subscriptionState := subscriptionState[userId := selected];
      screen := SubscriptionMenu(selected);
    }

    /** `handleConsultationCommand`: switches consultation mode on. */
    method HandleConsultationCommand(userId: UserId)
      modifies this
      ensures consultationMode == old(consultationMode) + {userId}
      ensures newsIndex == old(newsIndex) && faqIndex == old(faqIndex)
      ensures subscriptionState == old(subscriptionState)
    {
      consultationMode := consultationMode + {userId};
    }

    /** `handleConsultationMessage`: outside consultation mode nothing
        happens; the cancel label leaves the mode without sending; any other
        text goes to the admin group, and only a delivered forward anchors the
        session, records the thread entry and ends the mode. */
    method HandleConsultationMessage(sender: Sender, text: string, db: Database,
                                     telegram: Telegram, adminGroupId: ChatId)
      returns (outcome: ConsultationOutcome)
      modifies this, db, telegram
      ensures var request := Outgoing(adminGroupId, TextBody(ForwardText(sender, text)), None);
        && (sender.id !in old(consultationMode) ==> outcome == NotInMode)
        && (sender.id in old(consultationMode) && text == T("cancel_button", LanguageOf(old(db.GetUser(sender.id)))) ==> outcome == Cancelled)
        && (outcome == NotInMode ==> consultationMode == old(consultationMode))
        && (outcome == Cancelled ==> consultationMode == old(consultationMode) - {sender.id})
        && (outcome == NotInMode || outcome == Cancelled ==>
              telegram.sent == old(telegram.sent) && telegram.outcomes == old(telegram.outcomes)
              && db.threads == old(db.threads) && db.sessions == old(db.sessions))
        && (outcome.Forwarded? ==>
              sender.id in old(consultationMode)
              && telegram.sent == old(telegram.sent) + [Delivery(request, outcome.messageId)]
              && db.sessions == old(db.sessions)[sender.id := Session(outcome.messageId)]
              && db.threads == old(db.threads)[outcome.messageId := ThreadEntry(sender.id, adminGroupId)]
              && consultationMode == old(consultationMode) - {sender.id})
        && (outcome == ForwardFailed ==>
              sender.id in old(consultationMode)
              && telegram.sent == old(telegram.sent)
              && db.threads == old(db.threads) && db.sessions == old(db.sessions)
              && consultationMode == old(consultationMode))
      ensures outcome == NotInMode <==> sender.id !in old(consultationMode)
      ensures var cancel := T("cancel_button", LanguageOf(old(db.GetUser(sender.id))));
        && (outcome == Cancelled ==> text == cancel)
        && (sender.id in old(consultationMode) && text != cancel
            && old(telegram.outcomes) != [] && old(telegram.outcomes[0]).Delivered? ==>
              outcome == Forwarded(old(telegram.outcomes[0]).messageId))
      ensures outcome.Forwarded? ==> old(telegram.outcomes) != [] && old(telegram.outcomes[0]) == Delivered(outcome.messageId)
      ensures outcome.Forwarded? || outcome == ForwardFailed ==>
        (old(telegram.outcomes) != [] && telegram.outcomes == old(telegram.outcomes[1..]))
        || (old(telegram.outcomes) == [] && outcome == ForwardFailed)
      ensures db.users == old(db.users) && db.settings == old(db.settings)
      ensures db.subscriptions == old(db.subscriptions) && db.news == old(db.news) && db.faq == old(db.faq)
      ensures newsIndex == old(newsIndex) && faqIndex == old(faqIndex)
      ensures subscriptionState == old(subscriptionState)
    {
      var userId := sender.id;
      var lang := LanguageOf(db.GetUser(userId));
      if userId !in consultationMode {
        return NotInMode;
      }
      if text == T("cancel_button", lang) {
        consultationMode := consultationMode - {userId};
        return Cancelled;
      }
      outcome := ForwardConsultation(sender, text, db, telegram, adminGroupId);
    }

    /** The forwarding half of `handleConsultationMessage`: the text goes to
        the admin group; on delivery the new message becomes the user's
        session and thread and consultation mode ends, on failure nothing
        is stored and the user stays in consultation mode. */
    method ForwardConsultation(sender: Sender, text: string, db: Database,
                               telegram: Telegram, adminGroupId: ChatId)
      returns (outcome: ConsultationOutcome)
      modifies this, db, telegram
      ensures outcome.Forwarded? || outcome == ForwardFailed
      ensures old(telegram.outcomes) != [] && old(telegram.outcomes[0]).Delivered? ==>
        outcome == Forwarded(old(telegram.outcomes[0]).messageId)
      ensures var request := Outgoing(adminGroupId, TextBody(ForwardText(sender, text)), None);
        && (outcome.Forwarded? ==>
              telegram.sent == old(telegram.sent) + [Delivery(request, outcome.messageId)]
              && db.sessions == old(db.sessions)[sender.id := Session(outcome.messageId)]
              && db.threads == old(db.threads)[outcome.messageId := ThreadEntry(sender.id, adminGroupId)]
              && consultationMode == old(consultationMode) - {sender.id})
        && (outcome == ForwardFailed ==>
              telegram.sent == old(telegram.sent)
              && db.threads == old(db.threads) && db.sessions == old(db.sessions)
              && consultationMode == old(consultationMode))
      ensures outcome.Forwarded? ==> old(telegram.outcomes) != [] && old(telegram.outcomes[0]) == Delivered(outcome.messageId)
      ensures (old(telegram.outcomes) != [] && telegram.outcomes == old(telegram.outcomes[1..]))
        || (old(telegram.outcomes) == [] && outcome == ForwardFailed)
      ensures db.users == old(db.users) && db.settings == old(db.settings)
      ensures db.subscriptions == old(db.subscriptions) && db.news == old(db.news) && db.faq == old(db.faq)
      ensures newsIndex == old(newsIndex) && faqIndex == old(faqIndex)
      ensures subscriptionState == old(subscriptionState)
    {
      var request := Outgoing(adminGroupId, TextBody(ForwardText(sender, text)), None);
      var result := telegram.Send(request);
      if result.Failed? {
        outcome := ForwardFailed;
      } else {
        db.SaveChatSession(sender.id, result.messageId);
        db.SaveMessageThread(result.messageId, sender.id, adminGroupId);
        consultationMode := consultationMode - {sender.id};
        outcome := Forwarded(result.messageId);
      }
    }
  }
}
