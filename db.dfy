/** The persistent collections the bot reads and writes, reduced to their
    store semantics: each collection is a map from its unique key to the
    stored record, and every `findOneAndUpdate` becomes a map update (an
    upsert adds the key, a plain update leaves an absent key absent). */
module Store {
  import opened Text

  type UserId = int
  type ChatId = int
  type MessageId = int

  /** A `MessageThread` document without its key: who a relayed message
      belongs to and in which chat it sits. */
  datatype ThreadEntry = ThreadEntry(userId: UserId, chatId: ChatId)

  /** A `ChatSession` document without its key: the admin-group message the
      user's conversation hangs under. */
  datatype Session = Session(threadId: MessageId)

  /** A `Setting` document without its key. */
  datatype Setting = Setting(latin: string, cyrillic: string)

  /** The fields of a `User` document the handlers read or write; an empty
      string stands for an unset string field. */
  datatype UserRecord = UserRecord(
    language: string,
    phone: string,
    interestedCourses: seq<string>,
    subscription: seq<string>,
    registrationCompleted: bool)

  /** A `Subscription` document: a course direction users can follow. The
      legacy `name` field is kept because the handlers still fall back to it;
      an empty string stands for an absent name. */
  datatype Subscription = Subscription(nameLatin: string, nameCyrillic: string, name: string)

  /** A `News` or `FAQ` document as far as navigation is concerned. */
  datatype Item = Item(latin: string, cyrillic: string)

  /** The language `getSetting` falls back to. */
  const DefaultSettingLanguage: string := "uz_cyrillic"

  class Database {
    var threads: map<MessageId, ThreadEntry>
    var sessions: map<UserId, Session>
    var settings: map<string, Setting>
    var users: map<UserId, UserRecord>
    var subscriptions: seq<Subscription>
    var news: seq<Item>
    var faq: seq<Item>

    constructor (users: map<UserId, UserRecord>, subscriptions: seq<Subscription>, news: seq<Item>, faq: seq<Item>)
      ensures this.users == users && this.subscriptions == subscriptions
      ensures this.news == news && this.faq == faq
      ensures threads == map[] && sessions == map[] && settings == map[]
    {
      this.users := users;
      this.subscriptions := subscriptions;
      this.news := news;
      this.faq := faq;
      threads := map[];
      sessions := map[];
      settings := map[];
    }

    /** `saveMessageThread`: upsert on the message id alone, so a later save
        with the same id replaces both the user and the chat. */
    method SaveMessageThread(messageId: MessageId, userId: UserId, chatId: ChatId)
      modifies this
      ensures threads == old(threads)[messageId := ThreadEntry(userId, chatId)]
      ensures FindUserByMessageId(messageId) == Some(ThreadEntry(userId, chatId))
      ensures forall m :: m != messageId ==> FindUserByMessageId(m) == old(FindUserByMessageId(m))
      ensures sessions == old(sessions) && settings == old(settings) && users == old(users)
      ensures subscriptions == old(subscriptions) && news == old(news) && faq == old(faq)
    {
      threads := threads[messageId := ThreadEntry(userId, chatId)];
    }

    /** `findUserByMessageId`: the entry last saved under the id, or null. */
    function FindUserByMessageId(messageId: MessageId): (r: Option<ThreadEntry>)
      reads this
      ensures r.Some? <==> messageId in threads
      ensures r.Some? ==> r.value == threads[messageId]
    {
      if messageId in threads then Some(threads[messageId]) else None
    }

    /** `saveChatSession`: upsert on the user id, so a user has at most one
        session, holding the latest thread id. */
    method SaveChatSession(userId: UserId, threadId: MessageId)
      modifies this
      ensures sessions == old(sessions)[userId := Session(threadId)]
      ensures GetChatSession(userId) == Some(Session(threadId))
      ensures threads == old(threads) && settings == old(settings) && users == old(users)
      ensures subscriptions == old(subscriptions) && news == old(news) && faq == old(faq)
    {
      sessions := sessions[userId := Session(threadId)];
    }

    /** `getChatSession`. */
    function GetChatSession(userId: UserId): (r: Option<Session>)
      reads this
      ensures r.Some? <==> userId in sessions
      ensures r.Some? ==> r.value == sessions[userId]
    {
      if userId in sessions then Some(sessions[userId]) else None
    }

    /** `getSetting(key, language = "uz_cyrillic")`: null for an absent key,
        the Latin text exactly when the language is `uz_latin`, the Cyrillic
        text for every other language. */
    function GetSetting(key: string, language: string := DefaultSettingLanguage): (r: Option<string>)
      reads this
      ensures r.None? <==> key !in settings
      ensures r.Some? && language == "uz_latin" ==> r.value == settings[key].latin
      ensures r.Some? && language != "uz_latin" ==> r.value == settings[key].cyrillic
    {
      if key !in settings then None
      else if language == "uz_latin" then Some(settings[key].latin)
      else Some(settings[key].cyrillic)
    }

    /** `getSettingBoth`: both texts of a key, or null. */
    function GetSettingBoth(key: string): (r: Option<Setting>)
      reads this
      ensures r.None? <==> key !in settings
      ensures r.Some? ==> r.value == settings[key]
    {
      if key in settings then Some(settings[key]) else None
    }

    /** `updateSetting`: upsert by key. */
    method UpdateSetting(key: string, latin: string, cyrillic: string)
      modifies this
      ensures settings == old(settings)[key := Setting(latin, cyrillic)]
      ensures GetSettingBoth(key) == Some(Setting(latin, cyrillic))
      ensures GetSetting(key, "uz_latin") == Some(latin) && GetSetting(key) == Some(cyrillic)
      ensures threads == old(threads) && sessions == old(sessions) && users == old(users)
      ensures subscriptions == old(subscriptions) && news == old(news) && faq == old(faq)
    {
      settings := settings[key := Setting(latin, cyrillic)];
    }

    /** `getUser`. */
    function GetUser(userId: UserId): (r: Option<UserRecord>)
      reads this
      ensures r.Some? <==> userId in users
      ensures r.Some? ==> r.value == users[userId]
    {
      if userId in users then Some(users[userId]) else None
    }

    /** `getUserSubscriptions`: the stored list, or `[]` when no user record exists. */
    function GetUserSubscriptions(userId: UserId): (r: seq<string>)
      reads this
      ensures userId !in users ==> r == []
      ensures userId in users ==> r == users[userId].subscription
    {
      if userId in users then users[userId].subscription else []
    }

    /** A plain `findOneAndUpdate` on a user: the change applies to an
        existing record; without one nothing is stored. */
    method UpdateUser(userId: UserId, record: UserRecord)
      modifies this
      ensures old(userId in users) ==> users == old(users)[userId := record]
      ensures old(userId !in users) ==> users == old(users)
      ensures threads == old(threads) && sessions == old(sessions) && settings == old(settings)
      ensures subscriptions == old(subscriptions) && news == old(news) && faq == old(faq)
    {
      if userId in users {
        users := users[userId := record];
      }
    }

    /** `updateUserLanguage`. */
    method UpdateUserLanguage(userId: UserId, language: string)
      modifies this
      ensures old(userId in users) ==> users == old(users)[userId := old(users[userId]).(language := language)]
      ensures old(userId !in users) ==> users == old(users)
      ensures threads == old(threads) && sessions == old(sessions) && settings == old(settings)
      ensures subscriptions == old(subscriptions) && news == old(news) && faq == old(faq)
    {
      if userId in users {
        UpdateUser(userId, users[userId].(language := language));
      }
    }

    /** `updateUserPhone`. */
    method UpdateUserPhone(userId: UserId, phone: string)
      modifies this
      ensures old(userId in users) ==> users == old(users)[userId := old(users[userId]).(phone := phone)]
      ensures old(userId !in users) ==> users == old(users)
      ensures threads == old(threads) && sessions == old(sessions) && settings == old(settings)
      ensures subscriptions == old(subscriptions) && news == old(news) && faq == old(faq)
    {
      if userId in users {
        UpdateUser(userId, users[userId].(phone := phone));
      }
    }

    /** `updateUserCourses`. */
    method UpdateUserCourses(userId: UserId, courses: seq<string>)
      modifies this
      ensures old(userId in users) ==> users == old(users)[userId := old(users[userId]).(interestedCourses := courses)]
      ensures old(userId !in users) ==> users == old(users)
      ensures threads == old(threads) && sessions == old(sessions) && settings == old(settings)
      ensures subscriptions == old(subscriptions) && news == old(news) && faq == old(faq)
    {
      if userId in users {
        UpdateUser(userId, users[userId].(interestedCourses := courses));
      }
    }

    /** `updateUserSubscription`. */
    method UpdateUserSubscription(userId: UserId, subscription: seq<string>)
      modifies this
      ensures old(userId in users) ==> users == old(users)[userId := old(users[userId]).(subscription := subscription)]
      ensures old(userId !in users) ==> users == old(users)
      ensures GetUserSubscriptions(userId) == (if old(userId in users) then subscription else [])
      ensures threads == old(threads) && sessions == old(sessions) && settings == old(settings)
      ensures subscriptions == old(subscriptions) && news == old(news) && faq == old(faq)
    {
      if userId in users {
        UpdateUser(userId, users[userId].(subscription := subscription));
      }
    }

    /** `completeRegistration`. */
    method CompleteRegistration(userId: UserId)
      modifies this
      ensures old(userId in users) ==> users == old(users)[userId := old(users[userId]).(registrationCompleted := true)]
      ensures old(userId !in users) ==> users == old(users)
      ensures threads == old(threads) && sessions == old(sessions) && settings == old(settings)
      ensures subscriptions == old(subscriptions) && news == old(news) && faq == old(faq)
    {
      if userId in users {
        UpdateUser(userId, users[userId].(registrationCompleted := true));
      }
    }
  }

  /** One `saveMessageThread` call, as a value. */
  datatype ThreadSave = ThreadSave(messageId: MessageId, entry: ThreadEntry)

  /** The thread map after a sequence of saves, applied in order. */
  function ApplySaves(threads: map<MessageId, ThreadEntry>, saves: seq<ThreadSave>): map<MessageId, ThreadEntry>
    decreases |saves|
  {
    if saves == [] then threads
    else ApplySaves(threads[saves[0].messageId := saves[0].entry], saves[1..])
  }

  /** Position of the last save of `messageId`, or -1. */
  function LastSaveOf(saves: seq<ThreadSave>, messageId: MessageId): (i: int)
    ensures -1 <= i < |saves|
    ensures i >= 0 ==> saves[i].messageId == messageId
    ensures forall j :: i < j < |saves| ==> saves[j].messageId != messageId
  {
    if saves == [] then -1
    else if saves[|saves| - 1].messageId == messageId then |saves| - 1
    else LastSaveOf(saves[..|saves| - 1], messageId)
  }

  /** After any sequence of saves, an id resolves to the entry of its last
      save, and an id never saved keeps what it had before. */
  lemma {:induction false} LastSaveWins(threads: map<MessageId, ThreadEntry>, saves: seq<ThreadSave>, messageId: MessageId)
    ensures var i := LastSaveOf(saves, messageId);
      (i >= 0 ==> messageId in ApplySaves(threads, saves) && ApplySaves(threads, saves)[messageId] == saves[i].entry)
      && (i == -1 ==> (messageId in ApplySaves(threads, saves) <==> messageId in threads))
      && (i == -1 && messageId in threads ==> ApplySaves(threads, saves)[messageId] == threads[messageId])
    decreases |saves|
  {
    if saves != [] {
      var next := threads[saves[0].messageId := saves[0].entry];
      LastSaveWins(next, saves[1..], messageId);
      var i := LastSaveOf(saves, messageId);
      var k := LastSaveOf(saves[1..], messageId);
      if k >= 0 {
        assert saves[1..][k] == saves[k + 1];
      } else {
        assert forall j :: 0 < j < |saves| ==> saves[j].messageId == saves[1..][j - 1].messageId;
        if saves[0].messageId == messageId {
          assert i == 0;
        } else {
          assert i == -1;
        }
      }
    }
  }
}
