/** The `bot.on("message")` dispatcher of the user bot: every message that
    no command, keyboard label or contact handler took is tried, in a fixed
    order, as registration course text, as an admin reply in the admin group
    (relayed to the user), as a user's reply to a relayed message (relayed
    back to the admin group) and finally as a consultation message. Each
    message is handled as one atomic step. */
module UserBot {
  import opened Text
  import opened Markdown
  import opened Store
  import opened Transport
  import opened UserHandlers
  import opened Registration

  datatype ChatType = Private | Group | Supergroup | Channel

  /** The fields of `ctx.chat`, `ctx.from` and `ctx.message` the dispatcher
      reads. `photo` is the list of sizes Telegram sends, largest last; an
      absent caption is the empty string. */
  datatype Inbound = Inbound(
    chatId: ChatId,
    chatType: ChatType,
    from: Sender,
    messageId: MessageId,
    replyTo: Option<MessageId>,
    text: Option<string>,
    caption: string,
    photo: Option<seq<string>>,
    video: Option<string>,
    document: Option<string>,
    voice: Option<string>,
    audio: Option<string>,
    sticker: Option<string>)

  /** `ctx.message.text` is truthy. */
  predicate HasText(m: Inbound) {
    m.text.Some? && m.text.value != []
  }

  /** The content kinds an admin reply is tested for, in the order tested. */
  datatype Kind = TextKind | PhotoKind | VideoKind | DocumentKind | VoiceKind | AudioKind | StickerKind

  const KindOrder: seq<Kind> := [TextKind, PhotoKind, VideoKind, DocumentKind, VoiceKind, AudioKind, StickerKind]

  function Rank(k: Kind): nat {
    match k
    case TextKind => 0
    case PhotoKind => 1
    case VideoKind => 2
    case DocumentKind => 3
    case VoiceKind => 4
    case AudioKind => 5
    case StickerKind => 6
  }

  /** The message carries content of kind `k`. */
  predicate Carries(m: Inbound, k: Kind) {
    match k
    case TextKind => HasText(m)
    case PhotoKind => m.photo.Some?
    case VideoKind => m.video.Some?
    case DocumentKind => m.document.Some?
    case VoiceKind => m.voice.Some?
    case AudioKind => m.audio.Some?
    case StickerKind => m.sticker.Some?
  }

  /** The kind the `if … else if` chain of the admin branch picks: the first
      kind in `KindOrder` the message carries, or none. */
  function ReplyKind(m: Inbound): (r: Option<Kind>)
    ensures r.Some? ==> Carries(m, r.value) && KindOrder[Rank(r.value)] == r.value
    ensures r.Some? ==> forall k :: Rank(k) < Rank(r.value) ==> !Carries(m, k)
    ensures r.None? ==> forall k :: !Carries(m, k)
  {
    if HasText(m) then Some(TextKind)
    else if m.photo.Some? then Some(PhotoKind)
    else if m.video.Some? then Some(VideoKind)
    else if m.document.Some? then Some(DocumentKind)
    else if m.voice.Some? then Some(VoiceKind)
    else if m.audio.Some? then Some(AudioKind)
    else if m.sticker.Some? then Some(StickerKind)
    else None
  }

  const AdminHeader: string := "👨‍💼 *Admin javobi:*\n\n"

  /** A caption passed on with the admin header and escaped, or the fixed
      fallback text when the admin wrote none. */
  function EscapedCaption(caption: string, fallback: string): string {
    if caption != [] then AdminHeader + EscapeMarkdown(caption) else fallback
  }

  /** What the admin branch sends to the user for a reply of kind `kind`;
      none when it throws before sending (a photo with no sizes). */
  function ReplyBody(m: Inbound, kind: Kind): (b: Option<Body>)
    requires Carries(m, kind)
    ensures b.None? <==> kind == PhotoKind && m.photo.value == []
    ensures b.Some? && kind == TextKind ==> b.value.TextBody?
    ensures b.Some? && kind != TextKind ==> b.value.Media?
  {
    match kind
    case TextKind => Some(TextBody(AdminHeader + EscapeMarkdown(m.text.value)))
    case PhotoKind =>
      var sizes := m.photo.value;
      if sizes == [] then None
      else Some(Media(Photo, sizes[|sizes| - 1], Some(EscapedCaption(m.caption, "👨‍💼 Admin dan rasm"))))
    case VideoKind => Some(Media(Video, m.video.value, Some(EscapedCaption(m.caption, "👨‍💼 Admin dan video"))))
    case DocumentKind =>
      Some(Media(Document, m.document.value,
        Some(if m.caption != [] then AdminHeader + m.caption else "👨‍💼 Admin dan fayl")))
    case VoiceKind => Some(Media(Voice, m.voice.value, Some("👨‍💼 Admin dan ovozli xabar")))
    case AudioKind => Some(Media(Audio, m.audio.value, Some(EscapedCaption(m.caption, "👨‍💼 Admin dan audio"))))
    case StickerKind => Some(Media(Sticker, m.sticker.value, None))
  }

  /** The words of an admin's text reply reach the user intact: after the
      header, the sent text reads back under MarkdownV2's escaping as exactly
      what the admin wrote. */
  lemma ReplyTextReadsBack(m: Inbound)
    requires HasText(m)
    ensures ReplyBody(m, TextKind).Some?
    ensures var t := ReplyBody(m, TextKind).value.text;
      |AdminHeader| <= |t| && t[..|AdminHeader|] == AdminHeader
      && Unescape(t[|AdminHeader|..]) == m.text.value
  {
    var t := ReplyBody(m, TextKind).value.text;
    assert t[|AdminHeader|..] == EscapeMarkdown(m.text.value);
    UnescapeEscape(m.text.value);
  }

  /** Photo, video and audio captions are escaped the same way; a document's
      caption is passed on exactly as typed. */
  lemma CaptionsEscapedExceptDocument(m: Inbound, kind: Kind)
    requires Carries(m, kind) && m.caption != []
    requires kind == PhotoKind || kind == VideoKind || kind == DocumentKind || kind == AudioKind
    requires ReplyBody(m, kind).Some?
    ensures kind != DocumentKind ==> ReplyBody(m, kind).value.caption == Some(AdminHeader + EscapeMarkdown(m.caption))
    ensures kind == DocumentKind ==> ReplyBody(m, kind).value.caption == Some(AdminHeader + m.caption)
  {
  }

  /** The text the continuation relay forwards: `ctx.message.text || "[Media fayl]"`. */
  function ContinuationText(m: Inbound): string {
    if HasText(m) then m.text.value else "[Media fayl]"
  }

  /** Where the dispatcher sent a message. */
  datatype Route =
    | RegistrationText(registered: CoursesOutcome)
    | RegistrationThrew
    | AdminUserNotFound
    | AdminUnsupported
    | AdminReplied(userId: UserId, deliveredId: MessageId)
    | AdminFailed(userId: UserId)
    | Continued(userId: UserId, forwardedId: MessageId)
    | Consultation(consulted: ConsultationOutcome)
    | Unhandled

  predicate IsAdminRoute(r: Route) {
    r.AdminUserNotFound? || r.AdminUnsupported? || r.AdminReplied? || r.AdminFailed?
  }

  /** The user a route talks with, when it records thread entries at all. */
  function Conversant(r: Route, m: Inbound): Option<UserId> {
    match r
    case AdminReplied(u, _) => Some(u)
    case Continued(u, _) => Some(u)
    case Consultation(Forwarded(_)) => Some(m.from.id)
    case _ => None
  }

  /** An admin reply that names a known message, carries content that can be
      sent, and meets a delivering Telegram. */
  predicate AdminReplyGoesThrough(m: Inbound, threads: map<MessageId, ThreadEntry>, outcomes: seq<SendResult>) {
    && m.replyTo.Some?
    && m.replyTo.value in threads
    && ReplyKind(m).Some?
    && ReplyBody(m, ReplyKind(m).value).Some?
    && outcomes != []
    && outcomes[0].Delivered?
  }

  /** The id of the message a route's delivered send produced, if it made one. */
  function Delivers(r: Route): Option<MessageId> {
    match r
    case AdminReplied(_, id) => Some(id)
    case Continued(_, id) => Some(id)
    case Consultation(Forwarded(id)) => Some(id)
    case _ => None
  }

  /** The route consumed exactly one scripted answer, the delivery it reports. */
  predicate ConsumedDelivery(r: Route, before: seq<SendResult>, after: seq<SendResult>) {
    Delivers(r).Some? ==> before != [] && before[0] == Delivered(Delivers(r).value) && after == before[1..]
  }

  /** Consultation mode after a message took route `r`: a cancelled or
      delivered consultation message takes its sender out of the mode, and no
      other route touches it. */
  function ModeAfter(r: Route, sender: UserId, mode: set<UserId>): set<UserId> {
    match r
    case Consultation(Cancelled) => mode - {sender}
    case Consultation(Forwarded(_)) => mode - {sender}
    case _ => mode
  }

  /** Registration course text touches only its sender's record: no record
      appears or disappears, every other record stays, and the sender's
      record, if any, now has its registration completed. */
  predicate OnlySenderCompleted(before: map<UserId, UserRecord>, after: map<UserId, UserRecord>, u: UserId) {
    && after.Keys == before.Keys
    && (forall v :: v in before && v != u ==> after[v] == before[v])
    && (u in after ==> after[u].registrationCompleted)
  }

  class UserBot {
    const adminGroupId: ChatId
    const db: Database
    const handlers: UserHandlers
    const registration: Registration
    const telegram: Telegram

    constructor (adminGroupId: ChatId, db: Database, handlers: UserHandlers, registration: Registration, telegram: Telegram)
      ensures this.adminGroupId == adminGroupId && this.db == db && this.handlers == handlers
      ensures this.registration == registration && this.telegram == telegram
    {
      this.adminGroupId := adminGroupId;
      this.db := db;
      this.handlers := handlers;
      this.registration := registration;
      this.telegram := telegram;
    }

    /** The three conditions of the continuation relay: the replied-to
        message has an entry carrying the sender's own id, and the sender has
        a session with a (non-zero) thread id. */
    predicate ContinuationAllowed(m: Inbound)
      reads this, db
    {
      && m.replyTo.Some?
      && m.replyTo.value in db.threads
      && db.threads[m.replyTo.value].userId == m.from.id
      && m.from.id in db.sessions
      && db.sessions[m.from.id].threadId != 0
    }

    /** The admin-group branch: find the user the replied-to message belongs
        to, send them the reply's content, and record both the admin's message
        and the delivered one under that user. */
    method RelayAdminReply(m: Inbound) returns (route: Route)
      requires m.chatId == adminGroupId && m.replyTo.Some?
      modifies db, telegram
      ensures IsAdminRoute(route)
      ensures route == AdminUserNotFound <==> m.replyTo.value !in old(db.threads)
      ensures route == AdminUnsupported <==> m.replyTo.value in old(db.threads) && ReplyKind(m).None?
      ensures route.AdminReplied? || route.AdminFailed? ==>
        m.replyTo.value in old(db.threads) && route.userId == old(db.threads[m.replyTo.value].userId)
        && ReplyKind(m).Some?
      ensures route.AdminReplied? ==>
        var body := ReplyBody(m, ReplyKind(m).value);
        && body.Some?
        && telegram.sent == old(telegram.sent) + [Delivery(Outgoing(route.userId, body.value, None), route.deliveredId)]
        && db.threads == old(db.threads)[m.messageId := ThreadEntry(route.userId, m.chatId)]
                                        [route.deliveredId := ThreadEntry(route.userId, adminGroupId)]
      ensures !route.AdminReplied? ==> db.threads == old(db.threads) && telegram.sent == old(telegram.sent)
      ensures ConsumedDelivery(route, old(telegram.outcomes), telegram.outcomes)
      ensures AdminReplyGoesThrough(m, old(db.threads), old(telegram.outcomes)) ==>
        route == AdminReplied(old(db.threads[m.replyTo.value].userId), old(telegram.outcomes[0]).messageId)
      ensures db.sessions == old(db.sessions) && db.users == old(db.users) && db.settings == old(db.settings)
      ensures db.subscriptions == old(db.subscriptions) && db.news == old(db.news) && db.faq == old(db.faq)
    {
      var entry := db.FindUserByMessageId(m.replyTo.value);
      if entry.None? {
        return AdminUserNotFound;
      }
      var userId := entry.value.userId;
      var kind := ReplyKind(m);
      if kind.None? {
        return AdminUnsupported;
      }
      var body := ReplyBody(m, kind.value);
      if body.None? {
        return AdminFailed(userId);
      }
      var result := telegram.Send(Outgoing(userId, body.value, None));
      if result.Failed? {
        return AdminFailed(userId);
      }
      db.SaveMessageThread(m.messageId, userId, m.chatId);
      db.SaveMessageThread(result.messageId, userId, adminGroupId);
      route := AdminReplied(userId, result.messageId);
    }

    /** The private-reply branch: forward the user's reply under their
        session's thread and record the forwarded message. Nothing happens
        unless the three conditions hold and the send is delivered. */
    method RelayContinuation(m: Inbound) returns (forwarded: Option<MessageId>)
      requires m.replyTo.Some?
      modifies db, telegram
      ensures forwarded.Some? ==>
        old(ContinuationAllowed(m))
        && telegram.sent == old(telegram.sent) + [Delivery(
             Outgoing(adminGroupId, TextBody(ForwardText(m.from, ContinuationText(m))), Some(old(db.sessions[m.from.id].threadId))),
             forwarded.value)]
        && db.threads == old(db.threads)[forwarded.value := ThreadEntry(m.from.id, adminGroupId)]
      ensures forwarded.None? ==> db.threads == old(db.threads) && telegram.sent == old(telegram.sent)
      ensures forwarded.Some? ==>
        old(telegram.outcomes) != [] && old(telegram.outcomes[0]) == Delivered(forwarded.value)
        && telegram.outcomes == old(telegram.outcomes[1..])
      ensures old(ContinuationAllowed(m)) && old(telegram.outcomes) != [] && old(telegram.outcomes[0]).Delivered? ==>
        forwarded == Some(old(telegram.outcomes[0]).messageId)
      ensures db.sessions == old(db.sessions) && db.users == old(db.users) && db.settings == old(db.settings)
      ensures db.subscriptions == old(db.subscriptions) && db.news == old(db.news) && db.faq == old(db.faq)
    {
      var userId := m.from.id;
      var entry := db.FindUserByMessageId(m.replyTo.value);
      if entry.None? || entry.value.userId != userId {
        return None;
      }
      var session := db.GetChatSession(userId);
      if session.None? || session.value.threadId == 0 {
        return None;
      }
      var request := Outgoing(adminGroupId, TextBody(ForwardText(m.from, ContinuationText(m))), Some(session.value.threadId));
      var result := telegram.Send(request);
      if result.Failed? {
        return None;
      }
      db.SaveMessageThread(result.messageId, userId, adminGroupId);
      forwarded := Some(result.messageId);
    }

    /** The last stage of the dispatcher: a text from a user in consultation
        mode goes to `handleConsultationMessage`; anything else is dropped. */
    method RouteConsultation(m: Inbound) returns (route: Route)
      modifies db, handlers, telegram
      ensures route.Consultation? || route == Unhandled
      ensures route.Consultation? <==> m.from.id != 0 && m.from.id in old(handlers.consultationMode) && HasText(m)
      ensures route.Consultation? ==> route.consulted != NotInMode
      ensures route.Consultation? && route.consulted.Forwarded? ==>
        db.threads == old(db.threads)[route.consulted.messageId := ThreadEntry(m.from.id, adminGroupId)]
        && db.sessions == old(db.sessions)[m.from.id := Session(route.consulted.messageId)]
      ensures !(route.Consultation? && route.consulted.Forwarded?) ==>
        db.sessions == old(db.sessions) && db.threads == old(db.threads)
      ensures route == Unhandled ==> telegram.outcomes == old(telegram.outcomes) && telegram.sent == old(telegram.sent)
      ensures ConsumedDelivery(route, old(telegram.outcomes), telegram.outcomes)
      ensures db.users == old(db.users) && db.subscriptions == old(db.subscriptions) && db.settings == old(db.settings)
      ensures db.news == old(db.news) && db.faq == old(db.faq)
      ensures handlers.consultationMode == ModeAfter(route, m.from.id, old(handlers.consultationMode))
      ensures handlers.newsIndex == old(handlers.newsIndex) && handlers.faqIndex == old(handlers.faqIndex)
      ensures handlers.subscriptionState == old(handlers.subscriptionState)
    {
      var userId := m.from.id;
      if userId != 0 && userId in handlers.consultationMode && HasText(m) {
        var result := handlers.HandleConsultationMessage(m.from, m.text.value, db, telegram, adminGroupId);
        route := Consultation(result);
      } else {
        route := Unhandled;
      }
    }

    /** The private-chat half of the dispatcher: a reply relayed back to the
        admin group, else a consultation message, else nothing. */
    method RoutePrivate(m: Inbound) returns (route: Route)
      requires !(m.chatId == adminGroupId && m.replyTo.Some?)
      modifies db, handlers, telegram
      ensures route.Continued? || route.Consultation? || route == Unhandled
      ensures (m.from.id != 0 && m.chatType == Private && old(ContinuationAllowed(m))
               && old(telegram.outcomes) != [] && old(telegram.outcomes[0]).Delivered?) ==>
        route == Continued(m.from.id, old(telegram.outcomes[0]).messageId)
      ensures route.Continued? ==>
        route.userId == m.from.id && m.from.id != 0 && m.chatType == Private
        && old(ContinuationAllowed(m))
        && db.threads == old(db.threads)[route.forwardedId := ThreadEntry(m.from.id, adminGroupId)]
        && telegram.sent == old(telegram.sent) + [Delivery(
             Outgoing(adminGroupId, TextBody(ForwardText(m.from, ContinuationText(m))), Some(old(db.sessions[m.from.id].threadId))),
             route.forwardedId)]
      ensures route.Consultation? ==>
        m.from.id != 0 && m.from.id in old(handlers.consultationMode) && HasText(m) && route.consulted != NotInMode
      ensures route.Consultation? && route.consulted.Forwarded? ==>
        db.threads == old(db.threads)[route.consulted.messageId := ThreadEntry(m.from.id, adminGroupId)]
        && db.sessions == old(db.sessions)[m.from.id := Session(route.consulted.messageId)]
      ensures !(route.Consultation? && route.consulted.Forwarded?) ==> db.sessions == old(db.sessions)
      ensures route == Unhandled || (route.Consultation? && !route.consulted.Forwarded?) ==>
        db.threads == old(db.threads)
      ensures !route.Consultation? ==> ConsumedDelivery(route, old(telegram.outcomes), telegram.outcomes)
      ensures route == Unhandled ==> telegram.sent == old(telegram.sent)
      ensures db.users == old(db.users) && db.subscriptions == old(db.subscriptions) && db.settings == old(db.settings)
      ensures db.news == old(db.news) && db.faq == old(db.faq)
      ensures handlers.consultationMode == ModeAfter(route, m.from.id, old(handlers.consultationMode))
      ensures handlers.newsIndex == old(handlers.newsIndex) && handlers.faqIndex == old(handlers.faqIndex)
      ensures handlers.subscriptionState == old(handlers.subscriptionState)
      ensures !route.Continued? && m.from.id != 0 && m.from.id in old(handlers.consultationMode) && HasText(m) ==>
        route.Consultation?
    {
      var userId := m.from.id;
      var forwarded: Option<MessageId> := None;
      if userId != 0 && m.replyTo.Some? && m.chatType == Private {
        forwarded := RelayContinuation(m);
      }
      if forwarded.Some? {
        route := Continued(userId, forwarded.value);
      } else {
        route := RouteConsultation(m);
      }
    }

    /** The dispatcher once registration has declined the message: an
        admin-group reply always ends in the admin branch. */
    method RouteUnregistered(m: Inbound) returns (route: Route)
      modifies db, handlers, telegram
      ensures IsAdminRoute(route) <==> m.chatId == adminGroupId && m.replyTo.Some?
      ensures route.Continued? || route.Consultation? || route == Unhandled || IsAdminRoute(route)
      ensures m.chatId == adminGroupId && AdminReplyGoesThrough(m, old(db.threads), old(telegram.outcomes)) ==>
        route == AdminReplied(old(db.threads[m.replyTo.value].userId), old(telegram.outcomes[0]).messageId)
      ensures (m.chatId != adminGroupId && m.from.id != 0 && m.chatType == Private && old(ContinuationAllowed(m))
               && old(telegram.outcomes) != [] && old(telegram.outcomes[0]).Delivered?) ==>
        route == Continued(m.from.id, old(telegram.outcomes[0]).messageId)
      ensures route == AdminUserNotFound || route == AdminUnsupported || route.AdminFailed? ==>
        db.threads == old(db.threads) && telegram.sent == old(telegram.sent)
      ensures route.AdminReplied? ==>
        m.replyTo.value in old(db.threads) && route.userId == old(db.threads[m.replyTo.value].userId)
        && db.threads == old(db.threads)[m.messageId := ThreadEntry(route.userId, adminGroupId)]
                                        [route.deliveredId := ThreadEntry(route.userId, adminGroupId)]
        && ReplyKind(m).Some? && ReplyBody(m, ReplyKind(m).value).Some?
        && telegram.sent == old(telegram.sent)
             + [Delivery(Outgoing(route.userId, ReplyBody(m, ReplyKind(m).value).value, None), route.deliveredId)]
      ensures route.Continued? ==>
        route.userId == m.from.id && m.from.id != 0 && m.chatType == Private && m.chatId != adminGroupId
        && old(ContinuationAllowed(m))
        && db.threads == old(db.threads)[route.forwardedId := ThreadEntry(m.from.id, adminGroupId)]
        && telegram.sent == old(telegram.sent) + [Delivery(
             Outgoing(adminGroupId, TextBody(ForwardText(m.from, ContinuationText(m))), Some(old(db.sessions[m.from.id].threadId))),
             route.forwardedId)]
      ensures route.Consultation? ==>
        m.from.id != 0 && m.from.id in old(handlers.consultationMode) && HasText(m) && route.consulted != NotInMode
      ensures route.Consultation? && route.consulted.Forwarded? ==>
        db.threads == old(db.threads)[route.consulted.messageId := ThreadEntry(m.from.id, adminGroupId)]
        && db.sessions == old(db.sessions)[m.from.id := Session(route.consulted.messageId)]
      ensures !(route.Consultation? && route.consulted.Forwarded?) ==> db.sessions == old(db.sessions)
      ensures route == Unhandled || (route.Consultation? && !route.consulted.Forwarded?) ==>
        db.threads == old(db.threads)
      ensures !route.Consultation? ==> ConsumedDelivery(route, old(telegram.outcomes), telegram.outcomes)
      ensures route == Unhandled ==> telegram.sent == old(telegram.sent)
      ensures EntriesFor(old(db.threads), db.threads, Conversant(route, m), adminGroupId)
      ensures db.users == old(db.users) && db.subscriptions == old(db.subscriptions) && db.settings == old(db.settings)
      ensures db.news == old(db.news) && db.faq == old(db.faq)
      ensures handlers.consultationMode == ModeAfter(route, m.from.id, old(handlers.consultationMode))
      ensures handlers.newsIndex == old(handlers.newsIndex) && handlers.faqIndex == old(handlers.faqIndex)
      ensures handlers.subscriptionState == old(handlers.subscriptionState)
      ensures (!IsAdminRoute(route) && !route.Continued?
               && m.from.id != 0 && m.from.id in old(handlers.consultationMode) && HasText(m)) ==>
        route.Consultation?
    {
      if m.chatId == adminGroupId && m.replyTo.Some? {
        route := RelayAdminReply(m);
      } else {
        route := RoutePrivate(m);
      }
      match route {
        case AdminReplied(u, d) =>
          EntriesForTwo(old(db.threads), m.messageId, d, u, adminGroupId);
        case Continued(u, d) =>
          EntriesForOne(old(db.threads), d, u, adminGroupId);
        case Consultation(Forwarded(d)) =>
          EntriesForOne(old(db.threads), d, m.from.id, adminGroupId);
        case _ =>
      }
    }

    /** The first stage of the dispatcher: `handleCoursesText`, which claims
        every message of a user at the registration courses step. */
    method RouteRegistration(m: Inbound) returns (handled: Option<Route>)
      modifies db, registration
      ensures handled.Some? <==> old(registration.AtCourses(m.from.id))
      ensures handled.Some? ==> handled.value.RegistrationText? || handled.value == RegistrationThrew
      ensures handled.Some? && handled.value.RegistrationText? ==> handled.value.registered != NotHandled
      ensures !(handled.Some? && handled.value.RegistrationText?) ==>
        db.users == old(db.users) && registration.state == old(registration.state)
      ensures handled.Some? && handled.value.RegistrationText? ==>
        registration.state == old(registration.state) - {m.from.id}
        && OnlySenderCompleted(old(db.users), db.users, m.from.id)
      ensures db.threads == old(db.threads) && db.sessions == old(db.sessions) && db.settings == old(db.settings)
      ensures db.subscriptions == old(db.subscriptions) && db.news == old(db.news) && db.faq == old(db.faq)
    {
      var outcome := registration.HandleCoursesText(m.from.id, m.text, db);
      if outcome == Threw {
        handled := Some(RegistrationThrew);
      } else if outcome != NotHandled {
        handled := Some(RegistrationText(outcome));
      } else {
        handled := None;
      }
    }

    /** One inbound message, routed in the source's order. */
    method OnMessage(m: Inbound) returns (route: Route)
      modifies db, handlers, registration, telegram
      // registration course text comes first and is never relayed
      ensures old(registration.AtCourses(m.from.id)) <==> route.RegistrationText? || route == RegistrationThrew
      ensures route.RegistrationText? || route == RegistrationThrew ==>
        telegram.sent == old(telegram.sent) && telegram.outcomes == old(telegram.outcomes)
        && db.threads == old(db.threads) && db.sessions == old(db.sessions)
        && handlers.consultationMode == old(handlers.consultationMode)
      // an admin-group reply always ends in the admin branch
      ensures IsAdminRoute(route) <==>
        !old(registration.AtCourses(m.from.id)) && m.chatId == adminGroupId && m.replyTo.Some?
      ensures route == AdminUserNotFound || route == AdminUnsupported || route.AdminFailed? ==>
        db.threads == old(db.threads) && telegram.sent == old(telegram.sent)
      ensures route.AdminReplied? ==>
        m.replyTo.value in old(db.threads) && route.userId == old(db.threads[m.replyTo.value].userId)
        && db.threads == old(db.threads)[m.messageId := ThreadEntry(route.userId, adminGroupId)]
                                        [route.deliveredId := ThreadEntry(route.userId, adminGroupId)]
        && ReplyKind(m).Some? && ReplyBody(m, ReplyKind(m).value).Some?
        && telegram.sent == old(telegram.sent)
             + [Delivery(Outgoing(route.userId, ReplyBody(m, ReplyKind(m).value).value, None), route.deliveredId)]
      ensures (!old(registration.AtCourses(m.from.id)) && m.chatId == adminGroupId
               && AdminReplyGoesThrough(m, old(db.threads), old(telegram.outcomes))) ==>
        route == AdminReplied(old(db.threads[m.replyTo.value].userId), old(telegram.outcomes[0]).messageId)
      // a private reply is relayed only under the three conditions
      ensures route.Continued? ==>
        route.userId == m.from.id && m.from.id != 0 && m.chatType == Private && m.chatId != adminGroupId
        && old(ContinuationAllowed(m))
        && db.threads == old(db.threads)[route.forwardedId := ThreadEntry(m.from.id, adminGroupId)]
        && telegram.sent == old(telegram.sent) + [Delivery(
             Outgoing(adminGroupId, TextBody(ForwardText(m.from, ContinuationText(m))), Some(old(db.sessions[m.from.id].threadId))),
             route.forwardedId)]
      ensures (!old(registration.AtCourses(m.from.id)) && m.chatId != adminGroupId
               && m.from.id != 0 && m.chatType == Private && old(ContinuationAllowed(m))
               && old(telegram.outcomes) != [] && old(telegram.outcomes[0]).Delivered?) ==>
        route == Continued(m.from.id, old(telegram.outcomes[0]).messageId)
      // consultation only in consultation mode, and only for text
      ensures route.Consultation? ==>
        m.from.id != 0 && m.from.id in old(handlers.consultationMode) && HasText(m) && route.consulted != NotInMode
      ensures route.Consultation? && route.consulted.Forwarded? ==>
        db.threads == old(db.threads)[route.consulted.messageId := ThreadEntry(m.from.id, adminGroupId)]
        && db.sessions == old(db.sessions)[m.from.id := Session(route.consulted.messageId)]
      ensures route == Unhandled || (route.Consultation? && !route.consulted.Forwarded?) ==>
        db.threads == old(db.threads)
      // the session anchor moves only on a delivered consultation message
      ensures !(route.Consultation? && route.consulted.Forwarded?) ==> db.sessions == old(db.sessions)
      // every entry written or rewritten belongs to the user being talked with
      ensures EntriesFor(old(db.threads), db.threads, Conversant(route, m), adminGroupId)
      ensures !route.Consultation? ==> ConsumedDelivery(route, old(telegram.outcomes), telegram.outcomes)
      ensures route == Unhandled ==> telegram.sent == old(telegram.sent)
      ensures !route.RegistrationText? ==> db.users == old(db.users) && registration.state == old(registration.state)
      ensures route.RegistrationText? ==>
        registration.state == old(registration.state) - {m.from.id}
        && OnlySenderCompleted(old(db.users), db.users, m.from.id)
      ensures db.subscriptions == old(db.subscriptions) && db.news == old(db.news) && db.faq == old(db.faq)
      ensures db.settings == old(db.settings)
      ensures handlers.consultationMode == ModeAfter(route, m.from.id, old(handlers.consultationMode))
      ensures handlers.newsIndex == old(handlers.newsIndex) && handlers.faqIndex == old(handlers.faqIndex)
      ensures handlers.subscriptionState == old(handlers.subscriptionState)
      ensures (!old(registration.AtCourses(m.from.id)) && !IsAdminRoute(route) && !route.Continued?
               && m.from.id != 0 && m.from.id in old(handlers.consultationMode) && HasText(m)) ==>
        route.Consultation?
    {
      var handled := RouteRegistration(m);
      if handled.Some? {
        route := handled.value;
      } else {
        route := RouteUnregistered(m);
      }
    }
  }

  /** Every thread entry the dispatcher writes or rewrites belongs to the
      user the message's route talks with, and sits in the admin group. */
  predicate EntriesFor(before: map<MessageId, ThreadEntry>, after: map<MessageId, ThreadEntry>,
                       owner: Option<UserId>, adminGroupId: ChatId)
  {
    && before.Keys <= after.Keys
    && forall k :: k in after && (k !in before || after[k] != before[k]) ==>
         owner.Some? && after[k] == ThreadEntry(owner.value, adminGroupId)
  }

  /** One entry written for `u` keeps every other entry. */
  lemma EntriesForOne(before: map<MessageId, ThreadEntry>, k: MessageId, u: UserId, a: ChatId)
    ensures EntriesFor(before, before[k := ThreadEntry(u, a)], Some(u), a)
  {
    var after := before[k := ThreadEntry(u, a)];
    forall j | j in after && (j !in before || after[j] != before[j])
      ensures after[j] == ThreadEntry(u, a)
    {
      assert j == k;
    }
  }

  /** Two entries written for `u` keep every other entry. */
  lemma EntriesForTwo(before: map<MessageId, ThreadEntry>, k1: MessageId, k2: MessageId, u: UserId, a: ChatId)
    ensures EntriesFor(before, before[k1 := ThreadEntry(u, a)][k2 := ThreadEntry(u, a)], Some(u), a)
  {
    var after := before[k1 := ThreadEntry(u, a)][k2 := ThreadEntry(u, a)];
    forall j | j in after && (j !in before || after[j] != before[j])
      ensures after[j] == ThreadEntry(u, a)
    {
      assert j == k1 || j == k2;
    }
  }

  /** Every thread entry is filed under the admin group's chat id. */
  predicate InAdminGroup(threads: map<MessageId, ThreadEntry>, adminGroupId: ChatId) {
    forall k :: k in threads ==> threads[k].chatId == adminGroupId
  }

  /** Whatever the dispatcher writes keeps every thread entry in the admin
      group: the entries it leaves alone were there already, and the ones it
      writes carry the admin group's id. */
  lemma EntriesForKeepAdminGroup(before: map<MessageId, ThreadEntry>, after: map<MessageId, ThreadEntry>,
                                 owner: Option<UserId>, adminGroupId: ChatId)
    requires EntriesFor(before, after, owner, adminGroupId)
    ensures InAdminGroup(before, adminGroupId) ==> InAdminGroup(after, adminGroupId)
  {
    if InAdminGroup(before, adminGroupId) {
      forall k | k in after
        ensures after[k].chatId == adminGroupId
      {
        if k !in before || after[k] != before[k] {
          assert after[k] == ThreadEntry(owner.value, adminGroupId);
        }
      }
    }
  }

  /** A dispatcher over fresh objects whose thread entries, sessions and
      scripted Telegram answers are given, with nobody registering and
      nobody in consultation mode. */
  method NewBot(admin: ChatId, threads: map<MessageId, ThreadEntry>, sessions: map<UserId, Session>,
                outcomes: seq<SendResult>) returns (bot: UserBot)
    ensures fresh(bot) && fresh(bot.db) && fresh(bot.handlers) && fresh(bot.registration) && fresh(bot.telegram)
    ensures bot.adminGroupId == admin && bot.db.threads == threads && bot.db.sessions == sessions
    ensures bot.registration.state == map[] && bot.handlers.consultationMode == {}
    ensures bot.telegram.outcomes == outcomes && bot.telegram.sent == []
  {
    var db := new Database(map[], [], [], []);
    db.threads := threads;
    db.sessions := sessions;
    var handlers := new UserHandlers();
    var registration := new Registration();
    var telegram := new Telegram(outcomes);
    bot := new UserBot(admin, db, handlers, registration, telegram);
  }

  /** A text message with nothing attached. */
  function TextMessage(chatId: ChatId, chatType: ChatType, from: Sender, messageId: MessageId,
                       replyTo: Option<MessageId>, text: string): Inbound
  {
    Inbound(chatId, chatType, from, messageId, replyTo, Some(text), "", None, None, None, None, None, None)
  }

  const Admin: ChatId := -100
  const Staff: Sender := Sender(7, "Anvar", "", "anvar")

  /** A conversation, first half. A delivered consultation message left user
      42's session and thread entry pointing at admin-group message 1001.
      The admin answers 1001; the answer reaches user 42 and is filed, as
      message 77, under user 42. */
  method AdminAnswerScenario() returns (route: Route)
    ensures route == AdminReplied(42, 77)
  {
    var bot := NewBot(Admin, map[1001 := ThreadEntry(42, Admin)], map[42 := Session(1001)], [Delivered(77)]);
    var answer := TextMessage(Admin, Supergroup, Staff, 500, Some(1001), "Keling");
    route := bot.OnMessage(answer);
    assert route == AdminReplied(42, 77);
    assert bot.telegram.sent[0].request.chatId == 42;
    assert bot.db.threads[77] == ThreadEntry(42, Admin);
  }

  /** A conversation, second half: user 42 replies to the answer (message
      77), and the reply goes to the admin group as a reply to 1001, filed
      under user 42 again. */
  method UserFollowUpScenario() returns (route: Route)
    ensures route == Continued(42, 1002)
  {
    var threads := map[1001 := ThreadEntry(42, Admin), 500 := ThreadEntry(42, Admin), 77 := ThreadEntry(42, Admin)];
    var bot := NewBot(Admin, threads, map[42 := Session(1001)], [Delivered(1002)]);
    var user := Sender(42, "Vali", "", "");
    var reply := TextMessage(42, Private, user, 78, Some(77), "Rahmat");
    route := bot.OnMessage(reply);
    assert route == Continued(42, 1002);
    assert bot.telegram.sent[0].request == Outgoing(Admin, TextBody(ForwardText(user, "Rahmat")), Some(1001));
    assert bot.db.threads[1002] == ThreadEntry(42, Admin);
  }

  /** Thread entries are keyed on the message id alone, but Telegram numbers
      messages per chat. Admin-group message 500 is filed under user 42; a
      reply delivered into user 43's private chat also gets id 500, and its
      save replaces the entry. */
  method SharedIdOverwriteScenario() returns (route: Route)
    ensures route == AdminReplied(43, 500)
  {
    var threads := map[2001 := ThreadEntry(43, Admin), 500 := ThreadEntry(42, Admin)];
    var bot := NewBot(Admin, threads, map[], [Delivered(500)]);
    route := bot.OnMessage(TextMessage(Admin, Supergroup, Staff, 600, Some(2001), "Salom"));
    assert route == AdminReplied(43, 500);
    assert bot.db.threads[500] == ThreadEntry(43, Admin);
  }

  /** After the overwrite, an admin's reply to admin-group message 500, which
      answered user 42, reaches user 43. */
  method SharedIdMisrouteScenario() returns (route: Route)
    ensures route == AdminReplied(43, 901)
  {
    var threads := map[500 := ThreadEntry(43, Admin), 600 := ThreadEntry(43, Admin)];
    var bot := NewBot(Admin, threads, map[], [Delivered(901)]);
    route := bot.OnMessage(TextMessage(Admin, Supergroup, Staff, 700, Some(500), "Savol"));
    assert route == AdminReplied(43, 901);
    assert bot.telegram.sent[0].request.chatId == 43;
  }
}
