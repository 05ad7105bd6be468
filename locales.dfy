/** The bot's user-facing strings: two constant tables, one per script of
    Uzbek, and the lookup `t(key, lang)` with its two-level fallback. */
module Locales {

  /** The language every lookup uses when none is given. */
  const DefaultLanguage: string := "uz_cyrillic"

  /** Strings in Uzbek written in Cyrillic script, section by section. */
  const CyrillicRegistration: seq<(string, string)> := [
    ("welcome", "Ассалому алайкум"),
    ("choose_language", "🌐 Тилни танланг:"),
    ("language_selected", "✅ Тил танланди: Ўзбекча (Кирилл)"),
    ("share_phone", "📱 Телефон рақамингизни улашинг:"),
    ("phone_button", "📱 Телефон рақамни улашиш"),
    ("phone_received", "✅ Телефон рақам қабул қилинди!"),
    ("choose_courses", "🎓 Қайси курсларимизга қизиқмоқдасиз?\n\nБир нечта танлашингиз мумкин:"),
    ("courses_selected", "✅ Танланган курслар сақланди!"),
    ("registration_complete", "🎉 Рўйхатдан ўтиш муваффақиятли якунланди!\n\nЭнди ботнинг барча имкониятларидан фойдаланишингиз мумкин.")
  ]

  const CyrillicMenu: seq<(string, string)> := [
    ("menu_news", "📰 Янгиликлар"),
    ("menu_courses", "🎓 Курслар"),
    ("menu_discount", "💸 Чегирма билан олиш"),
    ("menu_payment", "💳 Тўлов турлари"),
    ("menu_subscribe", "🔔 Обуна бўлиш"),
    ("menu_faq", "❓ FAQ"),
    ("menu_consultation", "👨‍💼 Консултация"),
    ("menu_rating", "🏆 Рейтинг")
  ]

  const CyrillicNews: seq<(string, string)> := [
    ("no_news", "⚠️ Ҳозирча янгиликлар йўқ"),
    ("news_title", "📰 Янгиликлар"),
    ("news_view", "📰 Янгиликни кўриш")
  ]

  const CyrillicCourses: seq<(string, string)> := [
    ("courses_title", "🎓 WMG Academy курслари"),
    ("courses_description", "Курслар ҳақида тўлиқ маълумот олиш учун қуйидаги тугмани босинг:"),
    ("courses_view", "🎓 Курсларни кўриш")
  ]

  const CyrillicRating: seq<(string, string)> := [
    ("rating_title", "🏆 Топ ўқувчилар рейтинги"),
    ("rating_description", "Рейтингни кўриш учун қуйидаги тугмани босинг:"),
    ("rating_view", "🏆 Рейтингни кўриш")
  ]

  const CyrillicSubscription: seq<(string, string)> := [
    ("subscribe_title", "🔔 Қайси йўналишларга обуна бўлмоқчисиз?"),
    ("subscribe_description", "Broadcast хабарлари фақат танланган йўналишга келади:\n\n💡 Бир нечта йўналишни танлашингиз мумкин:"),
    ("subscribe_confirm", "✅ Тасдиқлаш"),
    ("subscribe_selected", "✅ Сиз қуйидаги йўналишларга обуна бўлдингиз:"),
    ("subscribe_notification", "📬 Сизга ушбу йўналишлардаги янгиликларни юбориб турамиз!"),
    ("select_min_one", "⚠️ Камида битта йўналиш танланг!")
  ]

  const CyrillicFaq: seq<(string, string)> := [
    ("no_faq", "⚠️ Ҳозирча FAQ йўқ"),
    ("faq_question", "❓ Савол:"),
    ("faq_answer", "✅ Жавоб:")
  ]

  const CyrillicConsultation: seq<(string, string)> := [
    ("consultation_title", "👨‍💼 Консултация"),
    ("consultation_prompt", "Саволингизни ёзинг, тез орада жавоб берамиз!\n\n💬 Хабар юборинг:"),
    ("consultation_sent", "✅ Хабарингиз юборилди! Тез орада жавоб берамиз."),
    ("consultation_cancel", "❌ Консултация бекор қилинди"),
    ("cancel_button", "❌ Бекор қилиш")
  ]

  const CyrillicButtons: seq<(string, string)> := [
    ("btn_next", "Кейинги ➡️"),
    ("btn_prev", "⬅️ Олдинги"),
    ("btn_main_menu", "🏠 Бош меню"),
    ("btn_back", "◀️ Ортга")
  ]

  const CyrillicAdmin: seq<(string, string)> := [
    ("admin_reply", "👨‍💼 Админ жавоби:"),
    ("user_label", "👤 Фойдаланувчи:"),
    ("message_label", "💬 Хабар:")
  ]

  const CyrillicErrors: seq<(string, string)> := [
    ("error_occurred", "❌ Хатолик юз берди. Илтимос қайта уриниб кўринг.")
  ]

  const CyrillicEntries: seq<(string, string)> :=
    CyrillicRegistration + CyrillicMenu + CyrillicNews + CyrillicCourses + CyrillicRating + CyrillicSubscription + CyrillicFaq + CyrillicConsultation + CyrillicButtons + CyrillicAdmin + CyrillicErrors

  /** Strings in Uzbek written in Latin script, section by section. */
  const LatinRegistration: seq<(string, string)> := [
    ("welcome", "Assalomu aleykum"),
    ("choose_language", "🌐 Tilni tanlang:"),
    ("language_selected", "✅ Til tanlandi: O'zbekcha (Lotin)"),
    ("share_phone", "📱 Telefon raqamingizni ulashing:"),
    ("phone_button", "📱 Telefon raqamni ulashish"),
    ("phone_received", "✅ Telefon raqam qabul qilindi!"),
    ("choose_courses", "🎓 Qaysi kurslarimizga qiziqmoqdasiz?\n\nBir nechta tanlashingiz mumkin:"),
    ("courses_selected", "✅ Tanlangan kurslar saqlandi!"),
    ("registration_complete", "🎉 Ro'yxatdan o'tish muvaffaqiyatli yakunlandi!\n\nEndi botning barcha imkoniyatlaridan foydalanishingiz mumkin.")
  ]

  const LatinMenu: seq<(string, string)> := [
    ("menu_news", "📰 Yangiliklar"),
    ("menu_courses", "🎓 Kurslar"),
    ("menu_discount", "💸 Chegirma bilan olish"),
    ("menu_payment", "💳 To'lov turlari"),
    ("menu_subscribe", "🔔 Obuna bo'lish"),
    ("menu_faq", "❓ FAQ"),
    ("menu_consultation", "👨‍💼 Konsultatsiya"),
    ("menu_rating", "🏆 Reyting")
  ]

  const LatinNews: seq<(string, string)> := [
    ("no_news", "⚠️ Hozircha yangiliklar yo'q"),
    ("news_title", "📰 Yangiliklar"),
    ("news_view", "📰 Yangilikni ko'rish")
  ]

  const LatinCourses: seq<(string, string)> := [
    ("courses_title", "🎓 WMG Academy kurslari"),
    ("courses_description", "Kurslar haqida to'liq ma'lumot olish uchun quyidagi tugmani bosing:"),
    ("courses_view", "🎓 Kurslarni ko'rish")
  ]

  const LatinRating: seq<(string, string)> := [
    ("rating_title", "🏆 Top o'quvchilar reytingi"),
    ("rating_description", "Reytingni ko'rish uchun quyidagi tugmani bosing:"),
    ("rating_view", "🏆 Reytingni ko'rish")
  ]

  const LatinSubscription: seq<(string, string)> := [
    ("subscribe_title", "🔔 Qaysi yo'nalishlarga obuna bo'lmoqchisiz?"),
    ("subscribe_description", "Broadcast xabarlari faqat tanlangan yo'nalishga keladi:\n\n💡 Bir nechta yo'nalishni tanlashingiz mumkin:"),
    ("subscribe_confirm", "✅ Tasdiqlash"),
    ("subscribe_selected", "✅ Siz quyidagi yo'nalishlarga obuna bo'ldingiz:"),
    ("subscribe_notification", "📬 Sizga ushbu yo'nalishlardagi yangiliklarni yuborib turamiz!"),
    ("select_min_one", "⚠️ Kamida bitta yo'nalish tanlang!")
  ]

  const LatinFaq: seq<(string, string)> := [
    ("no_faq", "⚠️ Hozircha FAQ yo'q"),
    ("faq_question", "❓ Savol:"),
    ("faq_answer", "✅ Javob:")
  ]

  const LatinConsultation: seq<(string, string)> := [
    ("consultation_title", "👨‍💼 Konsultatsiya"),
    ("consultation_prompt", "Savolingizni yozing, tez orada javob beramiz!\n\n💬 Xabar yuboring:"),
    ("consultation_sent", "✅ Xabaringiz yuborildi! Tez orada javob beramiz."),
    ("consultation_cancel", "❌ Konsultatsiya bekor qilindi"),
    ("cancel_button", "❌ Bekor qilish")
  ]

  const LatinButtons: seq<(string, string)> := [
    ("btn_next", "Keyingi ➡️"),
    ("btn_prev", "⬅️ Oldingi"),
    ("btn_main_menu", "🏠 Bosh menu"),
    ("btn_back", "◀️ Ortga")
  ]

  const LatinAdmin: seq<(string, string)> := [
    ("admin_reply", "👨‍💼 Admin javobi:"),
    ("user_label", "👤 Foydalanuvchi:"),
    ("message_label", "💬 Xabar:")
  ]

  const LatinErrors: seq<(string, string)> := [
    ("error_occurred", "❌ Xatolik yuz berdi. Iltimos qayta urinib ko'ring.")
  ]

  const LatinEntries: seq<(string, string)> :=
    LatinRegistration + LatinMenu + LatinNews + LatinCourses + LatinRating + LatinSubscription + LatinFaq + LatinConsultation + LatinButtons + LatinAdmin + LatinErrors

  /** A property list read as an object: a later entry for a key replaces an earlier one. */
  function TableOf(entries: seq<(string, string)>): map<string, string>
  {
    if entries == [] then map[]
    else
      var last := entries[|entries| - 1];
      TableOf(entries[..|entries| - 1])[last.0 := last.1]
  }

  /** The table has exactly the keys of the list, and each key's value is the
      value of one of the list's entries for it. */
  lemma {:induction false} TableOfEntries(entries: seq<(string, string)>)
    ensures forall k :: k in TableOf(entries) <==> exists i :: 0 <= i < |entries| && entries[i].0 == k
    ensures forall k :: k in TableOf(entries) ==>
      exists i :: 0 <= i < |entries| && entries[i] == (k, TableOf(entries)[k])
  {
    if entries != [] {
      var front := entries[..|entries| - 1];
      TableOfEntries(front);
      assert forall i :: 0 <= i < |front| ==> front[i] == entries[i];
    }
  }

  const Cyrillic: map<string, string> := TableOf(CyrillicEntries)

  const Latin: map<string, string> := TableOf(LatinEntries)

  /** The table of tables, indexed by language code. */
  const Tables: map<string, map<string, string>> := map["uz_cyrillic" := Cyrillic, "uz_latin" := Latin]

  /** `t(key, lang)`: the entry of the language's own table if it is there and
      non-empty, else the Cyrillic entry if that is non-empty, else the key itself. */
  function T(key: string, lang: string := DefaultLanguage): string {
    if lang in Tables && key in Tables[lang] && Tables[lang][key] != "" then Tables[lang][key]
    else if key in Cyrillic && Cyrillic[key] != "" then Cyrillic[key]
    else key
  }

  /** Every entry of a list holds a non-empty string that differs from its key. */
  predicate ProperEntries(entries: seq<(string, string)>) {
    forall i :: 0 <= i < |entries| ==> entries[i].1 != [] && entries[i].1 != entries[i].0
  }

  /** Two property lists name the same keys in the same order. */
  predicate SameKeys(a: seq<(string, string)>, b: seq<(string, string)>) {
    |a| == |b| && forall i :: 0 <= i < |a| ==> a[i].0 == b[i].0
  }

  lemma SameKeysConcat(a1: seq<(string, string)>, a2: seq<(string, string)>,
                       b1: seq<(string, string)>, b2: seq<(string, string)>)
    requires SameKeys(a1, b1) && SameKeys(a2, b2)
    ensures SameKeys(a1 + a2, b1 + b2)
  {
  }

  lemma ProperConcat(a: seq<(string, string)>, b: seq<(string, string)>)
    requires ProperEntries(a) && ProperEntries(b)
    ensures ProperEntries(a + b)
  {
  }

  /** Two tables built from lists with the same keys have the same key set. */
  lemma SameKeysSameDomain(a: seq<(string, string)>, b: seq<(string, string)>)
    requires SameKeys(a, b)
    ensures TableOf(a).Keys == TableOf(b).Keys
  {
    TableOfEntries(a);
    TableOfEntries(b);
    forall k | k in TableOf(a) ensures k in TableOf(b) {
      var i :| 0 <= i < |a| && a[i].0 == k;
      assert b[i].0 == k;
    }
    forall k | k in TableOf(b) ensures k in TableOf(a) {
      var i :| 0 <= i < |b| && b[i].0 == k;
      assert a[i].0 == k;
    }
  }

  /** The registration section names the same keys in both scripts, with proper entries. */
  lemma RegistrationSectionAgrees()
    ensures SameKeys(CyrillicRegistration, LatinRegistration) && ProperEntries(CyrillicRegistration) && ProperEntries(LatinRegistration)
  {
  }

  /** The menu section names the same keys in both scripts, with proper entries. */
  lemma MenuSectionAgrees()
    ensures SameKeys(CyrillicMenu, LatinMenu) && ProperEntries(CyrillicMenu) && ProperEntries(LatinMenu)
  {
  }

  /** The news section names the same keys in both scripts, with proper entries. */
  lemma NewsSectionAgrees()
    ensures SameKeys(CyrillicNews, LatinNews) && ProperEntries(CyrillicNews) && ProperEntries(LatinNews)
  {
  }

  /** The courses section names the same keys in both scripts, with proper entries. */
  lemma CoursesSectionAgrees()
    ensures SameKeys(CyrillicCourses, LatinCourses) && ProperEntries(CyrillicCourses) && ProperEntries(LatinCourses)
  {
  }

  /** The rating section names the same keys in both scripts, with proper entries. */
  lemma RatingSectionAgrees()
    ensures SameKeys(CyrillicRating, LatinRating) && ProperEntries(CyrillicRating) && ProperEntries(LatinRating)
  {
  }

  /** The subscription section names the same keys in both scripts, with proper entries. */
  lemma SubscriptionSectionAgrees()
    ensures SameKeys(CyrillicSubscription, LatinSubscription) && ProperEntries(CyrillicSubscription) && ProperEntries(LatinSubscription)
  {
  }

  /** The faq section names the same keys in both scripts, with proper entries. */
  lemma FaqSectionAgrees()
    ensures SameKeys(CyrillicFaq, LatinFaq) && ProperEntries(CyrillicFaq) && ProperEntries(LatinFaq)
  {
  }

  /** The consultation section names the same keys in both scripts, with proper entries. */
  lemma ConsultationSectionAgrees()
    ensures SameKeys(CyrillicConsultation, LatinConsultation) && ProperEntries(CyrillicConsultation) && ProperEntries(LatinConsultation)
  {
  }

  /** The buttons section names the same keys in both scripts, with proper entries. */
  lemma ButtonsSectionAgrees()
    ensures SameKeys(CyrillicButtons, LatinButtons) && ProperEntries(CyrillicButtons) && ProperEntries(LatinButtons)
  {
  }

  /** The admin section names the same keys in both scripts, with proper entries. */
  lemma AdminSectionAgrees()
    ensures SameKeys(CyrillicAdmin, LatinAdmin) && ProperEntries(CyrillicAdmin) && ProperEntries(LatinAdmin)
  {
  }

  /** The errors section names the same keys in both scripts, with proper entries. */
  lemma ErrorsSectionAgrees()
    ensures SameKeys(CyrillicErrors, LatinErrors) && ProperEntries(CyrillicErrors) && ProperEntries(LatinErrors)
  {
  }

  /** The two full property lists name the same keys in the same order,
      and all their entries are proper. */
  lemma EntriesAgree()
    ensures SameKeys(CyrillicEntries, LatinEntries)
    ensures ProperEntries(CyrillicEntries) && ProperEntries(LatinEntries)
  {
    RegistrationSectionAgrees();
    MenuSectionAgrees();
    NewsSectionAgrees();
    CoursesSectionAgrees();
    RatingSectionAgrees();
    SubscriptionSectionAgrees();
    FaqSectionAgrees();
    ConsultationSectionAgrees();
    ButtonsSectionAgrees();
    AdminSectionAgrees();
    ErrorsSectionAgrees();
    var c, l := CyrillicRegistration, LatinRegistration;
    SameKeysConcat(c, CyrillicMenu, l, LatinMenu);
    ProperConcat(c, CyrillicMenu);
    ProperConcat(l, LatinMenu);
    c, l := c + CyrillicMenu, l + LatinMenu;
    SameKeysConcat(c, CyrillicNews, l, LatinNews);
    ProperConcat(c, CyrillicNews);
    ProperConcat(l, LatinNews);
    c, l := c + CyrillicNews, l + LatinNews;
    SameKeysConcat(c, CyrillicCourses, l, LatinCourses);
    ProperConcat(c, CyrillicCourses);
    ProperConcat(l, LatinCourses);
    c, l := c + CyrillicCourses, l + LatinCourses;
    SameKeysConcat(c, CyrillicRating, l, LatinRating);
    ProperConcat(c, CyrillicRating);
    ProperConcat(l, LatinRating);
    c, l := c + CyrillicRating, l + LatinRating;
    SameKeysConcat(c, CyrillicSubscription, l, LatinSubscription);
    ProperConcat(c, CyrillicSubscription);
    ProperConcat(l, LatinSubscription);
    c, l := c + CyrillicSubscription, l + LatinSubscription;
    SameKeysConcat(c, CyrillicFaq, l, LatinFaq);
    ProperConcat(c, CyrillicFaq);
    ProperConcat(l, LatinFaq);
    c, l := c + CyrillicFaq, l + LatinFaq;
    SameKeysConcat(c, CyrillicConsultation, l, LatinConsultation);
    ProperConcat(c, CyrillicConsultation);
    ProperConcat(l, LatinConsultation);
    c, l := c + CyrillicConsultation, l + LatinConsultation;
    SameKeysConcat(c, CyrillicButtons, l, LatinButtons);
    ProperConcat(c, CyrillicButtons);
    ProperConcat(l, LatinButtons);
    c, l := c + CyrillicButtons, l + LatinButtons;
    SameKeysConcat(c, CyrillicAdmin, l, LatinAdmin);
    ProperConcat(c, CyrillicAdmin);
    ProperConcat(l, LatinAdmin);
    c, l := c + CyrillicAdmin, l + LatinAdmin;
    SameKeysConcat(c, CyrillicErrors, l, LatinErrors);
    ProperConcat(c, CyrillicErrors);
    ProperConcat(l, LatinErrors);
    c, l := c + CyrillicErrors, l + LatinErrors;
    assert c == CyrillicEntries && l == LatinEntries;
  }

  /** Both tables define the same keys, and every entry is a non-empty string
      other than its own key. */
  lemma TablesAgree()
    ensures Cyrillic.Keys == Latin.Keys
    ensures forall k :: k in Cyrillic ==> Cyrillic[k] != [] && Cyrillic[k] != k
    ensures forall k :: k in Latin ==> Latin[k] != [] && Latin[k] != k
  {
    EntriesAgree();
    SameKeysSameDomain(CyrillicEntries, LatinEntries);
    TableOfEntries(CyrillicEntries);
    TableOfEntries(LatinEntries);
  }

  /** A known language whose table has the key gets its own entry. */
  lemma TOwnEntry(key: string, lang: string)
    requires lang in Tables && key in Tables[lang]
    ensures T(key, lang) == Tables[lang][key]
  {
    TablesAgree();
  }

  /** Any other language code, such as the schema default "uz", reads the Cyrillic table. */
  lemma TUnknownLanguage(key: string, lang: string)
    requires lang !in Tables && key in Cyrillic
    ensures T(key, lang) == Cyrillic[key]
    ensures T(key, lang) == T(key)
  {
    TablesAgree();
  }

  /** A key that neither table defines comes back unchanged. */
  lemma TMissingKey(key: string, lang: string)
    requires key !in Cyrillic && key !in Latin
    ensures T(key, lang) == key
  {
  }

  /** For a key the tables define, the lookup never falls back to the bare key. */
  lemma TNeverBareKey(key: string, lang: string)
    requires key in Cyrillic
    ensures T(key, lang) != key
  {
    TablesAgree();
  }
}
