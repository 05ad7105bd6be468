/** The registration dialogue a new user goes through: language, then phone
    number, then the courses they are interested in, typed as text or picked
    from buttons. The per-user progress lives in the module dictionary
    `userRegistrationState`, modelled as the field of one `Registration`
    object. */
module Registration {
  import opened Text
  import opened Store
  import opened Sanitize
  import opened Selection

  datatype Step = Phone | Courses

  /** One entry of `userRegistrationState`; `selectedCourses` starts out
      unset, which every reader treats as `[]`. */
  datatype RegState = RegState(step: Step, language: string, selectedCourses: seq<string>)

  /** `"uz_" + data.split("_")[1]`; a missing second field prints as "undefined". */
  function LanguageFromCallback(data: string): (lang: string)
    ensures |lang| >= 3 && lang[..3] == "uz_"
  {
    var parts := Split(data, {'_'});
    "uz_" + (if |parts| > 1 then parts[1] else "undefined")
  }

  /** The language is the second `_`-separated field of the callback data. */
  lemma LanguageIsSecondField(a: string, b: string, rest: string)
    requires NoneOf(a, {'_'}) && NoneOf(b, {'_'})
    ensures LanguageFromCallback(a + "_" + b) == "uz_" + b
    ensures LanguageFromCallback(a + "_" + b + "_" + rest) == "uz_" + b
  {
    SplitPrefix(a, '_', b, {'_'});
    SplitNoSeparator(b, {'_'});
    assert a + "_" + b == a + ['_'] + b;
    SplitPrefix(b, '_', rest, {'_'});
    assert a + "_" + b + "_" + rest == a + ['_'] + (b + ['_'] + rest);
    SplitPrefix(a, '_', b + ['_'] + rest, {'_'});
  }

  /** The Cyrillic button of the language prompt selects the Cyrillic locale table. */
  lemma CyrillicButton()
    ensures LanguageFromCallback("lang_cyrillic") == "uz_cyrillic"
  {
    var a, b := "lang", "cyrillic";
    assert NoneOf(a, {'_'}) && NoneOf(b, {'_'});
    LanguageIsSecondField(a, b, "");
    assert a + "_" + b == "lang_cyrillic";
    assert "uz_" + b == "uz_cyrillic";
  }

  /** The Latin button of the language prompt selects the Latin locale table. */
  lemma LatinButton()
    ensures LanguageFromCallback("lang_latin") == "uz_latin"
  {
    var a, b := "lang", "latin";
    assert NoneOf(a, {'_'}) && NoneOf(b, {'_'});
    LanguageIsSecondField(a, b, "");
    assert a + "_" + b == "lang_latin";
    assert "uz_" + b == "uz_latin";
  }

  /** `text.split(/,|;/)`'s separators. */
  const CourseSeparators: set<char> := {',', ';'}

  /** `.map(sanitizeCourse).filter((c) => c)` */
  function SanitizeAll(pieces: seq<string>): (courses: seq<string>)
    ensures |courses| <= |pieces|
    ensures forall i :: 0 <= i < |courses| ==> courses[i] != []
  {
    if pieces == [] then []
    else
      var c := SanitizeCourse(pieces[0]);
      (if c != [] then [c] else []) + SanitizeAll(pieces[1..])
  }

  /** Every course that survives is a clean course name. */
  lemma {:induction false} SanitizeAllClean(pieces: seq<string>)
    ensures forall c :: c in SanitizeAll(pieces) ==> IsCleanCourse(c)
  {
    if pieces != [] {
      var c := SanitizeCourse(pieces[0]);
      SanitizeIsClean(pieces[0]);
      SanitizeAllClean(pieces[1..]);
      assert SanitizeAll(pieces) == (if c != [] then [c] else []) + SanitizeAll(pieces[1..]);
    }
  }

  /** The courses a user typed: split on `,` and `;`, sanitised, empty
      pieces dropped. */
  function ParseCourses(text: string): seq<string>
  {
    SanitizeAll(Split(text, CourseSeparators))
  }

  /** Every course read from a text is a non-empty, clean course name. */
  lemma ParseCoursesClean(text: string)
    ensures forall i :: 0 <= i < |ParseCourses(text)| ==>
      ParseCourses(text)[i] != [] && IsCleanCourse(ParseCourses(text)[i])
  {
    SanitizeAllClean(Split(text, CourseSeparators));
    forall i | 0 <= i < |ParseCourses(text)| ensures IsCleanCourse(ParseCourses(text)[i]) {
      assert ParseCourses(text)[i] in ParseCourses(text);
    }
  }

  /** Non-empty names that sanitise to themselves pass through unchanged. */
  lemma {:induction false} SanitizeAllKeepsFixedPoints(courses: seq<string>)
    requires forall i :: 0 <= i < |courses| ==> courses[i] != [] && SanitizeCourse(courses[i]) == courses[i]
    ensures SanitizeAll(courses) == courses
  {
    if courses != [] {
      var rest := courses[1..];
      assert forall i :: 0 <= i < |rest| ==> rest[i] == courses[i + 1];
      SanitizeAllKeepsFixedPoints(rest);
      var c := SanitizeCourse(courses[0]);
      assert c == courses[0] && c != [];
      assert SanitizeAll(courses) == [c] + SanitizeAll(rest);
      assert [courses[0]] + rest == courses;
    }
  }

  /** A list of clean course names, written with commas or semicolons
      between them, is read back exactly. */
  lemma ParseJoinedCourses(courses: seq<string>, d: char)
    requires d in CourseSeparators
    requires forall i :: 0 <= i < |courses| ==>
      courses[i] != [] && IsCleanCourse(courses[i]) && NoneOf(courses[i], CourseSeparators)
    ensures ParseCourses(Join(courses, d)) == courses
  {
    if courses == [] {
      assert Split([], CourseSeparators) == [[]];
      assert SanitizeCourse([]) == [];
    } else {
      SplitJoin(courses, d, CourseSeparators);
      forall i | 0 <= i < |courses| ensures SanitizeCourse(courses[i]) == courses[i] {
        CleanIsFixedPoint(courses[i]);
      }
      SanitizeAllKeepsFixedPoints(courses);
    }
  }

  /** `x && x.toLowerCase().includes(courseLower)` */
  predicate NameMatches(name: string, courseLower: string) {
    name != [] && Contains(ToLower(name), courseLower)
  }

  /** The predicate of `subscriptions.find(...)` for one entered course. */
  predicate Matches(sub: Subscription, course: string) {
    var lower := ToLower(course);
    NameMatches(sub.nameLatin, lower) || NameMatches(sub.nameCyrillic, lower) || NameMatches(sub.name, lower)
  }

  /** The position `find` stops at: the first matching subscription, or -1. */
  function FirstMatch(subs: seq<Subscription>, course: string): (i: int)
    ensures -1 <= i < |subs|
    ensures i >= 0 ==> Matches(subs[i], course)
  {
    if subs == [] then -1
    else if Matches(subs[0], course) then 0
    else
      var k := FirstMatch(subs[1..], course);
      if k == -1 then -1 else k + 1
  }

  /** No subscription before the one `find` stops at matches, and none at
      all matches when it finds nothing. */
  lemma {:induction false} FirstMatchIsFirst(subs: seq<Subscription>, course: string)
    ensures forall j :: 0 <= j < |subs| && (FirstMatch(subs, course) == -1 || j < FirstMatch(subs, course)) ==>
      !Matches(subs[j], course)
  {
    if subs != [] && !Matches(subs[0], course) {
      FirstMatchIsFirst(subs[1..], course);
      forall j | 1 <= j < |subs| ensures subs[j] == subs[1..][j - 1] {
      }
    }
  }

  /** `found.name_latin || found.name` */
  function RecordedName(sub: Subscription): string {
    if sub.nameLatin != [] then sub.nameLatin else sub.name
  }

  /** What the `for` loop collects: for each entered course that some
      subscription matches, the recorded name of the first such subscription. */
  function MatchedCourses(entered: seq<string>, subs: seq<Subscription>): (matched: seq<string>)
    ensures |matched| <= |entered|
    decreases |entered|
  {
    if entered == [] then []
    else
      var prefix := MatchedCourses(entered[..|entered| - 1], subs);
      var i := FirstMatch(subs, entered[|entered| - 1]);
      if i >= 0 then prefix + [RecordedName(subs[i])] else prefix
  }

  /** The matching loop of `handleCoursesText`. */
  method MatchCourses(entered: seq<string>, subs: seq<Subscription>) returns (matched: seq<string>)
    ensures matched == MatchedCourses(entered, subs)
  {
    matched := [];
    for k := 0 to |entered|
      invariant matched == MatchedCourses(entered[..k], subs)
    {
      var course := entered[k];
      var found := FirstMatch(subs, course);
      assert entered[..k + 1][..k] == entered[..k] && entered[..k + 1][k] == course;
      if found >= 0 {
        matched := matched + [RecordedName(subs[found])];
      }
    }
    assert entered[..|entered|] == entered;
  }

  /** Nothing is matched exactly when no entered course matches any subscription. */
  lemma {:induction false} MatchedCoursesEmpty(entered: seq<string>, subs: seq<Subscription>)
    ensures MatchedCourses(entered, subs) == [] <==>
      forall c, j :: c in entered && 0 <= j < |subs| ==> !Matches(subs[j], c)
    decreases |entered|
  {
    if entered != [] {
      var init := entered[..|entered| - 1];
      var last := entered[|entered| - 1];
      MatchedCoursesEmpty(init, subs);
      assert entered == init + [last];
      var i := FirstMatch(subs, last);
      FirstMatchIsFirst(subs, last);
      if i >= 0 {
        assert last in entered && Matches(subs[i], last);
      } else {
        assert MatchedCourses(entered, subs) == MatchedCourses(init, subs);
        assert forall c :: c in entered <==> c in init || c == last;
      }
    }
  }

  /** Every matched name is the recorded name of some subscription. */
  lemma {:induction false} MatchedCoursesAreNames(entered: seq<string>, subs: seq<Subscription>)
    ensures forall x :: x in MatchedCourses(entered, subs) ==>
      exists j :: 0 <= j < |subs| && x == RecordedName(subs[j])
    decreases |entered|
  {
    if entered != [] {
      MatchedCoursesAreNames(entered[..|entered| - 1], subs);
    }
  }

  /** `matched.length > 0 ? matched : enteredCourses` */
  function FinalCourses(entered: seq<string>, matched: seq<string>): seq<string> {
    if |matched| > 0 then matched else entered
  }

  /** The stored list is empty exactly when the user typed nothing usable,
      and otherwise it is either the typed names or known subscription names. */
  lemma FinalCoursesFallback(entered: seq<string>, subs: seq<Subscription>)
    ensures var final := FinalCourses(entered, MatchedCourses(entered, subs));
      && (final == [] <==> entered == [])
      && (final == entered <== forall c, j :: c in entered && 0 <= j < |subs| ==> !Matches(subs[j], c))
      && (forall x :: x in final && x !in entered ==> exists j :: 0 <= j < |subs| && x == RecordedName(subs[j]))
  {
    MatchedCoursesEmpty(entered, subs);
    MatchedCoursesAreNames(entered, subs);
  }

  /** `text.toLowerCase() === "tugatish" || text.toLowerCase() === "тугатиш"` */
  predicate IsFinish(text: string) {
    ToLower(text) == "tugatish" || ToLower(text) == "тугатиш"
  }

  /** How `handleCoursesText` ended. */
  datatype CoursesOutcome =
    | NotHandled              // returned false: not at the courses step
    | Threw                   // `ctx.message.text.trim()` on a message without text
    | Finished                // the finish word: registration completed, no courses stored
    | Registered(courses: seq<string>)

  /** How `handlePhoneNumber` ended. */
  datatype PhoneOutcome = Ignored | Reprompted(lang: string) | Accepted

  /** How `handleCourseSelection` ended. */
  datatype SelectionOutcome =
    | NotAtCourses
    | Skipped
    | NeedOne(lang: string)
    | Confirmed(courses: seq<string>)
    | Toggled(selected: seq<string>)

  class Registration {
    var state: map<UserId, RegState>

    constructor ()
      ensures state == map[]
    {
      state := map[];
    }

    /** The user is registering and has reached the courses step. */
    predicate AtCourses(userId: UserId)
      reads this
    {
      userId in state && state[userId].step == Courses
    }

    /** The three store calls that close a registration with a course list:
        `updateUserCourses`, `updateUserSubscription`, `completeRegistration`. */
    static method StoreCourses(userId: UserId, courses: seq<string>, db: Database)
      modifies db
      ensures old(userId in db.users) ==> db.users == old(db.users)[userId := old(db.users[userId]).(
        interestedCourses := courses, subscription := courses, registrationCompleted := true)]
      ensures old(userId !in db.users) ==> db.users == old(db.users)
      ensures db.threads == old(db.threads) && db.sessions == old(db.sessions) && db.settings == old(db.settings)
      ensures db.subscriptions == old(db.subscriptions) && db.news == old(db.news) && db.faq == old(db.faq)
    {
      db.UpdateUserCourses(userId, courses);
      db.UpdateUserSubscription(userId, courses);
      db.CompleteRegistration(userId);
    }

    /** `handleLanguageSelection`: with callback data, stores the language and
        moves to the phone step; without, only shows the prompt. */
    method HandleLanguageSelection(userId: UserId, data: string, db: Database)
      modifies this, db
      ensures data == [] ==> state == old(state) && db.users == old(db.users)
      ensures data != [] ==>
        var lang := LanguageFromCallback(data);
        && state == old(state)[userId := RegState(Phone, lang, [])]
        && (old(userId in db.users) ==> db.users == old(db.users)[userId := old(db.users[userId]).(language := lang)])
        && (old(userId !in db.users) ==> db.users == old(db.users))
      ensures db.threads == old(db.threads) && db.sessions == old(db.sessions) && db.settings == old(db.settings)
      ensures db.subscriptions == old(db.subscriptions) && db.news == old(db.news) && db.faq == old(db.faq)
    {
      if data != [] {
        var lang := LanguageFromCallback(data);
        db.UpdateUserLanguage(userId, lang);
        state := state[userId := RegState(Phone, lang, [])];
      }
    }

    /** `handlePhoneNumber`: only at the phone step; a missing contact
        re-prompts, a shared number is stored and moves to the courses step. */
    method HandlePhoneNumber(userId: UserId, phone: string, db: Database) returns (outcome: PhoneOutcome)
      modifies this, db
      ensures !(old(userId in state) && old(state[userId].step) == Phone) ==>
        outcome == Ignored && state == old(state) && db.users == old(db.users)
      ensures outcome.Reprompted? ==>
        phone == [] && outcome.lang == old(state[userId].language)
        && state == old(state) && db.users == old(db.users)
      ensures old(userId in state) && old(state[userId].step) == Phone && phone == [] ==> outcome.Reprompted?
      ensures old(userId in state) && old(state[userId].step) == Phone && phone != [] ==> outcome == Accepted
      ensures outcome == Ignored ==> state == old(state) && db.users == old(db.users)
      ensures outcome == Accepted ==>
        phone != [] && old(userId in state) && old(state[userId].step) == Phone
        && state == old(state)[userId := old(state[userId]).(step := Courses)]
        && (old(userId in db.users) ==> db.users == old(db.users)[userId := old(db.users[userId]).(phone := phone)])
        && (old(userId !in db.users) ==> db.users == old(db.users))
      ensures db.threads == old(db.threads) && db.sessions == old(db.sessions) && db.settings == old(db.settings)
      ensures db.subscriptions == old(db.subscriptions) && db.news == old(db.news) && db.faq == old(db.faq)
    {
      if userId !in state || state[userId].step != Phone {
        return Ignored;
      }
      if phone == [] {
        return Reprompted(state[userId].language);
      }
      db.UpdateUserPhone(userId, phone);
      state := state[userId := state[userId].(step := Courses)];
      outcome := Accepted;
    }

    /** The finish-word half of `handleCoursesText`: registration completes
        with no courses stored, and the registration state entry goes. */
    method FinishRegistration(userId: UserId, db: Database)
      modifies this, db
      ensures state == old(state) - {userId}
      ensures old(userId in db.users) ==> db.users == old(db.users)[userId := old(db.users[userId]).(registrationCompleted := true)]
      ensures old(userId !in db.users) ==> db.users == old(db.users)
      ensures db.threads == old(db.threads) && db.sessions == old(db.sessions) && db.settings == old(db.settings)
      ensures db.subscriptions == old(db.subscriptions) && db.news == old(db.news) && db.faq == old(db.faq)
    {
      db.CompleteRegistration(userId);
      state := state - {userId};
    }

    /** The course-list half of `handleCoursesText`: the typed courses are
        replaced by the catalogue names they match, if any match, and stored;
        the registration state entry goes. */
    method RegisterCourses(userId: UserId, text: string, db: Database) returns (courses: seq<string>)
      modifies this, db
      ensures var entered := ParseCourses(text);
        courses == FinalCourses(entered, MatchedCourses(entered, db.subscriptions))
      ensures state == old(state) - {userId}
      ensures old(userId in db.users) ==> db.users == old(db.users)[userId := old(db.users[userId]).(
        interestedCourses := courses, subscription := courses, registrationCompleted := true)]
      ensures old(userId !in db.users) ==> db.users == old(db.users)
      ensures db.threads == old(db.threads) && db.sessions == old(db.sessions) && db.settings == old(db.settings)
      ensures db.subscriptions == old(db.subscriptions) && db.news == old(db.news) && db.faq == old(db.faq)
    {
      var entered := ParseCourses(text);
      var matched := MatchCourses(entered, db.subscriptions);
      courses := if |matched| > 0 then matched else entered;
      StoreCourses(userId, courses, db);
      state := state - {userId};
    }

    /** `handleCoursesText`: at the courses step, the finish word completes
        registration without courses; any other text is parsed, matched
        against the catalogue and stored. Either way the state entry goes. */
    method HandleCoursesText(userId: UserId, text: Option<string>, db: Database) returns (outcome: CoursesOutcome)
      modifies this, db
      ensures !old(AtCourses(userId)) <==> outcome == NotHandled
      ensures old(AtCourses(userId)) && text.None? <==> outcome == Threw
      ensures outcome == NotHandled || outcome == Threw ==> state == old(state) && db.users == old(db.users)
      ensures outcome == Finished ==>
        text.Some? && IsFinish(Trim(text.value)) && state == old(state) - {userId}
        && (old(userId in db.users) ==> db.users == old(db.users)[userId := old(db.users[userId]).(registrationCompleted := true)])
        && (old(userId !in db.users) ==> db.users == old(db.users))
      ensures outcome.Registered? ==>
        var entered := ParseCourses(Trim(text.value));
        && text.Some? && !IsFinish(Trim(text.value))
        && outcome.courses == FinalCourses(entered, MatchedCourses(entered, db.subscriptions))
        && state == old(state) - {userId}
        && (old(userId in db.users) ==> db.users == old(db.users)[userId := old(db.users[userId]).(
              interestedCourses := outcome.courses, subscription := outcome.courses, registrationCompleted := true)])
        && (old(userId !in db.users) ==> db.users == old(db.users))
      ensures old(AtCourses(userId)) && text.Some? ==> outcome == Finished || outcome.Registered?
      ensures db.threads == old(db.threads) && db.sessions == old(db.sessions) && db.settings == old(db.settings)
      ensures db.subscriptions == old(db.subscriptions) && db.news == old(db.news) && db.faq == old(db.faq)
    {
      if !AtCourses(userId) {
        outcome := NotHandled;
      } else if text.None? {
        outcome := Threw;
      } else {
        var trimmed := Trim(text.value);
        if IsFinish(trimmed) {
          FinishRegistration(userId, db);
          outcome := Finished;
        } else {
          var courses := RegisterCourses(userId, trimmed, db);
          outcome := Registered(courses);
        }
      }
    }

    /** `handleCourseSelection`: at the courses step, `reg_skip` completes
        registration, `reg_courses_confirm` stores a non-empty selection, and
        any other data toggles the course its name field names. */
    method HandleCourseSelection(userId: UserId, data: string, db: Database) returns (outcome: SelectionOutcome)
      modifies this, db
      ensures !old(AtCourses(userId)) <==> outcome == NotAtCourses
      ensures outcome == NotAtCourses ==> state == old(state) && db.users == old(db.users)
      ensures outcome == Skipped ==>
        data == "reg_skip" && state == old(state) - {userId}
        && (old(userId in db.users) ==> db.users == old(db.users)[userId := old(db.users[userId]).(registrationCompleted := true)])
        && (old(userId !in db.users) ==> db.users == old(db.users))
      ensures outcome.NeedOne? ==>
        data == "reg_courses_confirm" && old(state[userId].selectedCourses) == []
        && outcome.lang == old(state[userId].language)
        && state == old(state) && db.users == old(db.users)
      ensures outcome.Confirmed? ==>
        data == "reg_courses_confirm" && outcome.courses == old(state[userId].selectedCourses) && outcome.courses != []
        && state == old(state) - {userId}
        && (old(userId in db.users) ==> db.users == old(db.users)[userId := old(db.users[userId]).(
              interestedCourses := outcome.courses, subscription := outcome.courses, registrationCompleted := true)])
        && (old(userId !in db.users) ==> db.users == old(db.users))
      ensures outcome.Toggled? ==>
        data != "reg_skip" && data != "reg_courses_confirm"
        && outcome.selected == Toggle(old(state[userId].selectedCourses), CallbackName(data))
        && state == old(state)[userId := old(state[userId]).(selectedCourses := outcome.selected)]
        && db.users == old(db.users)
      ensures old(AtCourses(userId)) && data == "reg_skip" ==> outcome == Skipped
      ensures old(AtCourses(userId)) && data == "reg_courses_confirm" ==> outcome.NeedOne? || outcome.Confirmed?
      ensures db.threads == old(db.threads) && db.sessions == old(db.sessions) && db.settings == old(db.settings)
      ensures db.subscriptions == old(db.subscriptions) && db.news == old(db.news) && db.faq == old(db.faq)
    {
      if !AtCourses(userId) {
        return NotAtCourses;
      }
      var current := state[userId];
      if data == "reg_skip" {
        db.CompleteRegistration(userId);
        state := state - {userId};
        return Skipped;
      }
      if data == "reg_courses_confirm" {
        var selected := current.selectedCourses;
        if selected == [] {
          return NeedOne(current.language);
        }
        StoreCourses(userId, selected, db);
        state := state - {userId};
        return Confirmed(selected);
      }
      var courseName := CallbackName(data);
      var selected := Toggle(current.selectedCourses, courseName);
      state := state[userId := current.(selectedCourses := selected)];
      outcome := Toggled(selected);
    }
  }
}
