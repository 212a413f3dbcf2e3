/**
 * The conversation of the pricing bot: a fixed linear sequence of stages,
 * one handler per stage, a session dictionary `user_data` that every handler
 * writes one field of, and a `/cancel` fallback. The pure part (Step, Run)
 * states what one incoming update does to a session; the class PricingBot
 * holds the stage and the dictionary and updates them in place, handler by
 * handler, as the bot does.
 */
module Conversation {
  import opened Text
  import opened Pricing

  /**
   * The stages of the conversation. The input stages are numbered 0 to 6 in
   * the order they are asked; End is the conversation handler's END (-1),
   * which is also the state of a user with no active conversation.
   */
  datatype Stage = Language | Width | Length | Height | Thickness | Quantity | BoxType | End {

    function Code(): (c: int)
      ensures -1 <= c < 7
      ensures c == -1 <==> this == End
    {
      match this
      case Language => 0
      case Width => 1
      case Length => 2
      case Height => 3
      case Thickness => 4
      case Quantity => 5
      case BoxType => 6
      case End => -1
    }

    /** The stage the handler of this stage returns. */
    function Next(): Stage
      requires this != End
    {
      match this
      case Language => Width
      case Width => Length
      case Length => Height
      case Height => Thickness
      case Thickness => Quantity
      case Quantity => BoxType
      case BoxType => End
    }
  }

  /** A value stored in the session: a parsed float, a parsed int, or text. */
  datatype Value = Real(x: real) | Int(n: int) | Str(s: string)

  /** The session dictionary, keyed by field name. */
  type UserData = map<string, Value>

  /** The template keys of the message texts. */
  datatype Prompt = EnterWidth | EnterLength | EnterHeight | EnterThickness | EnterQuantity | ChooseBoxType | Cancelled | Calculating

  /**
   * A message sent back to the user: the welcome text, the template `key`
   * of the texts in language `lang`, or the final quote.
   */
  datatype Reply = Welcome | Say(lang: string, key: Prompt) | FinalPrice(lang: string, strategy: string, price: real)

  /**
   * An incoming update: the /start or /cancel command, or a text message.
   * A text message carries its text and the two readings of it the handlers
   * take, `number` as with float(text) and `count` as with int(text).
   */
  datatype Update = StartCommand | CancelCommand | Message(text: string, number: real, count: int)

  /** The state of one user's conversation. */
  datatype Session = Session(stage: Stage, data: UserData)

  /** The advisory service: from the session it is shown, one line of reply. */
  type Advisor = UserData -> string

  /** "فارسی", the Farsi button of the language keyboard. */
  const FarsiButton: string := "\U{641}\U{627}\U{631}\U{633}\U{6CC}"

  /** The language chosen by a reply to the language question. */
  function LanguageFor(text: string): (lang: string)
    ensures lang == "fa" || lang == "en"
    ensures lang == "fa" <==> Contains(text, FarsiButton)
  {
    if Contains(text, FarsiButton) then "fa" else "en"
  }

  predicate HasLang(d: UserData) {
    "lang" in d && (d["lang"] == Str("en") || d["lang"] == Str("fa"))
  }

  function Lang(d: UserData): string
    requires HasLang(d)
  {
    d["lang"].s
  }

  /** Every field, when present, holds the kind of value its handler stores. */
  predicate WellTyped(d: UserData) {
    && ("lang" in d ==> HasLang(d))
    && ("width" in d ==> d["width"].Real?)
    && ("length" in d ==> d["length"].Real?)
    && ("height" in d ==> d["height"].Real?)
    && ("thickness" in d ==> d["thickness"].Real?)
    && ("quantity" in d ==> d["quantity"].Int?)
    && ("boxtype" in d ==> d["boxtype"].Str?)
    && ("strategy" in d ==> d["strategy"].Str? && d["strategy"].s in StrategyCoefficients)
  }

  /** The language of the cancellation notice: the stored one, English by default. */
  function CancelLanguage(d: UserData): (lang: string)
    requires "lang" in d ==> HasLang(d)
    ensures lang == "en" || lang == "fa"
    ensures "lang" in d ==> lang == Lang(d)
    ensures "lang" !in d ==> lang == "en"
  {
    if "lang" in d then d["lang"].s else "en"
  }

  /** The fields of a session whose conversation has been completed. */
  const AllKeys: set<string> := {"lang", "width", "length", "height", "thickness", "quantity", "boxtype", "strategy"}

  /**
   * The fields of the questions asked before stage st have been written:
   * the answers to questions 0 .. st.Code() - 1 (none once the conversation
   * is over).
   */
  predicate Answers(d: UserData, st: Stage) {
    && (st.Code() > 0 ==> "lang" in d)
    && (st.Code() > 1 ==> "width" in d)
    && (st.Code() > 2 ==> "length" in d)
    && (st.Code() > 3 ==> "height" in d)
    && (st.Code() > 4 ==> "thickness" in d)
    && (st.Code() > 5 ==> "quantity" in d)
  }

  /** The fields the handler of a stage writes. */
  function Writes(st: Stage): set<string> {
    match st
    case Language => {"lang"}
    case Width => {"width"}
    case Length => {"length"}
    case Height => {"height"}
    case Thickness => {"thickness"}
    case Quantity => {"quantity"}
    case BoxType => {"boxtype", "strategy"}
    case End => {}
  }

  /** The invariant of every session the conversation can reach. */
  predicate Inv(s: Session) {
    WellTyped(s.data) && Answers(s.data, s.stage)
  }

  /** The order described by a completed session, as the price computation reads it. */
  function OrderOf(d: UserData): Order
    requires WellTyped(d) && AllKeys <= d.Keys
  {
    Order(d["width"].x, d["length"].x, d["height"].x, d["thickness"].x,
          d["quantity"].n, d["boxtype"].s, d["strategy"].s)
  }

  /**
   * The reply to the box-type question: store the label, consult the advisor,
   * store the resolved strategy and quote the price.
   */
  function Quote(d: UserData, text: string, advisor: Advisor): (r: (UserData, seq<Reply>))
    requires WellTyped(d) && Answers(d, BoxType)
    ensures WellTyped(r.0) && AllKeys <= r.0.Keys
  {
    var d1 := d["boxtype" := Str(text)];
    var strategy := ResolveStrategy(advisor(d1));
    var d2 := d1["strategy" := Str(strategy)];
    (d2, [Say(Lang(d), Calculating), FinalPrice(Lang(d), strategy, CalculatePrice(OrderOf(d2)))])
  }

  /**
   * What a text message does: in an active conversation it goes to the
   * handler of the current stage, which writes its field and returns the
   * next stage; with no active conversation it is ignored.
   */
  function Answer(s: Session, text: string, number: real, count: int, advisor: Advisor): (r: (Session, seq<Reply>))
    requires Inv(s)
    ensures Inv(r.0)
  {
    match s.stage
    case End => (s, [])
    case Language =>
      var lang := LanguageFor(text);
      (Session(Width, s.data["lang" := Str(lang)]), [Say(lang, EnterWidth)])
    case Width => (Session(Length, s.data["width" := Real(number)]), [Say(Lang(s.data), EnterLength)])
    case Length => (Session(Height, s.data["length" := Real(number)]), [Say(Lang(s.data), EnterHeight)])
    case Height => (Session(Thickness, s.data["height" := Real(number)]), [Say(Lang(s.data), EnterThickness)])
    case Thickness => (Session(Quantity, s.data["thickness" := Real(number)]), [Say(Lang(s.data), EnterQuantity)])
    case Quantity => (Session(BoxType, s.data["quantity" := Int(count)]), [Say(Lang(s.data), ChooseBoxType)])
    case BoxType =>
      var q := Quote(s.data, text, advisor);
      (Session(End, q.0), q.1)
  }

  /**
   * What one update does to a session, as the conversation handler routes it:
   * with no active conversation only /start is answered; in an active one a
   * text message goes to the handler of the current stage, /cancel to the
   * fallback, and /start is ignored.
   */
  function Step(s: Session, u: Update, advisor: Advisor): (r: (Session, seq<Reply>))
    requires Inv(s)
    ensures Inv(r.0)
  {
    match u
    case StartCommand =>
      if s.stage == End then (Session(Language, s.data), [Welcome]) else (s, [])
    case CancelCommand =>
      if s.stage == End then (s, []) else (Session(End, s.data), [Say(CancelLanguage(s.data), Cancelled)])
    case Message(text, number, count) => Answer(s, text, number, count, advisor)
  }

  /**
   * The updates of `us` from index k on, one after the other; the replies are
   * concatenated in the order they are sent.
   */
  function RunFrom(s: Session, us: seq<Update>, k: nat, advisor: Advisor): (r: (Session, seq<Reply>))
    requires Inv(s) && k <= |us|
    ensures Inv(r.0)
    decreases |us| - k
  {
    if k == |us| then (s, [])
    else
      var first := Step(s, us[k], advisor);
      var rest := RunFrom(first.0, us, k + 1, advisor);
      (rest.0, first.1 + rest.1)
  }

  /** A sequence of updates, one after the other. */
  function Run(s: Session, us: seq<Update>, advisor: Advisor): (Session, seq<Reply>)
    requires Inv(s)
  {
    RunFrom(s, us, 0, advisor)
  }

  // ---------------------------------------------------------------------
  // Properties of the conversation

  /** The stages follow one another in the order they are numbered, ending in END. */
  lemma StageOrder(st: Stage)
    requires st != End
    ensures st != BoxType ==> st.Next().Code() == st.Code() + 1
    ensures st == BoxType <==> st.Next() == End
  {
  }

  /** The bot answers in Farsi exactly when the reply contains "فارسی" somewhere. */
  lemma LanguageChoice(text: string)
    ensures LanguageFor(text) == "fa" <==> exists i :: OccursAt(text, FarsiButton, i)
    ensures LanguageFor(text) == "en" <==> !exists i :: OccursAt(text, FarsiButton, i)
  {
    ContainsIff(text, FarsiButton);
  }

  /** The two buttons of the language keyboard choose the two languages. */
  lemma LanguageButtons()
    ensures LanguageFor("English") == "en"
    ensures LanguageFor(FarsiButton) == "fa"
  {
    assert StartsWith(FarsiButton, FarsiButton);
    ContainsIff("English", FarsiButton);
    forall i | 0 <= i <= 2 ensures !OccursAt("English", FarsiButton, i) {
      assert "English"[i..i + 5][0] != FarsiButton[0];
    }
  }

  /**
   * In an active conversation a text message advances exactly one stage,
   * writes exactly the fields of the current stage's handler, stores the
   * value it was given, and leaves every other field as it was.
   */
  lemma MessageAdvancesOneStage(s: Session, text: string, number: real, count: int, advisor: Advisor)
    requires Inv(s) && s.stage != End
    ensures var r := Step(s, Message(text, number, count), advisor);
      && r.0.stage == s.stage.Next()
      && r.0.data.Keys == s.data.Keys + Writes(s.stage)
      && (forall k :: k in s.data && k !in Writes(s.stage) ==> r.0.data[k] == s.data[k])
      && (s.stage == Language ==> r.0.data["lang"] == Str(LanguageFor(text)))
      && (s.stage == Width ==> r.0.data["width"] == Real(number))
      && (s.stage == Length ==> r.0.data["length"] == Real(number))
      && (s.stage == Height ==> r.0.data["height"] == Real(number))
      && (s.stage == Thickness ==> r.0.data["thickness"] == Real(number))
      && (s.stage == Quantity ==> r.0.data["quantity"] == Int(count))
      && (s.stage == BoxType ==> r.0.data["boxtype"] == Str(text))
  {
  }

  /**
   * /cancel ends an active conversation from any stage and answers in the
   * stored language; the session dictionary is left untouched.
   */
  lemma CancelFromAnyStage(s: Session, advisor: Advisor)
    requires Inv(s)
    ensures var r := Step(s, CancelCommand, advisor);
      && r.0 == Session(End, s.data)
      && (s.stage != End ==> r.1 == [Say(CancelLanguage(s.data), Cancelled)])
      && (s.stage == End ==> r.1 == [])
  {
  }

  /** Without an active conversation only /start does anything; it keeps the stored fields. */
  lemma IdleAnswersOnlyStart(s: Session, u: Update, advisor: Advisor)
    requires Inv(s) && s.stage == End
    ensures var r := Step(s, u, advisor);
      && r.0.data == s.data
      && (u == StartCommand ==> r.0.stage == Language && r.1 == [Welcome])
      && (u != StartCommand ==> r.0 == s && r.1 == [])
  {
  }

  /** No update removes a field. */
  lemma StepKeepsFields(s: Session, u: Update, advisor: Advisor)
    requires Inv(s)
    ensures s.data.Keys <= Step(s, u, advisor).0.data.Keys
  {
  }

  /** No sequence of updates removes a field: the session is never cleared. */
  lemma {:induction false} SessionNeverCleared(s: Session, us: seq<Update>, k: nat, advisor: Advisor)
    requires Inv(s) && k <= |us|
    ensures s.data.Keys <= RunFrom(s, us, k, advisor).0.data.Keys
    decreases |us| - k
  {
    if k < |us| {
      StepKeepsFields(s, us[k], advisor);
      SessionNeverCleared(Step(s, us[k], advisor).0, us, k + 1, advisor);
    }
  }

  /** The session after the answers to the six questions before the box type, at us[1..7]. */
  function Answered(d: UserData, us: seq<Update>): UserData
    requires |us| >= 7 && forall i :: 1 <= i < 7 ==> us[i].Message?
  {
    d["lang" := Str(LanguageFor(us[1].text))]
     ["width" := Real(us[2].number)]
     ["length" := Real(us[3].number)]
     ["height" := Real(us[4].number)]
     ["thickness" := Real(us[5].number)]
     ["quantity" := Int(us[6].count)]
  }

  // One lemma per question: the answer at index k, then the rest of the run.

  lemma AnswerLanguage(d: UserData, us: seq<Update>, k: nat, advisor: Advisor)
    requires Inv(Session(Language, d)) && k < |us| && us[k].Message?
    ensures var lang := LanguageFor(us[k].text);
      var n := Session(Width, d["lang" := Str(lang)]);
      && Inv(n)
      && RunFrom(Session(Language, d), us, k, advisor) ==
        (RunFrom(n, us, k + 1, advisor).0, [Say(lang, EnterWidth)] + RunFrom(n, us, k + 1, advisor).1)
  {
  }

  lemma AnswerWidth(d: UserData, us: seq<Update>, k: nat, advisor: Advisor)
    requires Inv(Session(Width, d)) && k < |us| && us[k].Message?
    ensures var n := Session(Length, d["width" := Real(us[k].number)]);
      && Inv(n)
      && RunFrom(Session(Width, d), us, k, advisor) ==
        (RunFrom(n, us, k + 1, advisor).0, [Say(Lang(d), EnterLength)] + RunFrom(n, us, k + 1, advisor).1)
  {
  }

  lemma AnswerLength(d: UserData, us: seq<Update>, k: nat, advisor: Advisor)
    requires Inv(Session(Length, d)) && k < |us| && us[k].Message?
    ensures var n := Session(Height, d["length" := Real(us[k].number)]);
      && Inv(n)
      && RunFrom(Session(Length, d), us, k, advisor) ==
        (RunFrom(n, us, k + 1, advisor).0, [Say(Lang(d), EnterHeight)] + RunFrom(n, us, k + 1, advisor).1)
  {
  }

  lemma AnswerHeight(d: UserData, us: seq<Update>, k: nat, advisor: Advisor)
    requires Inv(Session(Height, d)) && k < |us| && us[k].Message?
    ensures var n := Session(Thickness, d["height" := Real(us[k].number)]);
      && Inv(n)
      && RunFrom(Session(Height, d), us, k, advisor) ==
        (RunFrom(n, us, k + 1, advisor).0, [Say(Lang(d), EnterThickness)] + RunFrom(n, us, k + 1, advisor).1)
  {
  }

  lemma AnswerThickness(d: UserData, us: seq<Update>, k: nat, advisor: Advisor)
    requires Inv(Session(Thickness, d)) && k < |us| && us[k].Message?
    ensures var n := Session(Quantity, d["thickness" := Real(us[k].number)]);
      && Inv(n)
      && RunFrom(Session(Thickness, d), us, k, advisor) ==
        (RunFrom(n, us, k + 1, advisor).0, [Say(Lang(d), EnterQuantity)] + RunFrom(n, us, k + 1, advisor).1)
  {
  }

  lemma AnswerQuantity(d: UserData, us: seq<Update>, k: nat, advisor: Advisor)
    requires Inv(Session(Quantity, d)) && k < |us| && us[k].Message?
    ensures var n := Session(BoxType, d["quantity" := Int(us[k].count)]);
      && Inv(n)
      && RunFrom(Session(Quantity, d), us, k, advisor) ==
        (RunFrom(n, us, k + 1, advisor).0, [Say(Lang(d), ChooseBoxType)] + RunFrom(n, us, k + 1, advisor).1)
  {
  }

  /**
   * The answer to the box-type question, as the last update, ends the conversation with the quote.
   * The `+ []` is RunFrom's `first.1 + rest.1` at the last step, where the rest of the run is empty.
   */
  lemma AnswerBoxType(d: UserData, us: seq<Update>, k: nat, advisor: Advisor)
    requires Inv(Session(BoxType, d)) && k == |us| - 1 && us[k].Message?
    ensures var q := Quote(d, us[k].text, advisor);
      RunFrom(Session(BoxType, d), us, k, advisor) == (Session(End, q.0), q.1 + [])
  {
  }

  /** /start from an idle session greets and opens the language question. */
  lemma Greeting(s: Session, us: seq<Update>, advisor: Advisor)
    requires Inv(s) && s.stage == End && |us| > 0 && us[0] == StartCommand
    ensures var n := Session(Language, s.data);
      RunFrom(s, us, 0, advisor) == (RunFrom(n, us, 1, advisor).0, [Welcome] + RunFrom(n, us, 1, advisor).1)
  {
  }

  /** Two runs linked end to start: the replies of the first come before the rest. */
  lemma Chain(a: (Session, seq<Reply>), b: (Session, seq<Reply>), last: Session, p: seq<Reply>, tail: seq<Reply>)
    requires a == (b.0, p + b.1) && b == (last, tail)
    ensures a == (last, p + tail)
  {
  }

  /**
   * The nine replies of a complete conversation, in the order they are sent.
   * The `quote + []` matches RunFrom's `first.1 + rest.1` at the last step.
   */
  function Transcript(lang: string, quote: seq<Reply>): (r: seq<Reply>)
    requires |quote| == 2
    ensures |r| == 9 && r[0] == Welcome && r[8] == quote[1]
    ensures r[1..7] == [Say(lang, EnterWidth), Say(lang, EnterLength), Say(lang, EnterHeight),
                        Say(lang, EnterThickness), Say(lang, EnterQuantity), Say(lang, ChooseBoxType)]
  {
    [Welcome] + ([Say(lang, EnterWidth)] + ([Say(lang, EnterLength)] + ([Say(lang, EnterHeight)] +
      ([Say(lang, EnterThickness)] + ([Say(lang, EnterQuantity)] + ([Say(lang, ChooseBoxType)] + (quote + [])))))))
  }

  /** A complete conversation is a run of eight updates: /start and then seven text messages. */
  predicate Complete(us: seq<Update>) {
    |us| == 8 && us[0] == StartCommand && forall i :: 1 <= i < 8 ==> us[i].Message?
  }

  /** The answers to the language, width and length questions. */
  lemma OpeningAnswers(d: UserData, us: seq<Update>, advisor: Advisor)
    requires Inv(Session(Language, d)) && Complete(us)
    ensures var lang := LanguageFor(us[1].text);
      var n := Session(Height, d["lang" := Str(lang)]["width" := Real(us[2].number)]["length" := Real(us[3].number)]);
      && Inv(n)
      && RunFrom(Session(Language, d), us, 1, advisor) ==
        (RunFrom(n, us, 4, advisor).0,
         [Say(lang, EnterWidth)] + ([Say(lang, EnterLength)] + ([Say(lang, EnterHeight)] + RunFrom(n, us, 4, advisor).1)))
  {
    var lang := LanguageFor(us[1].text);
    var d1 := d["lang" := Str(lang)];
    var d2 := d1["width" := Real(us[2].number)];
    var d3 := d2["length" := Real(us[3].number)];
    var r4 := RunFrom(Session(Height, d3), us, 4, advisor);
    AnswerLanguage(d, us, 1, advisor);
    AnswerWidth(d1, us, 2, advisor);
    AnswerLength(d2, us, 3, advisor);
    var t3 := [Say(lang, EnterHeight)] + r4.1;
    Chain(RunFrom(Session(Width, d1), us, 2, advisor), RunFrom(Session(Length, d2), us, 3, advisor), r4.0,
          [Say(lang, EnterLength)], t3);
    Chain(RunFrom(Session(Language, d), us, 1, advisor), RunFrom(Session(Width, d1), us, 2, advisor), r4.0,
          [Say(lang, EnterWidth)], [Say(lang, EnterLength)] + t3);
  }

  /** The answers to the height, thickness, quantity and box-type questions. */
  lemma ClosingAnswers(d: UserData, us: seq<Update>, advisor: Advisor)
    requires Inv(Session(Height, d)) && Complete(us)
    ensures var lang := Lang(d);
      var d6 := d["height" := Real(us[4].number)]["thickness" := Real(us[5].number)]["quantity" := Int(us[6].count)];
      var q := Quote(d6, us[7].text, advisor);
      RunFrom(Session(Height, d), us, 4, advisor) ==
        (Session(End, q.0),
         [Say(lang, EnterThickness)] + ([Say(lang, EnterQuantity)] + ([Say(lang, ChooseBoxType)] + (q.1 + []))))
  {
    var lang := Lang(d);
    var d4 := d["height" := Real(us[4].number)];
    var d5 := d4["thickness" := Real(us[5].number)];
    var d6 := d5["quantity" := Int(us[6].count)];
    var q := Quote(d6, us[7].text, advisor);
    var last := Session(End, q.0);
    AnswerHeight(d, us, 4, advisor);
    AnswerThickness(d4, us, 5, advisor);
    AnswerQuantity(d5, us, 6, advisor);
    AnswerBoxType(d6, us, 7, advisor);
    // q.1 + [] is the last step's `first.1 + rest.1`, as AnswerBoxType states it.
    var t6 := [Say(lang, ChooseBoxType)] + (q.1 + []);
    Chain(RunFrom(Session(Quantity, d5), us, 6, advisor), RunFrom(Session(BoxType, d6), us, 7, advisor), last,
          [Say(lang, ChooseBoxType)], q.1 + []);
    var t5 := [Say(lang, EnterQuantity)] + t6;
    Chain(RunFrom(Session(Thickness, d4), us, 5, advisor), RunFrom(Session(Quantity, d5), us, 6, advisor), last,
          [Say(lang, EnterQuantity)], t6);
    Chain(RunFrom(Session(Height, d), us, 4, advisor), RunFrom(Session(Thickness, d4), us, 5, advisor), last,
          [Say(lang, EnterThickness)], t5);
  }

  /** A complete conversation from an idle session, as one equation. */
  lemma RunTranscript(s: Session, us: seq<Update>, advisor: Advisor)
    requires Inv(s) && s.stage == End && Complete(us)
    ensures var q := Quote(Answered(s.data, us), us[7].text, advisor);
      Run(s, us, advisor) == (Session(End, q.0), Transcript(LanguageFor(us[1].text), q.1))
  {
    var lang := LanguageFor(us[1].text);
    var d3 := s.data["lang" := Str(lang)]["width" := Real(us[2].number)]["length" := Real(us[3].number)];
    var q := Quote(Answered(s.data, us), us[7].text, advisor);
    Greeting(s, us, advisor);
    OpeningAnswers(s.data, us, advisor);
    ClosingAnswers(d3, us, advisor);
    Chain(RunFrom(s, us, 0, advisor), RunFrom(Session(Language, s.data), us, 1, advisor), Session(End, q.0),
          [Welcome], Transcript(lang, q.1)[1..]);
  }

  /** The order a completed session describes is made of the answers given. */
  lemma AnsweredOrder(d: UserData, us: seq<Update>, strategy: string)
    requires WellTyped(d) && Complete(us) && strategy in StrategyCoefficients
    ensures var e := Answered(d, us)["boxtype" := Str(us[7].text)]["strategy" := Str(strategy)];
      && WellTyped(e) && AllKeys <= e.Keys
      && OrderOf(e) == Order(us[2].number, us[3].number, us[4].number, us[5].number, us[6].count, us[7].text, strategy)
  {
  }

  /**
   * A complete conversation from an idle session ends idle with every field
   * present, holding the values supplied and the strategy resolved from the
   * advisor's reply; it answers nine times, first with the welcome and last
   * with the quote computed from exactly these fields.
   */
  lemma FullRun(s: Session, us: seq<Update>, advisor: Advisor)
    requires Inv(s) && s.stage == End && Complete(us)
    ensures var r := Run(s, us, advisor);
      var lang := LanguageFor(us[1].text);
      var d := Answered(s.data, us)["boxtype" := Str(us[7].text)];
      var strategy := ResolveStrategy(advisor(d));
      && r.0 == Session(End, d["strategy" := Str(strategy)])
      && AllKeys <= r.0.data.Keys
      && |r.1| == 9 && r.1[0] == Welcome
      && r.1[8] == FinalPrice(lang, strategy, CalculatePrice(OrderOf(r.0.data)))
  {
    RunTranscript(s, us, advisor);
  }

  // ---------------------------------------------------------------------
  // The bot, with its state updated in place

  /**
   * The conversation with one user: the stage the conversation handler keeps
   * for that user and the module-level dictionary `user_data`. Each handler
   * writes its field into the dictionary and returns the next stage; the
   * dispatcher HandleUpdate routes an update to a handler and stores the
   * stage it returns.
   */
  class PricingBot {
    var stage: Stage
    var userData: UserData

    ghost predicate Valid()
      reads this
    {
      Inv(Session(stage, userData))
    }

    function State(): Session
      reads this
    {
      Session(stage, userData)
    }

    /** No conversation is active and the dictionary is empty. */
    constructor ()
      ensures Valid() && stage == End && userData == map[]
    {
      stage := End;
      userData := map[];
    }

    /** The /start entry point: greets and asks for the language; writes nothing. */
    method Start() returns (next: Stage, replies: seq<Reply>)
      ensures next == Language && replies == [Welcome]
    {
      replies := [Welcome];
      next := Language;
    }

    /** Stores "fa" when the reply contains the Farsi button's text and "en" otherwise. */
    method SetLanguage(text: string) returns (next: Stage, replies: seq<Reply>)
      modifies this`userData
      ensures userData == old(userData)["lang" := Str(LanguageFor(text))]
      ensures next == Width && replies == [Say(LanguageFor(text), EnterWidth)]
    {
      var lang := LanguageFor(text);
      userData := userData["lang" := Str(lang)];
      replies := [Say(lang, EnterWidth)];
      next := Width;
    }

    method GetWidth(number: real) returns (next: Stage, replies: seq<Reply>)
      requires HasLang(userData)
      modifies this`userData
      ensures userData == old(userData)["width" := Real(number)]
      ensures next == Length && replies == [Say(Lang(old(userData)), EnterLength)]
    {
      userData := userData["width" := Real(number)];
      var lang := Lang(userData);
      replies := [Say(lang, EnterLength)];
      next := Length;
    }

    method GetLength(number: real) returns (next: Stage, replies: seq<Reply>)
      requires HasLang(userData)
      modifies this`userData
      ensures userData == old(userData)["length" := Real(number)]
      ensures next == Height && replies == [Say(Lang(old(userData)), EnterHeight)]
    {
      userData := userData["length" := Real(number)];
      var lang := Lang(userData);
      replies := [Say(lang, EnterHeight)];
      next := Height;
    }

    method GetHeight(number: real) returns (next: Stage, replies: seq<Reply>)
      requires HasLang(userData)
      modifies this`userData
      ensures userData == old(userData)["height" := Real(number)]
      ensures next == Thickness && replies == [Say(Lang(old(userData)), EnterThickness)]
    {
      userData := userData["height" := Real(number)];
      var lang := Lang(userData);
      replies := [Say(lang, EnterThickness)];
      next := Thickness;
    }

    method GetThickness(number: real) returns (next: Stage, replies: seq<Reply>)
      requires HasLang(userData)
      modifies this`userData
      ensures userData == old(userData)["thickness" := Real(number)]
      ensures next == Quantity && replies == [Say(Lang(old(userData)), EnterQuantity)]
    {
      userData := userData["thickness" := Real(number)];
      var lang := Lang(userData);
      replies := [Say(lang, EnterQuantity)];
      next := Quantity;
    }

    method GetQuantity(count: int) returns (next: Stage, replies: seq<Reply>)
      requires HasLang(userData)
      modifies this`userData
      ensures userData == old(userData)["quantity" := Int(count)]
      ensures next == BoxType && replies == [Say(Lang(old(userData)), ChooseBoxType)]
    {
      userData := userData["quantity" := Int(count)];
      var lang := Lang(userData);
      replies := [Say(lang, ChooseBoxType)];
      next := BoxType;
    }

    /**
     * Stores the box type, asks the advisor, stores the strategy (falling back
     * to Routine) and quotes the price; the conversation then ends.
     */
    method GetBoxType(text: string, advisor: Advisor) returns (next: Stage, replies: seq<Reply>)
      requires WellTyped(userData) && Answers(userData, BoxType)
      modifies this`userData
      ensures (userData, replies) == Quote(old(userData), text, advisor)
      ensures userData["boxtype"] == Str(text) && userData["strategy"].s in StrategyCoefficients
      ensures next == End
    {
      userData := userData["boxtype" := Str(text)];
      var lang := Lang(userData);
      var strategy := ResolveStrategy(advisor(userData));
      userData := userData["strategy" := Str(strategy)];
      var price := CalculatePrice(OrderOf(userData));
      replies := [Say(lang, Calculating), FinalPrice(lang, strategy, price)];
      next := End;
    }

    /** The /cancel fallback: answers in the stored language, or English; changes nothing. */
    method Cancel() returns (next: Stage, replies: seq<Reply>)
      requires "lang" in userData ==> HasLang(userData)
      ensures next == End && replies == [Say(CancelLanguage(userData), Cancelled)]
    {
      var lang := CancelLanguage(userData);
      replies := [Say(lang, Cancelled)];
      next := End;
    }

    /** Routes a text message to the handler of the current stage and stores the stage it returns. */
    method HandleMessage(text: string, number: real, count: int, advisor: Advisor) returns (replies: seq<Reply>)
      requires Valid()
      modifies this
      ensures (State(), replies) == Answer(old(State()), text, number, count, advisor)
    {
      var next := stage;
      match stage {
        case End => replies := [];
        case Language => next, replies := SetLanguage(text);
        case Width => next, replies := GetWidth(number);
        case Length => next, replies := GetLength(number);
        case Height => next, replies := GetHeight(number);
        case Thickness => next, replies := GetThickness(number);
        case Quantity => next, replies := GetQuantity(count);
        case BoxType => next, replies := GetBoxType(text, advisor);
      }
      stage := next;
    }

    /** The conversation handler: routes one update and stores the stage the handler returns. */
    method HandleUpdate(u: Update, advisor: Advisor) returns (replies: seq<Reply>)
      requires Valid()
      modifies this
      ensures Valid()
      ensures (State(), replies) == Step(old(State()), u, advisor)
    {
      match u {
        case StartCommand =>
          if stage == End {
            stage, replies := Start();
          } else {
            replies := [];
          }
        case CancelCommand =>
          if stage == End {
            replies := [];
          } else {
            stage, replies := Cancel();
          }
        case Message(text, number, count) =>
          replies := HandleMessage(text, number, count, advisor);
      }
    }
  }
}
