/**
 * The chat widget: its keyword-based responder and the transcript it keeps.
 *
 * The responder lower-cases the user's text and tries nine keyword rules in a
 * fixed order; the first rule one of whose keywords occurs in the text gives
 * the reply, and a help text answers when none does. The widget holds the
 * transcript and the text box; sending non-blank text appends the user's
 * message and then the responder's reply, and clears the text box.
 */
module ChatBot {
  import opened Text

  // ---------------------------------------------------------------------
  // Knowledge base
  // ---------------------------------------------------------------------

  /** One destination of the agency, as the responder quotes it. */
  datatype Destination = Destination(name: string, price: string, duration: string, highlights: string)

  const Paris1889: Destination := Destination("Paris 1889 - La Belle Époque", "12,500€", "7 jours", "Tour Eiffel, Exposition Universelle, Cabarets de Montmartre")
  const Cretaceous: Destination := Destination("Crétacé -65M - L'Ère des Dinosaures", "25,000€", "5 jours", "T-Rex, Tricératops, Forêts préhistoriques")
  const Florence1504: Destination := Destination("Florence 1504 - Renaissance Italienne", "15,800€", "6 jours", "Michel-Ange, Palais des Médicis, Cathédrale")

  const GreetingReply: string := "Bonjour ! 👋 Bienvenue chez TimeTravel Agency. Je suis ravi de vous accompagner dans la découverte de nos destinations temporelles. Comment puis-je vous aider aujourd'hui ?"
  const ParisReply: string := "🗼 Paris 1889 est une destination extraordinaire ! Vous vivrez l'effervescence de l'Exposition Universelle et assisterez à l'inauguration de la Tour Eiffel. Prix: " + Paris1889.price + " pour " + Paris1889.duration + ". Points forts: " + Paris1889.highlights + ". Souhaitez-vous en savoir plus ?"
  const CretaceousReply: string := "🦕 Le Crétacé est notre destination la plus spectaculaire ! Observez les dinosaures dans leur habitat naturel depuis nos capsules ultra-sécurisées. Prix: " + Cretaceous.price + " pour " + Cretaceous.duration + ". Une expérience unique garantie à 100% !"
  const FlorenceReply: string := "🎨 Florence 1504 vous plongera au cœur de la Renaissance italienne ! Rencontrez Michel-Ange et découvrez les chefs-d'œuvre de l'époque. Prix: " + Florence1504.price + " pour " + Florence1504.duration + ". Parfait pour les amateurs d'art et d'histoire !"
  const PriceReply: string := "💰 Nos tarifs varient selon la destination:\n- Paris 1889: 12,500€\n- Crétacé -65M: 25,000€\n- Florence 1504: 15,800€\n\nTous nos voyages incluent l'accompagnement d'experts, l'hébergement premium et la garantie de retour à 100% !"
  const AdviceReply: string := "🤔 Je serais ravi de vous conseiller ! Que recherchez-vous ?\n- Pour l'art et la culture: Florence 1504\n- Pour l'élégance et le raffinement: Paris 1889\n- Pour l'aventure et la nature: Crétacé -65M\n\nQuel type d'expérience vous attire le plus ?"
  const SafetyReply: string := "🛡️ La sécurité est notre priorité absolue ! Nos capsules temporelles sont certifiées avec un taux de retour de 100%. Nos guides experts vous accompagnent à chaque instant. Technologie de pointe garantissant précision et protection maximale."
  const BookingReply: string := "📅 Excellent ! Pour réserver, vous pouvez utiliser notre formulaire de réservation sur cette page. Notre équipe vous contactera sous 24h pour finaliser votre voyage temporel. Des questions sur une destination en particulier ?"
  const DurationReply: string := "⏰ Nos voyages durent entre 5 et 7 jours selon la destination:\n- Paris 1889: 7 jours\n- Crétacé -65M: 5 jours\n- Florence 1504: 6 jours\n\nChaque itinéraire est soigneusement optimisé pour une expérience complète !"
  const DefaultReply: string := "Je suis là pour vous aider à choisir votre destination temporelle idéale ! Je peux vous renseigner sur:\n- Nos 3 destinations (Paris 1889, Crétacé -65M, Florence 1504)\n- Les prix et durées de voyage\n- La sécurité de nos voyages\n- Des recommandations personnalisées\n\nQue souhaitez-vous savoir ?"

  /** The greeting the transcript starts with. */
  const WelcomeText: string := "Bonjour ! Je suis votre assistant TimeTravel. Comment puis-je vous aider à planifier votre voyage temporel ?"

  // ---------------------------------------------------------------------
  // The responder
  // ---------------------------------------------------------------------

  /** A keyword alternation and the reply it selects. */
  datatype Rule = Rule(keywords: seq<string>, reply: string)

  /** The responder's rules, in the order they are tried. */
  const Rules: seq<Rule> := [
    Rule(["bonjour", "salut", "hello", "hi", "hey"], GreetingReply),
    Rule(["paris", "1889", "belle époque", "tour eiffel"], ParisReply),
    Rule(["crétacé", "dinosaure", "préhistoire", "t-rex", "tyrannosaure"], CretaceousReply),
    Rule(["florence", "renaissance", "michel-ange", "italie", "art"], FlorenceReply),
    Rule(["prix", "tarif", "coût", "combien"], PriceReply),
    Rule(["recommand", "conseill", "choisir", "meilleur", "quel"], AdviceReply),
    Rule(["sécurité", "sûr", "danger", "risque"], SafetyReply),
    Rule(["réserv", "book", "partir", "voyage"], BookingReply),
    Rule(["durée", "combien de temps", "jours"], DurationReply)
  ]

  const GreetingRule := 0
  const FlorenceRule := 3
  const PriceRule := 4
  const BookingRule := 7
  const DurationRule := 8

  /** The rule's alternation matches somewhere in `msg`. */
  predicate Fires(rule: Rule, msg: string)
  {
    exists k :: 0 <= k < |rule.keywords| && Contains(msg, rule.keywords[k])
  }

  /** The index of the first rule at or after `from` that fires on `msg`, or `|rules|` if none does. */
  function FirstMatch(rules: seq<Rule>, msg: string, from: nat): (k: nat)
    requires from <= |rules|
    ensures from <= k <= |rules|
    ensures k < |rules| ==> Fires(rules[k], msg)
    ensures forall j :: from <= j < k ==> !Fires(rules[j], msg)
    decreases |rules| - from
  {
    if from == |rules| then from
    else if Fires(rules[from], msg) then from
    else FirstMatch(rules, msg, from + 1)
  }

  /** Every rule's reply is its own, and none is the help text: each starts with a different character. */
  lemma RepliesDistinct()
    ensures forall i, j :: 0 <= i < j < |Rules| ==> Rules[i].reply != Rules[j].reply
    ensures forall i :: 0 <= i < |Rules| ==> Rules[i].reply != DefaultReply
  {
  }

  /**
   * The reply to `userMessage`: that of the earliest rule firing on its
   * lower-cased form, or the help text when no rule fires. It is never empty.
   */
  function GenerateResponse(userMessage: string): (r: string)
    ensures r != ""
    ensures r == DefaultReply <==> forall i :: 0 <= i < |Rules| ==> !Fires(Rules[i], ToLower(userMessage))
    ensures r != DefaultReply ==> exists i :: 0 <= i < |Rules| && r == Rules[i].reply && Fires(Rules[i], ToLower(userMessage))
  {
    RepliesDistinct();
    var k := FirstMatch(Rules, ToLower(userMessage), 0);
    if k < |Rules| then Rules[k].reply else DefaultReply
  }

  /** The earliest firing rule answers, whatever later rules would also fire. */
  lemma EarliestRuleWins(userMessage: string, i: nat)
    requires i < |Rules| && Fires(Rules[i], ToLower(userMessage))
    requires forall j :: 0 <= j < i ==> !Fires(Rules[j], ToLower(userMessage))
    ensures GenerateResponse(userMessage) == Rules[i].reply
  {
    var k := FirstMatch(Rules, ToLower(userMessage), 0);
    assert k == i;
  }

  /** The reply depends only on the lower-cased text. */
  lemma ResponseIgnoresCase(userMessage: string)
    ensures GenerateResponse(ToLower(userMessage)) == GenerateResponse(userMessage)
  {
    ToLowerIdempotent(userMessage);
  }

  /** A greeting keyword always gets the greeting, e.g. "bonjour" beats "paris". */
  lemma GreetingBeatsParis(userMessage: string)
    requires Contains(ToLower(userMessage), "bonjour") && Contains(ToLower(userMessage), "paris")
    ensures GenerateResponse(userMessage) == GreetingReply
    ensures GenerateResponse(userMessage) != ParisReply
  {
    assert Rules[GreetingRule].keywords[0] == "bonjour";
    EarliestRuleWins(userMessage, GreetingRule);
    RepliesDistinct();
  }

  /** Text holding "combien" is never answered with the durations, not even "combien de temps". */
  lemma CombienNeverGetsDuration(userMessage: string)
    requires Contains(ToLower(userMessage), "combien")
    ensures GenerateResponse(userMessage) != DurationReply
    ensures GenerateResponse(userMessage) != DefaultReply
  {
    var msg := ToLower(userMessage);
    assert Rules[PriceRule].keywords[3] == "combien";
    assert Fires(Rules[PriceRule], msg);
    var k := FirstMatch(Rules, msg, 0);
    assert k <= PriceRule;
    RepliesDistinct();
  }

  /** "combien de temps" with no earlier keyword gets the prices: "combien" occurs in it. */
  lemma CombienDeTempsGetsPrice(userMessage: string)
    requires Contains(ToLower(userMessage), "combien de temps")
    requires forall j :: 0 <= j < PriceRule ==> !Fires(Rules[j], ToLower(userMessage))
    ensures GenerateResponse(userMessage) == PriceReply
  {
    var msg := ToLower(userMessage);
    assert "combien" <= "combien de temps";
    ContainsTransitive(msg, "combien de temps", "combien");
    assert Rules[PriceRule].keywords[3] == "combien";
    EarliestRuleWins(userMessage, PriceRule);
  }

  /** "partir" with no earlier keyword gets Florence, not booking: "art" occurs in it. */
  lemma PartirGetsFlorence(userMessage: string)
    requires Contains(ToLower(userMessage), "partir")
    requires forall j :: 0 <= j < FlorenceRule ==> !Fires(Rules[j], ToLower(userMessage))
    ensures GenerateResponse(userMessage) == FlorenceReply
    ensures GenerateResponse(userMessage) != BookingReply
  {
    var msg := ToLower(userMessage);
    assert "art" <= "partir"[1..];
    ContainsTransitive(msg, "partir", "art");
    assert Rules[FlorenceRule].keywords[4] == "art";
    EarliestRuleWins(userMessage, FlorenceRule);
    RepliesDistinct();
  }

  /** Text holding "partir" is never answered with the booking reply: its "art" fires the Florence rule first. */
  lemma PartirNeverGetsBooking(userMessage: string)
    requires Contains(ToLower(userMessage), "partir")
    ensures GenerateResponse(userMessage) != BookingReply
    ensures GenerateResponse(userMessage) != DefaultReply
  {
    var msg := ToLower(userMessage);
    assert "art" <= "partir"[1..];
    ContainsTransitive(msg, "partir", "art");
    assert Rules[FlorenceRule].keywords[4] == "art";
    assert Fires(Rules[FlorenceRule], msg);
    var k := FirstMatch(Rules, msg, 0);
    assert k <= FlorenceRule;
    RepliesDistinct();
  }

  /** "préhistoire" always gets the greeting: "hi" occurs in it. */
  lemma PrehistoireGetsGreeting(userMessage: string)
    requires Contains(ToLower(userMessage), "préhistoire")
    ensures GenerateResponse(userMessage) == GreetingReply
  {
    var msg := ToLower(userMessage);
    assert "hi" <= "préhistoire"[3..];
    assert Contains("préhistoire"[3..], "hi");
    assert Contains("préhistoire"[2..], "hi");
    assert Contains("préhistoire"[1..], "hi");
    ContainsTransitive(msg, "préhistoire", "hi");
    assert Rules[GreetingRule].keywords[3] == "hi";
    EarliestRuleWins(userMessage, GreetingRule);
  }

  // ---------------------------------------------------------------------
  // The transcript
  // ---------------------------------------------------------------------

  datatype Sender = User | Bot

  /** One transcript entry; its identifier and timestamp are left out. */
  datatype Message = Message(text: string, sender: Sender)

  /** What the widget holds: the transcript and the text box. */
  datatype ChatState = ChatState(messages: seq<Message>, input: string)

  /** A key pressed in the text box. */
  datatype KeyEvent = KeyEvent(key: string, shiftKey: bool)

  /**
   * The transcript opens with the greeting, ends with a bot message, and no
   * two neighbours share a sender: bot, user, bot, ..., bot.
   */
  predicate Alternates(messages: seq<Message>)
  {
    && |messages| > 0
    && messages[0] == Message(WelcomeText, Bot)
    && messages[|messages| - 1].sender == Bot
    && forall i :: 0 < i < |messages| ==> messages[i - 1].sender != messages[i].sender
  }

  /** The state when the widget mounts: the bot's greeting alone, and an empty text box. */
  function InitialState(): (st: ChatState)
    ensures |st.messages| == 1 && st.messages[0].sender == Bot && st.input == ""
    ensures Alternates(st.messages)
  {
    ChatState([Message(WelcomeText, Bot)], "")
  }

  /** The text box holds nothing but whitespace, so sending is refused. */
  predicate IsBlank(input: string)
  {
    Trim(input) == ""
  }

  /**
   * Sending the text box: blank text changes nothing; otherwise the user's
   * message (untrimmed), then the reply computed from that same text, are
   * appended, and the text box is emptied.
   */
  function AfterSend(st: ChatState): (r: ChatState)
    ensures IsBlank(st.input) ==> r == st
    ensures !IsBlank(st.input) ==>
      && |r.messages| == |st.messages| + 2
      && r.messages[..|st.messages|] == st.messages
      && r.messages[|st.messages|] == Message(st.input, User)
      && r.messages[|st.messages| + 1] == Message(GenerateResponse(st.input), Bot)
      && r.input == ""
  {
    if IsBlank(st.input) then st
    else
      var withUser := ChatState(st.messages + [Message(st.input, User)], "");
      ChatState(withUser.messages + [Message(GenerateResponse(st.input), Bot)], "")
  }

  /** Extending an alternating transcript by a user message and then a bot message keeps it alternating. */
  lemma ExchangeKeepsAlternation(m: seq<Message>, r: seq<Message>)
    requires Alternates(m)
    requires |r| == |m| + 2 && r[..|m|] == m
    requires r[|m|].sender == User && r[|m| + 1].sender == Bot
    ensures Alternates(r)
  {
    var n := |m|;
    forall i | 0 < i < n + 2
      ensures r[i - 1].sender != r[i].sender
    {
      if i < n {
        assert r[i - 1] == m[i - 1] && r[i] == m[i];
      } else if i == n {
        assert r[i - 1] == m[n - 1];
      }
    }
    assert r[0] == m[0];
  }

  /** Sending keeps the transcript alternating, whether or not it appends. */
  lemma SendKeepsAlternation(st: ChatState)
    requires Alternates(st.messages)
    ensures Alternates(AfterSend(st).messages)
  {
    if !IsBlank(st.input) {
      ExchangeKeepsAlternation(st.messages, AfterSend(st).messages);
    }
  }

  /** Enter without Shift sends; every other key, Shift+Enter included, changes nothing. */
  function AfterKeyPress(st: ChatState, e: KeyEvent): (r: ChatState)
    ensures e.key == "Enter" && !e.shiftKey ==> r == AfterSend(st)
    ensures e.shiftKey ==> r == st
    ensures e.key != "Enter" ==> r == st
  {
    if e.key == "Enter" && !e.shiftKey then AfterSend(st) else st
  }

  /** The mounted chat widget. */
  class ChatWidget {
    var messages: seq<Message>
    var inputValue: string

    function State(): ChatState
      reads this
    {
      ChatState(messages, inputValue)
    }

    ghost predicate Valid()
      reads this
    {
      Alternates(messages)
    }

    constructor ()
      ensures Valid()
      ensures State() == InitialState()
    {
      messages := [Message(WelcomeText, Bot)];
      inputValue := "";
    }

    /** Typing in the text box. */
    method ChangeInput(value: string)
      requires Valid()
      modifies this
      ensures Valid()
      ensures messages == old(messages) && inputValue == value
    {
      inputValue := value;
    }

    /** The send button, and Enter: two appends in sequence, with the text box cleared between. */
    method SendMessage()
      requires Valid()
      modifies this
      ensures Valid()
      ensures State() == AfterSend(old(State()))
    {
      SendKeepsAlternation(State());
      if Trim(inputValue) == "" {
        return;
      }
      var sent := inputValue;
      messages := messages + [Message(sent, User)];
      inputValue := "";
      messages := messages + [Message(GenerateResponse(sent), Bot)];
    }

    /** A key pressed in the text box. */
    method KeyPress(e: KeyEvent)
      requires Valid()
      modifies this
      ensures Valid()
      ensures State() == AfterKeyPress(old(State()), e)
    {
      if e.key == "Enter" && !e.shiftKey {
        SendMessage();
      }
    }
  }
}
