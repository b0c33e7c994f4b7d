/**
 * The client for the hosted completion model: how the outgoing message list
 * is assembled from the conversation so far, and how the call's outcome
 * becomes either the reply text or a thrown error with a user-facing message.
 * The call itself is a parameter: the model only sees what it returned.
 */
module GroqService {
  import opened Wrappers
  import opened Text

  datatype Role = User | Assistant

  /** One entry of the list sent to the provider. */
  datatype ConversationMessage = ConversationMessage(role: Role, content: string)

  /** The assistant persona, sent once as a user turn at the head of the first exchange. */
  const SystemPrompt: string := @"Tu es l'assistant virtuel de TimeTravel Agency, une agence de voyage temporel de luxe premium.

Caractéristiques de ta personnalité:
- Ton professionnel mais chaleureux
- Passionné d'histoire et de voyages
- Enthousiaste sans être trop familier
- Toujours courtois et bienveillant
- Expert en expériences temporelles

Destinations disponibles:
1. Paris 1889 - La Belle Époque (12,500€ - 7 jours)
   - Inauguration de la Tour Eiffel
   - Exposition Universelle
   - Cabarets de Montmartre
   - Rencontres avec les artistes de l'époque

2. Crétacé -65M - L'Ère des Dinosaures (25,000€ - 5 jours)
   - Observation des T-Rex et Tricératops
   - Exploration des forêts préhistoriques
   - Capsules ultra-sécurisées
   - Expérience de la nature sauvage

3. Florence 1504 - Renaissance Italienne (15,800€ - 6 jours)
   - Rencontre avec Michel-Ange
   - Palais des Médicis
   - Cathédrale de Florence
   - Immersion dans l'art et la culture

Informations importantes:
- Tous les voyages incluent accompagnement d'experts, hébergement premium
- Garantie de retour à 100%
- Sécurité certifiée avec technologie de pointe
- Assurance voyage complète incluse

Ton rôle:
- Aider les clients à choisir leur destination
- Répondre aux questions sur les détails des voyages
- Recommander basé sur les intérêts du client
- Rassurer sur la sécurité
- Diriger vers la réservation quand approprié
- Partager des anecdotes intéressantes sur les périodes historiques

Conseil: Sois naturel, engage une véritable conversation, pose des questions pour mieux comprendre les envies du client."

  /** The assistant turn that follows the persona. */
  const Acknowledgement: string := "Compris ! Je suis l'assistant TimeTravel Agency. Je suis prêt à vous aider avec vos questions sur nos destinations temporelles. Comment puis-je vous assister aujourd'hui ?"

  /** The message of the error thrown when the completion has no content. */
  const NoResponseText: string := "Pas de réponse reçue de Groq"

  /** User-facing messages of the three recognised failures. */
  const InvalidKeyText: string := "🔑 Clé API Groq invalide. " + "Veuillez vérifier votre clé API sur https://console.groq.com/"
  const ConfigurationText: string := "⚠️ Erreur de configuration API. " + "Le serveur Groq a rejeté la requête."
  const NetworkText: string := "🌐 Erreur de connexion réseau. Vérifiez votre connexion Internet."

  /** `createConversationMessage`: a record of exactly the given role and content. */
  function CreateConversationMessage(role: Role, content: string): (m: ConversationMessage)
    ensures m.role == role && m.content == content
  {
    ConversationMessage(role, content)
  }

  // ---------------------------------------------------------------------
  // Request assembly
  // ---------------------------------------------------------------------

  /** The persona pair: the instructions as a user turn, then the assistant's acknowledgement. */
  const PersonaPrimer: seq<ConversationMessage> := [
    CreateConversationMessage(User, SystemPrompt),
    CreateConversationMessage(Assistant, Acknowledgement)
  ]

  /**
   * The list sent to the provider. A history of exactly one entry is taken
   * to be the first exchange and gets the persona pair in front of it; any
   * other history is sent as it is. The new user turn always comes last.
   * The history itself is a value and is left as it was.
   */
  function BuildMessages(userMessage: string, history: seq<ConversationMessage>): (r: seq<ConversationMessage>)
    ensures |history| == 1 ==>
      r == [ConversationMessage(User, SystemPrompt), ConversationMessage(Assistant, Acknowledgement),
            history[0], ConversationMessage(User, userMessage)]
    ensures |history| != 1 ==> |r| == |history| + 1 && r[..|history|] == history
    ensures history == [] ==> r == [ConversationMessage(User, userMessage)]
    ensures |r| > 0 && r[|r| - 1] == ConversationMessage(User, userMessage)
  {
    var messages := if |history| == 1 then PersonaPrimer + history else history;
    messages + [CreateConversationMessage(User, userMessage)]
  }

  // ---------------------------------------------------------------------
  // The outcome of the call
  // ---------------------------------------------------------------------

  /** A value thrown inside the request: an `Error` with its message, or anything else. */
  datatype Thrown = ErrorObject(message: string) | OtherValue(description: string)

  /**
   * What the provider call did: completed, with the first choice's message
   * content (`None` when the choice, its message or its content is missing
   * or null), or threw.
   */
  datatype ProviderOutcome = Completed(content: Option<string>) | Threw(thrown: Thrown)

  /** The message names a missing or rejected credential. */
  predicate NamesCredential(message: string)
  {
    Contains(message, "API key") || Contains(message, "401")
  }

  /** The message says the provider rejected the request. */
  predicate NamesUnsupported(message: string)
  {
    Contains(message, "unsupported")
  }

  /** The message names a network failure, in either of the two spellings the catch block checks. */
  predicate NamesNetwork(message: string)
  {
    Contains(message, "network") || Contains(message, "Network")
  }

  /**
   * The catch block: an `Error` whose message names a credential, else an
   * unsupported request, else the network, is replaced by a new `Error`
   * carrying the matching user-facing message; the first test that holds
   * decides. Anything else is rethrown as it was.
   */
  function MapError(e: Thrown): (r: Thrown)
    ensures e.OtherValue? ==> r == e
    ensures e.ErrorObject? && NamesCredential(e.message) ==> r == ErrorObject(InvalidKeyText)
    ensures e.ErrorObject? && !NamesCredential(e.message) && NamesUnsupported(e.message) ==>
      r == ErrorObject(ConfigurationText)
    ensures e.ErrorObject? && !NamesCredential(e.message) && !NamesUnsupported(e.message) && NamesNetwork(e.message) ==>
      r == ErrorObject(NetworkText)
    ensures e.ErrorObject? && !NamesCredential(e.message) && !NamesUnsupported(e.message) && !NamesNetwork(e.message) ==>
      r == e
  {
    match e
    case OtherValue(_) => e
    case ErrorObject(message) =>
      if NamesCredential(message) then ErrorObject(InvalidKeyText)
      else if NamesUnsupported(message) then ErrorObject(ConfigurationText)
      else if NamesNetwork(message) then ErrorObject(NetworkText)
      else e
  }

  /** The completion had no usable content: absent, null or the empty string. */
  predicate IsEmptyCompletion(outcome: ProviderOutcome)
  {
    outcome.Completed? && (outcome.content.None? || outcome.content.value == "")
  }

  /**
   * From the provider's outcome to what the caller sees: non-empty content is
   * returned; missing or empty content throws "Pas de réponse reçue de Groq",
   * which passes through the catch block like any other error; a thrown value
   * goes through the catch block.
   */
  function Settle(outcome: ProviderOutcome): (r: Result<string, Thrown>)
    ensures r.Success? <==> outcome.Completed? && outcome.content.Some? && outcome.content.value != ""
    ensures r.Success? ==> r.value == outcome.content.value && r.value != ""
    ensures IsEmptyCompletion(outcome) ==> r == Failure(MapError(ErrorObject(NoResponseText)))
    ensures outcome.Threw? ==> r == Failure(MapError(outcome.thrown))
  {
    match outcome
    case Completed(Some(text)) =>
      if text != "" then Success(text) else Failure(MapError(ErrorObject(NoResponseText)))
    case Completed(None) => Failure(MapError(ErrorObject(NoResponseText)))
    case Threw(e) => Failure(MapError(e))
  }

  /**
   * `getChatbotResponse`: the provider receives the assembled list, and its
   * outcome is settled. A returned reply is never empty and is exactly the
   * content the provider gave.
   */
  function GetChatbotResponse(
    userMessage: string,
    history: seq<ConversationMessage>,
    provider: seq<ConversationMessage> -> ProviderOutcome
  ): (r: Result<string, Thrown>)
    ensures r.Success? ==> r.value != "" && provider(BuildMessages(userMessage, history)) == Completed(Some(r.value))
    ensures r.Failure? ==> !provider(BuildMessages(userMessage, history)).Completed?
                           || IsEmptyCompletion(provider(BuildMessages(userMessage, history)))
  {
    Settle(provider(BuildMessages(userMessage, history)))
  }

  // ---------------------------------------------------------------------
  // Properties of the error path
  // ---------------------------------------------------------------------

  /** A message lacking 'y', '4', 't' and 'w' holds none of the markers. */
  lemma NamesNothing(message: string)
    requires 'y' !in message && '4' !in message && 't' !in message && 'w' !in message
    ensures !NamesCredential(message) && !NamesUnsupported(message) && !NamesNetwork(message)
  {
    MissingCharExcludes(message, "API key", 'y');
    MissingCharExcludes(message, "401", '4');
    MissingCharExcludes(message, "unsupported", 't');
    MissingCharExcludes(message, "network", 'w');
    MissingCharExcludes(message, "Network", 'w');
  }

  /** The "no response" error names none of the markers, so it is rethrown with its own message. */
  lemma EmptyCompletionRethrown(outcome: ProviderOutcome)
    requires IsEmptyCompletion(outcome)
    ensures Settle(outcome) == Failure(ErrorObject(NoResponseText))
  {
    var m := NoResponseText;
    assert 'y' !in m;
    assert '4' !in m;
    assert 't' !in m;
    assert 'w' !in m;
    NamesNothing(m);
  }

  /** The network test is case-sensitive: "NETWORK" is rethrown as it was. */
  lemma UpperCaseNetworkRethrown()
    ensures MapError(ErrorObject("NETWORK")) == ErrorObject("NETWORK")
  {
    var m := "NETWORK";
    assert 'y' !in m;
    assert '4' !in m;
    assert 't' !in m;
    assert 'w' !in m;
    NamesNothing(m);
  }

  /** A message holding every marker is reported as a credential failure: that test comes first. */
  lemma CredentialTestComesFirst(message: string)
    requires Contains(message, "401") && NamesUnsupported(message) && NamesNetwork(message)
    ensures Settle(Threw(ErrorObject(message))) == Failure(ErrorObject(InvalidKeyText))
    ensures InvalidKeyText != ConfigurationText && InvalidKeyText != NetworkText
  {
  }
}
