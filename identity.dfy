/** Which assistant the user talks to. The provider holds two mappings from
    the user's gender to an assistant that disagree: the effect that writes
    the configuration to storage gives a female user Rukmini and a male
    user Krishna, while the effect that sets the in-memory configuration,
    and the welcome text, give a female user Krishna and a male user
    Rukmini. Both are modelled as written; the lemmas below state how they
    relate. */
module Identity {
  import opened ChatData

  /** The assistant name the gender effect persists with the configuration. */
  function PersistedAssistantName(g: Gender): string {
    match g
    case Female => "Rukmini"
    case Male => "Krishna"
    case Neutral => "Chanakya"
  }

  /** The assistant gender persisted with it: the user's own gender. */
  function PersistedAssistantGender(g: Gender): (r: Gender)
    ensures r == g
  {
    match g
    case Female => Female
    case Male => Male
    case Neutral => Neutral
  }

  /** Female and male swapped; neutral stays. */
  function Mirror(g: Gender): Gender {
    match g
    case Female => Male
    case Male => Female
    case Neutral => Neutral
  }

  /** The assistant name the second gender effect puts in the in-memory
      configuration: the persisted mapping applied to the mirrored gender. */
  function DisplayedAssistantName(g: Gender): (r: string)
    ensures r == PersistedAssistantName(Mirror(g))
  {
    match g
    case Female => "Krishna"
    case Male => "Rukmini"
    case Neutral => "Chanakya"
  }

  /** The assistant gender of the in-memory configuration: the gender of
      the in-memory assistant. */
  function DisplayedAssistantGender(g: Gender): (r: Gender)
    ensures r == PersonaGender(DisplayedAssistantName(g))
  {
    match g
    case Female => Male
    case Male => Female
    case Neutral => Neutral
  }

  /** The greeting the welcome effect writes; it introduces the assistant of
      the in-memory mapping. */
  function WelcomeText(g: Gender): (t: string)
    ensures t == "Hi, I'm " + DisplayedAssistantName(g) + ". How can I help you today?"
  {
    match g
    case Male => "Hi, I'm " + "Rukmini" + ". How can I help you today?"
    case Female => "Hi, I'm " + "Krishna" + ". How can I help you today?"
    case Neutral => "Hi, I'm " + "Chanakya" + ". How can I help you today?"
  }

  /** The gender each assistant persona has. */
  function PersonaGender(name: string): Gender {
    if name == "Rukmini" then Female else if name == "Krishna" then Male else Neutral
  }

  /** Each mapping on its own is consistent: it pairs an assistant with that
      assistant's gender. */
  lemma MappingsPairPersonaWithItsGender(g: Gender)
    ensures PersonaGender(PersistedAssistantName(g)) == PersistedAssistantGender(g)
    ensures PersonaGender(DisplayedAssistantName(g)) == DisplayedAssistantGender(g)
  {
  }

  /** The two mappings agree only for a neutral user. */
  lemma MappingsAgreeOnlyWhenNeutral(g: Gender)
    ensures PersistedAssistantName(g) == DisplayedAssistantName(g) <==> g == Neutral
    ensures PersistedAssistantGender(g) == DisplayedAssistantGender(g) <==> g == Neutral
  {
  }

  /** Mirroring twice is the identity, so each mapping is the other one
      applied to the mirrored gender. */
  lemma MappingsAreMirrorImages(g: Gender)
    ensures Mirror(Mirror(g)) == g
    ensures PersistedAssistantName(g) == DisplayedAssistantName(Mirror(g))
    ensures PersistedAssistantGender(g) == DisplayedAssistantGender(Mirror(g))
  {
  }
}
