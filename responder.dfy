/** `generateResponse`: the provider's local keyword classifier. It picks one
    of five canned replies from the first keyword group the lower-cased text
    mentions, and asks for the mood "stressed" when it replies to stress. */
module Responder {
  import opened Wrappers
  import opened JsText
  import opened ChatData

  /** The reply text, and the profile update the reply asks for. */
  datatype Response = Response(text: string, update: ContextUpdate)

  const ThanksText := "You're welcome! Is there anything else I can help with?"
  const MoneyText := "A great way to save money is to follow the 50/30/20 rule: 50% needs, 30% wants, and 20% savings."
  const StressText := "I'm sorry to hear you're feeling stressed. Try taking a few deep breaths. Would you like me to guide you through a quick breathing exercise?"
  const DefaultText := "That's an interesting thought. I'm here to help with financial advice and wellness tips. Could you tell me more about what you're looking for?"

  const StressedMood := "stressed"
  const StressUpdate := NoUpdate.(mood := Some(StressedMood))

  /** The greeting names the user unless the name is the default "Friend". */
  function GreetingText(name: string): string {
    "Hello" + (if name != "Friend" then " " + name else "") + "! How can I assist you today?"
  }

  /** The classifier as the provider writes it, with `includes` on the
      lower-cased text. */
  function GenerateResponse(text: string, name: string): Response {
    var lower := ToLower(text);
    if Includes(lower, "hello") || Includes(lower, "hi") || Includes(lower, "hey") then
      Response(GreetingText(name), NoUpdate)
    else if Includes(lower, "thank") then
      Response(ThanksText, NoUpdate)
    else if Includes(lower, "money") || Includes(lower, "save") then
      Response(MoneyText, NoUpdate)
    else if Includes(lower, "stressed") || Includes(lower, "anxious") then
      Response(StressText, StressUpdate)
    else
      Response(DefaultText, NoUpdate)
  }

  /** The text, ignoring ASCII case, contains `word` (lower case) somewhere. */
  ghost predicate Mentions(text: string, word: string) {
    exists i :: OccursAt(ToLower(text), word, i)
  }

  ghost predicate Greets(text: string) {
    Mentions(text, "hello") || Mentions(text, "hi") || Mentions(text, "hey")
  }

  ghost predicate Thanks(text: string) {
    Mentions(text, "thank")
  }

  ghost predicate AsksAboutMoney(text: string) {
    Mentions(text, "money") || Mentions(text, "save")
  }

  ghost predicate SoundsStressed(text: string) {
    Mentions(text, "stressed") || Mentions(text, "anxious")
  }

  /** The classifier, stated by where the keywords occur: the first group
      the text mentions decides the reply, and only the stress reply asks
      for a profile update. */
  lemma ResponseClassifies(text: string, name: string)
    ensures var r := GenerateResponse(text, name);
            && (Greets(text) ==> r == Response(GreetingText(name), NoUpdate))
            && (!Greets(text) && Thanks(text) ==> r == Response(ThanksText, NoUpdate))
            && (!Greets(text) && !Thanks(text) && AsksAboutMoney(text) ==> r == Response(MoneyText, NoUpdate))
            && (!Greets(text) && !Thanks(text) && !AsksAboutMoney(text) && SoundsStressed(text) ==>
                  r == Response(StressText, StressUpdate))
            && (!Greets(text) && !Thanks(text) && !AsksAboutMoney(text) && !SoundsStressed(text) ==>
                  r == Response(DefaultText, NoUpdate))
  {
    var lower := ToLower(text);
    IncludesIffOccurs(lower, "hello");
    IncludesIffOccurs(lower, "hi");
    IncludesIffOccurs(lower, "hey");
    IncludesIffOccurs(lower, "thank");
    IncludesIffOccurs(lower, "money");
    IncludesIffOccurs(lower, "save");
    IncludesIffOccurs(lower, "stressed");
    IncludesIffOccurs(lower, "anxious");
  }

  /** The only update a reply ever asks for is the mood "stressed", it comes
      with the stress reply, and it is asked for exactly when no earlier
      keyword group is mentioned and a stress keyword is. */
  lemma OnlyStressUpdatesMood(text: string, name: string)
    ensures var r := GenerateResponse(text, name);
            && (r.update == NoUpdate || r.update == StressUpdate)
            && (r.update == StressUpdate ==> r.text == StressText)
            && (r.update == StressUpdate <==>
                  !Greets(text) && !Thanks(text) && !AsksAboutMoney(text) && SoundsStressed(text))
  {
    ResponseClassifies(text, name);
  }

  /** Texts that differ only in the case of ASCII letters get the same reply. */
  lemma ResponseIgnoresCase(a: string, b: string, name: string)
    requires ToLower(a) == ToLower(b)
    ensures GenerateResponse(a, name) == GenerateResponse(b, name)
  {
  }

  /** Lower-casing the text first does not change the reply. */
  lemma ResponseOfLowerCased(text: string, name: string)
    ensures GenerateResponse(ToLower(text), name) == GenerateResponse(text, name)
  {
    ToLowerIdempotent(text);
  }

  /** The greeting is the plain one for "Friend"; any other name follows
      "Hello" after a space. */
  lemma GreetingNamesUser(name: string)
    ensures name == "Friend" ==> GreetingText(name) == "Hello! How can I assist you today?"
    ensures name != "Friend" ==> OccursAt(GreetingText(name), " " + name, 5)
  {
    if name != "Friend" {
      var g := GreetingText(name);
      assert g == "Hello" + (" " + name) + "! How can I assist you today?";
      assert g[5..5 + |" " + name|] == " " + name;
    }
  }
}
