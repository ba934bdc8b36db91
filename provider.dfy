/** The chat provider of
    `frontend/src/components/RukminiChat/context/ChatContext.tsx`: its state
    and the operations that change it. The line numbers in the comments
    below refer to that file. Each React effect becomes a method the caller
    invokes in source order; an
    asynchronous `sendMessage` becomes `BeginSend` (up to the request) and
    `CompleteSend` (once the reply service has answered). */
module Provider {
  import opened Wrappers
  import opened ChatData
  import opened Identity
  import opened Persistence
  import opened History
  import JsText
  import Responder

  /** The body `sendMessage` posts to the reply service. */
  datatype ChatRequest = ChatRequest(message: string, gender: Gender, mood: string)

  class ChatProvider {
    var messages: seq<Message>
    var isOpen: bool
    var isTyping: bool
    var userContext: UserContext
    var config: ChatConfig
    /** `localStorage`. */
    var storage: Store
    /** The next message id (stands for `uuidv4`). */
    var nextId: nat
    /** The `defaultGender` and `userName` props. */
    const defaultGender: Gender
    const userName: string

    /** Message ids are unique: ascending along the history and below the
        next id to hand out. */
    predicate Valid()
      reads this
    {
      IdsAscending(messages) && IdsBelow(messages, nextId)
    }

    /** The first render: the `useState` initialisers, with the saved
        profile read from the store and the configuration already loaded. */
    constructor (store: Store, defaultGender: Gender, userName: string, loaded: ChatConfig)
      ensures Valid()
      ensures messages == [] && !isOpen && !isTyping && nextId == 0
      ensures userContext == LoadUserContext(Get(store, ProfileKey), defaultGender, userName)
      ensures config == loaded && storage == store
      ensures this.defaultGender == defaultGender && this.userName == userName
    {
      messages := [];
      isOpen := false;
      isTyping := false;
      userContext := LoadUserContext(Get(store, ProfileKey), defaultGender, userName);
      config := loaded;
      storage := store;
      nextId := 0;
      this.defaultGender := defaultGender;
      this.userName := userName;
    }

    /** Mounting the provider: the configuration initialiser, which throws
        (and so mounts nothing) when the saved configuration cannot be read,
        then the first render and its effects in source order. */
    static method Mount(store: Store, defaultGender: Gender, userName: string, now: int)
      returns (p: ChatProvider?)
      ensures p == null <==> LoadConfig(Get(store, ConfigKey)).Err?
      ensures p != null ==>
        var loaded := LoadConfig(Get(store, ConfigKey)).value;
        var g := p.userContext.gender;
        && fresh(p) && p.Valid()
        && p.userContext == LoadUserContext(Get(store, ProfileKey), defaultGender, userName)
        && p.defaultGender == defaultGender && p.userName == userName
        && !p.isOpen && !p.isTyping && IsOpenKey !in p.storage
        && p.storage == (store - {IsOpenKey})[ConfigKey := ConfigText(
             loaded.(assistantName := PersistedAssistantName(g), assistantGender := PersistedAssistantGender(g)))]
        && p.messages == [WelcomeMessage(0, WelcomeText(g), now)] && p.nextId == 1
        && p.config == loaded.(assistantName := DisplayedAssistantName(g), assistantGender := DisplayedAssistantGender(g))
        && LoadConfig(Get(p.storage, ConfigKey)) ==
             Ok(loaded.(assistantName := PersistedAssistantName(g), assistantGender := PersistedAssistantGender(g)))
    {
      match LoadConfig(Get(store, ConfigKey))
      case Err(_) =>
        p := null;
      case Ok(loaded) =>
        var q := new ChatProvider(store, defaultGender, userName, loaded);
        q.InitOpenState();
        q.RunIdentityEffects(now);
        p := q;
    }

    /** Lines 64-87: the saved open flag is cleared and the chat starts
        closed. */
    method InitOpenState()
      requires Valid()
      modifies this
      ensures Valid()
      ensures !isOpen && storage == old(storage) - {IsOpenKey}
      ensures messages == old(messages) && isTyping == old(isTyping) && nextId == old(nextId)
      ensures userContext == old(userContext) && config == old(config)
    {
      isOpen := false;
      storage := storage - {IsOpenKey};
    }

    /** The three effects that depend on the user's gender, in source order;
        React runs them on mount and again whenever the gender changes. */
    method RunIdentityEffects(now: int)
      requires Valid()
      modifies this
      ensures Valid()
      ensures var g := userContext.gender;
        && userContext == old(userContext) && isOpen == old(isOpen) && isTyping == old(isTyping)
        && config == old(config).(assistantName := DisplayedAssistantName(g), assistantGender := DisplayedAssistantGender(g))
        && storage == old(storage)[ConfigKey := ConfigText(old(config).(
             assistantName := PersistedAssistantName(g), assistantGender := PersistedAssistantGender(g)))]
        && LoadConfig(Get(storage, ConfigKey)) ==
             Ok(old(config).(assistantName := PersistedAssistantName(g), assistantGender := PersistedAssistantGender(g)))
        && (if old(messages) == []
            then messages == [WelcomeMessage(old(nextId), WelcomeText(g), now)] && nextId == old(nextId) + 1
            else messages == old(messages) && nextId == old(nextId))
    {
      SyncPersistedIdentity();
      ShowWelcome(now);
      SyncDisplayedIdentity();
    }

    /** Lines 126-157: the configuration takes the persisted mapping of the
        user's gender and is written to the store, from which it reads back
        unchanged. */
    method SyncPersistedIdentity()
      requires Valid()
      modifies this
      ensures Valid()
      ensures var c := old(config).(assistantName := PersistedAssistantName(userContext.gender),
                                    assistantGender := PersistedAssistantGender(userContext.gender));
        && config == c
        && storage == old(storage)[ConfigKey := ConfigText(c)]
        && LoadConfig(Get(storage, ConfigKey)) == Ok(c)
      ensures messages == old(messages) && isOpen == old(isOpen) && isTyping == old(isTyping)
      ensures userContext == old(userContext) && nextId == old(nextId)
    {
      var g := userContext.gender;
      var c := config.(assistantName := PersistedAssistantName(g), assistantGender := PersistedAssistantGender(g));
      config := c;
      storage := storage[ConfigKey := ConfigText(c)];
      ConfigRoundTrip(c);
    }

    /** Lines 160-185: an empty history, with an assistant named, becomes the
        one welcome message; otherwise nothing changes. */
    method ShowWelcome(now: int)
      requires Valid()
      modifies this
      ensures Valid()
      ensures if old(messages) == [] && config.assistantName != ""
              then messages == [WelcomeMessage(old(nextId), WelcomeText(userContext.gender), now)]
                   && nextId == old(nextId) + 1
              else messages == old(messages) && nextId == old(nextId)
      ensures isOpen == old(isOpen) && isTyping == old(isTyping) && storage == old(storage)
      ensures userContext == old(userContext) && config == old(config)
    {
      if |messages| == 0 && config.assistantName != "" {
        messages := [WelcomeMessage(nextId, WelcomeText(userContext.gender), now)];
        nextId := nextId + 1;
      }
    }

    /** Lines 279-289: the in-memory configuration takes the displayed
        mapping, the one the welcome text introduces. */
    method SyncDisplayedIdentity()
      requires Valid()
      modifies this
      ensures Valid()
      ensures config == old(config).(assistantName := DisplayedAssistantName(userContext.gender),
                                     assistantGender := DisplayedAssistantGender(userContext.gender))
      ensures WelcomeText(userContext.gender) == "Hi, I'm " + config.assistantName + ". How can I help you today?"
      ensures messages == old(messages) && isOpen == old(isOpen) && isTyping == old(isTyping)
      ensures userContext == old(userContext) && storage == old(storage) && nextId == old(nextId)
    {
      var g := userContext.gender;
      config := config.(assistantName := DisplayedAssistantName(g), assistantGender := DisplayedAssistantGender(g));
    }

    /** Lines 187-193: `{...prev, ...updates}`, written to the store, from
        which it reads back unchanged unless the name is empty. */
    method UpdateUserContext(u: ContextUpdate)
      requires Valid()
      modifies this
      ensures Valid()
      ensures userContext == Merge(old(userContext), u)
      ensures storage == old(storage)[ProfileKey := ProfileText(userContext)]
      ensures LoadUserContext(Get(storage, ProfileKey), defaultGender, userName) ==
                userContext.(name := if userContext.name == "" then userName else userContext.name)
      ensures messages == old(messages) && isOpen == old(isOpen) && isTyping == old(isTyping)
      ensures config == old(config) && nextId == old(nextId)
    {
      userContext := Merge(userContext, u);
      storage := storage[ProfileKey := ProfileText(userContext)];
      ProfileRoundTrip(userContext, defaultGender, userName);
    }

    /** Lines 195-207: a blank text changes nothing; any other text, as
        typed, is appended as a user message with a fresh id, typing starts,
        and the request for the reply service is returned. */
    method BeginSend(text: string, now: int) returns (request: Option<ChatRequest>)
      requires Valid()
      modifies this
      ensures Valid()
      ensures JsText.Blank(text) ==>
        request.None? && messages == old(messages) && isTyping == old(isTyping) && nextId == old(nextId)
      ensures !JsText.Blank(text) ==>
        && request == Some(ChatRequest(text, userContext.gender, userContext.mood))
        && messages == old(messages) + [UserMessage(old(nextId), text, now)]
        && isTyping && nextId == old(nextId) + 1
      ensures isOpen == old(isOpen) && storage == old(storage)
      ensures userContext == old(userContext) && config == old(config)
    {
      if JsText.Trim(text) == [] {
        request := None;
        return;
      }
      AppendFresh(messages, UserMessage(nextId, text, now), nextId);
      messages := messages + [UserMessage(nextId, text, now)];
      nextId := nextId + 1;
      isTyping := true;
      request := Some(ChatRequest(text, userContext.gender, userContext.mood));
    }

    /** Lines 209-257: the reply is appended behind the dedup filter, or the
        error message after the whole history; either way typing stops. */
    method CompleteSend(reply: Reply, now: int)
      requires Valid()
      modifies this
      ensures Valid()
      ensures messages == WithReply(old(messages), reply, old(nextId), now) && nextId == old(nextId) + 1
      ensures !isTyping
      ensures var last := messages[|messages| - 1];
        && |messages| <= |old(messages)| + 1
        && last.sender == Assistant && last.id == old(nextId)
        && UserMessages(messages) == UserMessages(old(messages))
        && (reply.Failure? ==> messages == old(messages) + [ErrorMessage(old(nextId), now)] && last.isError)
        && (reply.Success? ==> last == ResponseMessage(old(nextId), reply.text, reply.timestamp, now))
      ensures isOpen == old(isOpen) && storage == old(storage)
      ensures userContext == old(userContext) && config == old(config)
    {
      WithReplyShape(messages, reply, nextId, now);
      WithReplyWellFormed(messages, reply, nextId, now);
      messages := WithReply(messages, reply, nextId, now);
      nextId := nextId + 1;
      isTyping := false;
    }

    /** Lines 260-276: the local reply to a text; the stress reply also sets
        the mood through `updateUserContext`. */
    method GenerateResponse(text: string) returns (reply: string)
      requires Valid()
      modifies this
      ensures Valid()
      ensures var r := Responder.GenerateResponse(text, old(userContext.name));
        && reply == r.text
        && userContext == Merge(old(userContext), r.update)
        && (r.update == NoUpdate ==> storage == old(storage))
        && (r.update != NoUpdate ==> storage == old(storage)[ProfileKey := ProfileText(userContext)])
      ensures messages == old(messages) && isOpen == old(isOpen) && isTyping == old(isTyping)
      ensures config == old(config) && nextId == old(nextId)
    {
      var r := Responder.GenerateResponse(text, userContext.name);
      if r.update != NoUpdate {
        UpdateUserContext(r.update);
      }
      reply := r.text;
    }

    /** Lines 291-315: the open flag takes the forced state, or flips, and is
        saved as "true" or "false". */
    method ToggleChat(forceState: Option<bool>)
      requires Valid()
      modifies this
      ensures Valid()
      ensures isOpen == (if forceState.Some? then forceState.value else !old(isOpen))
      ensures storage == old(storage)[IsOpenKey := BoolText(isOpen)]
      ensures messages == old(messages) && isTyping == old(isTyping) && nextId == old(nextId)
      ensures userContext == old(userContext) && config == old(config)
    {
      isOpen := forceState.GetOr(!isOpen);
      storage := storage[IsOpenKey := BoolText(isOpen)];
    }

    /** Two unforced toggles restore the open flag; the store then holds it. */
    method ToggleTwice()
      requires Valid()
      modifies this
      ensures Valid()
      ensures isOpen == old(isOpen)
      ensures storage == old(storage)[IsOpenKey := BoolText(old(isOpen))]
      ensures messages == old(messages) && isTyping == old(isTyping) && nextId == old(nextId)
      ensures userContext == old(userContext) && config == old(config)
    {
      ToggleChat(None);
      ToggleChat(None);
    }
  }

  /** A first visit with an empty store, by a female user named "Asha":
      the profile is the defaults with that gender and name, the welcome
      introduces Krishna and the in-memory configuration names Krishna,
      while the stored configuration names Rukmini. */
  method FirstVisit(now: int) returns (p: ChatProvider?)
    ensures p != null
    ensures p.userContext == UserContext(Female, "Asha", "neutral", 1, 0)
    ensures p.messages == [WelcomeMessage(0, WelcomeText(Female), now)]
    ensures p.config.assistantName == "Krishna" && p.config.assistantGender == Male
    ensures LoadConfig(Get(p.storage, ConfigKey)).Ok?
    ensures LoadConfig(Get(p.storage, ConfigKey)).value.assistantName == "Rukmini"
    ensures LoadConfig(Get(p.storage, ConfigKey)).value.assistantGender == Female
  {
    p := ChatProvider.Mount(map[], Female, "Asha", now);
  }

  /** A first visit with an empty store and the props left at their
      defaults: the default profile, the default configuration both in
      memory and in the store, and a welcome from Chanakya. */
  method DefaultVisit(now: int) returns (p: ChatProvider?)
    ensures p != null
    ensures p.userContext == DefaultUserContext
    ensures p.config == DefaultConfig
    ensures LoadConfig(Get(p.storage, ConfigKey)) == Ok(DefaultConfig)
    ensures p.messages == [WelcomeMessage(0, WelcomeText(Neutral), now)]
  {
    p := ChatProvider.Mount(map[], DefaultGenderProp, DefaultUserNameProp, now);
  }
}
