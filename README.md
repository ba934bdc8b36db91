# Chat provider state model

This project models the conversation-state manager of the Rukmini chat
widget: the React `ChatProvider` in
`frontend/src/components/RukminiChat/context/ChatContext.tsx`. Without React,
the provider is a small sequential state machine. Its state is:

- the message history;
- the `isOpen` and `isTyping` flags;
- the user's profile (`UserContext`);
- the display configuration (`ChatConfig`);
- the browser's `localStorage`, with keys `chatIsOpen`, `chatUserContext` and `chatConfig`.

The project is organised by the provider's structure:

- `wrappers.dfy`: `Option` and `Result`.
- `json.dfy`: `JSON.stringify` and `JSON.parse` for the values the provider stores (null, booleans, integers, strings, objects). It proves that parsing what was written gives the value back.
- `jstext.dfy`: the three string operations the provider calls: `trim`, `toLowerCase` and `includes`.
- `chat_data.dfy`: the records, their defaults, and the `{...prev, ...updates}` merge.
- `identity.dfy`: the two gender-to-assistant mappings and the welcome text.
- `persistence.dfy`: the storage keys, the profile and configuration loaders, and their round trips through storage.
- `history.dfy`: the messages, the dedup filter applied before a reply, the reply and error messages, and unique ids.
- `responder.dfy`: `generateResponse`, the local keyword classifier.
- `provider.dfy`: the class `ChatProvider`. Its fields are the provider's state. Each effect and callback is a method that changes those fields.

Each React effect is a method, and the caller runs them in source order.
`Mount` stands for the first render and its effects.
`sendMessage` is split at its `await`:

- `BeginSend` guards against blank text, appends the user message, sets typing and returns the request body.
- `CompleteSend` takes the outcome of the request as a `Reply` (`Success(text, timestamp)` or `Failure`). It appends the reply or the error message and clears typing.

Time is an integer number of milliseconds, passed in as `now`. Message ids come from a counter (`nextId`), which stands for `uuidv4`.

The two identity mappings really do disagree in the source, and both are modelled as written:

- The effect at lines 126-157 saves a configuration that gives a female user Rukmini (female) and a male user Krishna (male).
- The effect at lines 279-289 gives a female user Krishna (male) and a male user Rukmini (female). The welcome text (lines 167-173) follows this mapping.

`Identity.MappingsAgreeOnlyWhenNeutral` and `Identity.MappingsAreMirrorImages` state how the two relate. After mount, the in-memory configuration follows the second mapping and the stored one follows the first (`Provider.ChatProvider.Mount`).

Three facts about the code that the model keeps as they are:

- `updateUserContext` does not validate the gender it merges.
- The configuration initialiser has no `try`, so stored configuration text that `JSON.parse` rejects makes the first render throw. The model reports such text as `Err(MalformedConfig)`, and `Mount` then returns `null`.
- Nothing in the code bounds `wisdomLevel` or `xp`.

## Model

| member | source | states |
|---|---|---|
| ChatData.MergeFields | frontend/src/components/RukminiChat/context/ChatContext.tsx:187-189 | every field the update gives takes the new value; every other field keeps the old one |
| ChatData.MergeIdempotent | frontend/src/components/RukminiChat/context/ChatContext.tsx:189 | applying the same update twice gives the result of applying it once |
| ChatData.MergeMerge | frontend/src/components/RukminiChat/context/ChatContext.tsx:189 | two updates in a row equal one combined update in which the later one wins |
| ChatData.MergeNoUpdate | frontend/src/components/RukminiChat/context/ChatContext.tsx:189 | the empty update leaves the profile unchanged |
| JsText.Trim | frontend/src/components/RukminiChat/context/ChatContext.tsx:196 | the trimmed text is empty exactly when the text is all ECMAScript white space; otherwise it neither starts nor ends with white space |
| JsText.ToLower | frontend/src/components/RukminiChat/context/ChatContext.tsx:262 | same length; every character is the lower case of the character at that index |
| JsText.ToLowerIdempotent | frontend/src/components/RukminiChat/context/ChatContext.tsx:262 | lower-casing twice is lower-casing once |
| JsText.IncludesIffOccurs | frontend/src/components/RukminiChat/context/ChatContext.tsx:264-270 | `includes` holds exactly when the word occurs at some index |
| Json.Lookup | frontend/src/components/RukminiChat/context/ChatContext.tsx:96-104 | a property read finds a value exactly when the object has that key, and the value found is that of the last member with the key |
| Json.IntRoundTrip | frontend/src/components/RukminiChat/context/ChatContext.tsx:190 | an integer written as JSON reads back as the same integer, leaving the following text when that text does not start with a digit |
| Json.QuoteRoundTrip | frontend/src/components/RukminiChat/context/ChatContext.tsx:190 | a string written as a JSON string literal reads back as the same string, escapes included |
| Json.ValueRoundTrip | frontend/src/components/RukminiChat/context/ChatContext.tsx:190 | any value written as JSON text reads back as the same value, leaving the following text when that text does not start with a digit |
| Json.MembersRoundTrip | frontend/src/components/RukminiChat/context/ChatContext.tsx:190 | the members of a non-empty object, written out and closed by `}`, read back as the same members in the same order |
| Json.StringifyRoundTrip | frontend/src/components/RukminiChat/context/ChatContext.tsx:190 | `JSON.parse(JSON.stringify(v))` gives back `v` |
| Identity.PersistedAssistantGender | frontend/src/components/RukminiChat/context/ChatContext.tsx:133-134 | the persisted assistant gender is the user's own gender |
| Identity.DisplayedAssistantName | frontend/src/components/RukminiChat/context/ChatContext.tsx:280-281 | the in-memory assistant name is the persisted mapping applied to the mirrored gender |
| Identity.DisplayedAssistantGender | frontend/src/components/RukminiChat/context/ChatContext.tsx:286-287 | the in-memory assistant gender is the gender of the in-memory assistant persona |
| Identity.WelcomeText | frontend/src/components/RukminiChat/context/ChatContext.tsx:167-173 | the welcome introduces the assistant of the in-memory mapping |
| Identity.MappingsPairPersonaWithItsGender | frontend/src/components/RukminiChat/context/ChatContext.tsx:131-134 | each mapping pairs an assistant with that assistant's own gender |
| Identity.MappingsAgreeOnlyWhenNeutral | frontend/src/components/RukminiChat/context/ChatContext.tsx:280-287 | the two mappings give the same name, and the same gender, exactly for a neutral user |
| Identity.MappingsAreMirrorImages | frontend/src/components/RukminiChat/context/ChatContext.tsx:131-134 | each mapping is the other one applied to the mirrored gender, and mirroring twice is the identity |
| Persistence.StoreLaws | frontend/src/components/RukminiChat/context/ChatContext.tsx:74 | a read after a set gives the value set, a read after a remove gives null, and neither changes the read of any other key |
| Persistence.GenderFromText | frontend/src/components/RukminiChat/context/ChatContext.tsx:96-98 | a text is accepted as a gender only if it is "male", "female" or "neutral", and then it names that gender |
| Persistence.GenderTextRoundTrip | frontend/src/components/RukminiChat/context/ChatContext.tsx:96-98 | every gender's text is accepted as that gender |
| Persistence.LoadUserContext | frontend/src/components/RukminiChat/context/ChatContext.tsx:90-116 | gender: the saved one if it is valid, else `defaultGender`. name: the saved one if it is non-empty, else `userName`. other fields: the saved value, else the default. Missing or unparsable text gives the fallback profile |
| Persistence.ProfileRoundTrip | frontend/src/components/RukminiChat/context/ChatContext.tsx:190 | a saved profile loads back unchanged, except that an empty name becomes `userName` |
| Persistence.LoadConfig | frontend/src/components/RukminiChat/context/ChatContext.tsx:118-121 | no saved configuration gives the default one; saved text that does not parse is an error |
| Persistence.ConfigRoundTrip | frontend/src/components/RukminiChat/context/ChatContext.tsx:155 | a saved configuration loads back unchanged |
| History.DropRecentAssistant | frontend/src/components/RukminiChat/context/ChatContext.tsx:240-242 | a message is kept exactly when it is not an assistant message from the last second, as many times as it occurs; the result is never longer |
| History.DropKeepsOrder | frontend/src/components/RukminiChat/context/ChatContext.tsx:240-242 | the kept messages appear in their original order: a strictly increasing index map takes the result into the history |
| History.EmbeddingKeepsIdsAscending | frontend/src/components/RukminiChat/context/ChatContext.tsx:240-243 | leaving messages out of a history with ascending ids, in order, keeps the ids ascending |
| History.UserMessagesAppend | frontend/src/components/RukminiChat/context/ChatContext.tsx:243 | the user messages of a concatenation are those of each part, in order |
| History.DropKeepsUserMessages | frontend/src/components/RukminiChat/context/ChatContext.tsx:238-244 | the dedup filter drops no user message and does not reorder them |
| History.WithReplyShape | frontend/src/components/RukminiChat/context/ChatContext.tsx:230-254 | after a reply the history ends with the new assistant message, keeps every user message in order and grows by at most one; on success the last message carries the reply's text and its timestamp, or `now` when the timestamp is missing or 0; a failure appends the error message to the unchanged history |
| History.DropKeepsIdsAscending | frontend/src/components/RukminiChat/context/ChatContext.tsx:240-242 | filtering keeps ids ascending |
| History.DropKeepsIdsBelow | frontend/src/components/RukminiChat/context/ChatContext.tsx:240-242 | filtering keeps every id below the next one |
| History.AppendFresh | frontend/src/components/RukminiChat/context/ChatContext.tsx:206 | appending a message with a fresh id keeps ids unique |
| History.WithReplyWellFormed | frontend/src/components/RukminiChat/context/ChatContext.tsx:230-254 | ids stay unique after a reply or an error message |
| Responder.ResponseClassifies | frontend/src/components/RukminiChat/context/ChatContext.tsx:262-275 | the first keyword group that the text mentions, ignoring case, decides the reply; otherwise the reply is the default one |
| Responder.OnlyStressUpdatesMood | frontend/src/components/RukminiChat/context/ChatContext.tsx:270-272 | the only update asked for is mood "stressed"; it comes with the stress reply, exactly when no earlier group matches and a stress keyword does |
| Responder.ResponseIgnoresCase | frontend/src/components/RukminiChat/context/ChatContext.tsx:262 | texts equal up to ASCII case get the same reply |
| Responder.ResponseOfLowerCased | frontend/src/components/RukminiChat/context/ChatContext.tsx:262 | lower-casing the text first does not change the reply |
| Responder.GreetingNamesUser | frontend/src/components/RukminiChat/context/ChatContext.tsx:265 | the greeting is the plain one for "Friend"; any other name follows "Hello" after a space |
| Provider.ChatProvider.constructor | frontend/src/components/RukminiChat/context/ChatContext.tsx:58-121 | the initial state: empty history, chat closed, not typing, the loaded profile and configuration |
| Provider.ChatProvider.Mount | frontend/src/components/RukminiChat/context/ChatContext.tsx:52-185 | nothing is mounted exactly when the stored configuration cannot be read. Otherwise: the props are kept, the chat is closed, the store is the old one without `chatIsOpen` and with the persisted config, the history is one welcome message with id 0, and the in-memory config is on the displayed mapping |
| Provider.ChatProvider.InitOpenState | frontend/src/components/RukminiChat/context/ChatContext.tsx:64-87 | afterwards `isOpen` is false and `chatIsOpen` is removed; nothing else changes |
| Provider.ChatProvider.RunIdentityEffects | frontend/src/components/RukminiChat/context/ChatContext.tsx:126-185 | the three gender effects in order: persisted config stored, welcome on an empty history, in-memory config on the displayed mapping |
| Provider.ChatProvider.SyncPersistedIdentity | frontend/src/components/RukminiChat/context/ChatContext.tsx:126-157 | config takes the persisted mapping and is stored, and the stored text loads back as that config |
| Provider.ChatProvider.ShowWelcome | frontend/src/components/RukminiChat/context/ChatContext.tsx:160-185 | an empty history, with an assistant named, becomes exactly the one welcome message; otherwise nothing changes |
| Provider.ChatProvider.SyncDisplayedIdentity | frontend/src/components/RukminiChat/context/ChatContext.tsx:279-289 | config takes the displayed mapping, which is the assistant the welcome text names |
| Provider.ChatProvider.UpdateUserContext | frontend/src/components/RukminiChat/context/ChatContext.tsx:187-193 | the profile becomes the merge, is stored, and loads back as the merge |
| Provider.ChatProvider.BeginSend | frontend/src/components/RukminiChat/context/ChatContext.tsx:195-207 | blank text changes nothing. Otherwise one user message with the untrimmed text and a fresh id is appended, typing starts, and the request carries the text, gender and mood |
| Provider.ChatProvider.CompleteSend | frontend/src/components/RukminiChat/context/ChatContext.tsx:209-257 | the history becomes the filtered history plus the reply, or the history plus the error message; typing stops; ids stay unique; user messages are kept |
| Provider.ChatProvider.GenerateResponse | frontend/src/components/RukminiChat/context/ChatContext.tsx:260-276 | returns the classifier's reply; the stress reply also merges and stores mood "stressed" |
| Provider.ChatProvider.ToggleChat | frontend/src/components/RukminiChat/context/ChatContext.tsx:291-315 | the flag takes the forced value or flips, and `chatIsOpen` stores it as "true" or "false" |
| Provider.ChatProvider.ToggleTwice | frontend/src/components/RukminiChat/context/ChatContext.tsx:299-301 | two unforced toggles restore the flag |
| Provider.FirstVisit | frontend/src/components/RukminiChat/context/ChatContext.tsx:52-185 | mounting with an empty store for a female user "Asha" gives the default profile with that gender and name and one welcome message; the in-memory configuration names Krishna (male) while the stored one names Rukmini (female) |
| Provider.DefaultVisit | frontend/src/components/RukminiChat/context/ChatContext.tsx:52-56 | mounting with an empty store and the default props gives the default profile, the default configuration in memory and in the store, and the welcome of the neutral user |

## Left out

- React machinery is not modelled: rendering, `createContext`, `useMemo`, `useCallback`, the `isInitialized` ref, the Strict-Mode double render and the `useChat` hook that throws outside a provider. The effects are methods the caller runs in source order. After `UpdateUserContext` changes the gender, re-running `RunIdentityEffects` is the caller's job.
- The model does not make the request to the reply service. It leaves out `fetch`, the HTTP status and the JSON of the request and reply bodies. `BeginSend` returns the request, and `CompleteSend` takes `Success(text, timestamp)` or `Failure`.
- Overlapping calls to `sendMessage` are not modelled: a `BeginSend` is followed by its `CompleteSend`.
- Dates are not modelled. Timestamps are integer milliseconds, and a reply's `timestamp` is modelled as a number. The source tests `data.timestamp || now` on whatever the body holds. `History.ReplyTime` treats 0 as missing, which is right only for a numeric `timestamp`: an ISO-8601 string for the epoch is truthy, so the source gives timestamp 0, while the model's `Some(0)` gives `now`.
- `uuidv4` is a counter, so "fresh id" means the next counter value.
- `console.log` and `console.error` are not modelled, nor are the static quick replies (lines 38-42, 123).
- `History.ResponseMessage`: a body without a `response` field would give the message the text `undefined`. The model always receives a string.
- `Persistence.LoadUserContext`: stored fields of the wrong JSON type (a numeric name, a string `xp`) are not modelled. The source copies them into the profile; the model keeps the default, or `userName` for a truthy non-string name. Extra stored keys are dropped. Stored text that uses JSON this model does not read resets the whole profile to the fallback: white space between tokens, an array anywhere (even under an extra key), a fraction or an exponent. For example, `{"xp":1.5,"gender":"male","name":"Ravi"}` loads as the fallback profile, while the source keeps "male", "Ravi" and 1.5.
- `Persistence.LoadConfig`: the source takes whatever `JSON.parse` returns as the configuration. The model accepts only a whole configuration, and anything else is `Err(UnsupportedConfig)`, so `Mount` returns `null` for it. `Err(MalformedConfig)` covers text `JSON.parse` rejects, and also JSON this model does not read: white space between tokens (`{ }`), arrays, fractions. The source mounts on the latter. Extra keys and the key order of a stored configuration are also lost: `{...config, ...}` at line 155 keeps both, but `ConfigText` writes only the four modelled keys, in a fixed order.
- JSON is limited to what the provider writes: null, booleans, integers, strings and objects. Arrays, fractions, exponents and white space between tokens are not read. A `\u` escape in the surrogate range is rejected rather than paired. Duplicate keys resolve to the last one, as in `JSON.parse`.
- `JsText.ToLower`: only ASCII letters are lowered. `toLowerCase` also lowers other Unicode letters, and some reach the keywords: U+212A KELVIN SIGN lowers to `k` (as in "thank"), and U+0130 lowers to `i` followed by U+0307. Such texts can classify differently. For example, the source greets "HİYA" (lines 264-265), while the model gives the default reply.
- `wisdomLevel` and `xp` are unbounded integers. In the code they are JavaScript numbers, which can also be fractions or NaN.
- Storage failures are not modelled. `localStorage` is a total map, so the `try` around the save in `toggleChat` (lines 306-311) and the `catch` in the initial open-state effect have no failing path.
