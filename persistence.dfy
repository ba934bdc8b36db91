/** What the provider keeps in the browser's key-value storage, and how it
    reads it back when it is created. Storage is a map from key to text;
    the profile and the configuration are stored as JSON text. */
module Persistence {
  import opened Wrappers
  import Json
  import opened ChatData

  type Store = map<string, string>

  const IsOpenKey := "chatIsOpen"
  const ProfileKey := "chatUserContext"
  const ConfigKey := "chatConfig"

  /** `localStorage.getItem(key)`: the text stored, or null. */
  function Get(store: Store, key: string): Option<string> {
    if key in store then Some(store[key]) else None
  }

  /** The laws of `localStorage`: a read after `setItem` gives the value
      set, a read after `removeItem` gives null, and neither touches any
      other key. */
  lemma StoreLaws(store: Store, key: string, value: string, other: string)
    ensures Get(store[key := value], key) == Some(value)
    ensures Get(store - {key}, key) == None
    ensures other != key ==> Get(store[key := value], other) == Get(store, other)
    ensures other != key ==> Get(store - {key}, other) == Get(store, other)
  {
  }

  /** `String(b)`. */
  function BoolText(b: bool): string {
    if b then "true" else "false"
  }

  function GenderText(g: Gender): string {
    match g
    case Male => "male"
    case Female => "female"
    case Neutral => "neutral"
  }

  /** The membership test `['male', 'female', 'neutral'].includes(s)`,
      returning the gender it names. */
  function GenderFromText(s: string): (r: Option<Gender>)
    ensures r.Some? ==> GenderText(r.value) == s
    ensures r.None? ==> s != "male" && s != "female" && s != "neutral"
  {
    if s == "male" then Some(Male)
    else if s == "female" then Some(Female)
    else if s == "neutral" then Some(Neutral)
    else None
  }

  lemma GenderTextRoundTrip(g: Gender)
    ensures GenderFromText(GenderText(g)) == Some(g)
  {
  }

  // ---------------------------------------------------------------------
  // The profile

  /** The JSON object `JSON.stringify` writes for a profile, members in the
      order of the default profile's keys. */
  function ProfileJson(u: UserContext): Json.Value {
    Json.Obj(
      Json.Member("gender", Json.Str(GenderText(u.gender)),
      Json.Member("name", Json.Str(u.name),
      Json.Member("mood", Json.Str(u.mood),
      Json.Member("wisdomLevel", Json.Num(u.wisdomLevel),
      Json.Member("xp", Json.Num(u.xp), Json.Empty))))))
  }

  function ProfileText(u: UserContext): string {
    Json.Stringify(ProfileJson(u))
  }

  /** The profile used when nothing usable is stored:
      `{...defaultUserContext, gender: defaultGender, name: userName}`. */
  function FallbackContext(defaultGender: Gender, userName: string): UserContext {
    DefaultUserContext.(gender := defaultGender, name := userName)
  }

  /** The profile fields of a parsed object, as the partial record that
      `...parsed` spreads over the defaults. */
  function UpdateFromJson(ms: Json.Members): ContextUpdate {
    ContextUpdate(
      match Json.Lookup(ms, "gender") case Some(Str(s)) => GenderFromText(s) case _ => None,
      match Json.Lookup(ms, "name") case Some(Str(s)) => Some(s) case _ => None,
      match Json.Lookup(ms, "mood") case Some(Str(s)) => Some(s) case _ => None,
      match Json.Lookup(ms, "wisdomLevel") case Some(Num(n)) => Some(n) case _ => None,
      match Json.Lookup(ms, "xp") case Some(Num(n)) => Some(n) case _ => None)
  }

  /** `['male', 'female', 'neutral'].includes(parsed.gender) ? parsed.gender : defaultGender`. */
  function ValidGender(field: Option<Json.Value>, defaultGender: Gender): Gender {
    match field
    case Some(Str(s)) => GenderFromText(s).GetOr(defaultGender)
    case _ => defaultGender
  }

  /** `parsed.name || userName`: the empty string is falsy. */
  function NameOr(field: Option<Json.Value>, userName: string): string {
    match field
    case Some(Str(s)) => if s != "" then s else userName
    case _ => userName
  }

  /** A member of the stored profile, when the stored text is a non-empty
      JSON object that has it. */
  function SavedField(saved: Option<string>, key: string): Option<Json.Value> {
    if saved.None? || saved.value == "" then None
    else
      match Json.Parse(saved.value)
      case Some(Obj(ms)) => Json.Lookup(ms, key)
      case _ => None
  }

  /** The lazy initialiser of the profile state. A missing or empty entry,
      text that JSON.parse rejects, and the parsed value `null` (whose
      property read throws) all give the fallback profile; a parsed object
      is spread over the defaults with its gender validated and its name
      defaulted. */
  function LoadUserContext(saved: Option<string>, defaultGender: Gender, userName: string): (r: UserContext)
    ensures r.gender == ValidGender(SavedField(saved, "gender"), defaultGender)
    ensures r.name == NameOr(SavedField(saved, "name"), userName)
    ensures r.mood == (match SavedField(saved, "mood") case Some(Str(s)) => s case _ => DefaultUserContext.mood)
    ensures r.wisdomLevel ==
            (match SavedField(saved, "wisdomLevel") case Some(Num(n)) => n case _ => DefaultUserContext.wisdomLevel)
    ensures r.xp == (match SavedField(saved, "xp") case Some(Num(n)) => n case _ => DefaultUserContext.xp)
    ensures saved.None? || Json.Parse(saved.value).None? ==> r == FallbackContext(defaultGender, userName)
  {
    if saved.None? || saved.value == "" then FallbackContext(defaultGender, userName)
    else
      match Json.Parse(saved.value)
      case None => FallbackContext(defaultGender, userName)
      case Some(Null) => FallbackContext(defaultGender, userName)
      case Some(Obj(ms)) =>
        Merge(DefaultUserContext, UpdateFromJson(ms)).(
          gender := ValidGender(Json.Lookup(ms, "gender"), defaultGender),
          name := NameOr(Json.Lookup(ms, "name"), userName))
      case Some(_) => FallbackContext(defaultGender, userName)
  }

  /** A stored profile reads back as it was written, except that an empty
      name is replaced by the `userName` prop. */
  lemma ProfileRoundTrip(u: UserContext, defaultGender: Gender, userName: string)
    ensures LoadUserContext(Some(ProfileText(u)), defaultGender, userName) ==
            u.(name := if u.name == "" then userName else u.name)
  {
    var v := ProfileJson(u);
    Json.StringifyRoundTrip(v);
    ProfileLookups(u);
    GenderTextRoundTrip(u.gender);
  }

  /** Each profile key of the written object reads back its own field. */
  lemma ProfileLookups(u: UserContext)
    ensures var ms := ProfileJson(u).members;
            Json.Lookup(ms, "gender") == Some(Json.Str(GenderText(u.gender))) &&
            Json.Lookup(ms, "name") == Some(Json.Str(u.name)) &&
            Json.Lookup(ms, "mood") == Some(Json.Str(u.mood)) &&
            Json.Lookup(ms, "wisdomLevel") == Some(Json.Num(u.wisdomLevel)) &&
            Json.Lookup(ms, "xp") == Some(Json.Num(u.xp))
  {
    var m5 := Json.Member("xp", Json.Num(u.xp), Json.Empty);
    var m4 := Json.Member("wisdomLevel", Json.Num(u.wisdomLevel), m5);
    var m3 := Json.Member("mood", Json.Str(u.mood), m4);
    var m2 := Json.Member("name", Json.Str(u.name), m3);
    var m1 := Json.Member("gender", Json.Str(GenderText(u.gender)), m2);
    assert m1 == ProfileJson(u).members;
    assert Json.Lookup(m5, "gender") == None && Json.Lookup(m5, "name") == None;
    assert Json.Lookup(m5, "mood") == None && Json.Lookup(m5, "wisdomLevel") == None;
    assert Json.Lookup(m4, "gender") == None && Json.Lookup(m4, "name") == None && Json.Lookup(m4, "mood") == None;
    assert Json.Lookup(m3, "gender") == None && Json.Lookup(m3, "name") == None;
    assert Json.Lookup(m2, "gender") == None;
    assert Json.Lookup(m4, "xp") == Some(Json.Num(u.xp));
    assert Json.Lookup(m3, "xp") == Some(Json.Num(u.xp));
    assert Json.Lookup(m2, "xp") == Some(Json.Num(u.xp));
    assert Json.Lookup(m3, "wisdomLevel") == Some(Json.Num(u.wisdomLevel));
    assert Json.Lookup(m2, "wisdomLevel") == Some(Json.Num(u.wisdomLevel));
    assert Json.Lookup(m2, "mood") == Some(Json.Str(u.mood));
  }

  // ---------------------------------------------------------------------
  // The configuration

  function ThemeJson(t: Theme): Json.Value {
    Json.Obj(
      Json.Member("primary", Json.Str(t.primary),
      Json.Member("secondary", Json.Str(t.secondary),
      Json.Member("background", Json.Str(t.background),
      Json.Member("text", Json.Str(t.text), Json.Empty)))))
  }

  function ConfigJson(c: ChatConfig): Json.Value {
    Json.Obj(
      Json.Member("isOpen", Json.Bool(c.isOpen),
      Json.Member("assistantName", Json.Str(c.assistantName),
      Json.Member("assistantGender", Json.Str(GenderText(c.assistantGender)),
      Json.Member("theme", ThemeJson(c.theme), Json.Empty)))))
  }

  function ConfigText(c: ChatConfig): string {
    Json.Stringify(ConfigJson(c))
  }

  function ThemeFromJson(v: Option<Json.Value>): Option<Theme> {
    match v
    case Some(Obj(ms)) =>
      (match (Json.Lookup(ms, "primary"), Json.Lookup(ms, "secondary"),
              Json.Lookup(ms, "background"), Json.Lookup(ms, "text"))
       case (Some(Str(p)), Some(Str(s)), Some(Str(b)), Some(Str(t))) => Some(Theme(p, s, b, t))
       case _ => None)
    case _ => None
  }

  /** A parsed value read as a configuration, when it has every field with
      the type the configuration gives it. */
  function ConfigFromJson(v: Json.Value): Option<ChatConfig> {
    match v
    case Obj(ms) =>
      (match (Json.Lookup(ms, "isOpen"), Json.Lookup(ms, "assistantName"),
              Json.Lookup(ms, "assistantGender"), ThemeFromJson(Json.Lookup(ms, "theme")))
       case (Some(Bool(o)), Some(Str(n)), Some(Str(g)), Some(t)) =>
         (match GenderFromText(g) case Some(gender) => Some(ChatConfig(o, n, gender, t)) case None => None)
       case _ => None)
    case _ => None
  }

  datatype ConfigError =
    | MalformedConfig   // text the parser of this model does not read: JSON.parse throws on
                        // it, or it uses JSON this model leaves out (white space, arrays, fractions)
    | UnsupportedConfig // valid JSON that is not a whole configuration

  /** The lazy initialiser of the configuration state,
      `saved ? JSON.parse(saved) : defaultConfig`, which has no try. */
  function LoadConfig(saved: Option<string>): (r: Result<ChatConfig, ConfigError>)
    ensures saved.None? || saved.value == "" ==> r == Ok(DefaultConfig)
    ensures saved.Some? && saved.value != "" && Json.Parse(saved.value).None? ==> r == Err(MalformedConfig)
  {
    if saved.None? || saved.value == "" then Ok(DefaultConfig)
    else
      match Json.Parse(saved.value)
      case None => Err(MalformedConfig)
      case Some(v) =>
        match ConfigFromJson(v)
        case Some(c) => Ok(c)
        case None => Err(UnsupportedConfig)
  }

  /** A stored configuration reads back exactly as it was written. */
  lemma ConfigRoundTrip(c: ChatConfig)
    ensures LoadConfig(Some(ConfigText(c))) == Ok(c)
  {
    var v := ConfigJson(c);
    Json.StringifyRoundTrip(v);
    ThemeLookups(c.theme);
    assert ThemeFromJson(Some(ThemeJson(c.theme))) == Some(c.theme);
    ConfigLookups(c);
    GenderTextRoundTrip(c.assistantGender);
  }

  lemma ThemeLookups(t: Theme)
    ensures var ms := ThemeJson(t).members;
            Json.Lookup(ms, "primary") == Some(Json.Str(t.primary)) &&
            Json.Lookup(ms, "secondary") == Some(Json.Str(t.secondary)) &&
            Json.Lookup(ms, "background") == Some(Json.Str(t.background)) &&
            Json.Lookup(ms, "text") == Some(Json.Str(t.text))
  {
    var m4 := Json.Member("text", Json.Str(t.text), Json.Empty);
    var m3 := Json.Member("background", Json.Str(t.background), m4);
    var m2 := Json.Member("secondary", Json.Str(t.secondary), m3);
    var m1 := Json.Member("primary", Json.Str(t.primary), m2);
    assert m1 == ThemeJson(t).members;
    assert Json.Lookup(m4, "primary") == None && Json.Lookup(m4, "secondary") == None;
    assert Json.Lookup(m4, "background") == None;
    assert Json.Lookup(m3, "primary") == None && Json.Lookup(m3, "secondary") == None;
    assert Json.Lookup(m2, "primary") == None;
    assert Json.Lookup(m3, "text") == Some(Json.Str(t.text));
    assert Json.Lookup(m2, "text") == Some(Json.Str(t.text));
    assert Json.Lookup(m2, "background") == Some(Json.Str(t.background));
  }

  lemma ConfigLookups(c: ChatConfig)
    ensures var ms := ConfigJson(c).members;
            Json.Lookup(ms, "isOpen") == Some(Json.Bool(c.isOpen)) &&
            Json.Lookup(ms, "assistantName") == Some(Json.Str(c.assistantName)) &&
            Json.Lookup(ms, "assistantGender") == Some(Json.Str(GenderText(c.assistantGender))) &&
            Json.Lookup(ms, "theme") == Some(ThemeJson(c.theme))
  {
    var m4 := Json.Member("theme", ThemeJson(c.theme), Json.Empty);
    var m3 := Json.Member("assistantGender", Json.Str(GenderText(c.assistantGender)), m4);
    var m2 := Json.Member("assistantName", Json.Str(c.assistantName), m3);
    var m1 := Json.Member("isOpen", Json.Bool(c.isOpen), m2);
    assert m1 == ConfigJson(c).members;
    assert Json.Lookup(m4, "isOpen") == None && Json.Lookup(m4, "assistantName") == None;
    assert Json.Lookup(m4, "assistantGender") == None;
    assert Json.Lookup(m3, "isOpen") == None && Json.Lookup(m3, "assistantName") == None;
    assert Json.Lookup(m2, "isOpen") == None;
    assert Json.Lookup(m3, "theme") == Some(ThemeJson(c.theme));
    assert Json.Lookup(m2, "theme") == Some(ThemeJson(c.theme));
    assert Json.Lookup(m2, "assistantGender") == Some(Json.Str(GenderText(c.assistantGender)));
  }
}
