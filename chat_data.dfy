/** The records the chat provider keeps: messages, the user's profile
    (UserContext), the display configuration (ChatConfig), and the partial
    profile update that `updateUserContext` merges in. */
module ChatData {
  import opened Wrappers

  datatype Gender = Male | Female | Neutral

  datatype Sender = User | Assistant

  /** A chat message. Ids come from a counter (one fresh id per message),
      timestamps are milliseconds, and `isError` false stands for the
      field being absent. */
  datatype Message = Message(id: nat, text: string, sender: Sender, timestamp: int, isError: bool)

  /** The user's profile. The mood is free text ("neutral", "stressed", ...). */
  datatype UserContext = UserContext(gender: Gender, name: string, mood: string, wisdomLevel: int, xp: int)

  datatype Theme = Theme(primary: string, secondary: string, background: string, text: string)

  datatype ChatConfig = ChatConfig(isOpen: bool, assistantName: string, assistantGender: Gender, theme: Theme)

  /** A `Partial<UserContext>`: a field that is None is absent. */
  datatype ContextUpdate = ContextUpdate(
    gender: Option<Gender>, name: Option<string>, mood: Option<string>,
    wisdomLevel: Option<int>, xp: Option<int>)

  const DefaultUserContext := UserContext(Neutral, "Friend", "neutral", 1, 0)

  const DefaultConfig :=
    ChatConfig(false, "Chanakya", Neutral, Theme("#6366f1", "#8b5cf6", "rgba(255, 255, 255, 0.1)", "#1f2937"))

  /** The provider's own defaults for its `defaultGender` and `userName` props. */
  const DefaultGenderProp := Neutral
  const DefaultUserNameProp := "Friend"

  const NoUpdate := ContextUpdate(None, None, None, None, None)

  /** `{...prev, ...u}`. */
  function Merge(prev: UserContext, u: ContextUpdate): UserContext {
    UserContext(
      u.gender.GetOr(prev.gender), u.name.GetOr(prev.name), u.mood.GetOr(prev.mood),
      u.wisdomLevel.GetOr(prev.wisdomLevel), u.xp.GetOr(prev.xp))
  }

  /** `{...u1, ...u2}`: the later update wins where both give a field. */
  function Combine(u1: ContextUpdate, u2: ContextUpdate): ContextUpdate {
    ContextUpdate(
      if u2.gender.Some? then u2.gender else u1.gender,
      if u2.name.Some? then u2.name else u1.name,
      if u2.mood.Some? then u2.mood else u1.mood,
      if u2.wisdomLevel.Some? then u2.wisdomLevel else u1.wisdomLevel,
      if u2.xp.Some? then u2.xp else u1.xp)
  }

  /** Fields the update gives take its value; the others keep theirs. */
  lemma MergeFields(prev: UserContext, u: ContextUpdate)
    ensures var r := Merge(prev, u);
            (if u.gender.Some? then r.gender == u.gender.value else r.gender == prev.gender) &&
            (if u.name.Some? then r.name == u.name.value else r.name == prev.name) &&
            (if u.mood.Some? then r.mood == u.mood.value else r.mood == prev.mood) &&
            (if u.wisdomLevel.Some? then r.wisdomLevel == u.wisdomLevel.value else r.wisdomLevel == prev.wisdomLevel) &&
            (if u.xp.Some? then r.xp == u.xp.value else r.xp == prev.xp)
  {
  }

  /** Applying the same update twice is applying it once. */
  lemma MergeIdempotent(prev: UserContext, u: ContextUpdate)
    ensures Merge(Merge(prev, u), u) == Merge(prev, u)
  {
  }

  /** Two updates in a row are one combined update. */
  lemma MergeMerge(prev: UserContext, u1: ContextUpdate, u2: ContextUpdate)
    ensures Merge(Merge(prev, u1), u2) == Merge(prev, Combine(u1, u2))
  {
  }

  /** The empty update changes nothing. */
  lemma MergeNoUpdate(prev: UserContext)
    ensures Merge(prev, NoUpdate) == prev
  {
  }
}
