/**
 * The changelog entry as the backend returns it, and the two closed
 * vocabularies the entry form offers: seven entry types and six moods.
 * On the wire both are plain strings; the components compare them with
 * string literals and fall back to a default for anything else.
 */
module Entries {
  import opened Wrappers

  /**
   * A changelog entry. `mood` is `None` when the field is absent or null;
   * `sentimentScore` is compared only with `>`, so it is a real number here.
   */
  datatype ChangelogEntry = ChangelogEntry(
    id: string,
    content: string,
    entryType: string,
    mood: Option<string>,
    gitmojis: seq<string>,
    sentimentScore: real,
    tags: seq<string>,
    createdAt: string,
    updatedAt: Option<string>)

  datatype EntryType = Highlight | Bug | Reflection | Insight | Challenge | Progress | Question
  {
    /** The wire name, as the form's select items carry it. */
    function Name(): string
    {
      match this
      case Highlight => "HIGHLIGHT"
      case Bug => "BUG"
      case Reflection => "REFLECTION"
      case Insight => "INSIGHT"
      case Challenge => "CHALLENGE"
      case Progress => "PROGRESS"
      case Question => "QUESTION"
    }
  }

  /** The entry type a wire name denotes, if any. */
  function ParseEntryType(s: string): (r: Option<EntryType>)
    ensures r.Some? ==> r.value.Name() == s
    ensures forall t: EntryType :: t.Name() == s ==> r == Some(t)
  {
    if s == "HIGHLIGHT" then Some(Highlight)
    else if s == "BUG" then Some(Bug)
    else if s == "REFLECTION" then Some(Reflection)
    else if s == "INSIGHT" then Some(Insight)
    else if s == "CHALLENGE" then Some(Challenge)
    else if s == "PROGRESS" then Some(Progress)
    else if s == "QUESTION" then Some(Question)
    else None
  }

  datatype Mood = Happy | Neutral | Sad | Excited | Stressed | Tired
  {
    function Name(): string
    {
      match this
      case Happy => "HAPPY"
      case Neutral => "NEUTRAL"
      case Sad => "SAD"
      case Excited => "EXCITED"
      case Stressed => "STRESSED"
      case Tired => "TIRED"
    }
  }

  /** The mood a wire name denotes, if any. */
  function ParseMood(s: string): (r: Option<Mood>)
    ensures r.Some? ==> r.value.Name() == s
    ensures forall m: Mood :: m.Name() == s ==> r == Some(m)
  {
    if s == "HAPPY" then Some(Happy)
    else if s == "NEUTRAL" then Some(Neutral)
    else if s == "SAD" then Some(Sad)
    else if s == "EXCITED" then Some(Excited)
    else if s == "STRESSED" then Some(Stressed)
    else if s == "TIRED" then Some(Tired)
    else None
  }
}
