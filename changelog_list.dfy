/**
 * The entry list: fetches up to `limit` entries and renders them, with the
 * display helpers it uses for each entry.
 */
module ChangelogList {
  import opened Wrappers
  import opened Backend
  import opened Entries
  import UseTags
  import Text

  const TitleLength := 60
  const Ellipsis := "..."
  const FetchFailed := "Failed to fetch changelog entries"
  const SkeletonCount := 3

  /** The title line: the content when it fits in 60 characters, else its first 60 and "...". */
  function Title(content: string): (t: string)
    ensures |content| <= TitleLength ==> t == content
    ensures |content| > TitleLength ==> |t| == TitleLength + 3 && t[..TitleLength] == content[..TitleLength]
                                        && t[TitleLength..] == Ellipsis
  {
    if |content| > TitleLength then content[..TitleLength] + Ellipsis else content
  }

  /** The separate full-content paragraph, rendered only for content longer than 60 characters. */
  function FullContent(content: string): (p: Option<string>)
    ensures p.Some? <==> |content| > TitleLength
    ensures p.Some? ==> p.value == content
  {
    if |content| > TitleLength then Some(content) else None
  }

  /**
   * Nothing of the content is hidden: either the title is the whole
   * content, or the whole content is shown in its own paragraph, and the
   * title never runs past 63 characters.
   */
  lemma ContentAlwaysShown(content: string)
    ensures Title(content) == content || FullContent(content) == Some(content)
    ensures |Title(content)| <= TitleLength + 3
    ensures Title(content)[..if |content| < TitleLength then |content| else TitleLength]
            == content[..if |content| < TitleLength then |content| else TitleLength]
  {
  }

  const VeryPositive := "text-green-500"
  const Positive := "text-green-400"
  const NeutralScore := "text-gray-500"
  const Negative := "text-red-400"
  const VeryNegative := "text-red-500"

  /** `getSentimentColor`: five bands cut at 0.5, 0.1, -0.1 and -0.5, each a strict lower bound. */
  function SentimentColor(score: real): (c: string)
    ensures c == VeryPositive <==> score > 0.5
    ensures c == Positive <==> 0.1 < score <= 0.5
    ensures c == NeutralScore <==> -0.1 < score <= 0.1
    ensures c == Negative <==> -0.5 < score <= -0.1
    ensures c == VeryNegative <==> score <= -0.5
  {
    if score > 0.5 then VeryPositive
    else if score > 0.1 then Positive
    else if score > -0.1 then NeutralScore
    else if score > -0.5 then Negative
    else VeryNegative
  }

  /** The position of a sentiment class from most negative (0) to most positive (4). */
  function SentimentRank(c: string): nat
  {
    if c == VeryPositive then 4
    else if c == Positive then 3
    else if c == NeutralScore then 2
    else if c == Negative then 1
    else 0
  }

  /** A higher score never gets a lower band. */
  lemma SentimentMonotone(x: real, y: real)
    requires x <= y
    ensures SentimentRank(SentimentColor(x)) <= SentimentRank(SentimentColor(y))
  {
  }

  const DefaultTypeColor := "bg-gray-500"

  /**
   * `getEntryTypeColor`: the seven entry types get seven different colours,
   * none of them the default, and every other string gets the default.
   */
  function EntryTypeColor(entryType: string): (c: string)
    ensures c == DefaultTypeColor <==> ParseEntryType(entryType).None?
  {
    match entryType
    case "HIGHLIGHT" => "bg-green-500"
    case "BUG" => "bg-red-500"
    case "REFLECTION" => "bg-blue-500"
    case "INSIGHT" => "bg-purple-500"
    case "CHALLENGE" => "bg-orange-500"
    case "PROGRESS" => "bg-cyan-500"
    case "QUESTION" => "bg-yellow-500"
    case _ => DefaultTypeColor
  }

  /** Different entry types never share a colour. */
  lemma EntryTypeColorsDistinct(a: EntryType, b: EntryType)
    requires a != b
    ensures EntryTypeColor(a.Name()) != EntryTypeColor(b.Name())
  {
  }

  /** What one entry's card shows (the relative creation time is left out). */
  datatype EntryCard = EntryCard(
    typeColor: string,
    gitmojis: seq<string>,
    title: string,
    titleColor: string,
    mood: Option<string>,
    fullContent: Option<string>,
    contentColor: string,
    tagNames: seq<string>)

  function Card(e: ChangelogEntry, tags: seq<UseTags.Tag>): (c: EntryCard)
    ensures c.title == e.content || c.fullContent == Some(e.content)
    ensures c.title == Title(e.content) && c.fullContent == FullContent(e.content)
    ensures c.titleColor == SentimentColor(e.sentimentScore) == c.contentColor
    ensures c.typeColor == EntryTypeColor(e.entryType) && c.mood == e.mood && c.gitmojis == e.gitmojis
    ensures |c.tagNames| == |e.tags|
    ensures forall i :: 0 <= i < |e.tags| ==> c.tagNames[i] == UseTags.TagName(tags, e.tags[i])
  {
    EntryCard(EntryTypeColor(e.entryType), e.gitmojis, Title(e.content), SentimentColor(e.sentimentScore),
              e.mood, FullContent(e.content), SentimentColor(e.sentimentScore),
              seq(|e.tags|, i requires 0 <= i < |e.tags| => UseTags.TagName(tags, e.tags[i])))
  }

  datatype ListView = Skeletons(count: nat) | ErrorCard(message: string) | EmptyMessage | Cards(cards: seq<EntryCard>)

  /** Render priority: loading, then a non-empty error, then no entries, then the entries as received. */
  function Render(loading: bool, error: string, entries: seq<ChangelogEntry>, tags: seq<UseTags.Tag>): (v: ListView)
    ensures v.Skeletons? <==> loading
    ensures v.ErrorCard? <==> !loading && error != ""
    ensures v.EmptyMessage? <==> !loading && error == "" && entries == []
    ensures v.Cards? ==> |v.cards| == |entries|
    ensures v.Cards? ==> forall i :: 0 <= i < |entries| ==> v.cards[i] == Card(entries[i], tags)
  {
    if loading then Skeletons(SkeletonCount)
    else if error != "" then ErrorCard(error)
    else if entries == [] then EmptyMessage
    else Cards(seq(|entries|, i requires 0 <= i < |entries| => Card(entries[i], tags)))
  }

  /** Before the tag cache has loaded, every tag on every card reads "unknown". */
  lemma TagsNotLoadedReadUnknown(entries: seq<ChangelogEntry>, i: nat, j: nat)
    requires i < |entries| && j < |entries[i].tags|
    ensures Render(false, "", entries, []).Cards?
    ensures Render(false, "", entries, []).cards[i].tagNames[j] == UseTags.Unknown
  {
  }

  const ListPrefix := "/api/changelog/?limit="

  /** The request path for a list of at most `limit` entries. */
  function ListPath(limit: nat): (p: string)
    ensures |p| > |ListPrefix| && p[..|ListPrefix|] == ListPrefix
    ensures Text.IsDigits(p[|ListPrefix|..])
  {
    ListPrefix + Text.NatToString(limit)
  }

  /** The limit can be read back from the request path. */
  lemma ListPathCarriesLimit(limit: nat)
    ensures |ListPath(limit)| > |ListPrefix| && Text.IsDigits(ListPath(limit)[|ListPrefix|..])
    ensures Text.ParseNat(ListPath(limit)[|ListPrefix|..]) == limit
  {
    assert ListPath(limit)[|ListPrefix|..] == Text.NatToString(limit);
    Text.ParseNatToString(limit);
  }

  class ChangelogListState {
    var entries: seq<ChangelogEntry>
    var loading: bool
    var error: string

    constructor ()
      ensures entries == [] && loading && error == ""
    {
      entries := [];
      loading := true;
      error := "";
    }

    /**
     * `fetchEntries`: without a token nothing happens (so `loading` stays as
     * it was, initially true). Otherwise the list is requested with the
     * given limit; a success replaces the entries, a failure records its
     * message; nothing ever clears the error; loading ends either way.
     */
    method FetchEntries(token: Option<string>, limit: nat, response: Response<seq<ChangelogEntry>>)
      returns (path: Option<string>)
      modifies this
      ensures !HasToken(token) ==> path == None && entries == old(entries) && loading == old(loading)
                                   && error == old(error)
      ensures HasToken(token) ==> path == Some(ListPath(limit)) && !loading
      ensures HasToken(token) && response.Ok? ==> entries == response.body && error == old(error)
      ensures HasToken(token) && !response.Ok? ==>
                entries == old(entries) && error == FailureMessage(response, FetchFailed)
    {
      if !HasToken(token) {
        return None;
      }
      loading := true;
      path := Some(ListPath(limit));
      match response {
        case Ok(data) =>
          entries := data;
        case NotOk =>
          error := FetchFailed;
        case Threw(t) =>
          error := CaughtMessage(t);
      }
      loading := false;
    }
  }
}
