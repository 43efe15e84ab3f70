/** The "Recent Tags" card: the first five tags of the cache, in cache order. */
module RecentTags {
  import opened UseTags
  import Seqs

  const RecentCount := 5

  /** `tags.slice(0, 5)`: the first five tags, not re-sorted. */
  function Recent(tags: seq<Tag>): (r: seq<Tag>)
    ensures |r| == if |tags| < RecentCount then |tags| else RecentCount
    ensures forall i :: 0 <= i < |r| ==> r[i] == tags[i]
  {
    Seqs.Take(tags, RecentCount)
  }

  datatype RecentView = LoadingTags | NoTagsYet | Badges(names: seq<string>)

  /** Loading text while loading, whatever the cache holds; then the empty message; then the badges. */
  function View(loading: bool, tags: seq<Tag>): (v: RecentView)
    ensures v.LoadingTags? <==> loading
    ensures v.NoTagsYet? <==> !loading && tags == []
    ensures v.Badges? ==> |v.names| == |Recent(tags)| > 0
    ensures v.Badges? ==> forall i :: 0 <= i < |v.names| ==> v.names[i] == tags[i].name
  {
    if loading then LoadingTags
    else
      var recent := Recent(tags);
      if |recent| == 0 then NoTagsYet
      else Badges(seq(|recent|, i requires 0 <= i < |recent| => recent[i].name))
  }

  /** A tag created while fewer than five are cached shows up, last, among the recent tags. */
  lemma CreatedTagIsRecent(tags: seq<Tag>, created: Tag)
    requires |tags| < RecentCount
    ensures Recent(tags + [created]) == tags + [created]
    ensures created in Recent(tags + [created])
  {
  }

  /** With five or more cached, creating another tag leaves the recent tags unchanged. */
  lemma CreatedTagNotRecentWhenFull(tags: seq<Tag>, created: Tag)
    requires |tags| >= RecentCount
    ensures Recent(tags + [created]) == Recent(tags)
  {
  }
}
