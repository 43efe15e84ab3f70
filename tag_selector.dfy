/**
 * The tag-selection widget of the entry form: toggling an id in the
 * selection, creating a tag inline and selecting it, and the badge labels
 * of the selection.
 */
module TagSelector {
  import opened Wrappers
  import opened Backend
  import Seqs
  import Text
  import opened UseTags

  /**
   * `handleSelect(tagId)`: a selected id is removed (every occurrence of
   * it), an unselected one is appended at the end.
   */
  function Toggle(selected: seq<string>, tagId: string): (r: seq<string>)
    ensures tagId in r <==> tagId !in selected
    ensures forall id :: id != tagId ==> (id in r <==> id in selected)
    ensures tagId !in selected ==> r == selected + [tagId]
    ensures tagId in selected ==> |r| < |selected|
  {
    if tagId in selected then
      var k :| 0 <= k < |selected| && selected[k] == tagId;
      Seqs.FilterShrinks(selected, (id: string) => id != tagId, k);
      Seqs.Filter(selected, (id: string) => id != tagId)
    else selected + [tagId]
  }

  /** Removing a selected id keeps every other id, as often as before and in the same order. */
  lemma ToggleOffKeepsOthers(selected: seq<string>, tagId: string, other: string, a: seq<string>, b: seq<string>)
    requires tagId in selected
    requires other != tagId
    ensures multiset(Toggle(selected, tagId))[other] == multiset(selected)[other]
    ensures tagId in a + b ==> Toggle(a + b, tagId) == Seqs.Filter(a, (id: string) => id != tagId)
                                                     + Seqs.Filter(b, (id: string) => id != tagId)
  {
    Seqs.FilterMultiplicity(selected, (id: string) => id != tagId, other);
    Seqs.FilterConcat(a, b, (id: string) => id != tagId);
  }

  /** Toggling an unselected id twice restores the selection. */
  lemma {:induction false} ToggleTwiceRestores(selected: seq<string>, tagId: string)
    requires tagId !in selected
    ensures Toggle(Toggle(selected, tagId), tagId) == selected
  {
    var keep := (id: string) => id != tagId;
    Seqs.FilterConcat(selected, [tagId], keep);
    Seqs.FilterKeepsAll(selected, keep);
    assert Seqs.Filter([tagId], keep) == [];
  }

  /** `getTagName` over a selection: the badge label of each selected id. */
  function BadgeLabels(selected: seq<string>, tags: seq<Tag>): (labels: seq<string>)
    ensures |labels| == |selected|
    ensures forall i :: 0 <= i < |selected| ==> labels[i] == TagName(tags, selected[i])
  {
    seq(|selected|, i requires 0 <= i < |selected| => TagName(tags, selected[i]))
  }

  /**
   * Deleting a tag from the cache does not touch a selection: the id stays
   * selected, and its badge now reads "unknown".
   */
  lemma DeletedTagBadgeReadsUnknown(selected: seq<string>, tags: seq<Tag>, id: string, i: nat)
    requires i < |selected| && selected[i] == id
    ensures BadgeLabels(selected, RemoveById(tags, id))[i] == Unknown
  {
    TagNameAfterRemove(tags, id);
  }

  /**
   * The widget's own state: the text of the "Create new tag" input, and the
   * selection it is given as a prop and hands back through `onTagsChange`.
   */
  class TagSelectorState {
    var newTagName: string
    var selectedTags: seq<string>

    constructor (selectedTags: seq<string>)
      ensures newTagName == "" && this.selectedTags == selectedTags
    {
      newTagName := "";
      this.selectedTags := selectedTags;
    }

    /** `handleSelect(tagId)`, passing the toggled selection to `onTagsChange`. */
    method HandleSelect(tagId: string)
      modifies this
      ensures selectedTags == Toggle(old(selectedTags), tagId)
      ensures newTagName == old(newTagName)
    {
      selectedTags := Toggle(selectedTags, tagId);
    }

    /**
     * `handleCreateTag`: a blank name returns at once; otherwise the name,
     * untrimmed, goes to `createTag`; a created tag's id is appended to the
     * selection and the input cleared, a null result changes neither.
     */
    method HandleCreateTag(cache: TagsProvider, token: Option<string>, response: Response<Tag>)
      returns (sent: Option<string>)
      modifies this, cache
      ensures Text.IsBlank(old(newTagName)) ==>
                sent == None && newTagName == old(newTagName) && selectedTags == old(selectedTags)
                && cache.tags == old(cache.tags) && cache.error == old(cache.error)
      ensures !Text.IsBlank(old(newTagName)) ==>
                sent == (if HasToken(token) then Some(old(newTagName)) else None)
      ensures !Text.IsBlank(old(newTagName)) && HasToken(token) && response.Ok? ==>
                selectedTags == old(selectedTags) + [response.body.id] && newTagName == ""
                && cache.tags == old(cache.tags) + [response.body]
      ensures !(!Text.IsBlank(old(newTagName)) && HasToken(token) && response.Ok?) ==>
                selectedTags == old(selectedTags) && newTagName == old(newTagName)
                && cache.tags == old(cache.tags)
      ensures cache.loading == old(cache.loading)
      ensures cache.error == (if !Text.IsBlank(old(newTagName)) && HasToken(token) && !response.Ok?
                              then Some(FailureMessage(response, CreateFailed)) else old(cache.error))
    {
      // `!newTagName.trim()`: the trimmed name is empty exactly when the name is blank
      // (Text.TrimEmptyIffBlank).
      if Text.IsBlank(newTagName) {
        return None;
      }
      var created;
      created, sent := cache.CreateTag(token, newTagName, response);
      if created.Some? {
        selectedTags := selectedTags + [created.value.id];
        newTagName := "";
      }
    }
  }
}
