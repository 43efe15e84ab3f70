/**
 * The tag management page: a validated "Add Tag" form and a delete
 * button per tag, both delegating to the tag cache.
 */
module TagsPage {
  import opened Wrappers
  import opened Backend
  import Text
  import opened UseTags

  const EmptyName := "Tag name cannot be empty"

  datatype TagListView = LoadingTags | NoTagsYet | TagRows(tags: seq<Tag>)

  /** The "Your Tags" card: loading text, else the empty message, else every tag in cache order. */
  function ListView(loading: bool, tags: seq<Tag>): (v: TagListView)
    ensures v.LoadingTags? <==> loading
    ensures v.NoTagsYet? <==> !loading && tags == []
    ensures v.TagRows? ==> v.tags == tags != []
  {
    if loading then LoadingTags else if tags == [] then NoTagsYet else TagRows(tags)
  }

  class TagsPageState {
    var newTagName: string
    var error: string

    constructor ()
      ensures newTagName == "" && error == ""
    {
      newTagName := "";
      error := "";
    }

    /**
     * `handleCreateTag`: clear the page error; a blank name sets the
     * inline error and stops before any request, keeping the input;
     * otherwise the untrimmed name goes to `createTag`, which never throws,
     * so the input is cleared whatever it returned.
     */
    method HandleCreateTag(cache: TagsProvider, token: Option<string>, response: Response<Tag>)
      returns (sent: Option<string>)
      modifies this, cache
      ensures Text.IsBlank(old(newTagName)) ==>
                error == EmptyName && newTagName == old(newTagName) && sent == None
                && cache.tags == old(cache.tags) && cache.error == old(cache.error)
      ensures !Text.IsBlank(old(newTagName)) ==>
                error == "" && newTagName == ""
                && sent == (if HasToken(token) then Some(old(newTagName)) else None)
      ensures !Text.IsBlank(old(newTagName)) && HasToken(token) && response.Ok? ==>
                cache.tags == old(cache.tags) + [response.body]
      ensures !(!Text.IsBlank(old(newTagName)) && HasToken(token) && response.Ok?) ==>
                cache.tags == old(cache.tags)
      ensures cache.loading == old(cache.loading)
      ensures cache.error == (if !Text.IsBlank(old(newTagName)) && HasToken(token) && !response.Ok?
                              then Some(FailureMessage(response, CreateFailed)) else old(cache.error))
    {
      error := "";
      // `!newTagName.trim()`: the trimmed name is empty exactly when the name is blank
      // (Text.TrimEmptyIffBlank).
      if Text.IsBlank(newTagName) {
        error := EmptyName;
        return None;
      }
      var created;
      created, sent := cache.CreateTag(token, newTagName, response);
      newTagName := "";
    }

    /** `handleDeleteTag`: delegate to `deleteTag` and ignore its result. */
    method HandleDeleteTag(cache: TagsProvider, token: Option<string>, tagId: string, response: Response<()>)
      modifies cache
      ensures HasToken(token) && response.Ok? ==> cache.tags == RemoveById(old(cache.tags), tagId)
      ensures !(HasToken(token) && response.Ok?) ==> cache.tags == old(cache.tags)
      ensures cache.loading == old(cache.loading)
      ensures cache.error == (if HasToken(token) && !response.Ok?
                              then Some(FailureMessage(response, DeleteFailed)) else old(cache.error))
    {
      var _ := cache.DeleteTag(token, tagId, response);
    }
  }
}
