/**
 * The tag cache (`TagsProvider`): the user's tags held in memory, changed
 * only after the backend confirms a fetch, a create or a delete.
 */
module UseTags {
  import opened Wrappers
  import opened Backend
  import Seqs

  datatype Tag = Tag(id: string, name: string, userId: string)

  const FetchFailed := "Failed to fetch tags"
  const CreateFailed := "Failed to create tag"
  const DeleteFailed := "Failed to delete tag"
  const Unknown := "unknown"

  /** The cache after the backend confirmed a delete: `prev.filter(tag => tag.id !== id)`. */
  function RemoveById(tags: seq<Tag>, id: string): (r: seq<Tag>)
    ensures |r| <= |tags|
    ensures forall t :: t in r <==> t in tags && t.id != id
  {
    Seqs.Filter(tags, (t: Tag) => t.id != id)
  }

  /**
   * The delete removes exactly the tags carrying `id`: every other tag keeps
   * its multiplicity, none with `id` is left, and the rest keep their order
   * (removal distributes over concatenation and leaves an id-free list alone).
   */
  lemma RemoveByIdExact(tags: seq<Tag>, id: string, t: Tag, a: seq<Tag>, b: seq<Tag>)
    ensures multiset(RemoveById(tags, id))[t] == if t.id == id then 0 else multiset(tags)[t]
    ensures forall i :: 0 <= i < |RemoveById(tags, id)| ==> RemoveById(tags, id)[i].id != id
    ensures RemoveById(a + b, id) == RemoveById(a, id) + RemoveById(b, id)
    ensures (forall i :: 0 <= i < |tags| ==> tags[i].id != id) ==> RemoveById(tags, id) == tags
  {
    Seqs.FilterMultiplicity(tags, (x: Tag) => x.id != id, t);
    Seqs.FilterConcat(a, b, (x: Tag) => x.id != id);
    if forall i :: 0 <= i < |tags| ==> tags[i].id != id {
      Seqs.FilterKeepsAll(tags, (x: Tag) => x.id != id);
    }
  }

  /** `tags.find(t => t.id === tagId)`, then its name or "unknown". */
  function TagName(tags: seq<Tag>, tagId: string): (name: string)
    ensures (forall i :: 0 <= i < |tags| ==> tags[i].id != tagId) ==> name == Unknown
    ensures forall k :: 0 <= k < |tags| && tags[k].id == tagId
                        && (forall j :: 0 <= j < k ==> tags[j].id != tagId)
                        ==> name == tags[k].name
  {
    match Seqs.Find(tags, (t: Tag) => t.id == tagId)
    case Some(t) => t.name
    case None => Unknown
  }

  /** Once a delete of `id` is confirmed, every lookup of `id` yields "unknown". */
  lemma TagNameAfterRemove(tags: seq<Tag>, id: string)
    ensures TagName(RemoveById(tags, id), id) == Unknown
  {
    RemoveByIdExact(tags, id, Tag("", "", ""), [], []);
  }

  class TagsProvider {
    var tags: seq<Tag>
    var loading: bool
    var error: Option<string>

    constructor ()
      ensures tags == [] && !loading && error == None
    {
      tags := [];
      loading := false;
      error := None;
    }

    /**
     * The first half of `fetchTags`: with a token, mark the request as
     * outstanding and clear the error; without one, do nothing at all.
     */
    method StartFetch(token: Option<string>) returns (started: bool)
      modifies this
      ensures started == HasToken(token)
      ensures tags == old(tags)
      ensures started ==> loading && error == None
      ensures !started ==> loading == old(loading) && error == old(error)
    {
      started := HasToken(token);
      if !started {
        return;
      }
      loading := true;
      error := None;
    }

    /**
     * The second half: on success replace the list wholesale, on failure
     * keep the stale list and record the message; loading ends either way.
     */
    method FinishFetch(response: Response<seq<Tag>>)
      modifies this
      ensures !loading
      ensures response.Ok? ==> tags == response.body && error == old(error)
      ensures !response.Ok? ==> tags == old(tags) && error == Some(FailureMessage(response, FetchFailed))
    {
      match response {
        case Ok(data) =>
          tags := data;
        case NotOk =>
          error := Some(FetchFailed);
        case Threw(t) =>
          error := Some(CaughtMessage(t));
      }
      loading := false;
    }

    /** `fetchTags`, with the backend's answer as an input. */
    method FetchTags(token: Option<string>, response: Response<seq<Tag>>)
      modifies this
      ensures !HasToken(token) ==> tags == old(tags) && loading == old(loading) && error == old(error)
      ensures HasToken(token) ==> !loading
      ensures HasToken(token) && response.Ok? ==> tags == response.body && error == None
      ensures HasToken(token) && !response.Ok? ==>
                tags == old(tags) && error == Some(FailureMessage(response, FetchFailed))
    {
      var started := StartFetch(token);
      if started {
        FinishFetch(response);
      }
    }

    /** `refreshTags`: exactly a `fetchTags`. */
    method RefreshTags(token: Option<string>, response: Response<seq<Tag>>)
      modifies this
      ensures !HasToken(token) ==> tags == old(tags) && loading == old(loading) && error == old(error)
      ensures HasToken(token) ==> !loading
      ensures HasToken(token) && response.Ok? ==> tags == response.body && error == None
      ensures HasToken(token) && !response.Ok? ==>
                tags == old(tags) && error == Some(FailureMessage(response, FetchFailed))
    {
      FetchTags(token, response);
    }

    /**
     * `createTag(name)`. `sent` is the name the POST body carried, `None`
     * when no request was made. On success the created tag is appended and
     * returned; on failure the list is kept, the error is set and the
     * result is null. A success leaves an earlier error in place.
     */
    method CreateTag(token: Option<string>, name: string, response: Response<Tag>)
      returns (created: Option<Tag>, sent: Option<string>)
      modifies this
      ensures loading == old(loading)
      ensures sent == if HasToken(token) then Some(name) else None
      ensures !HasToken(token) ==> created == None && tags == old(tags) && error == old(error)
      ensures HasToken(token) && response.Ok? ==>
                created == Some(response.body) && tags == old(tags) + [response.body] && error == old(error)
      ensures HasToken(token) && !response.Ok? ==>
                created == None && tags == old(tags) && error == Some(FailureMessage(response, CreateFailed))
    {
      if !HasToken(token) {
        return None, None;
      }
      sent := Some(name);
      match response
      case Ok(newTag) =>
        tags := tags + [newTag];
        created := Some(newTag);
      case NotOk =>
        error := Some(CreateFailed);
        created := None;
      case Threw(t) =>
        error := Some(CaughtMessage(t));
        created := None;
    }

    /**
     * `deleteTag(id)`. On success every tag with that id is removed and the
     * result is true; on failure the list is kept, the error is set and the
     * result is false. A success leaves an earlier error in place.
     */
    method DeleteTag(token: Option<string>, id: string, response: Response<()>)
      returns (deleted: bool)
      modifies this
      ensures loading == old(loading)
      ensures deleted <==> HasToken(token) && response.Ok?
      ensures deleted ==> tags == RemoveById(old(tags), id) && error == old(error)
      ensures !HasToken(token) ==> tags == old(tags) && error == old(error)
      ensures HasToken(token) && !response.Ok? ==>
                tags == old(tags) && error == Some(FailureMessage(response, DeleteFailed))
    {
      if !HasToken(token) {
        return false;
      }
      match response
      case Ok(_) =>
        tags := RemoveById(tags, id);
        deleted := true;
      case NotOk =>
        error := Some(DeleteFailed);
        deleted := false;
      case Threw(t) =>
        error := Some(CaughtMessage(t));
        deleted := false;
    }
  }
}
