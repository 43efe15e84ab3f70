/** The new-entry form: its fields, and the submit handler that posts them. */
module NewEntryPage {
  import opened Wrappers
  import opened Backend
  import opened Entries

  const GenericFailure := "Failed to create entry"
  const ListRoute := "/dashboard/changelog"

  /** The JSON body of the create request. */
  datatype EntryRequest = EntryRequest(content: string, entryType: string, mood: string, tags: seq<string>)

  /**
   * The create request's outcome: created, rejected with the `detail` of
   * its error body (`None` when absent or null), or thrown (by `fetch`
   * or by decoding a body).
   */
  datatype SubmitResponse = Created | Rejected(detail: Option<string>) | SubmitThrew(thrown: Thrown)

  /** `errorData.detail || "Failed to create entry"`: the backend's detail when non-empty. */
  function RejectionMessage(detail: Option<string>): (m: string)
    ensures m != ""
    ensures detail.Some? && detail.value != "" ==> m == detail.value
    ensures detail == None || detail == Some("") ==> m == GenericFailure
  {
    if detail.Some? && detail.value != "" then detail.value else GenericFailure
  }

  class NewEntryForm {
    var content: string
    var entryType: string
    var mood: string
    var selectedTags: seq<string>
    var error: string
    var loading: bool
    /** Where the router was sent, if anywhere. */
    var route: Option<string>

    /** Empty content, a highlight, a happy mood, no tags. */
    constructor ()
      ensures content == "" && selectedTags == [] && error == "" && !loading && route == None
      ensures ParseEntryType(entryType) == Some(Highlight) && ParseMood(mood) == Some(Happy)
    {
      content := "";
      entryType := "HIGHLIGHT";
      mood := "HAPPY";
      selectedTags := [];
      error := "";
      loading := false;
      route := None;
    }

    /**
     * `handleSubmit`: set loading and clear the error, post the four fields
     * as they stand (with the token, "null" when there is none), then either
     * navigate to the entry list or show the failure's message; loading ends
     * either way and the fields are never reset.
     */
    method HandleSubmit(token: Option<string>, response: SubmitResponse)
      returns (body: EntryRequest, authorization: string)
      modifies this
      ensures body == EntryRequest(old(content), old(entryType), old(mood), old(selectedTags))
      ensures authorization == BearerHeader(token)
      ensures content == old(content) && entryType == old(entryType) && mood == old(mood)
              && selectedTags == old(selectedTags)
      ensures !loading
      ensures response.Created? ==> error == "" && route == Some(ListRoute)
      ensures response.Rejected? ==> error == RejectionMessage(response.detail) && route == old(route)
      ensures response.SubmitThrew? ==> error == CaughtMessage(response.thrown) && route == old(route)
    {
      loading := true;
      error := "";
      body := EntryRequest(content, entryType, mood, selectedTags);
      authorization := BearerHeader(token);
      match response {
        case Created =>
          route := Some(ListRoute);
        case Rejected(detail) =>
          error := RejectionMessage(detail);
        case SubmitThrew(t) =>
          error := CaughtMessage(t);
      }
      loading := false;
    }

    /**
     * Pressing "Create Entry": the content field is `required`, so the
     * browser submits only when it is non-empty.
     */
    method Submit(token: Option<string>, response: SubmitResponse) returns (body: Option<EntryRequest>)
      modifies this
      ensures old(content) == "" ==> body == None && error == old(error) && loading == old(loading)
                                     && route == old(route)
      ensures old(content) != "" ==>
                body == Some(EntryRequest(old(content), old(entryType), old(mood), old(selectedTags))) && !loading
      ensures old(content) != "" && response.Created? ==> error == "" && route == Some(ListRoute)
      ensures old(content) != "" && response.Rejected? ==>
                error == RejectionMessage(response.detail) && route == old(route)
      ensures old(content) != "" && response.SubmitThrew? ==>
                error == CaughtMessage(response.thrown) && route == old(route)
      ensures content == old(content) && entryType == old(entryType) && mood == old(mood)
              && selectedTags == old(selectedTags)
    {
      if content == "" {
        return None;
      }
      var request, _ := HandleSubmit(token, response);
      body := Some(request);
    }
  }
}
