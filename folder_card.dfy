/** A folder card on the "my page" screen and its public/private switch: the
    switch asks the server to flip the folder's visibility and shows the new
    value only once the server has accepted it. */
module FolderCards {
  import opened Browser

  const TOGGLE_FAILED_MESSAGE: string := "공개 설정 변경에 실패했습니다."

  /** `PUT /api/folder/{folderId}/visibility` with body `{ is_public }`. */
  datatype VisibilityRequest = VisibilityRequest(folderId: int, isPublic: bool)

  /** The arguments of the parent's `onTogglePublic(folderId, newIsPublic)`. */
  datatype ParentUpdate = ParentUpdate(folderId: int, isPublic: bool)

  class FolderCard {
    /** The `folderId` prop. */
    const folderId: int
    /** Whether the parent passed an `onTogglePublic` prop. */
    const hasParentCallback: bool
    var currentIsPublic: bool
    var isTogglingPublic: bool

    constructor (folderId: int, isPublic: bool, hasParentCallback: bool)
      ensures this.folderId == folderId && this.hasParentCallback == hasParentCallback
      ensures currentIsPublic == isPublic && !isTogglingPublic
    {
      this.folderId := folderId;
      this.hasParentCallback := hasParentCallback;
      currentIsPublic := isPublic;
      isTogglingPublic := false;
    }

    /** The switch is disabled while a change is on its way. */
    predicate ToggleEnabled()
      reads this
    {
      !isTogglingPublic
    }

    /** The first half of `handleToggle`, up to the request: the card is
        marked busy and asks for the opposite of what it shows. */
    method BeginToggle() returns (request: VisibilityRequest)
      requires ToggleEnabled()
      modifies this`isTogglingPublic
      ensures !ToggleEnabled()
      ensures request == VisibilityRequest(folderId, !currentIsPublic)
    {
      isTogglingPublic := true;
      var newIsPublic := !currentIsPublic;
      request := VisibilityRequest(folderId, newIsPublic);
    }

    /** The second half of `handleToggle`, once the request `request` has
        succeeded or failed. */
    method FinishToggle(request: VisibilityRequest, succeeded: bool)
      returns (update: Option<ParentUpdate>, effects: seq<Effect>)
      requires !ToggleEnabled()
      requires request == VisibilityRequest(folderId, !currentIsPublic)
      modifies this`isTogglingPublic, this`currentIsPublic
      ensures ToggleEnabled()
      ensures currentIsPublic == if succeeded then request.isPublic else old(currentIsPublic)
      ensures update == if succeeded && hasParentCallback then Some(ParentUpdate(folderId, request.isPublic)) else None
      ensures effects == if succeeded then [] else [Alert(TOGGLE_FAILED_MESSAGE)]
    {
      update, effects := None, [];
      if succeeded {
        currentIsPublic := request.isPublic;
        if hasParentCallback {
          update := Some(ParentUpdate(folderId, request.isPublic));
        }
      } else {
        effects := [Alert(TOGGLE_FAILED_MESSAGE)];
      }
      isTogglingPublic := false;
    }

    /** A whole click on the switch, the request answered by `succeeded`: the
        shown visibility flips exactly when the server accepted the change,
        and the card is enabled again in either case. */
    method HandleToggle(succeeded: bool)
      returns (request: VisibilityRequest, update: Option<ParentUpdate>, effects: seq<Effect>)
      requires ToggleEnabled()
      modifies this`isTogglingPublic, this`currentIsPublic
      ensures ToggleEnabled()
      ensures request == VisibilityRequest(folderId, !old(currentIsPublic))
      ensures currentIsPublic == if succeeded then !old(currentIsPublic) else old(currentIsPublic)
      ensures update.Some? <==> succeeded && hasParentCallback
      ensures update.Some? ==> update.value == ParentUpdate(folderId, currentIsPublic)
      ensures effects == if succeeded then [] else [Alert(TOGGLE_FAILED_MESSAGE)]
    {
      request := BeginToggle();
      update, effects := FinishToggle(request, succeeded);
    }
  }
}
