/** The quick "new diary" dialog of a folder: a title and a map position
    are required; the diary is created empty and then opened. */
module DiaryCreation {
  import opened Browser
  import opened JsText
  import opened DiaryApi

  const TITLE_MISSING_MESSAGE: string := "일기 제목을 입력해주세요."
  const LOCATION_MISSING_MESSAGE: string := "위치를 추가해주세요."
  const CREATE_FAILED_MESSAGE: string := "일기를 생성하는 중 오류가 발생했습니다."
  const DIARY_PATH_PREFIX: string := "/diary/"

  /** The part of the creation reply the dialog reads: `diary_id`. */
  datatype CreateResponse = CreateResponse(diaryId: Option<nat>)

  /** Why `handleSubmit` refuses, checked in order: a blank title first,
      then a missing position; None when the request may be sent. */
  function Rejection(title: string, location: Option<LatLng>): (r: Option<string>)
    ensures r.None? <==> !IsBlank(title) && location.Some?
    ensures IsBlank(title) ==> r == Some(TITLE_MISSING_MESSAGE)
    ensures !IsBlank(title) && location.None? ==> r == Some(LOCATION_MISSING_MESSAGE)
  {
    if IsBlank(title) then Some(TITLE_MISSING_MESSAGE)
    else if location.None? then Some(LOCATION_MISSING_MESSAGE)
    else None
  }

  /** `/diary/${diaryId}`. */
  function DiaryPath(diaryId: nat): string
  {
    DIARY_PATH_PREFIX + DecimalString(diaryId)
  }

  /** The page a new diary is opened on names that diary: reading the
      number after the prefix gives the id back. */
  lemma DiaryPathNamesDiary(diaryId: nat)
    ensures |DiaryPath(diaryId)| > |DIARY_PATH_PREFIX|
    ensures DiaryPath(diaryId)[..|DIARY_PATH_PREFIX|] == DIARY_PATH_PREFIX
    ensures ToNumber(DiaryPath(diaryId)[|DIARY_PATH_PREFIX|..]) == Finite(diaryId)
  {
    assert DiaryPath(diaryId)[|DIARY_PATH_PREFIX|..] == DecimalString(diaryId);
    NumberOfDecimalString(diaryId);
  }

  /** What follows a successful creation: `onCreated` if given, then
      `onClose`, then the new diary's page if the reply names it. */
  function AfterCreated(hasOnCreated: bool, reply: CreateResponse): (effects: seq<Effect>)
    ensures Callback("onClose") in effects
    ensures (exists p :: Navigate(p) in effects) <==> reply.diaryId.Some? && reply.diaryId.value != 0
    ensures Callback("onCreated") in effects <==> hasOnCreated
    ensures hasOnCreated ==> |effects| >= 2 && effects[0] == Callback("onCreated") && effects[1] == Callback("onClose")
    ensures !hasOnCreated ==> |effects| >= 1 && effects[0] == Callback("onClose")
    ensures |effects| == (if hasOnCreated then 2 else 1) + (if reply.diaryId.Some? && reply.diaryId.value != 0 then 1 else 0)
    ensures forall i :: 0 <= i < |effects| && effects[i].Navigate? ==>
      i == |effects| - 1 && reply.diaryId.Some? && effects[i] == Navigate(DiaryPath(reply.diaryId.value))
  {
    (if hasOnCreated then [Callback("onCreated")] else []) +
    [Callback("onClose")] +
    (if reply.diaryId.Some? && reply.diaryId.value != 0 then [Navigate(DiaryPath(reply.diaryId.value))] else [])
  }

  class DiaryCreateModal {
    /** The `folderId` prop: the folder page hands on its route parameter,
        which is text. */
    const folderId: string
    /** Whether the parent passed an `onCreated` prop. */
    const hasOnCreated: bool
    var title: string
    /** The text is not asked for and stays empty. */
    const content: string := ""
    var location: Option<LatLng>
    var showLocationPicker: bool

    constructor (folderId: string, hasOnCreated: bool)
      ensures this.folderId == folderId && this.hasOnCreated == hasOnCreated
      ensures title == "" && content == "" && location == None && !showLocationPicker
    {
      this.folderId, this.hasOnCreated := folderId, hasOnCreated;
      title, location, showLocationPicker := "", None, false;
    }

    method TypeTitle(text: string)
      modifies this`title
      ensures title == text
    {
      title := text;
    }

    /** The "add position" button. */
    method OpenLocationPicker()
      modifies this`showLocationPicker
      ensures showLocationPicker
    {
      showLocationPicker := true;
    }

    /** The picker's close button. */
    method CloseLocationPicker()
      modifies this`showLocationPicker
      ensures !showLocationPicker
    {
      showLocationPicker := false;
    }

    /** The picker's `onSelect`: the position is taken and the picker shut. */
    method PickLocation(picked: LatLng)
      modifies this`location, this`showLocationPicker
      ensures location == Some(picked) && !showLocationPicker
    {
      location := Some(picked);
      showLocationPicker := false;
    }

    /** `handleSubmit`, with `reply` what the creation endpoint answers if the
        request is made. */
    method Submit(reply: HttpOutcome<CreateResponse>) returns (request: Option<DiaryPayload>, effects: seq<Effect>)
      ensures request.Some? <==> Rejection(title, location).None?
      ensures request.None? ==> effects == [Alert(Rejection(title, location).value)]
      ensures request.Some? ==> request.value == DiaryPayload(JsonString(folderId), title, "", [], None, location)
      ensures request.Some? && reply.Ok? ==> effects == AfterCreated(hasOnCreated, reply.data)
      ensures request.Some? && reply.HttpError? ==> effects == [Alert(CREATE_FAILED_MESSAGE)]
    {
      if IsBlank(title) {
        return None, [Alert(TITLE_MISSING_MESSAGE)];
      }
      if location.None? {
        return None, [Alert(LOCATION_MISSING_MESSAGE)];
      }
      request := Some(DiaryPayload(JsonString(folderId), title, content, [], None, location));
      match reply {
        case HttpError(_) =>
          effects := [Alert(CREATE_FAILED_MESSAGE)];
        case Ok(data) =>
          var diaryId := data.diaryId;
          var created := if hasOnCreated then [Callback("onCreated")] else [];
          var diaryPage := if diaryId.Some? && diaryId.value != 0 then [Navigate(DiaryPath(diaryId.value))] else [];
          effects := created + [Callback("onClose")] + diaryPage;
      }
    }
  }

  /** The folder page opens the dialog with its route parameter: on
      `/folder/7` the request names the folder by the text "7", not by the
      number the editor page would send. */
  method CreateFromFolderRoute(folder: nat, title: string, picked: LatLng) returns (request: Option<DiaryPayload>)
    requires !IsBlank(title)
    ensures request.Some? && request.value.folderId == JsonString(DecimalString(folder))
    ensures request.Some? && request.value.folderId != JsonNumber(Finite(folder))
  {
    var dialog := new DiaryCreateModal(DecimalString(folder), true);
    dialog.TypeTitle(title);
    dialog.PickLocation(picked);
    var effects;
    request, effects := dialog.Submit(Ok(CreateResponse(None)));
  }
}
