/** The full diary editor: title, text, photos and a map position, sent to
    the folder given in the route once title and text are filled in. */
module DiaryWriting {
  import opened Browser
  import opened JsText
  import opened DiaryApi

  const DEFAULT_VISIBILITY: string := "public"
  const DEFAULT_THEME: string := "default"
  /** Where the map looks before a position is chosen. */
  const DEFAULT_CENTER: LatLng := LatLng(20.0, 0.0)

  const MISSING_TEXT_MESSAGE: string := "제목과 내용을 입력해 주세요."
  const CREATED_MESSAGE: string := "일기가 등록되었습니다."
  const CREATE_FAILED_MESSAGE: string := "일기 등록 중 오류가 발생했습니다."

  /** The guard of `handleSubmit`: neither title nor text may be blank. */
  predicate CanSubmit(title: string, content: string)
  {
    !IsBlank(title) && !IsBlank(content)
  }

  /** A diary can be sent exactly when both its title and its text hold a
      character that is not white space. */
  lemma CanSubmitIffVisibleText(title: string, content: string)
    ensures CanSubmit(title, content) <==>
      (exists i :: 0 <= i < |title| && !IsWhiteSpace(title[i])) &&
      (exists j :: 0 <= j < |content| && !IsWhiteSpace(content[j]))
  {
    BlankIffAllWhiteSpace(title);
    BlankIffAllWhiteSpace(content);
  }

  /** The map's zoom: close on a chosen position, the whole world otherwise. */
  function MapZoom(selected: Option<LatLng>): (zoom: int)
    ensures zoom == 10 <==> selected.Some?
    ensures zoom == 2 <==> selected.None?
  {
    if selected.Some? then 10 else 2
  }

  /** The map's centre: the chosen position, else the default. */
  function MapCenter(selected: Option<LatLng>): (center: LatLng)
    ensures selected.Some? ==> center == selected.value
    ensures selected.None? ==> center == DEFAULT_CENTER
  {
    if selected.Some? then selected.value else DEFAULT_CENTER
  }

  class DiaryWrite {
    /** The `diary_id` route parameter, which names the target folder. */
    const diaryId: string
    var title: string
    var content: string
    var visibility: string
    var photos: seq<string>
    var selectedLocation: Option<LatLng>
    var openLocationModal: bool

    constructor (diaryId: string)
      ensures this.diaryId == diaryId
      ensures title == "" && content == "" && visibility == DEFAULT_VISIBILITY
      ensures photos == [] && selectedLocation == None && !openLocationModal
    {
      this.diaryId := diaryId;
      title, content, visibility := "", "", DEFAULT_VISIBILITY;
      photos, selectedLocation, openLocationModal := [], None, false;
    }

    /** The title and text inputs and the visibility radio buttons. */
    method Fill(title: string, content: string, visibility: string)
      modifies this`title, this`content, this`visibility
      ensures this.title == title && this.content == content && this.visibility == visibility
    {
      this.title, this.content, this.visibility := title, content, visibility;
    }

    /** `handlePhotoChange`: the new photos' object URLs go after the ones
        already chosen; nothing is ever taken away. */
    method AddPhotos(urls: seq<string>)
      modifies this`photos
      ensures photos == old(photos) + urls
      ensures |photos| == |old(photos)| + |urls| && photos[..|old(photos)|] == old(photos)
    {
      photos := photos + urls;
    }

    /** A click on the map opens the position picker. */
    method OpenLocationPicker()
      modifies this`openLocationModal
      ensures openLocationModal
    {
      openLocationModal := true;
    }

    /** The picker's close button. */
    method CloseLocationPicker()
      modifies this`openLocationModal
      ensures !openLocationModal
    {
      openLocationModal := false;
    }

    /** The picker's `onSelect`: the position is taken and the picker shut. */
    method SelectLocation(location: LatLng)
      modifies this`selectedLocation, this`openLocationModal
      ensures selectedLocation == Some(location) && !openLocationModal
      ensures MapZoom(selectedLocation) == 10
    {
      selectedLocation := Some(location);
      openLocationModal := false;
    }

    /** `handleSubmit`, with `postSucceeded` the outcome of the request if one
        is made. The visibility and date are not part of the request. */
    method Submit(postSucceeded: bool) returns (request: Option<DiaryPayload>, effects: seq<Effect>)
      ensures request.Some? <==> CanSubmit(title, content)
      ensures request.Some? ==>
        request.value == DiaryPayload(JsonNumber(ToNumber(diaryId)), title, content, photos, Some(DEFAULT_THEME), selectedLocation)
      ensures !CanSubmit(title, content) ==> effects == [Alert(MISSING_TEXT_MESSAGE)]
      ensures CanSubmit(title, content) ==>
        effects == if postSucceeded then [Alert(CREATED_MESSAGE), NavigateBack] else [Alert(CREATE_FAILED_MESSAGE)]
    {
      if IsBlank(title) || IsBlank(content) {
        return None, [Alert(MISSING_TEXT_MESSAGE)];
      }
      request := Some(DiaryPayload(JsonNumber(ToNumber(diaryId)), title, content, photos, Some(DEFAULT_THEME), selectedLocation));
      if postSucceeded {
        effects := [Alert(CREATED_MESSAGE), NavigateBack];
      } else {
        effects := [Alert(CREATE_FAILED_MESSAGE)];
      }
    }
  }

  /** On a route such as `/diary/7`, the request names folder 7. */
  method SubmitToFolder(folder: nat, title: string, content: string) returns (request: Option<DiaryPayload>)
    requires CanSubmit(title, content)
    ensures request.Some? && request.value.folderId == JsonNumber(Finite(folder))
  {
    var page := new DiaryWrite(DecimalString(folder));
    page.Fill(title, content, DEFAULT_VISIBILITY);
    var effects;
    request, effects := page.Submit(true);
    NumberOfDecimalString(folder);
  }
}
