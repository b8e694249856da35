/** The "my page" screen: it loads the signed-in user and their folders,
    turns each server folder into a card summary, and keeps the summaries in
    step with the cards' visibility switches. */
module MyPageView {
  import opened Browser
  import opened FolderCards

  /** The user record of `GET /api/user/me` (the `data` of its body). */
  datatype User = User(nickname: string, profileImage: Option<string>, friendCount: int, monthlyNote: Option<string>)

  /** The part of a diary that the folder summary reads. */
  datatype ServerDiary = ServerDiary(mainPhoto: Option<string>)

  /** One folder of `GET /api/user/my-diaries` (an element of the `data` of
      its body). */
  datatype ServerFolder = ServerFolder(folderId: int, title: string, isPublic: bool, mainFolderImg: Option<string>, diaries: seq<ServerDiary>)

  /** What a folder card is rendered from. */
  datatype FolderSummary = FolderSummary(folderId: int, title: string, isPublic: bool, diaryCount: nat, mainImage: string)

  const PLACEHOLDER_IMAGE: string := "/placeholder.png"
  const LOGIN_PATH: string := "/login"
  const USER_ENDPOINT: string := "/api/user/me"
  const FOLDERS_ENDPOINT: string := "/api/user/my-diaries"
  const SESSION_EXPIRED_MESSAGE: string := "로그인이 만료되었습니다."
  const HOME_PATH: string := "/"

  /** `folder.diaries[0]?.main_photo`. */
  function FirstDiaryPhoto(f: ServerFolder): Option<string>
  {
    if f.diaries == [] then None else f.diaries[0].mainPhoto
  }

  /** The card image: the folder's own cover, else the first diary's main
      photo, else the placeholder. It is never empty, so a card built from a
      summary always shows an image. */
  function CoverImage(f: ServerFolder): (r: string)
    ensures r != ""
    ensures Truthy(f.mainFolderImg) ==> r == f.mainFolderImg.value
    ensures !Truthy(f.mainFolderImg) && f.diaries != [] && Truthy(f.diaries[0].mainPhoto) ==> r == f.diaries[0].mainPhoto.value
    ensures !Truthy(f.mainFolderImg) && (f.diaries == [] || !Truthy(f.diaries[0].mainPhoto)) ==> r == PLACEHOLDER_IMAGE
  {
    OrElse(f.mainFolderImg, OrElse(FirstDiaryPhoto(f), PLACEHOLDER_IMAGE))
  }

  function Summarize(f: ServerFolder): FolderSummary
  {
    FolderSummary(f.folderId, f.title, f.isPublic, |f.diaries|, CoverImage(f))
  }

  /** The `.map` in `fetchMyPageData`: one summary per folder, in the same
      order, counting the folder's diaries. */
  function ProjectFolders(fs: seq<ServerFolder>): (r: seq<FolderSummary>)
    ensures |r| == |fs|
    ensures forall i :: 0 <= i < |fs| ==>
      r[i].folderId == fs[i].folderId && r[i].title == fs[i].title && r[i].isPublic == fs[i].isPublic &&
      r[i].diaryCount == |fs[i].diaries| && r[i].mainImage == CoverImage(fs[i]) && r[i].mainImage != ""
  {
    seq(|fs|, i requires 0 <= i < |fs| => Summarize(fs[i]))
  }

  /** The `.map` in `handleTogglePublic`: the folders with the id get the new
      visibility; nothing else about any folder changes. */
  function WithVisibility(folders: seq<FolderSummary>, folderId: int, isPublic: bool): (r: seq<FolderSummary>)
    ensures |r| == |folders|
    ensures forall i :: 0 <= i < |r| ==>
      r[i].isPublic == (if folders[i].folderId == folderId then isPublic else folders[i].isPublic)
    ensures forall i :: 0 <= i < |r| ==> r[i].(isPublic := folders[i].isPublic) == folders[i]
  {
    seq(|folders|, i requires 0 <= i < |folders| =>
      if folders[i].folderId == folderId then folders[i].(isPublic := isPublic) else folders[i])
  }

  /** Setting the same visibility twice is setting it once. */
  lemma WithVisibilityIdempotent(folders: seq<FolderSummary>, folderId: int, isPublic: bool)
    ensures WithVisibility(WithVisibility(folders, folderId, isPublic), folderId, isPublic)
         == WithVisibility(folders, folderId, isPublic)
  {
    var once := WithVisibility(folders, folderId, isPublic);
    var twice := WithVisibility(once, folderId, isPublic);
    forall i | 0 <= i < |once| ensures twice[i] == once[i] {
      assert once[i].folderId == folders[i].folderId by {
        assert once[i].(isPublic := folders[i].isPublic) == folders[i];
      }
    }
  }

  /** Whether `localStorage.getItem("accessToken")` is truthy. */
  predicate HasToken(items: map<string, string>)
  {
    Truthy(StoredValue(items, ACCESS_TOKEN_KEY))
  }

  /** The load failed with a 401, either on the user or on the folders. */
  predicate SessionExpired(userReply: HttpOutcome<User>, foldersReply: HttpOutcome<seq<ServerFolder>>)
  {
    (userReply.HttpError? && userReply.status == Some(401)) ||
    (userReply.Ok? && foldersReply.HttpError? && foldersReply.status == Some(401))
  }

  class MyPage {
    var user: Option<User>
    var folders: seq<FolderSummary>
    var loading: bool

    constructor ()
      ensures user == None && folders == [] && loading
    {
      user, folders, loading := None, [], true;
    }

    /** `fetchMyPageData`, with the two endpoints' answers as parameters;
        `requests` lists the endpoints actually called, in order. */
    method FetchMyPageData(storage: LocalStorage, userReply: HttpOutcome<User>, foldersReply: HttpOutcome<seq<ServerFolder>>)
      returns (requests: seq<string>, effects: seq<Effect>)
      modifies this, storage
      ensures !loading
      ensures !HasToken(old(storage.items)) ==>
        requests == [] && effects == [Navigate(LOGIN_PATH)] &&
        user == old(user) && folders == old(folders) && storage.items == old(storage.items)
      ensures HasToken(old(storage.items)) ==>
        requests == (if userReply.Ok? then [USER_ENDPOINT, FOLDERS_ENDPOINT] else [USER_ENDPOINT])
      ensures HasToken(old(storage.items)) ==>
        user == (if userReply.Ok? then Some(userReply.data) else old(user))
      ensures HasToken(old(storage.items)) ==>
        folders == (if userReply.Ok? && foldersReply.Ok? then ProjectFolders(foldersReply.data) else old(folders))
      ensures HasToken(old(storage.items)) && SessionExpired(userReply, foldersReply) ==>
        storage.items == map[] && effects == [Alert(SESSION_EXPIRED_MESSAGE), Navigate(LOGIN_PATH)]
      ensures HasToken(old(storage.items)) && !SessionExpired(userReply, foldersReply) ==>
        storage.items == old(storage.items) && effects == []
    {
      requests, effects := [], [];
      var token := storage.GetItem(ACCESS_TOKEN_KEY);
      if !Truthy(token) {
        effects := [Navigate(LOGIN_PATH)];
        loading := false;
        return;
      }
      var failure: Option<Option<int>> := None;
      requests := [USER_ENDPOINT];
      match userReply {
        case HttpError(status) =>
          failure := Some(status);
        case Ok(u) =>
          user := Some(u);
          requests := requests + [FOLDERS_ENDPOINT];
          match foldersReply {
            case HttpError(status) =>
              failure := Some(status);
            case Ok(fs) =>
              folders := ProjectFolders(fs);
          }
      }
      if failure.Some? && failure.value == Some(401) {
        effects := [Alert(SESSION_EXPIRED_MESSAGE)];
        storage.Clear();
        effects := effects + [Navigate(LOGIN_PATH)];
      }
      loading := false;
    }

    /** `handleMonthlyNoteUpdate(newNote)`, handed to the monthly record only
        once the user is loaded. */
    method HandleMonthlyNoteUpdate(newNote: string)
      requires user.Some?
      modifies this`user
      ensures user == Some(old(user).value.(monthlyNote := Some(newNote)))
    {
      user := Some(user.value.(monthlyNote := Some(newNote)));
    }

    /** `handleTogglePublic(folderId, newIsPublic)`. */
    method HandleTogglePublic(folderId: int, newIsPublic: bool)
      modifies this`folders
      ensures folders == WithVisibility(old(folders), folderId, newIsPublic)
    {
      folders := WithVisibility(folders, folderId, newIsPublic);
    }
  }

  /** The logout button: once the user confirms, storage is emptied and the
      start page opened; otherwise nothing happens. */
  method Logout(storage: LocalStorage, confirmed: bool) returns (effects: seq<Effect>)
    modifies storage
    ensures confirmed ==> storage.items == map[] && effects == [Navigate(HOME_PATH)]
    ensures !confirmed ==> storage.items == old(storage.items) && effects == []
  {
    effects := [];
    if confirmed {
      storage.Clear();
      effects := [Navigate(HOME_PATH)];
    }
  }

  /** A click on the switch of a card that the page passed
      `handleTogglePublic`: once the server accepts the change, every summary
      of that folder shows what the card shows; if it refuses, the page's
      folders are untouched. */
  method ToggleOnMyPage(page: MyPage, card: FolderCard, succeeded: bool)
    requires card.ToggleEnabled() && card.hasParentCallback
    modifies page`folders, card`isTogglingPublic, card`currentIsPublic
    ensures card.ToggleEnabled()
    ensures |page.folders| == |old(page.folders)|
    ensures succeeded ==> card.currentIsPublic == !old(card.currentIsPublic)
    ensures succeeded ==> page.folders == WithVisibility(old(page.folders), card.folderId, card.currentIsPublic)
    ensures succeeded ==> forall i :: 0 <= i < |page.folders| && page.folders[i].folderId == card.folderId ==>
      page.folders[i].isPublic == card.currentIsPublic
    ensures !succeeded ==> card.currentIsPublic == old(card.currentIsPublic) && page.folders == old(page.folders)
  {
    var request, update, effects := card.HandleToggle(succeeded);
    if update.Some? {
      page.HandleTogglePublic(update.value.folderId, update.value.isPublic);
    }
  }
}
