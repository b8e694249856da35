/** The "add friends" screen: a fixed list of people, a tab that filters
    them by the state of the friend request, and one button per person whose
    label follows that state. The search box's text is kept but never read,
    so it does not take part in the filtering. */
module FriendsAdd {
  import opened Lists

  datatype Friend = Friend(id: int, name: string, desc: string, status: string)

  /** The request states a person can be in. */
  const STATUS_NONE: string := "없음"
  const STATUS_REQUESTED: string := "요청"
  const STATUS_ACCEPTED: string := "수락됨"

  /** The three filter tabs. */
  const TAB_ALL: string := "전체"
  const TAB_REQUESTING: string := "요청 중"
  const TAB_FRIENDS: string := "친구"

  /** The button labels. */
  const LABEL_SEND: string := "요청 보내기"
  const LABEL_CANCEL: string := "요청 취소"
  const LABEL_FRIEND: string := "친구"

  const FRIENDS: seq<Friend> := [
    Friend(1, "하윤", "이번 달 한 줄 기록 표시", STATUS_NONE),
    Friend(2, "지우", "하늘을 좋아하는 여행자", STATUS_REQUESTED),
    Friend(3, "도윤", "하늘을 좋아하는 여행자", STATUS_ACCEPTED),
    Friend(4, "바람", "하늘을 좋아하는 여행자", STATUS_REQUESTED),
    Friend(5, "가을", "하늘을 좋아하는 여행자", STATUS_ACCEPTED)
  ]

  /** The filter test: the "requesting" tab shows pending requests, the
      "friends" tab accepted ones, and any other tab everybody. */
  function Shows(filter: string): Friend -> bool
  {
    (f: Friend) =>
      if filter == TAB_ALL then true
      else if filter == TAB_REQUESTING then f.status == STATUS_REQUESTED
      else if filter == TAB_FRIENDS then f.status == STATUS_ACCEPTED
      else true
  }

  /** `friends.filter(...)` for the chosen tab. */
  function Filtered(friends: seq<Friend>, filter: string): (r: seq<Friend>)
    ensures IsSubsequence(r, friends)
    ensures filter == TAB_REQUESTING ==>
      (forall i :: 0 <= i < |r| ==> r[i].status == STATUS_REQUESTED) &&
      (forall i :: 0 <= i < |friends| && friends[i].status == STATUS_REQUESTED ==> friends[i] in r)
    ensures filter == TAB_FRIENDS ==>
      (forall i :: 0 <= i < |r| ==> r[i].status == STATUS_ACCEPTED) &&
      (forall i :: 0 <= i < |friends| && friends[i].status == STATUS_ACCEPTED ==> friends[i] in r)
    ensures filter != TAB_REQUESTING && filter != TAB_FRIENDS ==> r == friends
  {
    FilterIsSubsequence(friends, Shows(filter));
    FilterMembers(friends, Shows(filter));
    var r := Filter(friends, Shows(filter));
    if filter != TAB_REQUESTING && filter != TAB_FRIENDS then
      FilterKeepsAll(friends, Shows(filter)); r
    else r
  }

  /** The tabs drop nobody twice and duplicate nobody: under "requesting"
      and "friends" each person with that status appears as often as in the
      list, and nobody else appears. */
  lemma FilteredCounts(friends: seq<Friend>, filter: string, f: Friend)
    ensures filter == TAB_REQUESTING ==>
      multiset(Filtered(friends, filter))[f] == if f.status == STATUS_REQUESTED then multiset(friends)[f] else 0
    ensures filter == TAB_FRIENDS ==>
      multiset(Filtered(friends, filter))[f] == if f.status == STATUS_ACCEPTED then multiset(friends)[f] else 0
  {
    FilterCounts(friends, Shows(filter), f);
  }

  /** The label of a person's button: send a request, cancel a pending one,
      or show that they already are a friend. */
  function ButtonLabel(status: string): (text: string)
    ensures text == LABEL_SEND <==> status == STATUS_NONE
    ensures text == LABEL_CANCEL <==> status == STATUS_REQUESTED
    ensures text == LABEL_FRIEND <==> status != STATUS_NONE && status != STATUS_REQUESTED
  {
    if status == STATUS_NONE then LABEL_SEND
    else if status == STATUS_REQUESTED then LABEL_CANCEL
    else LABEL_FRIEND
  }

  /** The tabs and the buttons agree: everyone under "requesting" offers to
      cancel, and everyone under "friends" is labelled a friend. */
  lemma TabsMatchLabels(friends: seq<Friend>)
    ensures forall f :: f in Filtered(friends, TAB_REQUESTING) ==> ButtonLabel(f.status) == LABEL_CANCEL
    ensures forall f :: f in Filtered(friends, TAB_FRIENDS) ==> ButtonLabel(f.status) == LABEL_FRIEND
  {
    var requesting := Filtered(friends, TAB_REQUESTING);
    var accepted := Filtered(friends, TAB_FRIENDS);
    forall f | f in requesting ensures ButtonLabel(f.status) == LABEL_CANCEL {
      var i :| 0 <= i < |requesting| && requesting[i] == f;
    }
    forall f | f in accepted ensures ButtonLabel(f.status) == LABEL_FRIEND {
      var i :| 0 <= i < |accepted| && accepted[i] == f;
    }
  }

  /** On the screen's own list, the "requesting" tab shows 지우 and 바람 and
      the "friends" tab 도윤 and 가을. */
  lemma TabsOnSampleList()
    ensures Filtered(FRIENDS, TAB_REQUESTING) == [FRIENDS[1], FRIENDS[3]]
    ensures Filtered(FRIENDS, TAB_FRIENDS) == [FRIENDS[2], FRIENDS[4]]
    ensures Filtered(FRIENDS, TAB_ALL) == FRIENDS
  {
    var requesting := Shows(TAB_REQUESTING);
    assert Filter(FRIENDS[4..], requesting) == [];
    assert Filter(FRIENDS[3..], requesting) == [FRIENDS[3]];
    assert Filter(FRIENDS[2..], requesting) == [FRIENDS[3]];
    assert Filter(FRIENDS[1..], requesting) == [FRIENDS[1], FRIENDS[3]];
    var accepted := Shows(TAB_FRIENDS);
    assert Filter(FRIENDS[4..], accepted) == [FRIENDS[4]];
    assert Filter(FRIENDS[3..], accepted) == [FRIENDS[4]];
    assert Filter(FRIENDS[2..], accepted) == [FRIENDS[2], FRIENDS[4]];
    assert Filter(FRIENDS[1..], accepted) == [FRIENDS[2], FRIENDS[4]];
  }
}
