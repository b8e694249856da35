/** The "one line for this month" card: a text shown in view mode, and an
    edit mode that works on a copy of it until the copy is saved. */
module MonthlyRecords {

  const INITIAL_RECORD: string := "이번 달의 한 줄 기록 추가하기"

  class MonthlyRecord {
    var recordText: string
    var isEditing: bool
    var tempInput: string

    /** Outside edit mode the copy is the text itself. */
    ghost predicate Valid()
      reads this
    {
      !isEditing ==> tempInput == recordText
    }

    constructor ()
      ensures Valid()
      ensures recordText == INITIAL_RECORD && tempInput == INITIAL_RECORD && !isEditing
    {
      recordText, isEditing, tempInput := INITIAL_RECORD, false, INITIAL_RECORD;
    }

    /** `startEditing`, the view mode's "edit" button. */
    method StartEditing()
      requires Valid()
      modifies this`tempInput, this`isEditing
      ensures Valid()
      ensures isEditing && tempInput == recordText
    {
      tempInput := recordText;
      isEditing := true;
    }

    /** Typing in the text field, which exists only in edit mode. */
    method Type(text: string)
      requires Valid()
      modifies this`tempInput
      ensures Valid()
      ensures tempInput == if isEditing then text else old(tempInput)
    {
      if isEditing {
        tempInput := text;
      }
    }

    /** `saveRecord`, the edit mode's "save" button. */
    method SaveRecord()
      requires Valid()
      modifies this`recordText, this`isEditing
      ensures Valid()
      ensures recordText == tempInput && !isEditing
    {
      recordText := tempInput;
      isEditing := false;
    }

    /** `handleKeyDown`: Enter saves; any other key changes nothing. */
    method HandleKeyDown(key: string)
      requires Valid()
      modifies this`recordText, this`isEditing
      ensures Valid()
      ensures key == "Enter" ==> recordText == tempInput && !isEditing
      ensures key != "Enter" ==> recordText == old(recordText) && isEditing == old(isEditing)
    {
      if key == "Enter" {
        SaveRecord();
      }
    }
  }

  /** Opening the editor and saving without typing keeps the text. */
  method EditWithoutTyping(card: MonthlyRecord)
    requires card.Valid()
    modifies card
    ensures card.Valid() && !card.isEditing
    ensures card.recordText == old(card.recordText)
  {
    card.StartEditing();
    card.SaveRecord();
  }

  /** Opening the editor, typing and pressing Enter makes the typed text the
      record. */
  method EditAndPressEnter(card: MonthlyRecord, text: string)
    requires card.Valid()
    modifies card
    ensures card.Valid() && !card.isEditing
    ensures card.recordText == text
  {
    card.StartEditing();
    card.Type(text);
    card.HandleKeyDown("Enter");
  }
}
