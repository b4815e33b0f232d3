/**
 * One task card (src/components/TodoItem.tsx): the Done confirmation gate, the edit mode,
 * and the calls the card makes on its callbacks, recorded in order in `emitted`.
 */
module TodoItem {
  import opened TodoTypes

  /** The characters `String.prototype.trim` removes: ECMAScript WhiteSpace and LineTerminator. */
  predicate IsJsWhitespace(c: char)
  {
    c == '\t' || c == '\n' || c == '\U{B}' || c == '\U{C}' || c == '\r' || c == ' ' ||
    c == '\U{A0}' || c == '\U{1680}' || ('\U{2000}' <= c <= '\U{200A}') ||
    c == '\U{2028}' || c == '\U{2029}' || c == '\U{202F}' || c == '\U{205F}' ||
    c == '\U{3000}' || c == '\U{FEFF}'
  }

  predicate IsBlank(s: string)
  {
    forall i :: 0 <= i < |s| ==> IsJsWhitespace(s[i])
  }

  /** How many whitespace characters `s` starts with. */
  function LeadingBlanks(s: string): (n: nat)
    ensures n <= |s|
    ensures forall i :: 0 <= i < n ==> IsJsWhitespace(s[i])
    ensures n < |s| ==> !IsJsWhitespace(s[n])
  {
    if s != [] && IsJsWhitespace(s[0]) then 1 + LeadingBlanks(s[1..]) else 0
  }

  /** Where the trailing whitespace of `s` begins. */
  function TextEnd(s: string): (m: nat)
    ensures m <= |s|
    ensures forall i :: m <= i < |s| ==> IsJsWhitespace(s[i])
    ensures 0 < m ==> !IsJsWhitespace(s[m - 1])
  {
    if s != [] && IsJsWhitespace(s[|s| - 1]) then TextEnd(s[..|s| - 1]) else |s|
  }

  /** `s` without its leading whitespace. */
  function TrimStart(s: string): (r: string)
    ensures |r| <= |s| && r == s[|s| - |r|..]
    ensures IsBlank(s[..|s| - |r|])
    ensures r != [] ==> !IsJsWhitespace(r[0])
    ensures r == [] <==> IsBlank(s)
  {
    s[LeadingBlanks(s)..]
  }

  /** `s` without its trailing whitespace. */
  function TrimEnd(s: string): (r: string)
    ensures |r| <= |s| && r == s[..|r|]
    ensures IsBlank(s[|r|..])
    ensures r != [] ==> !IsJsWhitespace(r[|r| - 1])
    ensures r == [] <==> IsBlank(s)
  {
    s[..TextEnd(s)]
  }

  /** `s.trim()`: falsy exactly when `s` is all whitespace, and otherwise bounded by non-whitespace. */
  function Trim(s: string): (r: string)
    ensures |r| <= |s|
    ensures r == [] <==> IsBlank(s)
    ensures r != [] ==> !IsJsWhitespace(r[0]) && !IsJsWhitespace(r[|r| - 1])
  {
    var u := TrimStart(s);
    assert u != [] ==> !IsJsWhitespace(u[0]);
    TrimEnd(u)
  }

  /** What `Trim` removes is a blank prefix and a blank suffix of `s`. */
  lemma TrimDropsBlankBorders(s: string)
    ensures exists a, b :: s == a + Trim(s) + b && IsBlank(a) && IsBlank(b)
  {
    var u := TrimStart(s);
    var r := TrimEnd(u);
    var a, b := s[..|s| - |u|], u[|r|..];
    Split3(s, a, u, r, b);
    Witness(s, a, r, b);
  }

  /** Dropping a prefix `a` of `s` and then a suffix `b` of the rest leaves `s == a + r + b`. */
  lemma Split3(s: string, a: string, u: string, r: string, b: string)
    requires |u| <= |s| && u == s[|s| - |u|..] && a == s[..|s| - |u|]
    requires |r| <= |u| && r == u[..|r|] && b == u[|r|..]
    ensures s == a + r + b
  {
    assert s == a + u;
    assert u == r + b;
  }

  /** `a` and `b` witness that `s` is `r` between two blank strings. */
  lemma Witness(s: string, a: string, r: string, b: string)
    requires s == a + r + b && IsBlank(a) && IsBlank(b)
    ensures exists a', b' :: s == a' + r + b' && IsBlank(a') && IsBlank(b')
  {
  }

  /** `getStatusColor`: a colour class for every status. */
  function StatusColor(s: Status): (c: string)
    ensures c != ""
  {
    match s
    case Todo => "bg-yellow-100 text-yellow-800"
    case Doing => "bg-blue-100 text-blue-800"
    case Done => "bg-green-100 text-green-800"
  }

  /** Distinct statuses get distinct colours. */
  lemma StatusColorInjective(s: Status, t: Status)
    requires s != t
    ensures StatusColor(s) != StatusColor(t)
  {
  }

  class ItemState {
    const todo: Todo
    var showApproval: bool
    var pendingStatus: Option<Status>
    var isEditing: bool
    var editTitle: string
    var emitted: seq<Event>

    /** The gate only ever holds Done, and an open modal always has it pending. */
    ghost predicate Valid()
      reads this
    {
      (pendingStatus == None || pendingStatus == Some(Done)) &&
      (showApproval ==> pendingStatus == Some(Done))
    }

    constructor (todo: Todo)
      ensures Valid() && this.todo == todo
      ensures !showApproval && pendingStatus == None
      ensures !isEditing && editTitle == todo.title && emitted == []
    {
      this.todo := todo;
      showApproval := false;
      pendingStatus := None;
      isEditing := false;
      editTitle := todo.title;
      emitted := [];
    }

    /** `handleStatusChange`: Done waits for approval; any other status is reported at once. */
    method HandleStatusChange(newStatus: Status)
      requires Valid()
      modifies this`showApproval, this`pendingStatus, this`emitted
      ensures Valid()
      ensures newStatus == Done ==>
        showApproval && pendingStatus == Some(Done) && emitted == old(emitted)
      ensures newStatus != Done ==>
        showApproval == old(showApproval) && pendingStatus == old(pendingStatus) &&
        emitted == old(emitted) + [StatusChange(todo.id, newStatus)]
    {
      if newStatus == Done {
        showApproval := true;
        pendingStatus := Some(newStatus);
      } else {
        emitted := emitted + [StatusChange(todo.id, newStatus)];
      }
    }

    /** `handleApprove`: report the pending status, if any, then close and clear the gate. */
    method HandleApprove()
      requires Valid()
      modifies this`showApproval, this`pendingStatus, this`emitted
      ensures Valid()
      ensures !showApproval && pendingStatus == None
      ensures old(pendingStatus) == None ==> emitted == old(emitted)
      ensures old(pendingStatus) != None ==> emitted == old(emitted) + [StatusChange(todo.id, Done)]
    {
      if pendingStatus.Some? {
        emitted := emitted + [StatusChange(todo.id, pendingStatus.value)];
      }
      showApproval := false;
      pendingStatus := None;
    }

    /** The modal's `onClose`: hide it; the pending status stays. */
    method CloseApproval()
      requires Valid()
      modifies this`showApproval
      ensures Valid() && !showApproval
    {
      showApproval := false;
    }

    /** The edit button. */
    method StartEditing()
      requires Valid()
      modifies this`isEditing
      ensures Valid() && isEditing
    {
      isEditing := true;
    }

    /** The edit field's `onChange`. */
    method ChangeEditTitle(value: string)
      requires Valid()
      modifies this`editTitle
      ensures Valid() && editTitle == value
    {
      editTitle := value;
    }

    /** `handleSave`: a non-blank title is reported as typed, stamped `now`, and editing ends; a blank one does nothing. */
    method HandleSave(now: int)
      requires Valid()
      modifies this`isEditing, this`emitted
      ensures Valid()
      ensures IsBlank(editTitle) ==> isEditing == old(isEditing) && emitted == old(emitted)
      ensures !IsBlank(editTitle) ==>
        !isEditing &&
        emitted == old(emitted) +
          [Update(Todo.Todo(todo.id, editTitle, todo.status, todo.createdAt, now))]
    {
      if Trim(editTitle) != [] {
        emitted := emitted + [Update(todo.(title := editTitle, updatedAt := now))];
        isEditing := false;
      }
    }

    /** `handleCancel`: drop the edit and leave edit mode, reporting nothing. */
    method HandleCancel()
      requires Valid()
      modifies this`editTitle, this`isEditing
      ensures Valid() && editTitle == todo.title && !isEditing
    {
      editTitle := todo.title;
      isEditing := false;
    }

    /** The delete button: reported at once, with no confirmation. */
    method DeleteClick()
      requires Valid()
      modifies this`emitted
      ensures Valid() && emitted == old(emitted) + [Delete(todo.id)]
    {
      emitted := emitted + [Delete(todo.id)];
    }
  }

  /** Marking Done emits nothing until approved; closing the dialog in between loses nothing. */
  method ApprovalScenario(t: Todo)
  {
    var item := new ItemState(t);
    item.HandleStatusChange(Done);
    assert item.emitted == [];
    item.CloseApproval();
    assert item.pendingStatus == Some(Done);
    item.HandleApprove();
    assert item.emitted == [StatusChange(t.id, Done)];
  }
}
