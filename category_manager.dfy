/**
 * The admin panel's category editor (src/components/Admin/CategoryManager.tsx):
 * a small state machine over "adding", "editing which id" and a draft, whose
 * save, delete and cancel handlers call back into the category store.
 *
 * Each handler returns the callback it fires (or `NoCall`), so the calls the
 * component makes are part of the result rather than a side effect.
 */
module CategoryManager {
  import opened Wrappers
  import opened Categories

  /** The form's draft: name, description (empty when none) and the active flag. */
  datatype Draft = Draft(name: string, description: string, isActive: bool)

  /** The draft the form starts with and returns to. */
  const EmptyDraft: Draft := Draft("", "", true)

  /** A call the editor makes into the category store. */
  datatype Callback =
    | NoCall
    | AddCall(fields: CategoryFields)
    | EditCall(id: string, update: CategoryUpdate)
    | DeleteCall(id: string)

  // ----- Trimming -----

  /** The characters JavaScript's `trim` removes: white space and line terminators. */
  predicate IsWhiteSpace(c: char)
  {
    || c == ' ' || c == '\t' || c == '\n' || c == '\r' || c == '\U{B}' || c == '\U{C}'
    || c == '\U{A0}' || c == '\U{1680}' || ('\U{2000}' <= c <= '\U{200A}')
    || c == '\U{2028}' || c == '\U{2029}' || c == '\U{202F}' || c == '\U{205F}'
    || c == '\U{3000}' || c == '\U{FEFF}'
  }

  /** `s` without its leading white space: only white space is dropped, and all of it. */
  function TrimStart(s: string): (r: string)
    ensures |r| <= |s| && r == s[|s| - |r|..]
    ensures forall i :: 0 <= i < |s| - |r| ==> IsWhiteSpace(s[i])
    ensures r != [] ==> !IsWhiteSpace(r[0])
  {
    if s != [] && IsWhiteSpace(s[0]) then TrimStart(s[1..]) else s
  }

  /** `s` without its trailing white space: only white space is dropped, and all of it. */
  function TrimEnd(s: string): (r: string)
    ensures |r| <= |s| && r == s[..|r|]
    ensures forall i :: |r| <= i < |s| ==> IsWhiteSpace(s[i])
    ensures r != [] ==> !IsWhiteSpace(r[|r| - 1])
  {
    if s != [] && IsWhiteSpace(s[|s| - 1]) then TrimEnd(s[..|s| - 1]) else s
  }

  /** `s` without white space at either end. */
  function Trim(s: string): string
  {
    TrimEnd(TrimStart(s))
  }

  /** A name is blank when it is empty after trimming. */
  predicate IsBlank(s: string)
  {
    Trim(s) == []
  }

  /** Trimming to nothing happens exactly when every character is white space. */
  lemma {:induction false} TrimStartEmpty(s: string)
    ensures TrimStart(s) == [] <==> forall i :: 0 <= i < |s| ==> IsWhiteSpace(s[i])
  {
    if s != [] && IsWhiteSpace(s[0]) {
      TrimStartEmpty(s[1..]);
      assert forall i :: 0 < i < |s| ==> s[i] == s[1..][i - 1];
    }
  }

  /** A string is blank exactly when every character is white space, so the empty name is blank. */
  lemma BlankMeansAllWhiteSpace(s: string)
    ensures IsBlank(s) <==> forall i :: 0 <= i < |s| ==> IsWhiteSpace(s[i])
  {
    TrimStartEmpty(s);
    var t := TrimStart(s);
    if t != [] {
      TrimEndKeepsStart(t);
    }
  }

  /** Trimming the end of a string that starts with a non-space character leaves that character. */
  lemma {:induction false} TrimEndKeepsStart(t: string)
    requires t != [] && !IsWhiteSpace(t[0])
    ensures TrimEnd(t) != []
  {
    if IsWhiteSpace(t[|t| - 1]) {
      TrimEndKeepsStart(t[..|t| - 1]);
    }
  }

  /** The fields the add callback receives: the draft as it stands, name untrimmed. */
  function AsFields(d: Draft): CategoryFields
  {
    CategoryFields(d.name, Some(d.description), d.isActive)
  }

  /** The update the edit callback receives: every draft field, and no id. */
  function AsUpdate(d: Draft): CategoryUpdate
  {
    CategoryUpdate(None, Some(d.name), Some(d.description), Some(d.isActive))
  }

  /** The draft that editing `c` starts from; a missing description becomes empty. */
  function DraftOf(c: Category): Draft
  {
    Draft(c.name, if c.description.Some? then c.description.value else "", c.isActive)
  }

  /** Saving an edit of `c` without touching the draft writes back its name and flag and the description it had, or an empty one. */
  lemma EditRoundTrip(c: Category)
    ensures Merge(c, AsUpdate(DraftOf(c))).id == c.id
    ensures Merge(c, AsUpdate(DraftOf(c))).name == c.name
    ensures Merge(c, AsUpdate(DraftOf(c))).isActive == c.isActive
    ensures c.description.Some? ==> Merge(c, AsUpdate(DraftOf(c))) == c
    ensures c.description.None? ==> Merge(c, AsUpdate(DraftOf(c))) == c.(description := Some(""))
  {
  }

  /** The editor's state. */
  class Editor {
    var isAdding: bool
    var editingId: Option<string>
    var draft: Draft

    /** An id is being edited; the empty id counts as none, as a falsy string does. */
    predicate EditingSet()
      reads this
    {
      editingId.Some? && editingId.value != ""
    }

    /** The "new", "edit" and "delete" buttons are disabled while adding or editing. */
    predicate ActionsDisabled()
      reads this
    {
      isAdding || EditingSet()
    }

    /** The editor never adds and edits at once. */
    predicate Exclusive()
      reads this
    {
      !(isAdding && EditingSet())
    }

    /** The editor starts idle with the empty draft. */
    constructor ()
      ensures !isAdding && editingId == None && draft == EmptyDraft
      ensures !ActionsDisabled() && Exclusive()
    {
      isAdding := false;
      editingId := None;
      draft := EmptyDraft;
    }

    /** The "new category" button: opens the add form unless it is disabled. */
    method ClickNew()
      modifies this
      ensures old(ActionsDisabled()) ==> isAdding == old(isAdding)
      ensures !old(ActionsDisabled()) ==> isAdding
      ensures editingId == old(editingId) && draft == old(draft)
      ensures old(Exclusive()) ==> Exclusive()
    {
      if !ActionsDisabled() {
        isAdding := true;
      }
    }

    /** Typing in the name field. */
    method SetName(name: string)
      modifies this
      ensures draft == old(draft).(name := name)
      ensures isAdding == old(isAdding) && editingId == old(editingId)
    {
      draft := draft.(name := name);
    }

    /** Typing in the description field. */
    method SetDescription(description: string)
      modifies this
      ensures draft == old(draft).(description := description)
      ensures isAdding == old(isAdding) && editingId == old(editingId)
    {
      draft := draft.(description := description);
    }

    /** Ticking the active box. */
    method SetActive(isActive: bool)
      modifies this
      ensures draft == old(draft).(isActive := isActive)
      ensures isAdding == old(isAdding) && editingId == old(editingId)
    {
      draft := draft.(isActive := isActive);
    }

    /**
     * Save the new category: a blank name changes nothing and calls nothing;
     * otherwise the untrimmed draft is added, the draft is reset and the add
     * form closes.
     */
    method HandleSaveNew() returns (cb: Callback)
      modifies this
      ensures IsBlank(old(draft.name)) ==> cb == NoCall && draft == old(draft) && isAdding == old(isAdding)
      ensures !IsBlank(old(draft.name)) ==> cb == AddCall(AsFields(old(draft))) && draft == EmptyDraft && !isAdding
      ensures cb.AddCall? ==> cb.fields.name == old(draft.name)
      ensures editingId == old(editingId)
      ensures old(Exclusive()) ==> Exclusive()
    {
      cb := NoCall;
      if !IsBlank(draft.name) {
        cb := AddCall(AsFields(draft));
        draft := EmptyDraft;
        isAdding := false;
      }
    }

    /** Open the edit form on `c`, its fields copied into the draft. */
    method HandleEdit(c: Category)
      modifies this
      ensures editingId == Some(c.id) && draft == DraftOf(c)
      ensures isAdding == old(isAdding)
    {
      editingId := Some(c.id);
      draft := DraftOf(c);
    }

    /** The edit button of `c`: opens its edit form unless the actions are disabled. */
    method ClickEdit(c: Category)
      modifies this
      ensures old(ActionsDisabled()) ==> editingId == old(editingId) && draft == old(draft)
      ensures !old(ActionsDisabled()) ==> editingId == Some(c.id) && draft == DraftOf(c)
      ensures isAdding == old(isAdding)
      ensures old(Exclusive()) ==> Exclusive()
    {
      if !ActionsDisabled() {
        HandleEdit(c);
      }
    }

    /**
     * Save the edit: only when an id is being edited and the name is not
     * blank, the whole draft is written to that id, editing ends and the
     * draft is reset; otherwise nothing changes.
     */
    method HandleSaveEdit() returns (cb: Callback)
      modifies this
      ensures old(EditingSet()) && !IsBlank(old(draft.name)) ==>
        cb == EditCall(old(editingId).value, AsUpdate(old(draft))) && editingId == None && draft == EmptyDraft
      ensures !(old(EditingSet()) && !IsBlank(old(draft.name))) ==>
        cb == NoCall && editingId == old(editingId) && draft == old(draft)
      ensures isAdding == old(isAdding)
      ensures old(Exclusive()) ==> Exclusive()
    {
      cb := NoCall;
      if EditingSet() && !IsBlank(draft.name) {
        cb := EditCall(editingId.value, AsUpdate(draft));
        editingId := None;
        draft := EmptyDraft;
      }
    }

    /** Cancel either form: back to the initial state from any state. */
    method HandleCancel()
      modifies this
      ensures !isAdding && editingId == None && draft == EmptyDraft
      ensures !ActionsDisabled() && Exclusive()
    {
      isAdding := false;
      editingId := None;
      draft := EmptyDraft;
    }

    /** The delete button of `c`: asks the store to delete it unless the actions are disabled. */
    method ClickDelete(c: Category) returns (cb: Callback)
      ensures ActionsDisabled() ==> cb == NoCall
      ensures !ActionsDisabled() ==> cb == DeleteCall(c.id)
    {
      cb := if ActionsDisabled() then NoCall else DeleteCall(c.id);
    }
  }
}
