/** The rooms tab: a list of rooms and a dialog to create or edit one.
    Every handler is one atomic step of the screen's state. */
module RaeumeTab {
  import opened JsValues
  import opened Decimal
  import opened AppTypes
  import opened Store

  /** The dialog's form: every field as the text the inputs hold. */
  datatype Draft = Draft(raumname: string, gebaeude: string, kapazitaet: string)

  const EmptyDraft := Draft("", "", "")

  /** The capacity input holds a decimal numeral or nothing. */
  predicate WellFormed(d: Draft) {
    IsDigits(d.kapazitaet)
  }

  /** The form `openEdit` fills in from a record: absent text becomes '',
      a capacity its decimal numeral. */
  function DraftOf(f: RaumFields): (d: Draft)
    ensures WellFormed(d)
    ensures Some(d.raumname) == f.raumname || (f.raumname.None? && d.raumname == "")
    ensures Some(d.gebaeude) == f.gebaeude || (f.gebaeude.None? && d.gebaeude == "")
    ensures d.kapazitaet == "" <==> f.kapazitaet.None?
  {
    Draft(OrEmpty(f.raumname), OrEmpty(f.gebaeude), ShowOptional(f.kapazitaet))
  }

  /** The fields `handleSave` sends: the name verbatim, an empty building
      absent, the capacity as a number or absent. */
  function FieldsOf(d: Draft): (f: RaumFields)
    requires WellFormed(d)
    ensures DraftOf(f).raumname == d.raumname && DraftOf(f).gebaeude == d.gebaeude
    ensures f.gebaeude != Some("")
    ensures f.kapazitaet.None? <==> d.kapazitaet == ""
  {
    RaumFields(Some(d.raumname), EmptyToNone(d.gebaeude), ParseOptional(d.kapazitaet))
  }

  /** `handleSave` proceeds only for a room name that is not blank after trimming. */
  predicate CanSave(d: Draft): (ok: bool)
    ensures ok <==> !IsBlank(d.raumname)
  {
    Trim(d.raumname) != ""
  }

  /** Opening a record for editing and saving it unchanged writes back the
      same capacity, and the same fields exactly when the room name is
      present and the building is not present but empty. */
  lemma {:induction false} EditSaveRoundTrip(f: RaumFields)
    ensures FieldsOf(DraftOf(f)).kapazitaet == f.kapazitaet
    ensures FieldsOf(DraftOf(f)) == f <==> f.raumname.Some? && f.gebaeude != Some("")
  {
    OptionalRoundTrip(f.kapazitaet);
    EmptyToNoneOrEmpty(f.gebaeude);
  }

  /** Saving a form and opening the saved record again gives the same form,
      when the capacity is written without leading zeros. */
  lemma {:induction false} SaveEditRoundTrip(d: Draft)
    requires d.kapazitaet == "" || IsCanonical(d.kapazitaet)
    ensures DraftOf(FieldsOf(d)) == d
  {
    OptionalTextRoundTrip(d.kapazitaet);
    OrEmptyEmptyToNone(d.gebaeude);
  }

  /** The state of the rooms tab. */
  class Controller {
    const store: Table<RaumFields>
    var items: seq<Record<RaumFields>>
    var loading: bool
    var dialogOpen: bool
    var editing: Option<Record<RaumFields>>
    var deleteId: Option<RecordId>
    var saving: bool
    var form: Draft

    /** Between two handlers the service's ids are unique, no save is in
        flight, and the capacity input holds digits only. */
    ghost predicate Valid()
      reads this, store
    {
      store.Valid() && !saving && WellFormed(form)
    }

    /** The save button is enabled: no save in flight and a non-blank room name. */
    predicate SaveEnabled()
      reads this
    {
      !saving && CanSave(form)
    }

    /** The state right after mounting, before the first load. */
    constructor (store: Table<RaumFields>)
      requires store.Valid()
      ensures Valid() && this.store == store
      ensures items == [] && loading && !dialogOpen && editing.None? && deleteId.None? && form == EmptyDraft
    {
      this.store := store;
      items := [];
      loading := true;
      dialogOpen := false;
      editing := None;
      deleteId := None;
      saving := false;
      form := EmptyDraft;
    }

    /** `load()`: on success the list is exactly what the service returned,
        on failure it stays; loading ends either way. */
    method Load() returns (ok: bool)
      modifies this`items, this`loading
      ensures !loading
      ensures items == if ok then store.rows else old(items)
    {
      loading := true;
      var list;
      ok, list := store.List();
      if ok {
        items := list;
      }
      loading := false;
    }

    /** `openNew()`: an empty form for a new room. */
    method OpenNew()
      modifies this`editing, this`form, this`dialogOpen
      ensures editing.None? && form == EmptyDraft && dialogOpen
    {
      editing := None;
      form := EmptyDraft;
      dialogOpen := true;
    }

    /** `openEdit(item)`: the form holds the record's fields. */
    method OpenEdit(item: Record<RaumFields>)
      modifies this`editing, this`form, this`dialogOpen
      ensures editing == Some(item) && form == DraftOf(item.fields) && dialogOpen
    {
      editing := Some(item);
      form := DraftOf(item.fields);
      dialogOpen := true;
    }

    /** Typing into the form; the number input yields digits only. */
    method SetForm(d: Draft)
      requires WellFormed(d)
      modifies this`form
      ensures form == d
    {
      form := d;
    }

    /** The dialog's cancel button, or closing it. */
    method CloseDialog()
      modifies this`dialogOpen
      ensures !dialogOpen
    {
      dialogOpen := false;
    }

    /** The trash button of a row: remember which record to delete. */
    method RequestDelete(id: RecordId)
      modifies this`deleteId
      ensures deleteId == Some(id)
    {
      deleteId := Some(id);
    }

    /** Closing the confirmation dialog. */
    method CancelDelete()
      modifies this`deleteId
      ensures deleteId.None?
    {
      deleteId := None;
    }

    /** The `try`/`finally` part of `handleSave()`: exactly one update of
        `target`, or a create when there is none, then close the dialog and
        reload; `saving` is set for the call and cleared in every case. */
    method Submit(target: Option<RecordId>, fields: RaumFields) returns (outcome: Outcome)
      requires store.Valid()
      modifies this`saving, this`dialogOpen, this`items, this`loading, store
      ensures outcome != NoOp
      ensures store.Valid() && !saving
      ensures outcome.Failed? ==>
        store.rows == old(store.rows) && dialogOpen == old(dialogOpen) && items == old(items) && loading == old(loading)
      ensures outcome.Done? ==> Saved(old(store.rows), store.rows, target, fields)
      ensures outcome.Done? ==> !dialogOpen && !loading
      ensures outcome.Done? ==> items == if outcome.reloaded then store.rows else old(items)
    {
      saving := true;
      var ok := store.Save(target, fields);
      if ok {
        dialogOpen := false;
        ghost var after := store.rows;
        var reloaded := Load();
        assert store.rows == after;
        outcome := Done(reloaded);
      } else {
        outcome := Failed;
      }
      saving := false;
    }

    /** `handleSave()`: nothing without a name; otherwise exactly one update
        (while editing) or create, then close the dialog and reload. A
        rejected call leaves the service, the list and the dialog as they
        were. `saving` is false afterwards in every case. */
    method HandleSave() returns (outcome: Outcome)
      requires Valid()
      modifies this`saving, this`dialogOpen, this`items, this`loading, store
      ensures Valid()
      ensures outcome == NoOp <==> !old(SaveEnabled())
      ensures outcome == NoOp ==> unchanged(this, store)
      ensures outcome.Failed? ==>
        store.rows == old(store.rows) && dialogOpen == old(dialogOpen) && items == old(items) && loading == old(loading)
      ensures outcome.Done? ==> Saved(old(store.rows), store.rows, TargetOf(editing), FieldsOf(form))
      ensures outcome.Done? ==> !dialogOpen && !loading
      ensures outcome.Done? ==> items == if outcome.reloaded then store.rows else old(items)
    {
      if !CanSave(form) {
        return NoOp;
      }
      var fields := FieldsOf(form);
      outcome := Submit(TargetOf(editing), fields);
    }

    /** `handleDelete()`: nothing without a pending id; otherwise delete it,
        clear the pending id and reload. A rejected delete keeps the pending
        id and does not reload. */
    method HandleDelete() returns (outcome: Outcome)
      requires Valid()
      modifies this`deleteId, this`items, this`loading, store
      ensures Valid()
      ensures outcome == NoOp <==> old(deleteId) == None || old(deleteId) == Some("")
      ensures outcome == NoOp ==> unchanged(this, store)
      ensures outcome.Failed? ==>
        store.rows == old(store.rows) && deleteId == old(deleteId) && items == old(items) && loading == old(loading)
      ensures outcome.Done? ==> store.rows == Remove(old(store.rows), old(deleteId).value)
      ensures outcome.Done? ==> deleteId.None? && !loading
      ensures outcome.Done? ==> items == if outcome.reloaded then store.rows else old(items)
    {
      if deleteId.None? || deleteId.value == "" {
        return NoOp;
      }
      var ok := store.Delete(deleteId.value);
      if ok {
        deleteId := None;
        var reloaded := Load();
        outcome := Done(reloaded);
      } else {
        outcome := Failed;
      }
    }
  }

}
