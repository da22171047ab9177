/** The instructors tab: a list of instructors and a dialog to create or
    edit one. Every handler is one atomic step of the screen's state. */
module DozentenTab {
  import opened JsValues
  import opened AppTypes
  import opened Store

  /** The dialog's form: every field as the text the inputs hold. */
  datatype Draft = Draft(name: string, email: string, telefon: string, fachgebiet: string)

  const EmptyDraft := Draft("", "", "", "")

  /** The form `openEdit` fills in from a record: absent fields become ''. */
  function DraftOf(f: DozentFields): (d: Draft)
    ensures Some(d.name) == f.name || (f.name.None? && d.name == "")
    ensures Some(d.email) == f.email || (f.email.None? && d.email == "")
    ensures Some(d.telefon) == f.telefon || (f.telefon.None? && d.telefon == "")
    ensures Some(d.fachgebiet) == f.fachgebiet || (f.fachgebiet.None? && d.fachgebiet == "")
  {
    Draft(OrEmpty(f.name), OrEmpty(f.email), OrEmpty(f.telefon), OrEmpty(f.fachgebiet))
  }

  /** The fields `handleSave` sends: the form object itself, so every field
      is written, a field left empty as '', and reading the written record
      back gives the form again. */
  function FieldsOf(d: Draft): (f: DozentFields)
    ensures f.name.Some? && f.email.Some? && f.telefon.Some? && f.fachgebiet.Some?
    ensures DraftOf(f) == d
  {
    DozentFields(Some(d.name), Some(d.email), Some(d.telefon), Some(d.fachgebiet))
  }

  /** `handleSave` proceeds only for a name that is not blank after trimming. */
  predicate CanSave(d: Draft): (ok: bool)
    ensures ok <==> !IsBlank(d.name)
  {
    Trim(d.name) != ""
  }

  /** Opening a record for editing and saving it unchanged writes back the
      same fields exactly when every field was present; a missing field is
      written back as ''. */
  lemma EditSaveWritesEmpty(f: DozentFields)
    ensures FieldsOf(DraftOf(f)) == f <==> f.name.Some? && f.email.Some? && f.telefon.Some? && f.fachgebiet.Some?
    ensures f.email.None? ==> FieldsOf(DraftOf(f)).email == Some("")
    ensures f.telefon.None? ==> FieldsOf(DraftOf(f)).telefon == Some("")
    ensures f.fachgebiet.None? ==> FieldsOf(DraftOf(f)).fachgebiet == Some("")
  {
  }

  /** The state of the instructors tab. */
  class Controller {
    const store: Table<DozentFields>
    var items: seq<Record<DozentFields>>
    var loading: bool
    var dialogOpen: bool
    var editing: Option<Record<DozentFields>>
    var deleteId: Option<RecordId>
    var saving: bool
    var form: Draft

    /** Between two handlers the service's ids are unique and no save is in
        flight. */
    ghost predicate Valid()
      reads this, store
    {
      store.Valid() && !saving
    }

    /** The save button is enabled: no save in flight and a non-blank name. */
    predicate SaveEnabled()
      reads this
    {
      !saving && CanSave(form)
    }

    /** The state right after mounting, before the first load. */
    constructor (store: Table<DozentFields>)
      requires store.Valid()
      ensures Valid() && this.store == store
      ensures items == [] && loading && !dialogOpen && editing.None? && deleteId.None? && form == EmptyDraft
    {
      this.store := store;
      items := [];
      loading := true;
      dialogOpen := false;
      editing := None;
      deleteId := None;
      saving := false;
      form := EmptyDraft;
    }

    /** `load()`: on success the list is exactly what the service returned,
        on failure it stays; loading ends either way. */
    method Load() returns (ok: bool)
      modifies this`items, this`loading
      ensures !loading
      ensures items == if ok then store.rows else old(items)
    {
      loading := true;
      var list;
      ok, list := store.List();
      if ok {
        items := list;
      }
      loading := false;
    }

    /** `openNew()`: an empty form for a new instructor. */
    method OpenNew()
      modifies this`editing, this`form, this`dialogOpen
      ensures editing.None? && form == EmptyDraft && dialogOpen
    {
      editing := None;
      form := EmptyDraft;
      dialogOpen := true;
    }

    /** `openEdit(item)`: the form holds the record's fields. */
    method OpenEdit(item: Record<DozentFields>)
      modifies this`editing, this`form, this`dialogOpen
      ensures editing == Some(item) && form == DraftOf(item.fields) && dialogOpen
    {
      editing := Some(item);
      form := DraftOf(item.fields);
      dialogOpen := true;
    }

    /** Typing into the form. */
    method SetForm(d: Draft)
      modifies this`form
      ensures form == d
    {
      form := d;
    }

    /** The dialog's cancel button, or closing it. */
    method CloseDialog()
      modifies this`dialogOpen
      ensures !dialogOpen
    {
      dialogOpen := false;
    }

    /** The trash button of a row: remember which record to delete. */
    method RequestDelete(id: RecordId)
      modifies this`deleteId
      ensures deleteId == Some(id)
    {
      deleteId := Some(id);
    }

    /** Closing the confirmation dialog. */
    method CancelDelete()
      modifies this`deleteId
      ensures deleteId.None?
    {
      deleteId := None;
    }

    /** The `try`/`finally` part of `handleSave()`: exactly one update of
        `target`, or a create when there is none, then close the dialog and
        reload; `saving` is set for the call and cleared in every case. */
    method Submit(target: Option<RecordId>, fields: DozentFields) returns (outcome: Outcome)
      requires store.Valid()
      modifies this`saving, this`dialogOpen, this`items, this`loading, store
      ensures outcome != NoOp
      ensures store.Valid() && !saving
      ensures outcome.Failed? ==>
        store.rows == old(store.rows) && dialogOpen == old(dialogOpen) && items == old(items) && loading == old(loading)
      ensures outcome.Done? ==> Saved(old(store.rows), store.rows, target, fields)
      ensures outcome.Done? ==> !dialogOpen && !loading
      ensures outcome.Done? ==> items == if outcome.reloaded then store.rows else old(items)
    {
      saving := true;
      var ok := store.Save(target, fields);
      if ok {
        dialogOpen := false;
        ghost var after := store.rows;
        var reloaded := Load();
        assert store.rows == after;
        outcome := Done(reloaded);
      } else {
        outcome := Failed;
      }
      saving := false;
    }

    /** `handleSave()`: nothing without a name; otherwise exactly one update
        (while editing) or create, then close the dialog and reload. A
        rejected call leaves the service, the list and the dialog as they
        were. `saving` is false afterwards in every case. */
    method HandleSave() returns (outcome: Outcome)
      requires Valid()
      modifies this`saving, this`dialogOpen, this`items, this`loading, store
      ensures Valid()
      ensures outcome == NoOp <==> !old(SaveEnabled())
      ensures outcome == NoOp ==> unchanged(this, store)
      ensures outcome.Failed? ==>
        store.rows == old(store.rows) && dialogOpen == old(dialogOpen) && items == old(items) && loading == old(loading)
      ensures outcome.Done? ==> Saved(old(store.rows), store.rows, TargetOf(editing), FieldsOf(form))
      ensures outcome.Done? ==> !dialogOpen && !loading
      ensures outcome.Done? ==> items == if outcome.reloaded then store.rows else old(items)
    {
      if !CanSave(form) {
        return NoOp;
      }
      var fields := FieldsOf(form);
      outcome := Submit(TargetOf(editing), fields);
    }

    /** `handleDelete()`: nothing without a pending id; otherwise delete it,
        clear the pending id and reload. A rejected delete keeps the pending
        id and does not reload. */
    method HandleDelete() returns (outcome: Outcome)
      requires Valid()
      modifies this`deleteId, this`items, this`loading, store
      ensures Valid()
      ensures outcome == NoOp <==> old(deleteId) == None || old(deleteId) == Some("")
      ensures outcome == NoOp ==> unchanged(this, store)
      ensures outcome.Failed? ==>
        store.rows == old(store.rows) && deleteId == old(deleteId) && items == old(items) && loading == old(loading)
      ensures outcome.Done? ==> store.rows == Remove(old(store.rows), old(deleteId).value)
      ensures outcome.Done? ==> deleteId.None? && !loading
      ensures outcome.Done? ==> items == if outcome.reloaded then store.rows else old(items)
    {
      if deleteId.None? || deleteId.value == "" {
        return NoOp;
      }
      var ok := store.Delete(deleteId.value);
      if ok {
        deleteId := None;
        var reloaded := Load();
        outcome := Done(reloaded);
      } else {
        outcome := Failed;
      }
    }
  }

}
