/** The enrollments tab: a table of enrollments with the participant's name,
    the course title and the payment state, the paid and open counts, and a
    dialog to create or edit one. Every handler is one atomic step of the
    screen's state. */
module AnmeldungenTab {
  import opened JsValues
  import opened AppTypes
  import opened Store

  /** The dialog's form: the chosen participant and course ids, the date
      text and the payment checkbox. */
  datatype Draft = Draft(teilnehmer: string, kurs: string, anmeldedatum: string, bezahlt: bool)

  /** The form `openNew` starts from: nothing chosen, unpaid, dated `today`
      (the date part of the current time, supplied by the caller). */
  function NewDraft(today: string): (d: Draft)
    ensures !d.bezahlt && d.anmeldedatum == today
    ensures !CanSave(d)
  {
    Draft("", "", today, false)
  }

  /** The form `openEdit` fills in from a record: references become the ids
      they name (or ''), a missing date '', a missing payment flag false. */
  function DraftOf(c: Codec, f: AnmeldungFields): (d: Draft)
    ensures Some(d.teilnehmer) == Extract(c, f.teilnehmer) || (Extract(c, f.teilnehmer).None? && d.teilnehmer == "")
    ensures Some(d.kurs) == Extract(c, f.kurs) || (Extract(c, f.kurs).None? && d.kurs == "")
    ensures Some(d.anmeldedatum) == f.anmeldedatum || (f.anmeldedatum.None? && d.anmeldedatum == "")
    ensures d.bezahlt <==> f.bezahlt == Some(true)
  {
    Draft(IdOf(c, f.teilnehmer), IdOf(c, f.kurs), OrEmpty(f.anmeldedatum), f.bezahlt.GetOr(false))
  }

  /** The fields `handleSave` sends: both references, always, an empty date
      absent, and the payment flag as ticked. */
  function FieldsOf(c: Codec, d: Draft): (f: AnmeldungFields)
    ensures f.teilnehmer.Some? && f.kurs.Some? && f.bezahlt.Some?
  {
    AnmeldungFields(Some(c.createRecordUrl(TeilnehmerApp, d.teilnehmer)), Some(c.createRecordUrl(KurseApp, d.kurs)),
      EmptyToNone(d.anmeldedatum), Some(d.bezahlt))
  }

  /** `handleSave` proceeds only when a participant and a course are chosen. */
  predicate CanSave(d: Draft): (ok: bool)
    ensures ok <==> |d.teilnehmer| > 0 && |d.kurs| > 0
  {
    d.teilnehmer != "" && d.kurs != ""
  }

  /** Saving a form and opening the saved record again gives the same form. */
  lemma {:induction false} SaveEditRoundTrip(c: Codec, d: Draft)
    requires DecodesEncoded(c)
    ensures DraftOf(c, FieldsOf(c, d)) == d
  {
    assert c.extractRecordId(c.createRecordUrl(TeilnehmerApp, d.teilnehmer)) == Some(d.teilnehmer);
    assert c.extractRecordId(c.createRecordUrl(KurseApp, d.kurs)) == Some(d.kurs);
    OrEmptyEmptyToNone(d.anmeldedatum);
  }

  /** Opening an enrollment the app created for editing and saving it
      unchanged keeps both references and the payment state, and writes
      back the very same fields exactly when the payment flag is present
      and the date is not present but empty. */
  lemma {:induction false} EditSaveRoundTrip(c: Codec, f: AnmeldungFields)
    requires DecodesEncoded(c)
    requires f.teilnehmer.Some? && Created(c, TeilnehmerApp, f.teilnehmer.value)
    requires f.kurs.Some? && Created(c, KurseApp, f.kurs.value)
    ensures CanSave(DraftOf(c, f))
    ensures FieldsOf(c, DraftOf(c, f)).teilnehmer == f.teilnehmer && FieldsOf(c, DraftOf(c, f)).kurs == f.kurs
    ensures FieldsOf(c, DraftOf(c, f)).bezahlt == Some(IsPaid(Record("", f)))
    ensures FieldsOf(c, DraftOf(c, f)) == f <==> f.bezahlt.Some? && f.anmeldedatum != Some("")
  {
    var t :| t != "" && f.teilnehmer.value == c.createRecordUrl(TeilnehmerApp, t);
    var k :| k != "" && f.kurs.value == c.createRecordUrl(KurseApp, k);
    assert c.extractRecordId(c.createRecordUrl(TeilnehmerApp, t)) == Some(t);
    assert c.extractRecordId(c.createRecordUrl(KurseApp, k)) == Some(k);
    EmptyToNoneOrEmpty(f.anmeldedatum);
    var g := FieldsOf(c, DraftOf(c, f));
    assert g.teilnehmer == f.teilnehmer && g.kurs == f.kurs;
    assert g.anmeldedatum == f.anmeldedatum <==> f.anmeldedatum != Some("");
  }

  /** An enrollment without a participant or without a course, or whose
      reference the codec cannot read, opens with nothing chosen there, and
      then cannot be saved until one is. */
  lemma MissingReferenceBlocksSave(c: Codec, f: AnmeldungFields)
    requires Extract(c, f.teilnehmer).None? || Extract(c, f.kurs).None?
    ensures !CanSave(DraftOf(c, f))
  {
  }

  /** `getTeilnehmerName(url)`: the participant's name, or '—' when the
      reference is absent or dangling or the name is empty. */
  function TeilnehmerName(c: Codec, teilnehmer: seq<Record<TeilnehmerFields>>, url: Option<string>): (r: string)
    ensures r != ""
    ensures r != "—" ==>
      exists i :: 0 <= i < |teilnehmer| && Some(teilnehmer[i].recordId) == Extract(c, url) && teilnehmer[i].fields.name == Some(r)
    ensures url.None? ==> r == "—"
    ensures UniqueIds(teilnehmer) ==> forall i :: 0 <= i < |teilnehmer| && Extract(c, url) == Some(teilnehmer[i].recordId) ==>
      r == NonEmpty(teilnehmer[i].fields.name).GetOr("—")
  {
    FoundName(teilnehmer, Extract(c, url), (f: TeilnehmerFields) => f.name).GetOr("—")
  }

  /** `getKursTitel(url)`: the course's title, or '—' when the reference is
      absent or dangling or the title is empty. */
  function KursTitel(c: Codec, kurse: seq<Record<KursFields>>, url: Option<string>): (r: string)
    ensures r != ""
    ensures r != "—" ==>
      exists i :: 0 <= i < |kurse| && Some(kurse[i].recordId) == Extract(c, url) && kurse[i].fields.titel == Some(r)
    ensures url.None? ==> r == "—"
    ensures UniqueIds(kurse) ==> forall i :: 0 <= i < |kurse| && Extract(c, url) == Some(kurse[i].recordId) ==>
      r == NonEmpty(kurse[i].fields.titel).GetOr("—")
  {
    FoundName(kurse, Extract(c, url), (f: KursFields) => f.titel).GetOr("—")
  }

  /** An enrollment saved for a participant and a course picked from the
      loaded lists shows that participant's name and that course's title
      (or '—' for an empty one). */
  lemma {:induction false} ChosenNamesShown(c: Codec, teilnehmer: seq<Record<TeilnehmerFields>>, kurse: seq<Record<KursFields>>,
                                            d: Draft, i: int, j: int)
    requires DecodesEncoded(c)
    requires UniqueIds(teilnehmer) && 0 <= i < |teilnehmer| && d.teilnehmer == teilnehmer[i].recordId
    requires UniqueIds(kurse) && 0 <= j < |kurse| && d.kurs == kurse[j].recordId
    ensures TeilnehmerName(c, teilnehmer, FieldsOf(c, d).teilnehmer) == NonEmpty(teilnehmer[i].fields.name).GetOr("—")
    ensures KursTitel(c, kurse, FieldsOf(c, d).kurs) == NonEmpty(kurse[j].fields.titel).GetOr("—")
  {
    assert c.extractRecordId(c.createRecordUrl(TeilnehmerApp, d.teilnehmer)) == Some(d.teilnehmer);
    assert c.extractRecordId(c.createRecordUrl(KurseApp, d.kurs)) == Some(d.kurs);
    FindUnique(teilnehmer, i);
    FindUnique(kurse, j);
  }

  /** `bezahltCount`: the enrollments whose payment flag is set. */
  function BezahltCount(items: seq<Record<AnmeldungFields>>): (n: nat)
    ensures n <= |items|
  {
    |PaidOnes(items)|
  }

  /** `offenCount`, all enrollments less the paid ones: exactly the enrollments
      not paid, so never negative. */
  function OffenCount(items: seq<Record<AnmeldungFields>>): (n: int)
    ensures n == CountOpen(items)
    ensures BezahltCount(items) + n == |items|
  {
    PaidPlusOpen(items);
    |items| - BezahltCount(items)
  }

  /** The state of the enrollments tab. */
  class Controller {
    const codec: Codec
    const store: Table<AnmeldungFields>
    const teilnehmerStore: Table<TeilnehmerFields>
    const kurseStore: Table<KursFields>
    var items: seq<Record<AnmeldungFields>>
    var teilnehmer: seq<Record<TeilnehmerFields>>
    var kurse: seq<Record<KursFields>>
    var loading: bool
    var dialogOpen: bool
    var editing: Option<Record<AnmeldungFields>>
    var deleteId: Option<RecordId>
    var saving: bool
    var form: Draft

    /** Between two handlers the service's enrollment ids are unique and no
        save is in flight. */
    ghost predicate Valid()
      reads this, store
    {
      store.Valid() && !saving
    }

    /** The three lists show exactly what the service holds. */
    predicate Loaded()
      reads this, store, teilnehmerStore, kurseStore
    {
      items == store.rows && teilnehmer == teilnehmerStore.rows && kurse == kurseStore.rows
    }

    /** The save button is enabled: no save in flight and both choices made. */
    predicate SaveEnabled()
      reads this
    {
      !saving && CanSave(form)
    }

    /** The state right after mounting, before the first load. */
    constructor (codec: Codec, store: Table<AnmeldungFields>, teilnehmerStore: Table<TeilnehmerFields>, kurseStore: Table<KursFields>)
      requires store.Valid()
      ensures Valid()
      ensures this.codec == codec && this.store == store && this.teilnehmerStore == teilnehmerStore && this.kurseStore == kurseStore
      ensures items == [] && teilnehmer == [] && kurse == [] && loading && !dialogOpen
      ensures editing.None? && deleteId.None? && form == Draft("", "", "", false)
    {
      this.codec := codec;
      this.store := store;
      this.teilnehmerStore := teilnehmerStore;
      this.kurseStore := kurseStore;
      items := [];
      teilnehmer := [];
      kurse := [];
      loading := true;
      dialogOpen := false;
      editing := None;
      deleteId := None;
      saving := false;
      form := Draft("", "", "", false);
    }

    /** `load()`: the enrollments, participants and courses are fetched
        together; only when all three arrive are the three lists replaced,
        and loading ends either way. */
    method Load() returns (ok: bool)
      modifies this`items, this`teilnehmer, this`kurse, this`loading
      ensures !loading
      ensures ok ==> Loaded()
      ensures !ok ==> items == old(items) && teilnehmer == old(teilnehmer) && kurse == old(kurse)
    {
      loading := true;
      var okA, a := store.List();
      var okT, t := teilnehmerStore.List();
      var okK, k := kurseStore.List();
      ok := okA && okT && okK;
      if ok {
        items := a;
        teilnehmer := t;
        kurse := k;
      }
      loading := false;
    }

    /** `openNew()`: a new, unpaid enrollment dated `today`. */
    method OpenNew(today: string)
      modifies this`editing, this`form, this`dialogOpen
      ensures editing.None? && form == NewDraft(today) && dialogOpen
    {
      editing := None;
      form := NewDraft(today);
      dialogOpen := true;
    }

    /** `openEdit(item)`: the form holds the record's fields. */
    method OpenEdit(item: Record<AnmeldungFields>)
      modifies this`editing, this`form, this`dialogOpen
      ensures editing == Some(item) && form == DraftOf(codec, item.fields) && dialogOpen
    {
      editing := Some(item);
      form := DraftOf(codec, item.fields);
      dialogOpen := true;
    }

    /** Choosing, typing or ticking in the form. */
    method SetForm(d: Draft)
      modifies this`form
      ensures form == d
    {
      form := d;
    }

    /** The dialog's cancel button, or closing it. */
    method CloseDialog()
      modifies this`dialogOpen
      ensures !dialogOpen
    {
      dialogOpen := false;
    }

    /** The trash button of a row: remember which record to delete. */
    method RequestDelete(id: RecordId)
      modifies this`deleteId
      ensures deleteId == Some(id)
    {
      deleteId := Some(id);
    }

    /** Closing the confirmation dialog. */
    method CancelDelete()
      modifies this`deleteId
      ensures deleteId.None?
    {
      deleteId := None;
    }

    /** The `try`/`finally` part of `handleSave()`: exactly one update of
        `target`, or a create when there is none, then close the dialog and
        reload; `saving` is set for the call and cleared in every case. */
    method Submit(target: Option<RecordId>, fields: AnmeldungFields) returns (outcome: Outcome)
      requires store.Valid()
      modifies this`saving, this`dialogOpen, this`items, this`teilnehmer, this`kurse, this`loading, store
      ensures outcome != NoOp
      ensures store.Valid() && !saving
      ensures outcome.Failed? ==>
        store.rows == old(store.rows) && dialogOpen == old(dialogOpen) && loading == old(loading)
        && items == old(items) && teilnehmer == old(teilnehmer) && kurse == old(kurse)
      ensures outcome.Done? ==> Saved(old(store.rows), store.rows, target, fields)
      ensures outcome.Done? ==> !dialogOpen && !loading
      ensures outcome.Done? && outcome.reloaded ==> Loaded()
      ensures outcome.Done? && !outcome.reloaded ==>
        items == old(items) && teilnehmer == old(teilnehmer) && kurse == old(kurse)
    {
      saving := true;
      var ok := store.Save(target, fields);
      if ok {
        dialogOpen := false;
        ghost var after := store.rows;
        var reloaded := Load();
        assert store.rows == after;
        outcome := Done(reloaded);
      } else {
        outcome := Failed;
      }
      saving := false;
    }

    /** `handleSave()`: nothing unless a participant and a course are
        chosen; otherwise exactly one update (while editing) or create, then
        close the dialog and reload. A rejected call leaves the service, the
        lists and the dialog as they were. `saving` is false afterwards in
        every case. */
    method HandleSave() returns (outcome: Outcome)
      requires Valid()
      modifies this`saving, this`dialogOpen, this`items, this`teilnehmer, this`kurse, this`loading, store
      ensures Valid()
      ensures outcome == NoOp <==> !old(SaveEnabled())
      ensures outcome == NoOp ==> unchanged(this, store)
      ensures outcome.Failed? ==>
        store.rows == old(store.rows) && dialogOpen == old(dialogOpen) && loading == old(loading)
        && items == old(items) && teilnehmer == old(teilnehmer) && kurse == old(kurse)
      ensures outcome.Done? ==> Saved(old(store.rows), store.rows, TargetOf(editing), FieldsOf(codec, form))
      ensures outcome.Done? ==> !dialogOpen && !loading
      ensures outcome.Done? && outcome.reloaded ==> Loaded()
      ensures outcome.Done? && !outcome.reloaded ==>
        items == old(items) && teilnehmer == old(teilnehmer) && kurse == old(kurse)
    {
      if !CanSave(form) {
        return NoOp;
      }
      var fields := FieldsOf(codec, form);
      outcome := Submit(TargetOf(editing), fields);
    }

    /** `handleDelete()`: nothing without a pending id; otherwise delete it,
        clear the pending id and reload. A rejected delete keeps the pending
        id and does not reload. */
    method HandleDelete() returns (outcome: Outcome)
      requires Valid()
      modifies this`deleteId, this`items, this`teilnehmer, this`kurse, this`loading, store
      ensures Valid()
      ensures outcome == NoOp <==> old(deleteId) == None || old(deleteId) == Some("")
      ensures outcome == NoOp ==> unchanged(this, store)
      ensures outcome.Failed? ==>
        store.rows == old(store.rows) && deleteId == old(deleteId) && loading == old(loading)
        && items == old(items) && teilnehmer == old(teilnehmer) && kurse == old(kurse)
      ensures outcome.Done? ==> store.rows == Remove(old(store.rows), old(deleteId).value)
      ensures outcome.Done? ==> deleteId.None? && !loading
      ensures outcome.Done? && outcome.reloaded ==> Loaded()
      ensures outcome.Done? && !outcome.reloaded ==>
        items == old(items) && teilnehmer == old(teilnehmer) && kurse == old(kurse)
    {
      if deleteId.None? || deleteId.value == "" {
        return NoOp;
      }
      var ok := store.Delete(deleteId.value);
      if ok {
        deleteId := None;
        var reloaded := Load();
        outcome := Done(reloaded);
      } else {
        outcome := Failed;
      }
    }
  }

  /** A new enrollment cannot be saved until both a participant and a
      course are chosen: pressing save right after `openNew` does nothing. */
  method SaveRightAfterOpenNew(c: Controller, today: string) returns (outcome: Outcome)
    requires c.Valid()
    modifies c, c.store
    ensures outcome == NoOp && c.store.rows == old(c.store.rows)
  {
    c.OpenNew(today);
    outcome := c.HandleSave();
  }
}
