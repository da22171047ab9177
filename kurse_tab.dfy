/** The courses tab: a list of courses, each shown with its instructor, room
    and status badge, and a dialog to create or edit one. Every handler is
    one atomic step of the screen's state. */
module KurseTab {
  import opened JsValues
  import opened Decimal
  import opened AppTypes
  import opened Store

  /** The dialog's form: every field as the text the inputs hold; `dozent`
      and `raum` hold record ids, `status` a status key. */
  datatype Draft = Draft(
    titel: string, beschreibung: string, startdatum: string, enddatum: string,
    maxTeilnehmer: string, preis: string, dozent: string, raum: string, status: string)

  /** A fresh form: everything empty, the course planned. */
  const EmptyDraft := Draft("", "", "", "", "", "", "", "", "geplant")

  /** The number inputs hold decimal numerals or nothing. */
  predicate WellFormed(d: Draft) {
    IsDigits(d.maxTeilnehmer) && IsDigits(d.preis)
  }

  /** The status a form starts from: the record's status, or 'geplant' when
      it has none. */
  function StatusOrPlanned(status: Option<string>): (s: string)
    ensures s != ""
    ensures s == "geplant" || Some(s) == status
    ensures status.Some? && status.value != "" ==> Some(s) == status
  {
    NonEmpty(status).GetOr("geplant")
  }

  /** The form `openEdit` fills in from a record: absent text becomes '',
      numbers their decimal numerals, references the ids they name (or ''),
      and a missing status 'geplant'. */
  function DraftOf(c: Codec, f: KursFields): (d: Draft)
    ensures WellFormed(d)
    ensures Some(d.titel) == f.titel || (f.titel.None? && d.titel == "")
    ensures Some(d.beschreibung) == f.beschreibung || (f.beschreibung.None? && d.beschreibung == "")
    ensures Some(d.startdatum) == f.startdatum || (f.startdatum.None? && d.startdatum == "")
    ensures Some(d.enddatum) == f.enddatum || (f.enddatum.None? && d.enddatum == "")
    ensures d.maxTeilnehmer == "" <==> f.maxTeilnehmer.None?
    ensures d.preis == "" <==> f.preis.None?
    ensures Some(d.dozent) == Extract(c, f.dozent) || (Extract(c, f.dozent).None? && d.dozent == "")
    ensures Some(d.raum) == Extract(c, f.raum) || (Extract(c, f.raum).None? && d.raum == "")
    ensures d.status != ""
  {
    Draft(OrEmpty(f.titel), OrEmpty(f.beschreibung), OrEmpty(f.startdatum), OrEmpty(f.enddatum),
      ShowOptional(f.maxTeilnehmer), ShowOptional(f.preis),
      IdOf(c, f.dozent), IdOf(c, f.raum), StatusOrPlanned(f.status))
  }

  /** The fields `handleSave` sends: the title verbatim, empty text absent,
      numerals as numbers, the instructor and room as references of their
      own apps when chosen. */
  function FieldsOf(c: Codec, d: Draft): (f: KursFields)
    requires WellFormed(d)
    ensures f.titel == Some(d.titel)
    ensures f.beschreibung != Some("") && OrEmpty(f.beschreibung) == d.beschreibung
    ensures f.startdatum != Some("") && OrEmpty(f.startdatum) == d.startdatum
    ensures f.enddatum != Some("") && OrEmpty(f.enddatum) == d.enddatum
    ensures f.maxTeilnehmer.None? <==> d.maxTeilnehmer == ""
    ensures f.preis.None? <==> d.preis == ""
    ensures f.dozent.None? <==> d.dozent == ""
    ensures f.raum.None? <==> d.raum == ""
    ensures f.status.None? <==> d.status == ""
  {
    KursFields(Some(d.titel), EmptyToNone(d.beschreibung), EmptyToNone(d.startdatum), EmptyToNone(d.enddatum),
      ParseOptional(d.maxTeilnehmer), ParseOptional(d.preis),
      RefOf(c, DozentenApp, d.dozent), RefOf(c, RaeumeApp, d.raum), EmptyToNone(d.status))
  }

  /** `handleSave` proceeds only for a title that is not blank after trimming. */
  predicate CanSave(d: Draft): (ok: bool)
    ensures ok <==> !IsBlank(d.titel)
  {
    Trim(d.titel) != ""
  }

  /** Opening a record for editing and saving it unchanged keeps its numbers
      and the references the app created, gives a course without a status
      the status 'geplant', and writes back the very same fields exactly
      when the title and a non-empty status are present and no text field is
      present but empty. */
  lemma {:induction false} EditSaveRoundTrip(c: Codec, f: KursFields)
    requires DecodesEncoded(c)
    requires f.dozent.None? || Created(c, DozentenApp, f.dozent.value)
    requires f.raum.None? || Created(c, RaeumeApp, f.raum.value)
    ensures FieldsOf(c, DraftOf(c, f)).maxTeilnehmer == f.maxTeilnehmer
    ensures FieldsOf(c, DraftOf(c, f)).preis == f.preis
    ensures FieldsOf(c, DraftOf(c, f)).dozent == f.dozent && FieldsOf(c, DraftOf(c, f)).raum == f.raum
    ensures FieldsOf(c, DraftOf(c, f)).status ==
      if f.status.Some? && f.status.value != "" then f.status else Some("geplant")
    ensures FieldsOf(c, DraftOf(c, f)) == f <==>
      f.titel.Some? && f.beschreibung != Some("") && f.startdatum != Some("") && f.enddatum != Some("")
      && f.status.Some? && f.status.value != ""
  {
    OptionalRoundTrip(f.maxTeilnehmer);
    OptionalRoundTrip(f.preis);
    IdRoundTrip(c, DozentenApp, f.dozent);
    IdRoundTrip(c, RaeumeApp, f.raum);
    EmptyToNoneOrEmpty(f.beschreibung);
    EmptyToNoneOrEmpty(f.startdatum);
    EmptyToNoneOrEmpty(f.enddatum);
  }

  /** Saving a form and opening the saved record again gives the same form,
      when the numbers are written without leading zeros and a status is
      chosen. */
  lemma {:induction false} SaveEditRoundTrip(c: Codec, d: Draft)
    requires DecodesEncoded(c)
    requires d.maxTeilnehmer == "" || IsCanonical(d.maxTeilnehmer)
    requires d.preis == "" || IsCanonical(d.preis)
    requires d.status != ""
    ensures DraftOf(c, FieldsOf(c, d)) == d
  {
    OptionalTextRoundTrip(d.maxTeilnehmer);
    OptionalTextRoundTrip(d.preis);
    RefRoundTrip(c, DozentenApp, d.dozent);
    RefRoundTrip(c, RaeumeApp, d.raum);
    OrEmptyEmptyToNone(d.beschreibung);
    OrEmptyEmptyToNone(d.startdatum);
    OrEmptyEmptyToNone(d.enddatum);
  }

  /** `STATUS_LABELS`: the German label of each known status key. */
  const StatusLabels: map<string, string> :=
    map["geplant" := "Geplant", "aktiv" := "Aktiv", "abgeschlossen" := "Abgeschlossen", "abgesagt" := "Abgesagt"]

  /** The text of the status badge: none for an absent or empty status, the
      label of a known status, the raw key otherwise. */
  function StatusLabel(status: Option<string>): (r: Option<string>)
    ensures r.None? <==> status.None? || status.value == ""
    ensures r.Some? ==> r.value != ""
    ensures r.Some? && status.value !in StatusLabels ==> r == status
  {
    if status.None? || status.value == "" then None
    else if status.value in StatusLabels && StatusLabels[status.value] != "" then Some(StatusLabels[status.value])
    else status
  }

  /** Each known status shows its German label, and no label is its own key. */
  lemma KnownStatusLabels()
    ensures StatusLabel(Some("geplant")) == Some("Geplant")
    ensures StatusLabel(Some("aktiv")) == Some("Aktiv")
    ensures StatusLabel(Some("abgeschlossen")) == Some("Abgeschlossen")
    ensures StatusLabel(Some("abgesagt")) == Some("Abgesagt")
    ensures forall s :: s in StatusLabels ==> StatusLabel(Some(s)) != Some(s)
  {
    assert "geplant" != "Geplant" && "aktiv" != "Aktiv";
    assert "abgeschlossen" != "Abgeschlossen" && "abgesagt" != "Abgesagt";
  }

  /** A new course with only a title is saved as planned and shows the badge
      "Geplant"; no instructor, room, date, number or description is sent. */
  lemma NewCourseFields(c: Codec, titel: string)
    ensures FieldsOf(c, EmptyDraft.(titel := titel)) ==
      KursFields(Some(titel), None, None, None, None, None, None, None, Some("geplant"))
    ensures StatusLabel(FieldsOf(c, EmptyDraft.(titel := titel)).status) == Some("Geplant")
  {
    KnownStatusLabels();
  }

  /** `getDozentName(url)`: the non-empty name of the instructor the
      reference names, or none. */
  function DozentName(c: Codec, dozenten: seq<Record<DozentFields>>, url: Option<string>): (r: Option<string>)
    ensures url.None? ==> r.None?
    ensures r.Some? ==> r.value != ""
    ensures r.Some? ==>
      exists i :: 0 <= i < |dozenten| && Some(dozenten[i].recordId) == Extract(c, url) && dozenten[i].fields.name == r
    ensures UniqueIds(dozenten) ==> forall i :: 0 <= i < |dozenten| && Extract(c, url) == Some(dozenten[i].recordId) ==>
      r == NonEmpty(dozenten[i].fields.name)
  {
    FoundName(dozenten, Extract(c, url), (f: DozentFields) => f.name)
  }

  /** `getRaumName(url)`: the non-empty name of the room the reference
      names, or none. */
  function RaumName(c: Codec, raeume: seq<Record<RaumFields>>, url: Option<string>): (r: Option<string>)
    ensures url.None? ==> r.None?
    ensures r.Some? ==> r.value != ""
    ensures r.Some? ==>
      exists i :: 0 <= i < |raeume| && Some(raeume[i].recordId) == Extract(c, url) && raeume[i].fields.raumname == r
    ensures UniqueIds(raeume) ==> forall i :: 0 <= i < |raeume| && Extract(c, url) == Some(raeume[i].recordId) ==>
      r == NonEmpty(raeume[i].fields.raumname)
  {
    FoundName(raeume, Extract(c, url), (f: RaumFields) => f.raumname)
  }

  /** A course saved with an instructor and a room chosen from the loaded
      lists shows that instructor's and that room's names. */
  lemma {:induction false} ChosenNamesShown(c: Codec, dozenten: seq<Record<DozentFields>>, raeume: seq<Record<RaumFields>>,
                                            d: Draft, i: int, j: int)
    requires DecodesEncoded(c) && WellFormed(d)
    requires UniqueIds(dozenten) && 0 <= i < |dozenten| && d.dozent == dozenten[i].recordId
    requires UniqueIds(raeume) && 0 <= j < |raeume| && d.raum == raeume[j].recordId
    ensures DozentName(c, dozenten, FieldsOf(c, d).dozent) == if d.dozent == "" then None else NonEmpty(dozenten[i].fields.name)
    ensures RaumName(c, raeume, FieldsOf(c, d).raum) == if d.raum == "" then None else NonEmpty(raeume[j].fields.raumname)
  {
    if d.dozent != "" {
      RefRoundTrip(c, DozentenApp, d.dozent);
      FindUnique(dozenten, i);
    }
    if d.raum != "" {
      RefRoundTrip(c, RaeumeApp, d.raum);
      FindUnique(raeume, j);
    }
  }

  /** The state of the courses tab. */
  class Controller {
    const codec: Codec
    const store: Table<KursFields>
    const dozentenStore: Table<DozentFields>
    const raeumeStore: Table<RaumFields>
    var items: seq<Record<KursFields>>
    var dozenten: seq<Record<DozentFields>>
    var raeume: seq<Record<RaumFields>>
    var loading: bool
    var dialogOpen: bool
    var editing: Option<Record<KursFields>>
    var deleteId: Option<RecordId>
    var saving: bool
    var form: Draft

    /** Between two handlers the service's course ids are unique, no save is
        in flight, and the number inputs hold digits only. */
    ghost predicate Valid()
      reads this, store
    {
      store.Valid() && !saving && WellFormed(form)
    }

    /** The three lists show exactly what the service holds. */
    predicate Loaded()
      reads this, store, dozentenStore, raeumeStore
    {
      items == store.rows && dozenten == dozentenStore.rows && raeume == raeumeStore.rows
    }

    /** The save button is enabled: no save in flight and a non-blank title. */
    predicate SaveEnabled()
      reads this
    {
      !saving && CanSave(form)
    }

    /** The state right after mounting, before the first load. */
    constructor (codec: Codec, store: Table<KursFields>, dozentenStore: Table<DozentFields>, raeumeStore: Table<RaumFields>)
      requires store.Valid()
      ensures Valid()
      ensures this.codec == codec && this.store == store && this.dozentenStore == dozentenStore && this.raeumeStore == raeumeStore
      ensures items == [] && dozenten == [] && raeume == [] && loading && !dialogOpen
      ensures editing.None? && deleteId.None? && form == EmptyDraft
    {
      this.codec := codec;
      this.store := store;
      this.dozentenStore := dozentenStore;
      this.raeumeStore := raeumeStore;
      items := [];
      dozenten := [];
      raeume := [];
      loading := true;
      dialogOpen := false;
      editing := None;
      deleteId := None;
      saving := false;
      form := EmptyDraft;
    }

    /** `load()`: the courses, instructors and rooms are fetched together;
        only when all three arrive are the three lists replaced, and loading
        ends either way. */
    method Load() returns (ok: bool)
      modifies this`items, this`dozenten, this`raeume, this`loading
      ensures !loading
      ensures ok ==> Loaded()
      ensures !ok ==> items == old(items) && dozenten == old(dozenten) && raeume == old(raeume)
    {
      loading := true;
      var okK, k := store.List();
      var okD, d := dozentenStore.List();
      var okR, r := raeumeStore.List();
      ok := okK && okD && okR;
      if ok {
        items := k;
        dozenten := d;
        raeume := r;
      }
      loading := false;
    }

    /** `openNew()`: the empty form, planned, for a new course. */
    method OpenNew()
      modifies this`editing, this`form, this`dialogOpen
      ensures editing.None? && form == EmptyDraft && dialogOpen
    {
      editing := None;
      form := EmptyDraft;
      dialogOpen := true;
    }

    /** `openEdit(item)`: the form holds the record's fields. */
    method OpenEdit(item: Record<KursFields>)
      modifies this`editing, this`form, this`dialogOpen
      ensures editing == Some(item) && form == DraftOf(codec, item.fields) && dialogOpen
    {
      editing := Some(item);
      form := DraftOf(codec, item.fields);
      dialogOpen := true;
    }

    /** Typing into the form; the number inputs accept digits only. */
    method SetForm(d: Draft)
      requires WellFormed(d)
      modifies this`form
      ensures form == d
    {
      form := d;
    }

    /** The dialog's cancel button, or closing it. */
    method CloseDialog()
      modifies this`dialogOpen
      ensures !dialogOpen
    {
      dialogOpen := false;
    }

    /** The trash button of a course card: remember which record to delete. */
    method RequestDelete(id: RecordId)
      modifies this`deleteId
      ensures deleteId == Some(id)
    {
      deleteId := Some(id);
    }

    /** Closing the confirmation dialog. */
    method CancelDelete()
      modifies this`deleteId
      ensures deleteId.None?
    {
      deleteId := None;
    }

    /** The `try`/`finally` part of `handleSave()`: exactly one update of
        `target`, or a create when there is none, then close the dialog and
        reload; `saving` is set for the call and cleared in every case. */
    method Submit(target: Option<RecordId>, fields: KursFields) returns (outcome: Outcome)
      requires store.Valid()
      modifies this`saving, this`dialogOpen, this`items, this`dozenten, this`raeume, this`loading, store
      ensures outcome != NoOp
      ensures store.Valid() && !saving
      ensures outcome.Failed? ==>
        store.rows == old(store.rows) && dialogOpen == old(dialogOpen) && loading == old(loading)
        && items == old(items) && dozenten == old(dozenten) && raeume == old(raeume)
      ensures outcome.Done? ==> Saved(old(store.rows), store.rows, target, fields)
      ensures outcome.Done? ==> !dialogOpen && !loading
      ensures outcome.Done? && outcome.reloaded ==> Loaded()
      ensures outcome.Done? && !outcome.reloaded ==>
        items == old(items) && dozenten == old(dozenten) && raeume == old(raeume)
    {
      saving := true;
      var ok := store.Save(target, fields);
      if ok {
        dialogOpen := false;
        ghost var after := store.rows;
        var reloaded := Load();
        assert store.rows == after;
        outcome := Done(reloaded);
      } else {
        outcome := Failed;
      }
      saving := false;
    }

    /** `handleSave()`: nothing without a title; otherwise exactly one update
        (while editing) or create, then close the dialog and reload. A
        rejected call leaves the service, the lists and the dialog as they
        were. `saving` is false afterwards in every case. */
    method HandleSave() returns (outcome: Outcome)
      requires Valid()
      modifies this`saving, this`dialogOpen, this`items, this`dozenten, this`raeume, this`loading, store
      ensures Valid()
      ensures outcome == NoOp <==> !old(SaveEnabled())
      ensures outcome == NoOp ==> unchanged(this, store)
      ensures outcome.Failed? ==>
        store.rows == old(store.rows) && dialogOpen == old(dialogOpen) && loading == old(loading)
        && items == old(items) && dozenten == old(dozenten) && raeume == old(raeume)
      ensures outcome.Done? ==> Saved(old(store.rows), store.rows, TargetOf(editing), FieldsOf(codec, form))
      ensures outcome.Done? ==> !dialogOpen && !loading
      ensures outcome.Done? && outcome.reloaded ==> Loaded()
      ensures outcome.Done? && !outcome.reloaded ==>
        items == old(items) && dozenten == old(dozenten) && raeume == old(raeume)
    {
      if !CanSave(form) {
        return NoOp;
      }
      var fields := FieldsOf(codec, form);
      outcome := Submit(TargetOf(editing), fields);
    }

    /** `handleDelete()`: nothing without a pending id; otherwise delete it,
        clear the pending id and reload. A rejected delete keeps the pending
        id and does not reload. */
    method HandleDelete() returns (outcome: Outcome)
      requires Valid()
      modifies this`deleteId, this`items, this`dozenten, this`raeume, this`loading, store
      ensures Valid()
      ensures outcome == NoOp <==> old(deleteId) == None || old(deleteId) == Some("")
      ensures outcome == NoOp ==> unchanged(this, store)
      ensures outcome.Failed? ==>
        store.rows == old(store.rows) && deleteId == old(deleteId) && loading == old(loading)
        && items == old(items) && dozenten == old(dozenten) && raeume == old(raeume)
      ensures outcome.Done? ==> store.rows == Remove(old(store.rows), old(deleteId).value)
      ensures outcome.Done? ==> deleteId.None? && !loading
      ensures outcome.Done? && outcome.reloaded ==> Loaded()
      ensures outcome.Done? && !outcome.reloaded ==>
        items == old(items) && dozenten == old(dozenten) && raeume == old(raeume)
    {
      if deleteId.None? || deleteId.value == "" {
        return NoOp;
      }
      var ok := store.Delete(deleteId.value);
      if ok {
        deleteId := None;
        var reloaded := Load();
        outcome := Done(reloaded);
      } else {
        outcome := Failed;
      }
    }
  }

  /** Creating a course with only a title appends one planned course with
      that title and nothing else under a fresh id. */
  method NewCourse(c: Controller, titel: string) returns (outcome: Outcome)
    requires c.Valid() && !IsBlank(titel)
    modifies c, c.store
    ensures c.Valid()
    ensures outcome != NoOp
    ensures outcome.Done? ==> exists id :: Appended(old(c.store.rows), c.store.rows, id,
      KursFields(Some(titel), None, None, None, None, None, None, None, Some("geplant")))
  {
    c.OpenNew();
    c.SetForm(EmptyDraft.(titel := titel));
    NewCourseFields(c.codec, titel);
    outcome := c.HandleSave();
  }
}
