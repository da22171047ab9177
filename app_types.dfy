/** The record shapes the service stores for the five apps, the app ids, the
    reference codec between record ids and reference strings, and the lookup
    and payment count that several screens share. */
module AppTypes {
  import opened JsValues

  type RecordId = string

  /** A stored record: its `record_id` and its `fields`. */
  datatype Record<F> = Record(recordId: RecordId, fields: F)

  /** The five apps of the service (`APP_IDS`). */
  datatype AppId = KurseApp | DozentenApp | TeilnehmerApp | RaeumeApp | AnmeldungenApp

  /** Instructor. */
  datatype DozentFields = DozentFields(
    name: Option<string>, email: Option<string>, telefon: Option<string>, fachgebiet: Option<string>)

  /** Room; the capacity is a whole number. */
  datatype RaumFields = RaumFields(raumname: Option<string>, gebaeude: Option<string>, kapazitaet: Option<nat>)

  /** Participant. */
  datatype TeilnehmerFields = TeilnehmerFields(
    name: Option<string>, email: Option<string>, telefon: Option<string>, geburtsdatum: Option<string>)

  /** Course; `dozent` and `raum` are reference strings, `status` the raw status key. */
  datatype KursFields = KursFields(
    titel: Option<string>, beschreibung: Option<string>,
    startdatum: Option<string>, enddatum: Option<string>,
    maxTeilnehmer: Option<nat>, preis: Option<nat>,
    dozent: Option<string>, raum: Option<string>, status: Option<string>)

  /** Enrollment; `teilnehmer` and `kurs` are reference strings. */
  datatype AnmeldungFields = AnmeldungFields(
    teilnehmer: Option<string>, kurs: Option<string>, anmeldedatum: Option<string>, bezahlt: Option<bool>)

  /** The reference codec of the service module: `createRecordUrl(appId, id)`
      and `extractRecordId(url)`. Their implementation is not part of this
      model, so they are arbitrary functions here; what the screens need of
      them is stated as `DecodesEncoded` where it is needed. */
  datatype Codec = Codec(
    createRecordUrl: (AppId, RecordId) -> string,
    extractRecordId: string -> Option<RecordId>)

  /** `extractRecordId` applied to an optional field; an absent reference
      gives no id. */
  function Extract(c: Codec, url: Option<string>): Option<RecordId> {
    if url.None? then None else c.extractRecordId(url.value)
  }

  /** The codec's round trip: extracting from a created reference gives back
      the id. This is an assumption about code outside the model. */
  ghost predicate DecodesEncoded(c: Codec) {
    forall app, id :: c.extractRecordId(c.createRecordUrl(app, id)) == Some(id)
  }

  /** A reference string `createRecordUrl` made for a non-empty id of `app`. */
  ghost predicate Created(c: Codec, app: AppId, url: string) {
    exists id :: id != "" && url == c.createRecordUrl(app, id)
  }

  /** The reference a form id is saved as: none for '', otherwise the
      reference `createRecordUrl` makes for the id. */
  function RefOf(c: Codec, app: AppId, id: RecordId): (r: Option<string>)
    ensures r.None? <==> id == ""
  {
    if id == "" then None else Some(c.createRecordUrl(app, id))
  }

  /** The form id of a reference field: the id `extractRecordId` reads from
      it, or '' when it reads none. */
  function IdOf(c: Codec, url: Option<string>): (r: RecordId)
    ensures url.None? ==> r == ""
    ensures r != "" ==> Extract(c, url) == Some(r)
    ensures Extract(c, url).None? ==> r == ""
  {
    OrEmpty(Extract(c, url))
  }

  /** A form id saved as a reference and read back is the same id. */
  lemma {:induction false} RefRoundTrip(c: Codec, app: AppId, id: RecordId)
    requires DecodesEncoded(c)
    ensures IdOf(c, RefOf(c, app, id)) == id
    ensures RefOf(c, app, id).None? <==> id == ""
  {
    if id != "" {
      assert c.extractRecordId(c.createRecordUrl(app, id)) == Some(id);
    }
  }

  /** A reference the app created, read into a form and saved again, is the
      same reference. */
  lemma {:induction false} IdRoundTrip(c: Codec, app: AppId, url: Option<string>)
    requires DecodesEncoded(c)
    requires url.None? || Created(c, app, url.value)
    ensures RefOf(c, app, IdOf(c, url)) == url
  {
    if url.Some? {
      var id :| id != "" && url.value == c.createRecordUrl(app, id);
      assert c.extractRecordId(c.createRecordUrl(app, id)) == Some(id);
    }
  }

  /** `a.fields.bezahlt` is truthy. */
  predicate IsPaid(a: Record<AnmeldungFields>): (paid: bool)
    ensures paid == a.fields.bezahlt.GetOr(false)
  {
    a.fields.bezahlt == Some(true)
  }

  /** The enrollments whose payment flag is set, in order. */
  function PaidOnes(rows: seq<Record<AnmeldungFields>>): (r: seq<Record<AnmeldungFields>>)
    ensures |r| <= |rows|
    ensures forall k :: 0 <= k < |r| ==> IsPaid(r[k]) && r[k] in rows
  {
    if rows == [] then []
    else if IsPaid(rows[0]) then [rows[0]] + PaidOnes(rows[1..])
    else PaidOnes(rows[1..])
  }

  /** The number of enrollments that are not paid, counted on their own. */
  function CountOpen(rows: seq<Record<AnmeldungFields>>): (n: nat)
    ensures n <= |rows|
    ensures n == 0 <==> forall k :: 0 <= k < |rows| ==> IsPaid(rows[k])
  {
    if rows == [] then 0 else (if IsPaid(rows[0]) then 0 else 1) + CountOpen(rows[1..])
  }

  /** Every enrollment is either counted as paid or as open. */
  lemma {:induction false} PaidPlusOpen(rows: seq<Record<AnmeldungFields>>)
    ensures |PaidOnes(rows)| + CountOpen(rows) == |rows|
  {
    if rows != [] {
      PaidPlusOpen(rows[1..]);
    }
  }
}
