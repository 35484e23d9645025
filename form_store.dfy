/** The form-progress record kept in the external "Forms" table, keyed by the
    client-generated form id, and the check-then-insert-or-update sequence
    that the opt-in and specification steps run before advancing.

    The table is a map from form id to record.  What the remote store answers
    is a parameter: an `Outcome` for the lookup and one for the write. */
module FormStore {
  import opened Common

  /** A row of the table; the flags and the phone are `None` where the row
      never received them. */
  datatype FormRecord = FormRecord(
    createdAt: string,
    updatedAt: string,
    optInCompletion: Option<bool>,
    smsAndCallOptIn: Option<bool>,
    emailOptIn: Option<bool>,
    termsAndPrivacyOptIn: Option<bool>,
    phone: Option<string>)

  /** The store's answer to one request: success, an error object with a
      code, or a thrown exception. */
  datatype Outcome = Ok | Failed(code: string) | Threw

  /** The error code of a `.single()` lookup that found no row. */
  const NotFoundCode: string := "PGRST116"

  const CheckingMessage: string := "Error checking formId"
  const UpdatingMessage: string := "Error updating formId"
  const InsertingMessage: string := "Error inserting formId"
  const UnexpectedMessage: string := "Unexpected error"

  /** What a step writes: the specification steps only refresh the update
      timestamp; the opt-in step also records completion and its three
      consent flags. */
  datatype Progress = Touch | OptIns(general: bool, newsletter: bool, terms: bool)

  /** The update payload applied to an existing row. */
  function Touched(rec: FormRecord, now: string, progress: Progress): (r: FormRecord)
    ensures r.createdAt == rec.createdAt && r.phone == rec.phone && r.updatedAt == now
    ensures progress == Touch ==> r == rec.(updatedAt := now)
    ensures progress.OptIns? ==> r.optInCompletion == Some(true)
                                 && r.smsAndCallOptIn == Some(progress.general)
                                 && r.emailOptIn == Some(progress.newsletter)
                                 && r.termsAndPrivacyOptIn == Some(progress.terms)
  {
    match progress
    case Touch => rec.(updatedAt := now)
    case OptIns(g, n, t) =>
      rec.(updatedAt := now, optInCompletion := Some(true), smsAndCallOptIn := Some(g),
           emailOptIn := Some(n), termsAndPrivacyOptIn := Some(t))
  }

  /** The inserted row: both timestamps `now`, the phone given. */
  function Fresh(now: string, progress: Progress, phone: Option<string>): (r: FormRecord)
    ensures r.createdAt == now && r.updatedAt == now && r.phone == phone
    ensures progress == Touch ==> r.optInCompletion.None? && r.smsAndCallOptIn.None?
                                  && r.emailOptIn.None? && r.termsAndPrivacyOptIn.None?
    ensures progress.OptIns? ==> r.optInCompletion == Some(true)
                                 && r.smsAndCallOptIn == Some(progress.general)
                                 && r.emailOptIn == Some(progress.newsletter)
                                 && r.termsAndPrivacyOptIn == Some(progress.terms)
  {
    match progress
    case Touch => FormRecord(now, now, None, None, None, None, phone)
    case OptIns(g, n, t) => FormRecord(now, now, Some(true), Some(g), Some(n), Some(t), phone)
  }

  /** The table after the sequence and the error report sent, if any. */
  datatype Upserted = Upserted(rows: map<string, FormRecord>, report: Option<string>)

  /** The lookup does not abort: it answered, or it failed with "not found". */
  predicate LookupProceeds(lookup: Outcome) {
    lookup.Ok? || lookup == Failed(NotFoundCode)
  }

  /** The lookup returned the row. */
  predicate RowFound(rows: map<string, FormRecord>, formId: string, lookup: Outcome) {
    lookup.Ok? && formId in rows
  }

  /** The sequence as a function of the table and the two outcomes. */
  function UpsertSpec(rows: map<string, FormRecord>, formId: string, now: string, progress: Progress,
                      phone: Option<string>, lookup: Outcome, write: Outcome): Upserted
  {
    if lookup == Threw then Upserted(rows, Some(UnexpectedMessage))
    else if !LookupProceeds(lookup) then Upserted(rows, Some(CheckingMessage))
    else if RowFound(rows, formId, lookup) then
      match write
      case Ok => Upserted(rows[formId := Touched(rows[formId], now, progress)], None)
      case Failed(_) => Upserted(rows, Some(UpdatingMessage))
      case Threw => Upserted(rows, Some(UnexpectedMessage))
    else
      match write
      case Ok => Upserted(rows[formId := Fresh(now, progress, phone)], None)
      case Failed(_) => Upserted(rows, Some(InsertingMessage))
      case Threw => Upserted(rows, Some(UnexpectedMessage))
  }

  /** The step advances (no report) iff the lookup proceeds and the write
      succeeds; otherwise the table is unchanged. */
  lemma UpsertAdvancesIffBothSucceed(rows: map<string, FormRecord>, formId: string, now: string,
                                     progress: Progress, phone: Option<string>, lookup: Outcome, write: Outcome)
    ensures UpsertSpec(rows, formId, now, progress, phone, lookup, write).report.None?
            <==> LookupProceeds(lookup) && write.Ok?
    ensures UpsertSpec(rows, formId, now, progress, phone, lookup, write).report.Some?
            ==> UpsertSpec(rows, formId, now, progress, phone, lookup, write).rows == rows
  {
  }

  /** Which report is sent for which failure. */
  lemma UpsertReports(rows: map<string, FormRecord>, formId: string, now: string,
                      progress: Progress, phone: Option<string>, lookup: Outcome, write: Outcome)
    ensures lookup.Failed? && lookup.code != NotFoundCode ==>
              UpsertSpec(rows, formId, now, progress, phone, lookup, write).report == Some(CheckingMessage)
    ensures lookup == Threw ==>
              UpsertSpec(rows, formId, now, progress, phone, lookup, write).report == Some(UnexpectedMessage)
    ensures LookupProceeds(lookup) && write.Failed? ==>
              UpsertSpec(rows, formId, now, progress, phone, lookup, write).report
              == Some(if RowFound(rows, formId, lookup) then UpdatingMessage else InsertingMessage)
    ensures LookupProceeds(lookup) && write == Threw ==>
              UpsertSpec(rows, formId, now, progress, phone, lookup, write).report == Some(UnexpectedMessage)
  {
  }

  /** Only the row of `formId` can change. */
  lemma UpsertTouchesOnlyItsRow(rows: map<string, FormRecord>, formId: string, now: string,
                                progress: Progress, phone: Option<string>, lookup: Outcome, write: Outcome, k: string)
    requires k != formId
    ensures var after := UpsertSpec(rows, formId, now, progress, phone, lookup, write).rows;
            (k in after <==> k in rows) && (k in rows ==> after[k] == rows[k])
  {
  }

  /** A found row keeps its creation time and phone and gets `now` as update
      time (and the flags, for the opt-in step); a missing row is inserted
      with both timestamps `now`. */
  lemma UpsertWritesRow(rows: map<string, FormRecord>, formId: string, now: string,
                        progress: Progress, phone: Option<string>, lookup: Outcome)
    requires LookupProceeds(lookup)
    ensures var after := UpsertSpec(rows, formId, now, progress, phone, lookup, Ok).rows;
            formId in after && after[formId].updatedAt == now
            && (RowFound(rows, formId, lookup) ==>
                  after[formId] == Touched(rows[formId], now, progress)
                  && after[formId].createdAt == rows[formId].createdAt
                  && after[formId].phone == rows[formId].phone)
            && (!RowFound(rows, formId, lookup) ==>
                  after[formId] == Fresh(now, progress, phone) && after[formId].createdAt == now)
  {
  }

  /** A fresh form id upserted twice: the first call inserts, the second
      updates; the creation time is the first call's and the update time the
      second's. */
  lemma InsertThenUpdate(rows: map<string, FormRecord>, formId: string, now1: string, now2: string,
                         progress: Progress, phone: Option<string>)
    requires formId !in rows
    ensures var first := UpsertSpec(rows, formId, now1, progress, phone, Ok, Ok).rows;
            var second := UpsertSpec(first, formId, now2, progress, phone, Ok, Ok).rows;
            formId in second && second[formId].createdAt == now1 && second[formId].updatedAt == now2
            && second[formId].phone == phone
  {
    var first := UpsertSpec(rows, formId, now1, progress, phone, Ok, Ok).rows;
    assert first[formId] == Fresh(now1, progress, phone);
  }

  class FormsTable {
    var rows: map<string, FormRecord>

    constructor(rows: map<string, FormRecord>)
      ensures this.rows == rows
    {
      this.rows := rows;
    }

    /** The check, then the update or the insert, returning at the first
        failure with the report it sends. */
    method Upsert(formId: string, now: string, progress: Progress, phone: Option<string>,
                  lookup: Outcome, write: Outcome) returns (report: Option<string>)
      modifies this
      ensures rows == UpsertSpec(old(rows), formId, now, progress, phone, lookup, write).rows
      ensures report == UpsertSpec(old(rows), formId, now, progress, phone, lookup, write).report
    {
      if lookup == Threw {
        return Some(UnexpectedMessage);
      }
      if lookup.Failed? && lookup.code != NotFoundCode {
        return Some(CheckingMessage);
      }
      var found := lookup.Ok? && formId in rows;
      if found {
        if write.Failed? {
          return Some(UpdatingMessage);
        } else if write == Threw {
          return Some(UnexpectedMessage);
        }
        rows := rows[formId := Touched(rows[formId], now, progress)];
      } else {
        if write.Failed? {
          return Some(InsertingMessage);
        } else if write == Threw {
          return Some(UnexpectedMessage);
        }
        rows := rows[formId := Fresh(now, progress, phone)];
      }
      return None;
    }
  }
}
