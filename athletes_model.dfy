/**
 * The athlete record (backend/Models/Athletes.js): seven required text
 * columns, the unique index on the national id card number, and the
 * timestamps Sequelize adds. A row is a value; the table is a map from the
 * auto-increment id to the row.
 */
module AthletesModel {
  import opened Wrappers

  /** A stored athlete. Every column is NOT NULL, so each is a plain string. */
  datatype Athlete = Athlete(
    fullName: string,
    fatherName: string,
    permanentResidence: string,
    currentResidence: string,
    nicNumber: string,
    documentPdf: string,   // stored file name of the uploaded identity document
    photo: string,         // stored file name of the uploaded photo
    createdAt: int,
    updatedAt: int)

  /** The unique index on `nic_number`: no two distinct rows share a value. */
  ghost predicate NicUnique(athletes: map<int, Athlete>) {
    forall i, j :: i in athletes && j in athletes && i != j ==> athletes[i].nicNumber != athletes[j].nicNumber
  }

  /** Whether a row other than `except` already holds `nic`: the write the unique index refuses. */
  predicate NicTaken(athletes: map<int, Athlete>, nic: string, except: Option<int>) {
    exists id :: id in athletes && Some(id) != except && athletes[id].nicNumber == nic
  }

  /** Writing a row whose number no other row holds keeps the index satisfied. */
  lemma {:induction false} WriteKeepsNicUnique(athletes: map<int, Athlete>, id: int, a: Athlete)
    requires NicUnique(athletes)
    requires !NicTaken(athletes, a.nicNumber, Some(id))
    ensures NicUnique(athletes[id := a])
  {
    var m := athletes[id := a];
    forall i, j | i in m && j in m && i != j ensures m[i].nicNumber != m[j].nicNumber {
      if i == id {
        assert !(j in athletes && Some(j) != Some(id) && athletes[j].nicNumber == a.nicNumber);
      } else if j == id {
        assert !(i in athletes && Some(i) != Some(id) && athletes[i].nicNumber == a.nicNumber);
      }
    }
  }

  /** The text fields of the registration form; a field the client did not send is `None`. */
  datatype AthleteForm = AthleteForm(
    fullName: Option<string>,
    fatherName: Option<string>,
    permanentResidence: Option<string>,
    currentResidence: Option<string>,
    nicNumber: Option<string>)

  /** The first file uploaded under a form field, as the upload middleware stored it. */
  datatype Upload = Upload(filename: string)

  /** JavaScript truthiness of a text field: present and not the empty string. */
  predicate Filled(field: Option<string>) {
    field.Some? && field.value != ""
  }

  /** The registration check: five non-empty text fields and both files. */
  predicate FormComplete(form: AthleteForm, document: Option<Upload>, photo: Option<Upload>) {
    && Filled(form.fullName)
    && Filled(form.fatherName)
    && Filled(form.permanentResidence)
    && Filled(form.currentResidence)
    && Filled(form.nicNumber)
    && document.Some?
    && photo.Some?
  }

  /** The row a complete registration inserts at time `now`. */
  function Registered(form: AthleteForm, document: Option<Upload>, photo: Option<Upload>, now: int): Athlete
    requires FormComplete(form, document, photo)
  {
    Athlete(form.fullName.value, form.fatherName.value, form.permanentResidence.value,
            form.currentResidence.value, form.nicNumber.value,
            document.value.filename, photo.value.filename, now, now)
  }

  /** A partial-update body: any column may be left out, sent as null, or given a value. */
  datatype AthletePatch = AthletePatch(
    fullName: Patch<string>,
    fatherName: Patch<string>,
    permanentResidence: Patch<string>,
    currentResidence: Patch<string>,
    nicNumber: Patch<string>,
    documentPdf: Patch<string>,
    photo: Patch<string>)

  /** Whether the body sets a NOT NULL column to null, which validation refuses. */
  predicate PatchHasNull(p: AthletePatch) {
    || p.fullName.SetNull? || p.fatherName.SetNull? || p.permanentResidence.SetNull?
    || p.currentResidence.SetNull? || p.nicNumber.SetNull? || p.documentPdf.SetNull?
    || p.photo.SetNull?
  }

  /**
   * The row after `athlete.update(body)` at time `now`: the supplied columns
   * replaced, the rest kept. Only columns whose value changes are written,
   * and `updatedAt` is stamped only when there is one; a body that changes
   * no value writes nothing.
   */
  function Patched(a: Athlete, p: AthletePatch, now: int): (b: Athlete)
    requires !PatchHasNull(p)
    ensures b.createdAt == a.createdAt
    ensures b.(updatedAt := a.updatedAt) == a ==> b == a
    ensures b.(updatedAt := a.updatedAt) != a ==> b.updatedAt == now
    ensures b.fullName == (if p.fullName.Set? then p.fullName.value else a.fullName)
    ensures b.fatherName == (if p.fatherName.Set? then p.fatherName.value else a.fatherName)
    ensures b.permanentResidence == (if p.permanentResidence.Set? then p.permanentResidence.value else a.permanentResidence)
    ensures b.currentResidence == (if p.currentResidence.Set? then p.currentResidence.value else a.currentResidence)
    ensures p.nicNumber.Keep? ==> b.nicNumber == a.nicNumber
    ensures p.nicNumber.Set? ==> b.nicNumber == p.nicNumber.value
    ensures b.documentPdf == (if p.documentPdf.Set? then p.documentPdf.value else a.documentPdf)
    ensures b.photo == (if p.photo.Set? then p.photo.value else a.photo)
    ensures p == AthletePatch(Keep, Keep, Keep, Keep, Keep, Keep, Keep) ==> b == a
  {
    var columns := Athlete(p.fullName.Over(a.fullName), p.fatherName.Over(a.fatherName),
            p.permanentResidence.Over(a.permanentResidence), p.currentResidence.Over(a.currentResidence),
            p.nicNumber.Over(a.nicNumber), p.documentPdf.Over(a.documentPdf), p.photo.Over(a.photo),
            a.createdAt, a.updatedAt);
    if columns == a then a else columns.(updatedAt := now)
  }
}
