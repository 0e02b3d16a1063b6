/**
 * The last-run cursor `lastrun.json` (app.js:28-36, 356-385, 405-409): what a
 * successful run leaves behind so the next run asks only for content updated
 * since, and the rules for trusting it. The file is a JSON value, or a file
 * that does not parse; the schema's UUID and ISO 8601 date checks are
 * parameters.
 */
module Cursor {
  import opened Js

  datatype CursorFile = NoFile | Unparsable | Stored(content: Value)

  /** The format checks of the schema: a version-4 UUID (RFC 4122, section 4.4) and an ISO 8601 date. */
  datatype Schema = Schema(isGuidV4: string -> bool, isIsoDate: string -> bool)

  const OrgIdKey := "orgid"
  const UpdatedSinceKey := "updatedSince"

  /**
   * `lastrunSchema.validate(lastrun)` finds no error: an object with exactly the
   * two keys, a version-4 UUID org id and an ISO date.
   */
  predicate Valid(v: Value, schema: Schema) {
    v.Obj?
    && (forall k :: k in v.fields ==> k == OrgIdKey || k == UpdatedSinceKey)
    && OrgIdKey in v.fields && v.fields[OrgIdKey].Str? && schema.isGuidV4(v.fields[OrgIdKey].s)
    && UpdatedSinceKey in v.fields && v.fields[UpdatedSinceKey].Str?
    && schema.isIsoDate(v.fields[UpdatedSinceKey].s)
  }

  /** The cursor file after consulting it, and the `updatedSince` filter of the run. */
  datatype Consulted = Consulted(file: CursorFile, updatedSince: Value)

  /** What reading a file that does not parse throws. */
  const UnparsableMessage := "Unexpected token in JSON"

  /**
   * Consulting the cursor (app.js:360-385), given the current filter and org.
   * A filter that is not null is kept and the file is not looked at. Otherwise
   * a missing file means no filter, a file that does not parse throws, an
   * invalid file or one from another org is deleted, and a valid file of this
   * org supplies the filter.
   */
  function Consult(file: CursorFile, updatedSince: Value, orgId: Value, schema: Schema): (r: Result<Consulted>)
    ensures !updatedSince.Null? ==> r == Ok(Consulted(file, updatedSince))
    ensures updatedSince.Null? ==> (r.Thrown? <==> file.Unparsable?)
    ensures updatedSince.Null? && file.NoFile? ==> r == Ok(Consulted(NoFile, Null))
    ensures updatedSince.Null? && file.Stored? ==>
              r.Ok? && (r.value.file == file <==> Valid(file.content, schema) && file.content.fields[OrgIdKey] == orgId)
    ensures updatedSince.Null? && file.Stored? && r.value.file == file ==>
              r.value.updatedSince == file.content.fields[UpdatedSinceKey]
    ensures updatedSince.Null? && file.Stored? && r.value.file != file ==> r.value == Consulted(NoFile, Null)
  {
    if !updatedSince.Null? then Ok(Consulted(file, updatedSince))
    else
      match file
      case NoFile => Ok(Consulted(NoFile, Null))
      case Unparsable => Thrown(UnparsableMessage)
      case Stored(lastrun) =>
        if Valid(lastrun, schema) && lastrun.fields[OrgIdKey] == orgId
        then Ok(Consulted(file, lastrun.fields[UpdatedSinceKey]))
        else Ok(Consulted(NoFile, Null))
  }

  /**
   * The object written after a clean run (app.js:405-409). `JSON.stringify`
   * drops an undefined org id.
   */
  function Record(orgId: Value, startTime: string): (v: Value)
    ensures v.Obj? && UpdatedSinceKey in v.fields && v.fields[UpdatedSinceKey] == Str(startTime)
    ensures OrgIdKey in v.fields <==> !orgId.Undefined?
    ensures OrgIdKey in v.fields ==> v.fields[OrgIdKey] == orgId
    ensures forall k :: k in v.fields ==> k == OrgIdKey || k == UpdatedSinceKey
  {
    var since := map[UpdatedSinceKey := Str(startTime)];
    if orgId.Undefined? then Obj(since) else Obj(since[OrgIdKey := orgId])
  }

  /**
   * The cursor a run writes is trusted by the next run of the same org: it
   * sets the filter to the start time of the run that wrote it.
   */
  lemma RoundTrip(org: string, startTime: string, schema: Schema)
    requires schema.isGuidV4(org) && schema.isIsoDate(startTime)
    ensures var file := Stored(Record(Str(org), startTime));
            Consult(file, Null, Str(org), schema) == Ok(Consulted(file, Str(startTime)))
  {
    var v := Record(Str(org), startTime);
    assert Valid(v, schema);
  }

  /** A valid cursor of another org is deleted and the run is not filtered. */
  lemma OtherOrgDeleted(file: CursorFile, orgId: Value, schema: Schema)
    requires file.Stored? && Valid(file.content, schema) && file.content.fields[OrgIdKey] != orgId
    ensures Consult(file, Null, orgId, schema) == Ok(Consulted(NoFile, Null))
  {
  }

  /**
   * A run without an org id leaves a cursor no run accepts: it fails the
   * schema, so the next run deletes it.
   */
  lemma NoOrgNotTrusted(startTime: string, orgId: Value, schema: Schema)
    ensures Consult(Stored(Record(Undefined, startTime)), Null, orgId, schema) == Ok(Consulted(NoFile, Null))
  {
    assert !Valid(Record(Undefined, startTime), schema);
  }

  /** Consulting a second time changes nothing: the filter is no longer null, or the file is gone. */
  lemma ConsultSettles(file: CursorFile, updatedSince: Value, orgId: Value, schema: Schema)
    requires Consult(file, updatedSince, orgId, schema).Ok?
    ensures var c := Consult(file, updatedSince, orgId, schema).value;
            Consult(c.file, c.updatedSince, orgId, schema) == Ok(c)
  {
  }
}
