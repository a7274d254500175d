/**
  The values the updater exchanges with the DNS provider (main.go:26-66) and the
  errors its steps can fail with. JSON field tags and `omitempty` are not part of
  this model: a record is the Go struct's twelve fields.
*/
module Cloudflare {
  import opened Fmt

  /** A provider-managed domain: Go's `zone` struct. */
  datatype Zone = Zone(id: string, name: string, status: string)

  /** One DNS record: Go's `record` struct, one destructor per field. `content`
      holds the address the record points to and is the one field this program changes. */
  datatype Record = Record(
    id: string,
    recordType: string,
    name: string,
    content: string,
    proxiable: bool,
    proxied: bool,
    ttl: int,
    locked: bool,
    zoneId: string,
    zoneName: string,
    createdOn: string,
    modifiedOn: string)

  /** The errors of the program. `Transport` and `Decode` carry the text of an
      error raised by the HTTP client or the JSON decoder, whose wording is not modelled. */
  datatype Error =
    | Transport(cause: string)
    | Decode(cause: string)
    | ZoneNotFound(zoneName: string)
    | RecordNotFound(recordName: string, zoneId: string)
    | UpdateRejected(ip: string, recordName: string)

  /** The format strings of the three errors the program builds itself, parsed. */
  const ZoneNotFoundFormat: Template :=
    Text("requested zone name, '", Verb('s', Text("', was not found", End)))
  const RecordNotFoundFormat: Template :=
    Text("requested dns record name '", Verb('s', Text("' was not found for the zone id '", Verb('s', Text("'", End)))))
  const UpdateRejectedFormat: Template :=
    Text("Unsuccessful updating DNS to '", Verb('v', Text("' for record '", Verb('v', Text("'", End)))))

  /** The three error formats are how their Go format strings parse. */
  lemma ErrorFormatsParsed()
    ensures Parsed(ZoneNotFoundFormat) && Parsed(RecordNotFoundFormat) && Parsed(UpdateRejectedFormat)
  {
    NoPercent("requested zone name, '");
    NoPercent("', was not found");
    NoPercent("requested dns record name '");
    NoPercent("' was not found for the zone id '");
    NoPercent("'");
    NoPercent("Unsuccessful updating DNS to '");
    NoPercent("' for record '");
  }

  /** The text of a zone-not-found error names the zone. */
  function ZoneNotFoundText(zoneName: string): (text: string)
    ensures text == "requested zone name, '" + zoneName + "', was not found"
  {
    SprintfVerb('s', ZoneNotFoundFormat.rest.rest, zoneName, []);
    assert [zoneName] + [] == [zoneName];
    Sprintf(ZoneNotFoundFormat, [zoneName])
  }

  /** The text of a record-not-found error names the record and the zone id. */
  function RecordNotFoundText(recordName: string, zoneId: string): (text: string)
    ensures text == "requested dns record name '" + recordName + "' was not found for the zone id '" + zoneId + "'"
  {
    var t := RecordNotFoundFormat;
    SprintfVerb('s', t.rest.rest.rest.rest, zoneId, []);
    SprintfVerb('s', t.rest.rest, recordName, [zoneId]);
    assert [zoneId] + [] == [zoneId] && [recordName] + [zoneId] == [recordName, zoneId];
    Assoc5("requested dns record name '", recordName, "' was not found for the zone id '", zoneId, "'");
    Sprintf(RecordNotFoundFormat, [recordName, zoneId])
  }

  /** The text of a rejected update names the address and the record. */
  function UpdateRejectedText(ip: string, recordName: string): (text: string)
    ensures text == "Unsuccessful updating DNS to '" + ip + "' for record '" + recordName + "'"
  {
    var t := UpdateRejectedFormat;
    SprintfVerb('v', t.rest.rest.rest.rest, recordName, []);
    SprintfVerb('v', t.rest.rest, ip, [recordName]);
    assert [recordName] + [] == [recordName] && [ip] + [recordName] == [ip, recordName];
    Assoc5("Unsuccessful updating DNS to '", ip, "' for record '", recordName, "'");
    Sprintf(UpdateRejectedFormat, [ip, recordName])
  }

  /** What `err.Error()` returns: each error the program builds names the keys it was given. */
  function ErrorText(e: Error): (text: string)
    ensures e.Transport? || e.Decode? ==> text == e.cause
    ensures e.ZoneNotFound? ==>
      text == "requested zone name, '" + e.zoneName + "', was not found"
    ensures e.RecordNotFound? ==>
      text == "requested dns record name '" + e.recordName + "' was not found for the zone id '" + e.zoneId + "'"
    ensures e.UpdateRejected? ==>
      text == "Unsuccessful updating DNS to '" + e.ip + "' for record '" + e.recordName + "'"
  {
    match e
    case Transport(cause) => cause
    case Decode(cause) => cause
    case ZoneNotFound(s) => ZoneNotFoundText(s)
    case RecordNotFound(s, zoneId) => RecordNotFoundText(s, zoneId)
    case UpdateRejected(ip, name) => UpdateRejectedText(ip, name)
  }
}
