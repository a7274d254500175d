/**
  `updateRecordIP` (main.go:173-197): decide whether the record must be rewritten,
  build the PUT that rewrites it, and turn the provider's `Success` flag into the
  outcome. The PUT itself is an output value; the provider's reply is an input.
*/
module Update {
  import opened Wrappers
  import opened Fmt
  import opened Cloudflare
  import opened Endpoints

  const NoChangeMessage := "IP has not changed, no need to update DNS"

  /** "DNS IP Successfully Updated to '%v' for record '%v'", parsed. */
  const UpdatedFormat: Template :=
    Text("DNS IP Successfully Updated to '", Verb('v', Text("' for record '", Verb('v', Text("'", End)))))

  /** The success format is how its Go format string parses. */
  lemma UpdatedFormatParsed()
    ensures Parsed(UpdatedFormat)
  {
    NoPercent("DNS IP Successfully Updated to '");
    NoPercent("' for record '");
    NoPercent("'");
  }

  /** The success message names the new address and the record. */
  function UpdatedMessage(ip: string, recordName: string): (msg: string)
    ensures msg == "DNS IP Successfully Updated to '" + ip + "' for record '" + recordName + "'"
  {
    var t := UpdatedFormat;
    SprintfVerb('v', t.rest.rest.rest.rest, recordName, []);
    SprintfVerb('v', t.rest.rest, ip, [recordName]);
    assert [recordName] + [] == [recordName] && [ip] + [recordName] == [ip, recordName];
    Assoc5("DNS IP Successfully Updated to '", ip, "' for record '", recordName, "'");
    Sprintf(UpdatedFormat, [ip, recordName])
  }

  /** What `updateRecordIP` does before it waits for the provider: nothing, or one PUT. */
  datatype Action = NoChange(message: string) | Put(url: string, payload: Record)

  /** `a` and `b` agree on every field except `content`. */
  predicate SameExceptContent(a: Record, b: Record)
  {
    && a.id == b.id && a.recordType == b.recordType && a.name == b.name
    && a.proxiable == b.proxiable && a.proxied == b.proxied && a.ttl == b.ttl && a.locked == b.locked
    && a.zoneId == b.zoneId && a.zoneName == b.zoneName
    && a.createdOn == b.createdOn && a.modifiedOn == b.modifiedOn
  }

  /** The decision: no request exactly when the address is already the record's
      content; otherwise a PUT of the record with only its content replaced, sent
      to the endpoint named by the record's own zone id and id. */
  function Decide(base: string, pointTo: string, rec: Record): (a: Action)
    ensures a.NoChange? <==> pointTo == rec.content
    ensures a.NoChange? ==> a.message == NoChangeMessage
    ensures a.Put? ==> a.payload.content == pointTo && SameExceptContent(a.payload, rec)
    ensures a.Put? ==> a.url == base + "/zones/" + rec.zoneId + "/dns_records/" + rec.id
    ensures a.Put? ==> a.url == RecordUpdateUrl(base, a.payload.zoneId, a.payload.id)
  {
    if pointTo == rec.content then NoChange(NoChangeMessage)
    else Put(RecordUpdateUrl(base, rec.zoneId, rec.id), rec.(content := pointTo))
  }

  /** The outcome of a PUT, given what the provider replied: a transport or decode
      error is passed on; otherwise success exactly when the provider says so, and
      both the message and the error name the address and the record. */
  function Conclude(pointTo: string, rec: Record, reply: Result<bool, Error>): (r: Result<string, Error>)
    ensures r.Success? <==> reply == Success(true)
    ensures reply.Failure? ==> r == Failure(reply.error)
    ensures r.Success? ==> r.value == UpdatedMessage(pointTo, rec.name)
    ensures reply == Success(false) ==> r == Failure(UpdateRejected(pointTo, rec.name))
  {
    match reply
    case Failure(e) => Failure(e)
    case Success(ok) =>
      if ok then Success(UpdatedMessage(pointTo, rec.name))
      else Failure(UpdateRejected(pointTo, rec.name))
  }

  /** `updateRecordIP(pointTo, rec)`. `reply` is what the provider answers to the PUT,
      when one is sent; the action says which request, if any, was sent. */
  method UpdateRecordIP(base: string, pointTo: string, rec: Record, reply: Result<bool, Error>)
    returns (r: Result<string, Error>, action: Action)
    ensures action == Decide(base, pointTo, rec)
    ensures action.NoChange? ==> r == Success(NoChangeMessage)
    ensures action.Put? ==> r == Conclude(pointTo, rec, reply)
  {
    if pointTo == rec.content {
      return Success(NoChangeMessage), NoChange(NoChangeMessage);
    }
    var updated := rec;
    updated := updated.(content := pointTo);
    var url := RecordUpdateUrl(base, updated.zoneId, updated.id);
    action := Put(url, updated);
    match reply {
      case Failure(e) =>
        r := Failure(e);
      case Success(ok) =>
        if ok {
          r := Success(UpdatedMessage(pointTo, updated.name));
        } else {
          r := Failure(UpdateRejected(pointTo, updated.name));
        }
    }
  }

  /** Updating is idempotent: once the provider holds the record that was sent, the
      same address decides on no change. */
  lemma DecideIdempotent(base: string, pointTo: string, rec: Record)
    ensures Decide(base, pointTo, rec).Put? ==>
      Decide(base, pointTo, Decide(base, pointTo, rec).payload) == NoChange(NoChangeMessage)
  {
  }
}
