/** The provider's REST endpoints, built from the path templates of main.go:18-21. */
module Endpoints {
  import opened Fmt

  /** `baseAPIURL` (main.go:18): the base that `main` runs with, the `baseUrl` of its configuration. */
  const BaseApiUrl := "https://api.cloudflare.com/client/v4"

  /** `zonesAPI`, `recordsAPI` and `recordsUpdateAPI`, parsed. */
  const ZonesApi: Template := Verb('s', Text("/zones", End))
  const RecordsApi: Template := Verb('s', Text("/zones/", Verb('s', Text("/dns_records", End))))
  const RecordsUpdateApi: Template :=
    Verb('s', Text("/zones/", Verb('s', Text("/dns_records/", Verb('s', End)))))

  /** The IP-echo service `getExternalIP` asks for the caller's address. */
  const CheckIpUrl := "http://checkip.amazonaws.com"

  /** The parsed templates are the format strings of the Go source. */
  lemma TemplatesMatchSource()
    ensures Source(ZonesApi) == "%s/zones"
    ensures Source(RecordsApi) == "%s/zones/%s/dns_records"
    ensures Source(RecordsUpdateApi) == "%s/zones/%s/dns_records/%s"
  {
    Assoc5(['%', 's'], "/zones/", ['%', 's'], "/dns_records", "");
    Assoc5(['%', 's'], "/zones/", ['%', 's'], "/dns_records/", ['%', 's']);
  }

  /** Each template is how its Go format string parses. */
  lemma TemplatesParsed()
    ensures Parsed(ZonesApi) && Parsed(RecordsApi) && Parsed(RecordsUpdateApi)
  {
    NoPercent("/zones");
    NoPercent("/zones/");
    NoPercent("/dns_records");
    NoPercent("/dns_records/");
  }

  /** The endpoint that lists every zone of the account. */
  function ZonesUrl(base: string): (url: string)
    ensures url == base + "/zones"
  {
    SprintfVerb('s', ZonesApi.rest, base, []);
    assert [base] + [] == [base];
    Sprintf(ZonesApi, [base])
  }

  /** The endpoint that lists the records of one zone: the zones endpoint, then the zone id. */
  function RecordsUrl(base: string, zoneId: string): (url: string)
    ensures url == base + "/zones/" + zoneId + "/dns_records"
    ensures url == ZonesUrl(base) + "/" + zoneId + "/dns_records"
  {
    SprintfVerb('s', RecordsApi.rest.rest.rest, zoneId, []);
    SprintfVerb('s', RecordsApi.rest, base, [zoneId]);
    assert [zoneId] + [] == [zoneId] && [base] + [zoneId] == [base, zoneId];
    Sprintf(RecordsApi, [base, zoneId])
  }

  /** The endpoint of one record: the zone's records endpoint, then the record id. */
  function RecordUpdateUrl(base: string, zoneId: string, recordId: string): (url: string)
    ensures url == base + "/zones/" + zoneId + "/dns_records/" + recordId
    ensures url == RecordsUrl(base, zoneId) + "/" + recordId
  {
    var t := RecordsUpdateApi;
    SprintfVerb('s', t.rest.rest.rest.rest.rest, recordId, []);
    SprintfVerb('s', t.rest.rest.rest, zoneId, [recordId]);
    SprintfVerb('s', t.rest, base, [zoneId, recordId]);
    assert [recordId] + [] == [recordId] && [zoneId] + [recordId] == [zoneId, recordId];
    assert [base] + [zoneId, recordId] == [base, zoneId, recordId];
    Sprintf(RecordsUpdateApi, [base, zoneId, recordId])
  }

  /** Two strings with a common prefix are equal when what follows it is. */
  lemma CancelPrefix(p: string, a: string, b: string)
    requires p + a == p + b
    ensures a == b
  {
    assert a == (p + a)[|p|..];
    assert b == (p + b)[|p|..];
  }

  /** In `x + d + s`, where `d` starts with a slash and `x` holds none, the first
      slash is the first character of `d`. */
  lemma FirstSlash(x: string, d: string, s: string)
    requires '/' !in x && |d| > 0 && d[0] == '/'
    ensures (x + d + s)[|x|] == '/'
    ensures forall i :: 0 <= i < |x| ==> (x + d + s)[i] != '/'
  {
    assert forall i :: 0 <= i < |x| ==> (x + d + s)[i] == x[i];
  }

  /** Splitting at the first slash recovers both halves. */
  lemma SplitAtSlash(x1: string, s1: string, x2: string, s2: string, d: string)
    requires '/' !in x1 && '/' !in x2 && |d| > 0 && d[0] == '/'
    requires x1 + d + s1 == x2 + d + s2
    ensures x1 == x2 && s1 == s2
  {
    var u := x1 + d + s1;
    FirstSlash(x1, d, s1);
    FirstSlash(x2, d, s2);
    assert |x1| == |x2|;
    assert x1 == u[..|x1|];
    assert s1 == u[|x1| + |d|..];
  }

  /** A record endpoint names one record: as long as zone ids hold no '/', different
      (zone id, record id) pairs give different endpoints. */
  lemma RecordUpdateUrlInjective(base: string, zoneId1: string, recordId1: string, zoneId2: string, recordId2: string)
    requires '/' !in zoneId1 && '/' !in zoneId2
    requires RecordUpdateUrl(base, zoneId1, recordId1) == RecordUpdateUrl(base, zoneId2, recordId2)
    ensures zoneId1 == zoneId2 && recordId1 == recordId2
  {
    var p, d := base + "/zones/", "/dns_records/";
    Regroup(p, zoneId1, d, recordId1);
    Regroup(p, zoneId2, d, recordId2);
    CancelPrefix(p, zoneId1 + d + recordId1, zoneId2 + d + recordId2);
    SplitAtSlash(zoneId1, recordId1, zoneId2, recordId2, d);
  }

  /** Concatenation regrouped so that a common prefix comes first. */
  lemma Regroup(p: string, x: string, d: string, s: string)
    ensures p + x + d + s == p + (x + d + s)
  {
  }
}
