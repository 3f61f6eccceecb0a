/** The URLs the client composes from its base URL (src/JenkinsApi/Jenkins.php). */
module Urls {
  import opened Outcomes
  import opened Strings
  import opened UrlEncoding
  import Decimal

  predicate EndsWithSlash(s: string) {
    |s| > 0 && s[|s| - 1] == '/'
  }

  /** The constructor's base URL: a '/' is appended only when the URL does not already end with one. */
  function NormaliseBaseUrl(s: string): (r: string)
    ensures EndsWithSlash(r)
    ensures s <= r && |r| <= |s| + 1
    ensures r == s <==> EndsWithSlash(s)
  {
    s + (if EndsWithSlash(s) then "" else "/")
  }

  lemma NormaliseIdempotent(s: string)
    ensures NormaliseBaseUrl(NormaliseBaseUrl(s)) == NormaliseBaseUrl(s)
  {
  }

  /** Extra query parameters of a GET, as key/value pairs in the PHP array's iteration order. */
  type Params = seq<(string, string)>

  function QueryPair(p: (string, string)): string {
    "&" + p.0 + "=" + p.1
  }

  /** The un-encoded "&key=value" pairs that follow the depth parameter. */
  function QueryTail(ps: Params): (r: string)
    ensures r == [] <==> ps == []
    ensures r == [] || r[0] == '&'
  {
    if ps == [] then "" else QueryPair(ps[0]) + QueryTail(ps[1..])
  }

  lemma {:induction false} QueryTailAppend(ps: Params, p: (string, string))
    ensures QueryTail(ps + [p]) == QueryTail(ps) + QueryPair(p)
  {
    if ps != [] {
      assert (ps + [p])[1..] == ps[1..] + [p];
      QueryTailAppend(ps[1..], p);
    } else {
      assert ps + [p] == [p];
    }
  }

  /** The URL of a GET: base, path, the depth and every extra parameter, none of them encoded. */
  function GetUrl(base: string, path: string, depth: int, ps: Params): (u: string)
    ensures base + path + "?depth=" <= u
    ensures ps == [] ==> u[|base| + |path| + 7..] == Decimal.IntToString(depth)
  {
    ThreeParts(base + path, "?depth=", Decimal.IntToString(depth) + QueryTail(ps));
    base + path + "?depth=" + Decimal.IntToString(depth) + QueryTail(ps)
  }

  /** Reads "&key=value" pairs back: a pair ends at the next '&', its key at the first '='. */
  function ParseQueryTail(t: string): Params
    decreases |t|
  {
    if t == [] || t[0] != '&' then []
    else
      var seg := Before(t[1..], '&');
      [(Before(seg, '='), After(seg, '='))] + ParseQueryTail(From(t[1..], '&'))
  }

  /** A parameter that the un-encoded query string carries intact. */
  predicate SafeParam(p: (string, string)) {
    '&' !in p.0 && '=' !in p.0 && '&' !in p.1
  }

  lemma {:induction false} QueryTailRoundTrip(ps: Params)
    requires forall i :: 0 <= i < |ps| ==> SafeParam(ps[i])
    ensures ParseQueryTail(QueryTail(ps)) == ps
  {
    if ps != [] {
      var k, v := ps[0].0, ps[0].1;
      var rest := QueryTail(ps[1..]);
      var pair := k + "=" + v;
      assert QueryTail(ps)[1..] == pair + rest;
      assert '&' !in pair;
      SplitAtBoundary(pair, rest, '&');
      SplitAtFirst(k, v, '=');
      QueryTailRoundTrip(ps[1..]);
    }
  }

  /** Values are not encoded, so a value holding '&' reads as two parameters. */
  lemma UnencodedValueSplits()
    ensures QueryTail([("a", "1&b=2")]) == QueryTail([("a", "1"), ("b", "2")])
    ensures ParseQueryTail(QueryTail([("a", "1&b=2")])) != [("a", "1&b=2")]
  {
    var one, two := [("a", "1&b=2")], [("a", "1"), ("b", "2")];
    assert QueryTail(one) == "&a=1&b=2";
    assert QueryTail(two[1..]) == "&b=2";
    assert QueryTail(two) == "&a=1" + "&b=2";
    assert QueryTail(one) == QueryTail(two);
    QueryTailRoundTrip(two);
    assert ParseQueryTail(QueryTail(one)) == two;
  }

  /** The text after "?depth=" gives back the depth (up to the first '&') and the parameters (from it on). */
  lemma DepthQueryRoundTrip(depth: int, ps: Params)
    requires forall i :: 0 <= i < |ps| ==> SafeParam(ps[i])
    ensures var q := Decimal.IntToString(depth) + QueryTail(ps);
            Decimal.ParseInt(Before(q, '&')) == Some(depth) && ParseQueryTail(From(q, '&')) == ps
  {
    SplitAtBoundary(Decimal.IntToString(depth), QueryTail(ps), '&');
    Decimal.IntToStringRoundTrip(depth);
    QueryTailRoundTrip(ps);
  }

  /** A GET URL starts with base and path, and its query gives back the depth and the parameters. */
  lemma GetUrlRoundTrip(base: string, path: string, depth: int, ps: Params)
    requires forall i :: 0 <= i < |ps| ==> SafeParam(ps[i])
    ensures var u := GetUrl(base, path, depth, ps);
            var q := u[|base| + |path| + 7..];
            && u[..|base| + |path|] == base + path
            && u[|base| + |path|..|base| + |path| + 7] == "?depth="
            && Decimal.ParseInt(Before(q, '&')) == Some(depth)
            && ParseQueryTail(From(q, '&')) == ps
  {
    var head := base + path;
    var q := Decimal.IntToString(depth) + QueryTail(ps);
    ThreeParts(head, "?depth=", q);
    assert GetUrl(base, path, depth, ps) == head + "?depth=" + q;
    DepthQueryRoundTrip(depth, ps);
  }

  /** requestCrumb's URL. */
  function CrumbIssuerUrl(base: string): (u: string)
    ensures base <= u && (EndsWithSlash(base) ==> DoubleSlashAt(u, |base| - 1))
  {
    base + "/crumbIssuer/api/json"
  }

  /** isAvailable's probe URL. */
  function ProbeUrl(base: string): (u: string)
    ensures base <= u && (EndsWithSlash(base) ==> DoubleSlashAt(u, |base| - 1))
  {
    base + "/api/json"
  }

  /** getCurrentlyBuildingJobs' URL; the XPath filter in it is evaluated by the server. */
  function BuildingJobsUrl(base: string): (u: string)
    ensures base <= u && (EndsWithSlash(base) ==> DoubleSlashAt(u, |base| - 1))
  {
    assert BuildingJobsPath[0] == '/';
    base + BuildingJobsPath
  }

  const BuildingJobsPath: string :=
    "/" + "api/xml?tree=jobs[name,url,color]&xpath=/hudson/job[ends-with(color/text(),%22_anime%22)]&wrapper=jobs"

  /** PHP truthiness of the optional project argument: null, "" and "0" are false. */
  predicate ProjectGiven(project: Option<string>) {
    project.Some? && project.value != "" && project.value != "0"
  }

  predicate EncodableNames(project: Option<string>, jobname: string) {
    IsByteString(jobname) && (project.Some? ==> IsByteString(project.value))
  }

  /** The base URL, followed by "job/<project>" when a project is given. */
  function JobScope(base: string, project: Option<string>): (r: string)
    requires project.Some? ==> IsByteString(project.value)
    ensures base <= r
    ensures ProjectGiven(project) ==> |r| >= |base| + 4 && RawUrlDecode(r[|base| + 4..]) == project.value
    ensures !ProjectGiven(project) ==> r == base
  {
    if ProjectGiven(project) then
      var p := RawUrlEncode(project.value);
      ThreeParts(base, "job/", p);
      DecodeEncode(project.value);
      base + "job/" + p
    else base
  }

  /** createJob's URL; the value after its last '=' decodes to the job name. */
  function CreateItemUrl(base: string, project: Option<string>, jobname: string): (u: string)
    requires EncodableNames(project, jobname)
    ensures RawUrlDecode(AfterLast(u, '=')) == jobname
  {
    var head := JobScope(base, project) + "/createItem?name";
    var enc := RawUrlEncode(jobname);
    EncodedHasNo(jobname, '=');
    SplitAtLast(head, enc, '=');
    DecodeEncode(jobname);
    assert head + ['='] + enc == JobScope(base, project) + "/createItem?name=" + enc;
    JobScope(base, project) + "/createItem?name=" + enc
  }

  /** updateJob's URL: it ends with "/config.xml", and the segment before that decodes to the job name. */
  function ConfigXmlUrl(base: string, project: Option<string>, jobname: string): (u: string)
    requires EncodableNames(project, jobname)
    ensures |u| >= 11 && u[|u| - 11..] == "/config.xml"
    ensures RawUrlDecode(AfterLast(u[..|u| - 11], '/')) == jobname
  {
    var job := JobScope(base, project) + "/job" + "/" + RawUrlEncode(jobname);
    EncodedHasNo(jobname, '/');
    SplitAtLast(JobScope(base, project) + "/job", RawUrlEncode(jobname), '/');
    DecodeEncode(jobname);
    assert (job + "/config.xml")[..|job|] == job;
    job + "/config.xml"
  }

  lemma EncodedHasNo(s: string, c: char)
    requires IsByteString(s)
    requires !IsUnreserved(c) && c != '%'
    ensures c !in RawUrlEncode(s)
  {
  }

  /** With a truthy project the URL starts with base + "job/", and the segment after it decodes to the project. */
  lemma ScopedUrlWithProject(base: string, project: string, tail: string)
    requires IsByteString(project) && ProjectGiven(Some(project))
    requires tail != [] && tail[0] == '/'
    ensures var u := JobScope(base, Some(project)) + tail;
            && base + "job/" <= u
            && RawUrlDecode(Before(u[|base| + 4..], '/')) == project
  {
    var p := RawUrlEncode(project);
    ThreeParts(base, "job/", p + tail);
    assert JobScope(base, Some(project)) + tail == base + "job/" + (p + tail);
    EncodedHasNo(project, '/');
    SplitAtBoundary(p, tail, '/');
    DecodeEncode(project);
  }

  /** Without a truthy project the base URL is followed directly by the tail's '/'. */
  lemma ScopedUrlWithoutProject(base: string, project: Option<string>, tail: string)
    requires project.Some? ==> IsByteString(project.value)
    requires !ProjectGiven(project)
    requires tail != [] && tail[0] == '/'
    ensures !(base + "job/" <= JobScope(base, project) + tail)
  {
    var u := JobScope(base, project) + tail;
    assert u == base + tail;
    assert u[|base|] == '/';
    assert (base + "job/")[|base|] == 'j';
  }

  /** A URL continued after the job scope: the "job/<project>" prefix is there exactly when the project is truthy, and names that project. */
  lemma ScopedUrl(base: string, project: Option<string>, tail: string)
    requires project.Some? ==> IsByteString(project.value)
    requires tail != [] && tail[0] == '/'
    ensures var u := JobScope(base, project) + tail;
            && (base + "job/" <= u <==> ProjectGiven(project))
            && (ProjectGiven(project) ==> RawUrlDecode(Before(u[|base| + 4..], '/')) == project.value)
  {
    if ProjectGiven(project) {
      ScopedUrlWithProject(base, project.value, tail);
    } else {
      ScopedUrlWithoutProject(base, project, tail);
    }
  }

  /** createJob and updateJob put the project prefix in the URL exactly when the project is truthy. */
  lemma CreateItemUrlScope(base: string, project: Option<string>, jobname: string)
    requires EncodableNames(project, jobname)
    ensures base + "job/" <= CreateItemUrl(base, project, jobname) <==> ProjectGiven(project)
    ensures ProjectGiven(project) ==>
              RawUrlDecode(Before(CreateItemUrl(base, project, jobname)[|base| + 4..], '/')) == project.value
  {
    var tail := "/createItem?name=" + RawUrlEncode(jobname);
    assert CreateItemUrl(base, project, jobname) == JobScope(base, project) + tail;
    ScopedUrl(base, project, tail);
  }

  lemma ConfigXmlUrlScope(base: string, project: Option<string>, jobname: string)
    requires EncodableNames(project, jobname)
    ensures base + "job/" <= ConfigXmlUrl(base, project, jobname) <==> ProjectGiven(project)
    ensures ProjectGiven(project) ==>
              RawUrlDecode(Before(ConfigXmlUrl(base, project, jobname)[|base| + 4..], '/')) == project.value
  {
    var tail := "/job/" + RawUrlEncode(jobname) + "/config.xml";
    assert ConfigXmlUrl(base, project, jobname) == JobScope(base, project) + tail;
    ScopedUrl(base, project, tail);
  }

  /** A project named "0" is falsy in PHP and is dropped from the URL. */
  lemma ProjectZeroIsDropped(base: string, jobname: string)
    requires IsByteString(jobname)
    ensures CreateItemUrl(base, Some("0"), jobname) == CreateItemUrl(base, None, jobname)
    ensures ConfigXmlUrl(base, Some("0"), jobname) == ConfigXmlUrl(base, None, jobname)
  {
  }

  predicate DoubleSlashAt(u: string, i: int) {
    0 <= i && i + 1 < |u| && u[i] == '/' && u[i + 1] == '/'
  }

  /** These URLs put a '/' after a base URL that already ends in '/'. */
  lemma DoubleSlashAfterBase(s: string, jobname: string)
    requires IsByteString(jobname)
    ensures var b := NormaliseBaseUrl(s);
            && DoubleSlashAt(CrumbIssuerUrl(b), |b| - 1)
            && DoubleSlashAt(ProbeUrl(b), |b| - 1)
            && DoubleSlashAt(BuildingJobsUrl(b), |b| - 1)
            && DoubleSlashAt(CreateItemUrl(b, None, jobname), |b| - 1)
            && DoubleSlashAt(ConfigXmlUrl(b, None, jobname), |b| - 1)
  {
    var b := NormaliseBaseUrl(s);
    assert BuildingJobsPath[0] == '/';
    assert BuildingJobsUrl(b)[|b|] == BuildingJobsPath[0];
  }
}
