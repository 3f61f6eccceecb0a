/** The Jenkins client object: its session state, and every request it composes. */
module Client {
  import opened Outcomes
  import opened Payloads
  import opened Decisions
  import opened Listings
  import Urls
  import Headers
  import Decimal

  /** A request as the client hands it to curl. */
  datatype Request = Request(url: string, headers: seq<string>, body: string)

  /** getCurrentlyBuildingJobs' result: Job handles, or the XML nodes themselves. */
  datatype BuildingJobs = Jobs(jobs: seq<Job>) | Nodes(nodes: seq<XmlJob>)

  class Jenkins {
    var baseUrl: string
    var crumbsEnabled: bool
    /** The crumb and its header name; PHP leaves them null until a crumb is fetched, which reads as "". */
    var crumb: string
    var crumbRequestField: string

    /** The base URL is stored with a trailing '/'; crumbs start disabled. */
    constructor (baseUrl: string)
      ensures this.baseUrl == Urls.NormaliseBaseUrl(baseUrl)
      ensures !crumbsEnabled && crumb == "" && crumbRequestField == ""
    {
      this.baseUrl := Urls.NormaliseBaseUrl(baseUrl);
      crumbsEnabled := false;
      crumb := "";
      crumbRequestField := "";
    }

    /** Stores the base URL as given, without normalising it. */
    method SetBaseUrl(baseUrl: string)
      modifies this
      ensures this.baseUrl == baseUrl
      ensures crumbsEnabled == old(crumbsEnabled) && crumb == old(crumb) && crumbRequestField == old(crumbRequestField)
    {
      this.baseUrl := baseUrl;
    }

    predicate AreCrumbsEnabled()
      reads this
    {
      crumbsEnabled
    }

    /** getCrumbHeader: a server reading it gets back the field name and the crumb. */
    function CrumbHeader(): (h: string)
      reads this
      ensures ':' !in crumbRequestField ==> Headers.HeaderName(h) == crumbRequestField && Headers.HeaderValue(h) == crumb
    {
      Headers.CrumbHeaderLine(crumbRequestField, crumb)
    }

    /** The headers a mutating request sends: the given ones unchanged, then the crumb header iff crumbs are enabled. */
    predicate CarriesHeaders(headers: seq<string>, given: seq<string>)
      reads this
    {
      && |headers| == |given| + (if crumbsEnabled then 1 else 0)
      && headers[..|given|] == given
      && (crumbsEnabled ==> headers[|given|] == CrumbHeader())
    }

    /** Fetches a crumb; nothing of the session changes. */
    method RequestCrumb(reply: Reply) returns (url: string, r: Result<map<string, Json>>)
      ensures url == Urls.CrumbIssuerUrl(baseUrl)
      ensures r == CrumbOutcome(reply)
    {
      url := baseUrl + "/crumbIssuer/api/json";
      r := CrumbOutcome(reply);
    }

    /**
     * Turns crumbs on before fetching one. A failed fetch throws out of this method and leaves
     * the flag on and the old crumb in place; a successful one stores both fields of the response.
     */
    method EnableCrumbs(reply: Reply) returns (url: string, r: Outcome)
      modifies this
      ensures url == Urls.CrumbIssuerUrl(old(baseUrl))
      ensures crumbsEnabled && baseUrl == old(baseUrl)
      ensures r.Pass? <==> CrumbOutcome(reply).Ok?
      ensures r.Pass? ==> && crumb == Text(Prop(CrumbOutcome(reply).value, "crumb"))
                          && crumbRequestField == Text(Prop(CrumbOutcome(reply).value, "crumbRequestField"))
      ensures r.Fail? ==> && r.error == CrumbOutcome(reply).error
                          && crumb == old(crumb) && crumbRequestField == old(crumbRequestField)
    {
      crumbsEnabled := true;
      var res;
      url, res := RequestCrumb(reply);
      if res.Err? {
        return url, Fail(res.error);
      }
      // The source's check that the result is a non-empty object cannot fail here: it is an object.
      crumb := Text(Prop(res.value, "crumb"));
      crumbRequestField := Text(Prop(res.value, "crumbRequestField"));
      r := Pass;
    }

    /** Turns crumbs off and keeps the cached crumb. */
    method DisableCrumbs()
      modifies this
      ensures !crumbsEnabled
      ensures baseUrl == old(baseUrl) && crumb == old(crumb) && crumbRequestField == old(crumbRequestField)
    {
      crumbsEnabled := false;
    }

    /** get: composes the URL parameter by parameter, then decides on the reply. */
    method Get(path: string, depth: int, params: Urls.Params, raw: bool, reply: Reply)
      returns (url: string, r: Result<Payload>)
      ensures url == Urls.GetUrl(baseUrl, path, depth, params)
      ensures r == GetOutcome(url, raw, reply)
    {
      var head := baseUrl + path + "?depth=" + Decimal.IntToString(depth);
      url := head;
      var i := 0;
      while i < |params|
        invariant 0 <= i <= |params|
        invariant url == head + Urls.QueryTail(params[..i])
      {
        Urls.QueryTailAppend(params[..i], params[i]);
        assert params[..i + 1] == params[..i] + [params[i]];
        url := url + "&" + params[i].0 + "=" + params[i].1;
        i := i + 1;
      }
      assert params[..|params|] == params;
      r := GetOutcome(url, raw, reply);
    }

    /** The URL getJobs, getViews and getPrimaryView fetch: get's URL for "api/json" at depth 1. */
    function RootUrl(): (u: string)
      reads this
      ensures u == baseUrl + "api/json?depth=1"
    {
      assert Decimal.IntToString(1) == "1";
      Urls.GetUrl(baseUrl, "api/json", 1, [])
    }

    /**
     * post: the body is sent as given, the headers are the caller's CURLOPT_HTTPHEADER list followed by
     * the crumb header iff crumbs are enabled; it returns curl's error number if any, else the body.
     */
    method Post(path: string, body: string, callerHeaders: Option<seq<string>>, reply: Reply)
      returns (req: Request, r: PostReturn)
      ensures req.url == baseUrl + path && req.body == body
      ensures CarriesHeaders(req.headers, if callerHeaders.Some? then callerHeaders.value else [])
      ensures r.ErrorNumber? <==> reply.errno != 0
      ensures r.ErrorNumber? ==> r.errno == reply.errno
      ensures r.Body? ==> r.text == reply.body
    {
      var headers := if callerHeaders.Some? then callerHeaders.value else [];
      if AreCrumbsEnabled() {
        headers := headers + [CrumbHeader()];
      }
      req := Request(baseUrl + path, headers, body);
      r := if reply.errno != 0 then ErrorNumber(reply.errno) else Body(reply.body);
    }

    /** prepareShutdown: an empty POST to quietDown. */
    method PrepareShutdown(reply: Reply) returns (req: Request)
      ensures req.url == baseUrl + "quietDown" && req.body == ""
      ensures CarriesHeaders(req.headers, [])
    {
      var r;
      req, r := Post("quietDown", "", None, reply);
    }

    /** cancelPrepareShutdown: an empty POST to cancelQuietDown. */
    method CancelPrepareShutdown(reply: Reply) returns (req: Request)
      ensures req.url == baseUrl + "cancelQuietDown" && req.body == ""
      ensures CarriesHeaders(req.headers, [])
    {
      var r;
      req, r := Post("cancelQuietDown", "", None, reply);
    }

    /** postJob: an XML body, "Content-Type: text/xml" first and the crumb header second iff enabled. */
    method PostJob(jobname: string, xmlConfiguration: string, url: string, reply: Reply)
      returns (req: Request, r: Outcome)
      ensures req.url == url && req.body == xmlConfiguration
      ensures CarriesHeaders(req.headers, [Headers.ContentTypeXml])
      ensures r == PostJobOutcome(jobname, reply)
    {
      var headers := [Headers.ContentTypeXml];
      if AreCrumbsEnabled() {
        headers := headers + [CrumbHeader()];
      }
      req := Request(url, headers, xmlConfiguration);
      r := PostJobOutcome(jobname, reply);
    }

    method CreateJob(jobname: string, xmlConfiguration: string, project: Option<string>, reply: Reply)
      returns (req: Request, r: Outcome)
      requires Urls.EncodableNames(project, jobname)
      ensures req.url == Urls.CreateItemUrl(baseUrl, project, jobname) && req.body == xmlConfiguration
      ensures CarriesHeaders(req.headers, [Headers.ContentTypeXml])
      ensures r == PostJobOutcome(jobname, reply)
    {
      req, r := PostJob(jobname, xmlConfiguration, Urls.CreateItemUrl(baseUrl, project, jobname), reply);
    }

    method UpdateJob(jobname: string, xmlConfiguration: string, project: Option<string>, reply: Reply)
      returns (req: Request, r: Outcome)
      requires Urls.EncodableNames(project, jobname)
      ensures req.url == Urls.ConfigXmlUrl(baseUrl, project, jobname) && req.body == xmlConfiguration
      ensures CarriesHeaders(req.headers, [Headers.ContentTypeXml])
      ensures r == PostJobOutcome(jobname, reply)
    {
      req, r := PostJob(jobname, xmlConfiguration, Urls.ConfigXmlUrl(baseUrl, project, jobname), reply);
    }

    /** isAvailable: probes the root URL, then tries to build the Queue (whose outcome is given). */
    method IsAvailable(probe: Reply, queue: Outcome) returns (url: string, r: Result<bool>)
      ensures url == Urls.ProbeUrl(baseUrl)
      ensures r == Availability(probe, queue)
    {
      url := baseUrl + "/api/json";
      if probe.errno != 0 {
        return url, Ok(false);
      }
      match queue
      case Pass => r := Ok(true);
      case Fail(e) => r := if e.JenkinsApiException? then Ok(false) else Err(e);
    }

    /**
     * getCurrentlyBuildingJobs: fetch and parse first, then dispatch on the format: one Job per node,
     * in order, for FORMAT_OBJECT; the nodes themselves for FORMAT_XML; anything else is an argument error.
     */
    method GetCurrentlyBuildingJobs(format: string, reply: Reply, xml: Option<seq<XmlJob>>)
      returns (url: string, r: Result<BuildingJobs>)
      ensures url == Urls.BuildingJobsUrl(baseUrl)
      ensures var f := BuildingJobsFetch(baseUrl, reply, xml);
              && (f.Err? ==> r == Err(f.error))
              && (f.Ok? && format == FormatXml ==> r == Ok(Nodes(f.value)))
              && (f.Ok? && format == FormatObject ==>
                    && r.Ok? && r.value.Jobs? && |r.value.jobs| == |f.value|
                    && forall i :: 0 <= i < |f.value| ==> r.value.jobs[i] == Job(f.value[i].name))
              && (f.Ok? && format != FormatObject && format != FormatXml ==>
                    r == Err(InvalidArgumentException(UnknownFormatMessage(format))))
    {
      url := baseUrl + Urls.BuildingJobsPath;
      var f := BuildingJobsFetch(baseUrl, reply, xml);
      if f.Err? {
        return url, Err(f.error);
      }
      var nodes := f.value;
      if format == FormatObject {
        var jobs: seq<Job> := [];
        var i := 0;
        while i < |nodes|
          invariant 0 <= i <= |nodes|
          invariant |jobs| == i
          invariant forall k :: 0 <= k < i ==> jobs[k] == Job(nodes[k].name)
        {
          jobs := jobs + [Job(nodes[i].name)];
          i := i + 1;
        }
        r := Ok(Jobs(jobs));
      } else if format == FormatXml {
        r := Ok(Nodes(nodes));
      } else {
        r := Err(InvalidArgumentException(UnknownFormatMessage(format)));
      }
    }

    /** getJobs: one Job per listed name, keyed by that name; a repeated name overwrites. */
    method GetJobs(reply: Reply) returns (url: string, r: Result<map<string, Job>>)
      ensures url == RootUrl()
      ensures var g := GetOutcome(url, false, reply);
              && (g.Err? ==> r == Err(g.error))
              && (g.Ok? ==> && r.Ok?
                            && r.value.Keys == NameSet(Items(Prop(g.value.fields, "jobs")), "name")
                            && forall k :: k in r.value ==> r.value[k] == Job(k))
    {
      var g;
      url, g := Get("api/json", 1, [], false, reply);
      if g.Err? {
        return url, Err(g.error);
      }
      var es := Items(Prop(g.value.fields, "jobs"));
      var jobs: map<string, Job> := map[];
      var i := 0;
      while i < |es|
        invariant 0 <= i <= |es|
        invariant jobs.Keys == NameSet(es[..i], "name")
        invariant forall k :: k in jobs ==> jobs[k] == Job(k)
      {
        var name := NameOf(es[i], "name");
        NameSetExtend(es, i, "name");
        jobs := jobs[name := Job(name)];
        i := i + 1;
      }
      assert es[..|es|] == es;
      r := Ok(jobs);
    }

    /** getViews: one View per listed entry, in order. */
    method GetViews(reply: Reply) returns (url: string, r: Result<seq<View>>)
      ensures url == RootUrl()
      ensures var g := GetOutcome(url, false, reply);
              && (g.Err? ==> r == Err(g.error))
              && (g.Ok? ==> && r.Ok?
                            && var es := Items(Prop(g.value.fields, "views"));
                            && |r.value| == |es|
                            && forall i :: 0 <= i < |es| ==> r.value[i] == View(NameOf(es[i], "name")))
    {
      var g;
      url, g := Get("api/json", 1, [], false, reply);
      if g.Err? {
        return url, Err(g.error);
      }
      var es := Items(Prop(g.value.fields, "views"));
      var views: seq<View> := [];
      var i := 0;
      while i < |es|
        invariant 0 <= i <= |es|
        invariant |views| == i
        invariant forall k :: 0 <= k < i ==> views[k] == View(NameOf(es[k], "name"))
      {
        views := views + [View(NameOf(es[i], "name"))];
        i := i + 1;
      }
      r := Ok(views);
    }

    /** getPrimaryView: the view named by primaryView, or none when the property is absent. */
    method GetPrimaryView(reply: Reply) returns (url: string, r: Result<Option<View>>)
      ensures url == RootUrl()
      ensures var g := GetOutcome(url, false, reply);
              && (g.Err? ==> r == Err(g.error))
              && (g.Ok? ==> r == Ok(PrimaryView(g.value.fields)))
    {
      var g;
      url, g := Get("api/json", 1, [], false, reply);
      if g.Err? {
        return url, Err(g.error);
      }
      r := Ok(PrimaryView(g.value.fields));
    }

    /** getNodes: one Node per entry of the computer list, named by its displayName, in order. */
    method GetNodes(reply: Reply) returns (url: string, r: Result<seq<Node>>)
      ensures url == Urls.GetUrl(baseUrl, "computer/api/json", 1, [])
      ensures var g := GetOutcome(url, false, reply);
              && (g.Err? ==> r == Err(g.error))
              && (g.Ok? ==> && r.Ok?
                            && var es := Items(Prop(g.value.fields, "computer"));
                            && |r.value| == |es|
                            && forall i :: 0 <= i < |es| ==> r.value[i] == Node(NameOf(es[i], "displayName")))
    {
      var g;
      url, g := Get("computer/api/json", 1, [], false, reply);
      if g.Err? {
        return url, Err(g.error);
      }
      var es := Items(Prop(g.value.fields, "computer"));
      var nodes: seq<Node> := [];
      var i := 0;
      while i < |es|
        invariant 0 <= i <= |es|
        invariant |nodes| == i
        invariant forall k :: 0 <= k < i ==> nodes[k] == Node(NameOf(es[k], "displayName"))
      {
        nodes := nodes + [Node(NameOf(es[i], "displayName"))];
        i := i + 1;
      }
      r := Ok(nodes);
    }
  }

  /**
   * A session: no crumb header before crumbs are enabled; after a successful enable every postJob
   * carries the fetched crumb; after disabling it is gone; enabling again sends the newly fetched one.
   */
  method CrumbSession(base: string, first: Reply, second: Reply, postReply: Reply)
    returns (before: seq<string>, during: seq<string>, after: seq<string>, again: seq<string>)
    requires first.errno == 0 && first.json.JObject?
    requires second.errno == 0 && second.json.JObject?
    ensures before == [Headers.ContentTypeXml]
    ensures during == [Headers.ContentTypeXml, CrumbHeaderFrom(first.json.fields)]
    ensures after == [Headers.ContentTypeXml]
    ensures again == [Headers.ContentTypeXml, CrumbHeaderFrom(second.json.fields)]
  {
    var client := new Jenkins(base);
    var req, outcome := client.PostJob("job", "<project/>", base, postReply);
    before := req.headers;
    var url, enabled := client.EnableCrumbs(first);
    req, outcome := client.PostJob("job", "<project/>", base, postReply);
    during := req.headers;
    assert during == [during[0], during[1]];
    client.DisableCrumbs();
    req, outcome := client.PostJob("job", "<project/>", base, postReply);
    after := req.headers;
    url, enabled := client.EnableCrumbs(second);
    req, outcome := client.PostJob("job", "<project/>", base, postReply);
    again := req.headers;
    assert again == [again[0], again[1]];
  }

  /** The crumb header built from a crumb issuer's response object. */
  function CrumbHeaderFrom(fields: map<string, Json>): string {
    Headers.CrumbHeaderLine(Text(Prop(fields, "crumbRequestField")), Text(Prop(fields, "crumb")))
  }

  /**
   * A failed crumb fetch on a fresh client throws, yet leaves crumbs enabled: the next postJob
   * sends a crumb header built from the never-fetched (empty) crumb fields.
   */
  method FailedEnableKeepsCrumbsOn(base: string, crumbReply: Reply, postReply: Reply)
    returns (r: Outcome, headers: seq<string>)
    requires crumbReply.errno != 0
    ensures r == Fail(JenkinsApiException("Error getting csrf crumb"))
    ensures headers == [Headers.ContentTypeXml, ": "]
  {
    var client := new Jenkins(base);
    var url;
    url, r := client.EnableCrumbs(crumbReply);
    var req, _ := client.PostJob("job", "<project/>", base, postReply);
    headers := req.headers;
    assert headers == [headers[0], headers[1]];
    assert Headers.CrumbHeaderLine("", "") == ": ";
  }
}
