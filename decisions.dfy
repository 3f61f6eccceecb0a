/** How the client turns one exchange's outcome into a value or an exception. */
module Decisions {
  import opened Outcomes
  import opened Payloads
  import Decimal

  /** What get returns: the raw body, or the decoded top-level object. */
  datatype Payload = Raw(body: string) | Object(fields: map<string, Json>)

  function StatusMessage(url: string, httpCode: int): string {
    "Error during getting information from url " + url + " (Response: " + Decimal.IntToString(httpCode) + ")"
  }

  function TransportMessage(url: string, error: string): string {
    "Error during getting information from url " + url + " (" + error + ")"
  }

  /**
   * get's checks, in their order: the status must be 200, then curl must report no error;
   * raw returns the body undecoded; otherwise the decoded value must be an object.
   */
  function GetOutcome(url: string, raw: bool, reply: Reply): (r: Result<Payload>)
    ensures r.Ok? <==> reply.httpCode == 200 && reply.errno == 0 && (raw || reply.json.JObject?)
    ensures r.Ok? && raw ==> r.value == Raw(reply.body)
    ensures r.Ok? && !raw ==> r.value == Object(reply.json.fields)
    ensures r.Err? ==> r.error.JenkinsApiException?
    ensures reply.httpCode != 200 ==> r == Err(JenkinsApiException(StatusMessage(url, reply.httpCode)))
  {
    if reply.httpCode != 200 then Err(JenkinsApiException(StatusMessage(url, reply.httpCode)))
    else if reply.errno != 0 then Err(JenkinsApiException(TransportMessage(url, reply.error)))
    else if raw then Ok(Raw(reply.body))
    else if reply.json.JObject? then Ok(Object(reply.json.fields))
    else Err(JenkinsApiException("Error during json_decode"))
  }

  /** The status is checked before the curl error: with a status other than 200, curl's error does not matter. */
  lemma GetStatusBeforeTransport(url: string, raw: bool, reply: Reply, errno: int, error: string)
    requires reply.httpCode != 200
    ensures GetOutcome(url, raw, reply) == GetOutcome(url, raw, reply.(errno := errno, error := error))
  {
  }

  /** A raw get never looks at the decoded value. */
  lemma GetRawIgnoresDecoding(url: string, reply: Reply, json: Json)
    ensures GetOutcome(url, true, reply) == GetOutcome(url, true, reply.(json := json))
  {
  }

  /** requestCrumb: curl must report no error and the decoded value must be an object; the status is not checked. */
  function CrumbOutcome(reply: Reply): (r: Result<map<string, Json>>)
    ensures r.Ok? <==> reply.errno == 0 && reply.json.JObject?
    ensures r.Ok? ==> r.value == reply.json.fields
    ensures reply.errno != 0 ==> r == Err(JenkinsApiException("Error getting csrf crumb"))
    ensures reply.errno == 0 && !reply.json.JObject? ==> r == Err(JenkinsApiException("Error during json_decode of csrf crumb"))
  {
    if reply.errno != 0 then Err(JenkinsApiException("Error getting csrf crumb"))
    else if !reply.json.JObject? then Err(JenkinsApiException("Error during json_decode of csrf crumb"))
    else Ok(reply.json.fields)
  }

  lemma CrumbIgnoresStatus(reply: Reply, httpCode: int)
    ensures CrumbOutcome(reply) == CrumbOutcome(reply.(httpCode := httpCode))
  {
  }

  /** What post returns: curl's error number when there is one, otherwise the body. */
  datatype PostReturn = ErrorNumber(errno: int) | Body(text: string)

  function AlreadyExistsMessage(jobname: string): string {
    "Job " + jobname + " already exists"
  }

  /**
   * postJob: any status other than 200 is reported as "already exists", before curl's error
   * is looked at; a 200 with a curl error is an API error.
   */
  function PostJobOutcome(jobname: string, reply: Reply): (r: Outcome)
    ensures r == Pass <==> reply.httpCode == 200 && reply.errno == 0
    ensures reply.httpCode != 200 ==> r == Fail(InvalidArgumentException(AlreadyExistsMessage(jobname)))
    ensures reply.httpCode == 200 && reply.errno != 0 ==>
              r == Fail(JenkinsApiException("Error creating job " + jobname + " (" + reply.error + ")"))
  {
    if reply.httpCode != 200 then Fail(InvalidArgumentException(AlreadyExistsMessage(jobname)))
    else if reply.errno != 0 then Fail(JenkinsApiException("Error creating job " + jobname + " (" + reply.error + ")"))
    else Pass
  }

  /** A connection that never got a response (code 0) is reported as "already exists" too. */
  lemma NoResponseReadsAsAlreadyExists(jobname: string, reply: Reply)
    requires reply.httpCode == 0 && reply.errno != 0
    ensures PostJobOutcome(jobname, reply) == Fail(InvalidArgumentException(AlreadyExistsMessage(jobname)))
  {
  }

  /**
   * isAvailable: false on a curl error of the probe; otherwise false when building the Queue throws
   * a JenkinsApiException, true when it succeeds; any other exception of the Queue propagates.
   */
  function Availability(probe: Reply, queue: Outcome): (r: Result<bool>)
    ensures r == Ok(true) <==> probe.errno == 0 && queue.Pass?
    ensures r == Ok(false) <==> probe.errno != 0 || (queue.Fail? && queue.error.JenkinsApiException?)
    ensures r.Err? <==> probe.errno == 0 && queue.Fail? && !queue.error.JenkinsApiException?
    ensures r.Err? ==> r.error == queue.error
  {
    if probe.errno != 0 then Ok(false)
    else if queue.Pass? then Ok(true)
    else if queue.error.JenkinsApiException? then Ok(false)
    else Err(queue.error)
  }

  /** The probe's HTTP status plays no part, and after a curl error the Queue is never built. */
  lemma AvailabilityIgnores(probe: Reply, queue: Outcome, httpCode: int, other: Outcome)
    ensures Availability(probe, queue) == Availability(probe.(httpCode := httpCode), queue)
    ensures probe.errno != 0 ==> Availability(probe, queue) == Availability(probe, other)
  {
  }

  const FormatObject: string := "asObject"
  const FormatXml: string := "asXml"

  function UnknownFormatMessage(format: string): string {
    "Output format \"" + format + "\" is unknown!"
  }

  function BuildingJobsTransportMessage(base: string, error: string): string {
    "Error during getting all currently building jobs on " + base + " (" + error + ")"
  }

  /**
   * The fetch part of getCurrentlyBuildingJobs: a curl error throws (the status is not checked);
   * a body that does not parse as XML makes the following xpath() call a PHP Error.
   */
  function BuildingJobsFetch(base: string, reply: Reply, xml: Option<seq<XmlJob>>): (r: Result<seq<XmlJob>>)
    ensures r.Ok? <==> reply.errno == 0 && xml.Some?
    ensures r.Ok? ==> r.value == xml.value
    ensures reply.errno != 0 ==> r == Err(JenkinsApiException(BuildingJobsTransportMessage(base, reply.error)))
    ensures reply.errno == 0 && xml.None? ==> r.Err? && r.error.PhpError?
  {
    if reply.errno != 0 then Err(JenkinsApiException(BuildingJobsTransportMessage(base, reply.error)))
    else if xml.None? then Err(PhpError("Call to a member function xpath() on bool"))
    else Ok(xml.value)
  }
}
