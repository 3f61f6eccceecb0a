# Jenkins client core, modelled in Dafny

This project models the deterministic core of `Jenkins`, the PHP client of the Jenkins
continuous-integration server's HTTP API (`src/JenkinsApi/Jenkins.php`):

- the session object and its anti-CSRF crumb state machine (`crumbsEnabled`, `crumb`,
  `crumbRequestField`), as the Dafny class `Client.Jenkins`;
- the URLs and header lists each request is given: base-URL normalisation, the GET URL with its
  `?depth=` and un-encoded `&key=value` pairs, the POST URL, the `createItem` and `config.xml` URLs
  with their optional `job/<project>` prefix and `rawurlencode`d names, and the crumb header;
- the decisions taken on each reply: the error precedence of `get` and `postJob`, `requestCrumb`'s
  checks, `isAvailable`, the output-format dispatch of `getCurrentlyBuildingJobs`, and the lists and
  maps built by `getJobs`, `getViews`, `getPrimaryView` and `getNodes`.

Network exchanges are inputs. A `Payloads.Reply` holds what curl reports for one exchange (HTTP code,
`curl_errno`, `curl_error`, body) together with the value `json_decode` gives for the body. The XML
node list of the building-jobs query is an input too, and so is the outcome of building the `Queue`.
Each method returns what the client sends and what it returns or throws (`Outcomes.Result`,
`Outcomes.Outcome`). A method that POSTs returns the whole request (URL, header list, body). A method
that only fetches returns the URL it fetches, since it sends no headers or body of its own.
`prepareShutdown` and `cancelPrepareShutdown` return nothing in PHP; their models return only the
request.

Modules: `Outcomes` (results and exceptions), `Decimal` (PHP's integer-to-string conversion and its
inverse), `Strings` (splitting at a separator), `UrlEncoding` (`rawurlencode`, `rawurldecode`),
`Urls`, `Headers`, `Payloads` (decoded values and replies), `Decisions` (reply handling), `Listings`
(job, view and node handles), `Client` (the class).

The model follows what the code does, including these behaviours:

- `enableCrumbs` sets the flag to true before fetching the crumb. When the fetch fails,
  `requestCrumb` throws, so the exception leaves `enableCrumbs` and the flag stays true. Lines
  338-342 look meant to turn crumbs back off silently, but that check can never fire, and the model
  does not turn them off. `Client.FailedEnableKeepsCrumbsOn` shows the consequence: the next `postJob` sends
  the header `": "` built from the never-fetched crumb fields.
- `get` checks the HTTP status before curl's error. A connection that got no response (code 0) is
  therefore reported with the "(Response: 0)" message. `postJob` reports every status other than 200,
  including no response at all and failed updates through `updateJob`, as "Job <name> already exists".
- `requestCrumb`, `post`, `isAvailable` and `getCurrentlyBuildingJobs` never look at the HTTP status.
- `isAvailable` catches only `JenkinsApiException`; any other exception from building the `Queue`
  propagates out of it.
- The crumb-issuer, probe, building-jobs URLs, and the `createItem`/`config.xml` URLs without a
  project, add a `/` after a base URL that already ends in `/`, so they contain `//`.
- A project named `"0"` is falsy in PHP, so `createJob` and `updateJob` drop it from the URL.
- The `_anime` filter of the building-jobs query is an XPath expression in the URL, evaluated by
  the server; the client turns whatever nodes come back into jobs.

## Model

| member | source | states |
|---|---|---|
| `Decimal.NatToDecimal` | src/JenkinsApi/Jenkins.php:173 | the decimal text of a number is non-empty, all digits, and starts with '0' only for 0 |
| `Decimal.IntToString` | src/JenkinsApi/Jenkins.php:173 | the depth as text: non-empty, digits only except a leading '-', which is there exactly when the depth is negative |
| `Decimal.IntToStringRoundTrip` | src/JenkinsApi/Jenkins.php:173 | the depth's decimal text (PHP's int-to-string) reads back as the same integer |
| `UrlEncoding.RawUrlEncode` | src/JenkinsApi/Jenkins.php:451-456 | rawurlencode's output uses only RFC 3986 unreserved characters and '%', and is never shorter than its input |
| `UrlEncoding.DecodeEncode` | src/JenkinsApi/Jenkins.php:451-456 | rawurldecode undoes rawurlencode on every byte string |
| `UrlEncoding.EncodeIdentity` | src/JenkinsApi/Jenkins.php:451-456 | encoding leaves a name unchanged exactly when all its bytes are unreserved |
| `Urls.NormaliseBaseUrl` | src/JenkinsApi/Jenkins.php:109 | the stored base URL ends with '/', extends the given one by at most one character, and equals it exactly when it already ended with '/' |
| `Urls.NormaliseIdempotent` | src/JenkinsApi/Jenkins.php:109 | normalising an already normalised base URL changes nothing |
| `Urls.QueryTail` | src/JenkinsApi/Jenkins.php:174-178 | the parameter text is empty exactly when there are no parameters, and otherwise starts with '&' |
| `Urls.QueryTailAppend` | src/JenkinsApi/Jenkins.php:175-177 | appending a parameter appends exactly its "&key=value" text, in iteration order |
| `Urls.QueryTailRoundTrip` | src/JenkinsApi/Jenkins.php:174-178 | when no key holds '&' or '=' and no value holds '&', splitting the query text gives back the parameters in order |
| `Urls.UnencodedValueSplits` | src/JenkinsApi/Jenkins.php:176 | values are not encoded: a value "1&b=2" yields the same URL as a second parameter b=2 |
| `Urls.GetUrl` | src/JenkinsApi/Jenkins.php:173-178 | the GET URL starts with base + path + "?depth="; with no extra parameters the rest is exactly the depth's text |
| `Urls.GetUrlRoundTrip` | src/JenkinsApi/Jenkins.php:173-178 | the GET URL is base, path, "?depth=", the depth, then the parameters; depth and parameters read back from it |
| `Urls.CreateItemUrl` | src/JenkinsApi/Jenkins.php:449-456 | the value after the last '=' of the createItem URL decodes to the job name |
| `Urls.ConfigXmlUrl` | src/JenkinsApi/Jenkins.php:461-468 | the update URL ends with "/config.xml" and the segment before it decodes to the job name |
| `Urls.ProjectGiven` | src/JenkinsApi/Jenkins.php:452 | PHP truthiness of the project argument: null, "" and "0" are false; `Urls.ProjectZeroIsDropped` shows the effect of "0" |
| `Urls.JobScope` | src/JenkinsApi/Jenkins.php:451-454 | the URL so far starts with the base URL; it is the base URL alone when the project is falsy; otherwise the text after base + "job/" decodes to the project |
| `Urls.ScopedUrl` | src/JenkinsApi/Jenkins.php:451-454 | after the job scope, "job/" follows the base URL exactly when the project is truthy, and the next segment decodes to the project |
| `Urls.CreateItemUrlScope` | src/JenkinsApi/Jenkins.php:449-456 | the createItem URL starts with base + "job/" exactly when the project is truthy, and its next segment then decodes to the project |
| `Urls.ConfigXmlUrlScope` | src/JenkinsApi/Jenkins.php:461-468 | the config.xml URL starts with base + "job/" exactly when the project is truthy, and its next segment then decodes to the project |
| `Urls.ProjectZeroIsDropped` | src/JenkinsApi/Jenkins.php:452 | a project "0" gives the same URLs as no project |
| `Urls.CrumbIssuerUrl` | src/JenkinsApi/Jenkins.php:302 | requestCrumb's URL starts with the base URL and holds "//" where a base URL ending in '/' ends |
| `Urls.ProbeUrl` | src/JenkinsApi/Jenkins.php:263 | isAvailable's URL starts with the base URL and holds "//" where a base URL ending in '/' ends |
| `Urls.BuildingJobsUrl` | src/JenkinsApi/Jenkins.php:357-361 | getCurrentlyBuildingJobs' URL starts with the base URL and holds "//" where a base URL ending in '/' ends |
| `Urls.DoubleSlashAfterBase` | src/JenkinsApi/Jenkins.php:302 | the crumb-issuer, probe (:263), building-jobs (:357-361) and project-less job URLs (:456, :468) hold "//" where the normalised base URL ends |
| `Headers.CrumbHeaderLine` | src/JenkinsApi/Jenkins.php:287 | the crumb header's name (text before the first ':') is the crumb request field and its value the crumb, when the field has no ':' |
| `Decisions.GetOutcome` | src/JenkinsApi/Jenkins.php:194-215 | get succeeds exactly on status 200, no curl error, and raw or an object decoded; raw gives the body, otherwise the object; a status other than 200 gives the status error; every failure is a JenkinsApiException |
| `Decisions.GetStatusBeforeTransport` | src/JenkinsApi/Jenkins.php:194-206 | with a status other than 200 the curl error does not change get's outcome |
| `Decisions.GetRawIgnoresDecoding` | src/JenkinsApi/Jenkins.php:207-209 | a raw get's outcome does not depend on the decoded value |
| `Decisions.CrumbOutcome` | src/JenkinsApi/Jenkins.php:312-324 | the crumb fetch succeeds exactly when curl reports no error and the decoded value is an object, giving its properties; each failure has its own message |
| `Decisions.CrumbIgnoresStatus` | src/JenkinsApi/Jenkins.php:312-322 | the crumb fetch's outcome does not depend on the HTTP status |
| `Decisions.PostJobOutcome` | src/JenkinsApi/Jenkins.php:629-634 | postJob passes exactly on status 200 without curl error; any other status is the "already exists" argument error, before the curl-error check |
| `Decisions.NoResponseReadsAsAlreadyExists` | src/JenkinsApi/Jenkins.php:629-631 | a connection that got no response is reported as "Job <name> already exists" |
| `Decisions.Availability` | src/JenkinsApi/Jenkins.php:270-282 | available is false exactly on a curl error or a JenkinsApiException from the Queue, true exactly when neither happens; other Queue exceptions propagate |
| `Decisions.AvailabilityIgnores` | src/JenkinsApi/Jenkins.php:263-282 | the probe's HTTP status never matters, and after a curl error the Queue outcome does not matter |
| `Decisions.BuildingJobsFetch` | src/JenkinsApi/Jenkins.php:371-382 | the building-jobs fetch gives the node list exactly when curl reports no error and the XML parses; a curl error is a JenkinsApiException naming the base URL |
| `Payloads.Text` | src/JenkinsApi/Jenkins.php:287 | a decoded scalar as PHP interpolates it: a string unchanged, an integer as decimal text that parses back to it, true as "1", false and null as "" |
| `Listings.NameSet` | src/JenkinsApi/Jenkins.php:144-147 | a name is in the set exactly when some listed entry carries it |
| `Listings.NameSetSize` | src/JenkinsApi/Jenkins.php:144-147 | the name set is never larger than the list, and as large exactly when no name repeats |
| `Listings.PrimaryView` | src/JenkinsApi/Jenkins.php:434-437 | there is no primary view exactly when the property is absent; otherwise it is the view named by it |
| `Listings.NullPrimaryViewIsAView` | src/JenkinsApi/Jenkins.php:435-436 | a primaryView property that is null still yields a view, with the empty name |
| `Client.Jenkins.constructor` | src/JenkinsApi/Jenkins.php:107-114 | the base URL is stored normalised; crumbs start disabled with empty crumb fields |
| `Client.Jenkins.SetBaseUrl` | src/JenkinsApi/Jenkins.php:561-564 | the base URL is stored as given, unnormalised; the crumb state is unchanged |
| `Client.Jenkins.AreCrumbsEnabled` | src/JenkinsApi/Jenkins.php:295-298 | the crumb flag; `Client.Jenkins.EnableCrumbs` sets it in every case and `Client.Jenkins.DisableCrumbs` clears it |
| `Client.Jenkins.CrumbHeader` | src/JenkinsApi/Jenkins.php:285-288 | the header's name is the stored crumb request field and its value the stored crumb, when the field has no ':' |
| `Client.Jenkins.RequestCrumb` | src/JenkinsApi/Jenkins.php:300-325 | the crumb is fetched from base + "/crumbIssuer/api/json" with the outcome of `CrumbOutcome` |
| `Client.Jenkins.EnableCrumbs` | src/JenkinsApi/Jenkins.php:332-346 | fetches the crumb-issuer URL; crumbs are enabled afterwards in every case; on success both fields come from the response; on failure the exception is passed on and the old crumb fields remain |
| `Client.Jenkins.DisableCrumbs` | src/JenkinsApi/Jenkins.php:529-532 | crumbs are disabled; crumb, field and base URL are unchanged |
| `Client.Jenkins.Get` | src/JenkinsApi/Jenkins.php:170-216 | the loop builds exactly the GET URL of `Urls.GetUrl`, and the result is get's decision on the reply |
| `Client.Jenkins.RootUrl` | src/JenkinsApi/Jenkins.php:142 | the URL getJobs (:142), getViews (:419) and getPrimaryView (:432) fetch is base + "api/json?depth=1" |
| `Client.Jenkins.Post` | src/JenkinsApi/Jenkins.php:226-256 | posts to base + path with the caller's header list unchanged and the crumb header last iff crumbs are enabled; returns curl's error number when non-zero, else the body |
| `Client.Jenkins.PrepareShutdown` | src/JenkinsApi/Jenkins.php:499-502 | an empty post to base + "quietDown", with the crumb header iff enabled |
| `Client.Jenkins.CancelPrepareShutdown` | src/JenkinsApi/Jenkins.php:508-511 | an empty post to base + "cancelQuietDown", with the crumb header iff enabled |
| `Client.Jenkins.PostJob` | src/JenkinsApi/Jenkins.php:607-635 | sends the XML with "Content-Type: text/xml" first and the crumb header second iff enabled; the outcome is `PostJobOutcome` |
| `Client.Jenkins.CreateJob` | src/JenkinsApi/Jenkins.php:449-459 | posts the configuration to the createItem URL of the job and optional project |
| `Client.Jenkins.UpdateJob` | src/JenkinsApi/Jenkins.php:461-471 | posts the configuration to the config.xml URL of the job and optional project |
| `Client.Jenkins.IsAvailable` | src/JenkinsApi/Jenkins.php:261-283 | probes base + "/api/json" and answers as `Availability` |
| `Client.Jenkins.GetCurrentlyBuildingJobs` | src/JenkinsApi/Jenkins.php:355-396 | fetch errors come first whatever the format; then FORMAT_OBJECT gives one Job per node in order, named by it, FORMAT_XML the nodes unchanged, any other format an argument error |
| `Client.Jenkins.GetJobs` | src/JenkinsApi/Jenkins.php:140-150 | fetches base + "api/json?depth=1"; get's error is passed on; otherwise the map's keys are exactly the listed job names and each maps to the Job of that name |
| `Client.Jenkins.GetViews` | src/JenkinsApi/Jenkins.php:417-425 | fetches base + "api/json?depth=1"; get's error is passed on; otherwise one View per listed entry, same length and order, named by it |
| `Client.Jenkins.GetPrimaryView` | src/JenkinsApi/Jenkins.php:430-440 | fetches base + "api/json?depth=1"; get's error is passed on; otherwise the primary view of the root object |
| `Client.Jenkins.GetNodes` | src/JenkinsApi/Jenkins.php:476-483 | fetches get's URL for "computer/api/json" at depth 1; get's error is passed on; otherwise one Node per computer entry, same length and order, named by its displayName |
| `Client.CrumbSession` | src/JenkinsApi/Jenkins.php:332-346 | no crumb header before enabling; the fetched crumb on every postJob while enabled; none after disableCrumbs; the newly fetched one after enabling again |
| `Client.FailedEnableKeepsCrumbsOn` | src/JenkinsApi/Jenkins.php:332-336 | a failed crumb fetch throws "Error getting csrf crumb" and the next postJob still sends a crumb header, ": " |

## Left out

- Curl itself (`initCurl`, `curl_setopt`, `curl_exec`, `curl_getinfo`): each exchange's outcome is a `Reply` input.
- Proxy, custom curl settings, the caller's curl options other than `CURLOPT_HTTPHEADER`, disabled TLS verification and basic-auth credentials: transport settings with no logic; the constructor's other parameters are not modelled.
- `json_decode`, `simplexml_load_string` and `xpath`: foreign parsers. The decoded value is part of the `Reply`; the XML node list is an input, absent when the body does not parse. JSON floating-point numbers are not modelled.
- `http_build_query` of an array given to `post`: the body is the string it would produce.
- Payloads.Text: JSON floats are not modelled, and a list or object where a scalar is expected reads as "" (PHP would give "Array" or throw). This covers names and the two crumb fields alike.
- A `foreach` over a decoded object (rather than a list) visits nothing in the model; PHP would visit its properties.
- Parameter values of `get` are strings; PHP's conversion of other values is not modelled.
- The output format of `getCurrentlyBuildingJobs` is a string; PHP's loose `switch` comparison of non-string formats is not modelled.
- `rawurlencode` works on bytes: names are byte strings (every character below 256).
- `Job`, `Build`, `LastBuild`, `Queue`, `View`, `Node` and `Executor` are not part of this model: handles are values carrying their name, and building the `Queue` is an input outcome. `getJob`, `getView`, `getBuild` and `getQueue` only construct such handles.
- Client.Jenkins.GetJobs: the result is an unordered Dafny map, so the order of PHP's array (each name where it first appears) is not modelled. Handles are values, so "a later entry with the same name overwrites an earlier one" shows as the key set and `Listings.NameSetSize`, not as which PHP object remains.
- `getLastBuildsFromCurrentlyBuildingJobs` and `getExecutors`: they call into `Job` and `Node`, which are not part of this model.
- The generator laziness of `getNodes`: each call is one fetch that yields a list.
- `verbose`, `urlExtension`, `getBaseUrl`: accessors without behaviour.
