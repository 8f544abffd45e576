/** Submitting a job and listing the jobs of the server. */
module Jobs {
  import opened Common
  import opened JobType
  import opened UploadType
  import opened Response
  import opened Errors
  import opened Requests
  import opened RemoteBuild

  /** The request a job submission sends: a JSON PUT to /job/create with
      bearer authorization, whose payload names the job. */
  function AddJobCall(config: RequestConfig, jobType: JobType, uploadType: UploadType,
                      args: map<string, string>, disableCcache: bool): (v: RequestView)
    ensures v.endpoint == EPJobAdd && v.httpMethod == PUT && v.requestType == JSONRequestType
    ensures v.authorization == Some(GetBearerAuth(config)) && v.headers.None? && v.closeBody
    ensures v.payload == NewJob(AddJobRequest(jobType, args, uploadType, disableCcache))
    ensures !PayloadPanics(v) && !MethodRejected(v)
  {
    StandardMethodsValid();
    Defaults(config, EPJobAdd, NewJob(AddJobRequest(jobType, args, uploadType, disableCcache)))
      .(authorization := Some(GetBearerAuth(config)), httpMethod := PUT)
  }

  /** LibRB.AddJob, with the three parameters it declares: the request
      never asks for ccache to be disabled. A failed call, or one the
      server answers with status Error, yields no response and the
      classified error; otherwise the decoded response. */
  method AddJob(lib: LibRB, jobType: JobType, uploadType: UploadType, args: map<string, string>,
                env: Env, unmarshal: Bytes -> Result<AddJobResponse, Error>)
    returns (res: Option<AddJobResponse>, err: Option<Error>)
    ensures var d := Do(AddJobCall(lib.config, jobType, uploadType, args, false), env, Some(unmarshal));
            && (err.Some? <==> CallFailed(d))
            && (err.Some? ==> res.None? && err == Some(Classify(d)))
            && (err.None? ==> res.Some? && res == d.filled)
  {
    res, err := AddJobWithCcache(lib, jobType, uploadType, args, false, env, unmarshal);
  }

  /** AddJob as its caller in the AUR builder uses it, with the ccache
      flag as a fourth parameter that reaches the payload. */
  method AddJobWithCcache(lib: LibRB, jobType: JobType, uploadType: UploadType, args: map<string, string>,
                          disableCcache: bool, env: Env, unmarshal: Bytes -> Result<AddJobResponse, Error>)
    returns (res: Option<AddJobResponse>, err: Option<Error>)
    ensures var d := Do(AddJobCall(lib.config, jobType, uploadType, args, disableCcache), env, Some(unmarshal));
            && (err.Some? <==> CallFailed(d))
            && (err.Some? ==> res.None? && err == Some(Classify(d)))
            && (err.None? ==> res.Some? && res == d.filled)
  {
    var payload := NewJob(AddJobRequest(jobType, args, uploadType, disableCcache));
    var req := new Requests.Request.New(lib.config, EPJobAdd, payload);
    var r1 := req.WithAuthFromConfig();
    var r2 := r1.WithMethod(PUT);
    var d := Do(r2.View(), env, Some(unmarshal));
    if CallFailed(d) {
      return None, Some(Classify(d));
    }
    return d.filled, None;
  }

  /** The request a job listing sends: a GET of /jobs with no payload and
      bearer authorization. */
  function ListJobsCall(config: RequestConfig): (v: RequestView)
    ensures v.endpoint == EPJobs && v.httpMethod == GET && v.payload == NilPayload
    ensures v.authorization == Some(GetBearerAuth(config)) && v.requestType == JSONRequestType
    ensures !PayloadPanics(v) && !MethodRejected(v)
  {
    StandardMethodsValid();
    Defaults(config, EPJobs, NilPayload).(authorization := Some(GetBearerAuth(config)), httpMethod := GET)
  }

  /** LibRB.ListJobs: the jobs in the order the server sent them. */
  method ListJobs(lib: LibRB, env: Env, unmarshal: Bytes -> Result<ListJobsResponse, Error>)
    returns (res: Option<ListJobsResponse>, err: Option<Error>)
    ensures var d := Do(ListJobsCall(lib.config), env, Some(unmarshal));
            && (err.Some? <==> CallFailed(d))
            && (err.Some? ==> res.None? && err == Some(Classify(d)))
            && (err.None? ==> res.Some? && res == d.filled)
  {
    var req := new Requests.Request.New(lib.config, EPJobs, NilPayload);
    var r1 := req.WithAuthFromConfig();
    var r2 := r1.WithMethod(GET);
    var d := Do(r2.View(), env, Some(unmarshal));
    if CallFailed(d) {
      return None, Some(Classify(d));
    }
    return d.filled, None;
  }

  /** A listing succeeds exactly when the transport, the status headers and
      the decoding all succeed and the server reports status Success. */
  lemma ListJobsSucceeds(config: RequestConfig, env: Env, unmarshal: Bytes -> Result<ListJobsResponse, Error>)
    ensures var d := Do(ListJobsCall(config), env, Some(unmarshal));
            var h := DoHTTPRequest(ListJobsCall(config), env);
            !CallFailed(d) <==>
              && h.Success?
              && StatusOf(h.value) == Success(ResponseSuccess)
              && h.value.body.ReadOk?
              && unmarshal(h.value.body.bytes).Success?
  {
  }
}
