/** What a call gets back: the application status carried in two custom
    headers, the decoded response records and the job listing order. */
module Response {
  import opened Common
  import opened JobType
  import opened UploadType
  import opened JobStatus

  /** Go's `type ResponseStatus uint8`. */
  newtype ResponseStatus = x: int | 0 <= x < 256

  const ResponseError: ResponseStatus := 0
  const ResponseSuccess: ResponseStatus := 1

  const HeaderStatus: string := "X-Response-Status"
  const HeaderStatusMessage: string := "X-Response-Message"
  const HeaderContentType: string := "Content-Type"

  /** http.Header, reduced to the first value of each name. */
  type Header = map<string, string>

  /** Header.Get: the value stored under name, or "" when there is none. */
  function HeaderGet(h: Header, name: string): (v: string)
    ensures name !in h ==> v == ""
    ensures name in h ==> v == h[name]
  {
    if name in h then h[name] else ""
  }

  /** What ioutil.ReadAll makes of a response body. */
  datatype BodyRead = ReadOk(bytes: Bytes) | ReadFailed(message: string)

  /** The raw *http.Response: status code, headers and what reading the
      body would give. */
  datatype HttpResponse = HttpResponse(statusCode: int, header: Header, body: BodyRead)

  /** RestRequestResponse. */
  datatype RestRequestResponse = RestRequestResponse(
    httpCode: int,
    status: ResponseStatus,
    message: string,
    headers: Header,
    response: Option<HttpResponse>)

  datatype LoginResponse = LoginResponse(token: string)
  datatype StringResponse = StringResponse(content: string)
  datatype AddJobResponse = AddJobResponse(id: nat, position: int)

  /** A timestamp or a duration, kept opaque. */
  type Instant = int

  datatype JobInfo = JobInfo(
    id: nat,
    info: string,
    position: nat,
    buildType: JobType,
    uploadType: UploadType,
    status: JobState,
    runningSince: Instant,
    duration: Instant)

  datatype ListJobsResponse = ListJobsResponse(jobs: seq<JobInfo>)

  // SortByJob: the sort.Interface of a []JobInfo, ordered by job ID.

  function Len(a: array<JobInfo>): (n: nat)
    ensures n == a.Length
  {
    a.Length
  }

  /** Less: entry i has the smaller job ID. */
  predicate Less(a: array<JobInfo>, i: int, j: int)
    requires 0 <= i < a.Length && 0 <= j < a.Length
    reads a
    ensures Less(a, i, j) ==> i != j && a[i] != a[j] && !(a[j].id < a[i].id)
    ensures !Less(a, i, j) ==> a[j].id <= a[i].id
  {
    a[i].id < a[j].id
  }

  /** Less is the strict weak order sort.Interface asks for: irreflexive,
      transitive, and "neither is less" is transitive too. */
  lemma LessIsStrictWeakOrder(a: array<JobInfo>, i: int, j: int, k: int)
    requires 0 <= i < a.Length && 0 <= j < a.Length && 0 <= k < a.Length
    ensures !Less(a, i, i)
    ensures Less(a, i, j) ==> !Less(a, j, i)
    ensures Less(a, i, j) && Less(a, j, k) ==> Less(a, i, k)
    ensures !Less(a, i, j) && !Less(a, j, i) && !Less(a, j, k) && !Less(a, k, j)
            ==> !Less(a, i, k) && !Less(a, k, i)
    ensures Less(a, i, j) <==> a[i].id < a[j].id
  {
  }

  method Swap(a: array<JobInfo>, i: int, j: int)
    requires 0 <= i < a.Length && 0 <= j < a.Length
    modifies a
    ensures a[..] == old(a[..])[i := old(a[j])][j := old(a[i])]
    ensures multiset(a[..]) == old(multiset(a[..]))
  {
    a[i], a[j] := a[j], a[i];
  }

  predicate SortedById(s: seq<JobInfo>) {
    forall k, l :: 0 <= k < l < |s| ==> s[k].id <= s[l].id
  }

  /** sort.Sort(SortByJob(a)), as an insertion sort that touches the slice
      only through Len, Less and Swap. */
  method Sort(a: array<JobInfo>)
    modifies a
    ensures SortedById(a[..])
    ensures multiset(a[..]) == old(multiset(a[..]))
  {
    var i := 0;
    while i < Len(a)
      invariant 0 <= i <= a.Length
      invariant SortedById(a[..i])
      invariant multiset(a[..]) == old(multiset(a[..]))
    {
      var j := i;
      while 0 < j && Less(a, j, j - 1)
        invariant 0 <= j <= i < a.Length
        invariant forall k, l :: 0 <= k < l <= i && l != j ==> a[k].id <= a[l].id
        invariant 0 < j < i ==> a[j - 1].id <= a[j + 1].id
        invariant multiset(a[..]) == old(multiset(a[..]))
      {
        Swap(a, j, j - 1);
        j := j - 1;
      }
      i := i + 1;
    }
  }
}
