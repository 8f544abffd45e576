/** The builder for an AUR package job. */
module AUR {
  import opened Common
  import opened JobType
  import opened UploadType
  import opened Args
  import opened Response
  import opened Errors
  import opened Requests
  import opened RemoteBuild
  import opened Jobs

  /** What an AURBuild holds besides its handle: the job arguments, the
      upload target and the ccache flag. */
  datatype BuildState = BuildState(args: map<string, string>, uploadType: UploadType, disableCcache: bool)

  /** A fresh builder for one package: only the package argument, no
      upload, ccache enabled. */
  function Initial(packageName: string): BuildState {
    BuildState(map[AURPackage := packageName], NoUploadType, false)
  }

  /** One call of a builder chain. */
  datatype BuildOp =
    | WithoutCcacheOp
    | WithDmanagerOp(username: string, token: string, host: string)

  /** The state after one call: only a data manager call touches the
      arguments, adding to them; only WithoutCcache touches the flag. */
  function Apply(s: BuildState, op: BuildOp): (t: BuildState)
    ensures t.disableCcache == (s.disableCcache || op.WithoutCcacheOp?)
    ensures op.WithoutCcacheOp? ==> t.args == s.args && t.uploadType == s.uploadType
    ensures op.WithDmanagerOp? ==> t.uploadType == DataManagerUploadType && s.args.Keys <= t.args.Keys
    ensures AURPackage in s.args ==> AURPackage in t.args && t.args[AURPackage] == s.args[AURPackage]
  {
    match op
    case WithoutCcacheOp => s.(disableCcache := true)
    case WithDmanagerOp(u, t, h) =>
      s.(uploadType := DataManagerUploadType, args := s.args[DMToken := t][DMUser := u][DMHost := h])
  }

  /** The state after a fresh builder has gone through a chain of calls. */
  function Run(packageName: string, ops: seq<BuildOp>): (s: BuildState)
    decreases |ops|
    ensures AURPackage in s.args && s.args[AURPackage] == packageName
    ensures s.disableCcache ==> WithoutCcacheOp in ops
  {
    if ops == [] then Initial(packageName)
    else Apply(Run(packageName, ops[..|ops| - 1]), ops[|ops| - 1])
  }

  /** The last data manager call of a chain, if any. */
  function LastDmanager(ops: seq<BuildOp>): (r: Option<BuildOp>)
    ensures r.Some? ==> r.value.WithDmanagerOp? && r.value in ops
    ensures r.None? <==> forall i :: 0 <= i < |ops| ==> !ops[i].WithDmanagerOp?
  {
    if ops == [] then None
    else if ops[|ops| - 1].WithDmanagerOp? then Some(ops[|ops| - 1])
    else LastDmanager(ops[..|ops| - 1])
  }

  /** The argument map a chain should leave: the package, plus the three
      data manager entries of the last data manager call. */
  function ExpectedArgs(packageName: string, last: Option<BuildOp>): map<string, string>
    requires last.Some? ==> last.value.WithDmanagerOp?
  {
    if last.None? then map[AURPackage := packageName]
    else
      map[AURPackage := packageName, DMToken := last.value.token,
          DMUser := last.value.username, DMHost := last.value.host]
  }

  /** Whatever the chain, the builder holds exactly the package and the
      last data manager settings; it uploads to the data manager exactly
      when some data manager call was made, and ccache is disabled exactly
      when WithoutCcache was called. */
  lemma {:induction false} RunState(packageName: string, ops: seq<BuildOp>)
    ensures Run(packageName, ops).args == ExpectedArgs(packageName, LastDmanager(ops))
    ensures Run(packageName, ops).uploadType
            == (if LastDmanager(ops).Some? then DataManagerUploadType else NoUploadType)
    ensures Run(packageName, ops).disableCcache <==> WithoutCcacheOp in ops
  {
    if ops != [] {
      var init, last := ops[..|ops| - 1], ops[|ops| - 1];
      assert ops == init + [last];
      RunState(packageName, init);
      assert WithoutCcacheOp in ops <==> WithoutCcacheOp in init || last == WithoutCcacheOp;
    }
  }

  /** No chain sets the namespace key, and the package is always kept. */
  lemma BuilderKeys(packageName: string, ops: seq<BuildOp>)
    ensures DMNamespace !in Run(packageName, ops).args
    ensures AURPackage in Run(packageName, ops).args && Run(packageName, ops).args[AURPackage] == packageName
  {
  }

  /** Disabling ccache twice is disabling it once; it touches neither the
      arguments nor the upload target. */
  lemma WithoutCcacheIdempotent(s: BuildState)
    ensures Apply(Apply(s, WithoutCcacheOp), WithoutCcacheOp) == Apply(s, WithoutCcacheOp)
    ensures Apply(s, WithoutCcacheOp).args == s.args && Apply(s, WithoutCcacheOp).uploadType == s.uploadType
  {
  }

  /** A data manager call writes its three keys and keeps every other
      entry, the package among them. */
  lemma WithDmanagerKeepsOthers(s: BuildState, username: string, token: string, host: string)
    ensures var t := Apply(s, WithDmanagerOp(username, token, host));
            && t.args.Keys == s.args.Keys + {DMToken, DMUser, DMHost}
            && t.args[DMToken] == token && t.args[DMUser] == username && t.args[DMHost] == host
            && (forall k :: k in s.args && k != DMToken && k != DMUser && k != DMHost ==> t.args[k] == s.args[k])
            && (AURPackage in s.args ==> t.args[AURPackage] == s.args[AURPackage])
  {
  }

  /** AURBuild: the handle, the argument map it owns, and the two public
      settings. */
  class AURBuild {
    const lib: LibRB
    var args: map<string, string>
    var uploadType: UploadType
    var disableCcache: bool

    function State(): BuildState
      reads this
    {
      BuildState(args, uploadType, disableCcache)
    }

    /** LibRB.NewAURBuild. */
    constructor NewAURBuild(lib: LibRB, packageName: string)
      ensures this.lib == lib && State() == Initial(packageName)
    {
      this.lib := lib;
      args := map[AURPackage := packageName];
      uploadType := NoUploadType;
      disableCcache := false;
    }

    /** WithoutCcache: sets the flag and returns the same builder. */
    method WithoutCcache() returns (r: AURBuild)
      modifies this
      ensures r == this
      ensures State() == Apply(old(State()), WithoutCcacheOp)
    {
      disableCcache := true;
      r := this;
    }

    /** WithDmanager: upload to the data manager with these credentials. */
    method WithDmanager(username: string, token: string, host: string)
      modifies this
      ensures State() == Apply(old(State()), WithDmanagerOp(username, token, host))
    {
      uploadType := DataManagerUploadType;
      args := args[DMToken := token];
      args := args[DMUser := username];
      args := args[DMHost := host];
    }

    /** CreateJob read against the three-parameter AddJob the package
      declares: the ccache flag has nowhere to go, so the job is always
      submitted with ccache enabled. */
    method CreateJobAsWritten(env: Env, unmarshal: Bytes -> Result<AddJobResponse, Error>)
      returns (res: Option<AddJobResponse>, err: Option<Error>)
      ensures var d := Do(AddJobCall(lib.config, JobAUR, uploadType, args, false), env, Some(unmarshal));
              && (err.Some? <==> CallFailed(d))
              && (err.Some? ==> res.None? && err == Some(Classify(d)))
              && (err.None? ==> res.Some? && res == d.filled)
    {
      res, err := AddJob(lib, JobAUR, uploadType, args, env, unmarshal);
    }

    /** CreateJob: an AUR job with the builder's arguments, upload target
      and ccache flag. */
    method CreateJob(env: Env, unmarshal: Bytes -> Result<AddJobResponse, Error>)
      returns (res: Option<AddJobResponse>, err: Option<Error>)
      ensures var d := Do(AddJobCall(lib.config, JobAUR, uploadType, args, disableCcache), env, Some(unmarshal));
              && (err.Some? <==> CallFailed(d))
              && (err.Some? ==> res.None? && err == Some(Classify(d)))
              && (err.None? ==> res.Some? && res == d.filled)
    {
      res, err := AddJobWithCcache(lib, JobAUR, uploadType, args, disableCcache, env, unmarshal);
    }
  }

  /** After WithoutCcache the request CreateJobAsWritten sends differs from
      the one the builder asks for: its payload still enables ccache. */
  lemma CcacheFlagDropped(config: RequestConfig, packageName: string)
    ensures var s := Run(packageName, [WithoutCcacheOp]);
            && s.disableCcache
            && AddJobCall(config, JobAUR, s.uploadType, s.args, false).payload.job.disableCcache == false
            && AddJobCall(config, JobAUR, s.uploadType, s.args, false)
               != AddJobCall(config, JobAUR, s.uploadType, s.args, s.disableCcache)
  {
  }

  /** The chain NewAURBuild("yay").WithoutCcache().WithDmanager("bob",
      "t123", "h") on a live builder. */
  method YayBuild(lib: LibRB) returns (b: AURBuild)
    ensures fresh(b) && b.lib == lib
    ensures b.args == map[AURPackage := "yay", DMUser := "bob", DMToken := "t123", DMHost := "h"]
    ensures b.uploadType == DataManagerUploadType && b.disableCcache
  {
    b := new AURBuild.NewAURBuild(lib, "yay");
    var b2 := b.WithoutCcache();
    b2.WithDmanager("bob", "t123", "h");
  }
}
