/**
  The Joystream transport client of the remote helper: validation of the
  repository URI and construction of the client, the query path used to
  fetch advertised references, and the receive-pack session that keeps a
  per-reference status table and renders a report-status value.

  The calls this code makes into go-git, the Cosmos SDK and the chain
  (`transport.NewEndpoint`, `QueryWithData` and the JSON decoding of its
  answer, `io.Copy` on the packfile stream, `gitService.NewMsgUpdateReferences`
  and `utils.CompleteAndBroadcastTxCli`) are represented only by their
  outcomes, given as parameters.
 */
module JoystreamClient {
  import opened Wrappers
  import opened GoStrings
  import JoystreamUrl

  /** A Go `error`: `nil`, or a value whose `Error()` is `message`. */
  datatype Error = Nil | Error(message: string)

  type Address = seq<bv8>

  /** The part of `transport.Endpoint` the client reads. */
  datatype Endpoint = Endpoint(path: string)

  /** `joystreamClient`; the transaction builder and CLI context are not modelled. */
  datatype Client = Client(endpoint: Endpoint, moduleName: string, author: Address)

  /** The decoded answer of the advertised-references query. */
  datatype AdvRefs = AdvRefs(references: map<string, string>)

  /** The run-time panics `AdvertisedReferences` can reach. */
  datatype Panic = SliceOutOfRange | NilDereference

  /**
    How `AdvertisedReferences` ends: the decoded references, a returned
    error, or a panic.
   */
  datatype Fetched = Fetched(refs: AdvRefs) | FetchFailed(error: Error) | FetchPanicked(panic: Panic)

  /** One reference update of a `packp.ReferenceUpdateRequest`: name, old and new hash. */
  datatype RefCommand = RefCommand(name: string, oldHash: string, newHash: string)

  /** `packp.CommandStatus` and `packp.ReportStatus`. */
  datatype CommandStatus = CommandStatus(referenceName: string, status: string)
  datatype ReportStatus = ReportStatus(unpackStatus: string, commandStatuses: seq<CommandStatus>)

  /**
    One segment of a repository URI. Go compiles regular expressions with
    Perl flags, so `[^/]` matches any character but '/', '\n' included.
   */
  predicate Segment(s: string) {
    |s| > 0 && '/' !in s
  }

  /**
    `reRepoURI` (`^[^/]+/[^/]+$`, where `$` is the end of the text): the
    URI is two segments joined by the one '/' it holds.
   */
  function SplitRepoURI(uri: string): (r: Option<(string, string)>)
    ensures r.Some? ==> Segment(r.value.0) && Segment(r.value.1) && uri == r.value.0 + "/" + r.value.1
  {
    match IndexOf(uri, '/')
    case None => None
    case Some(i) =>
      var owner := uri[..i];
      var name := uri[i + 1..];
      if owner != [] && name != [] && '/' !in name then
        assert uri == owner + "/" + name;
        Some((owner, name))
      else None
  }

  /** Every URI of the form `a/b` with two segments is accepted, and split there. */
  lemma SplitRepoURIComplete(a: string, b: string)
    requires Segment(a) && Segment(b)
    ensures SplitRepoURI(a + "/" + b) == Some((a, b))
  {
    var uri := a + "/" + b;
    assert uri[|a|] == '/';
    assert uri[..|a|] == a;
    assert uri[|a| + 1..] == b;
  }

  /**
    The URL handed to `transport.NewEndpoint`: the scheme the remote helper
    recognises, the chain `blockchain`, then the URI.
   */
  function BlockchainURL(uri: string): (r: string)
    ensures r == JoystreamUrl.Scheme + ("blockchain" + "/" + uri)
  {
    "joystream://blockchain/" + uri
  }

  /**
    `newJoystreamClient`. `newEndpoint` stands for `transport.NewEndpoint`
    and is consulted only for a well-formed URI.
   */
  function NewJoystreamClient(uri: string, moduleName: string, author: Address,
                              newEndpoint: string -> Result<Endpoint, Error>): (r: Result<Client, Error>)
    ensures SplitRepoURI(uri).None? ==> r == Failure(Error("Repo URI on invalid format: '" + uri + "'"))
    ensures SplitRepoURI(uri).Some? ==> (r.Success? <==> newEndpoint(BlockchainURL(uri)).Success?)
    ensures SplitRepoURI(uri).Some? && r.Failure? ==> r.error == newEndpoint(BlockchainURL(uri)).error
    ensures r.Success? ==> r.value == Client(newEndpoint(BlockchainURL(uri)).value, moduleName, author)
  {
    if SplitRepoURI(uri).None? then
      Failure(Error("Repo URI on invalid format: '" + uri + "'"))
    else
      match newEndpoint(BlockchainURL(uri))
      case Failure(err) => Failure(err)
      case Success(ep) => Success(Client(ep, moduleName, author))
  }

  /**
    The URL built for an accepted URI without line breaks is one the remote
    helper itself accepts, naming chain `blockchain` and the URI's two
    segments as owner and repository.
   */
  lemma ClientURLParses(a: string, b: string)
    requires Segment(a) && Segment(b) && '\n' !in a && '\n' !in b
    ensures JoystreamUrl.ParseURL(BlockchainURL(a + "/" + b)) ==
      Some(JoystreamUrl.Repository("blockchain", a, b))
  {
    var r := JoystreamUrl.Repository("blockchain", a, b);
    Regroup(JoystreamUrl.Scheme, "blockchain", a, b);
    JoystreamUrl.ParseRendered(r);
  }

  /**
    Regrouping of the concatenation, over abstract strings: stated on its own
    because the same step on literal strings inside `ClientURLParses` costs
    the solver far more than its resource limit allows.
   */
  lemma Regroup(p: string, c: string, a: string, b: string)
    ensures p + (c + "/" + (a + "/" + b)) == p + JoystreamUrl.Repository(c, a, b).String()
  {
  }

  /** The ledger query path: the module name and the endpoint path without its first character. */
  function QueryPath(moduleName: string, path: string): (r: string)
    requires |path| > 0
    ensures "custom/" + moduleName + "/advertisedReferences/" <= r
    ensures |r| == |"custom/" + moduleName + "/advertisedReferences/"| + |path| - 1
    ensures r[|r| - (|path| - 1)..] == path[1..]
  {
    "custom/" + moduleName + "/advertisedReferences/" + path[1..]
  }

  /** Within one module, different repositories are queried on different paths. */
  lemma QueryPathInjective(moduleName: string, p: string, q: string)
    requires |p| > 0 && |q| > 0
    ensures QueryPath(moduleName, p) == QueryPath(moduleName, q) <==> p[1..] == q[1..]
  {
    var prefix := "custom/" + moduleName + "/advertisedReferences/";
    if QueryPath(moduleName, p) == QueryPath(moduleName, q) {
      assert p[1..] == QueryPath(moduleName, p)[|prefix|..];
      assert q[1..] == QueryPath(moduleName, q)[|prefix|..];
    }
  }

  /**
    For a client whose endpoint path is `/` followed by the URI, as go-git
    parses `joystream://blockchain/<uri>`, the query names that URI.
   */
  lemma QueryPathOfClient(uri: string, moduleName: string, author: Address,
                          newEndpoint: string -> Result<Endpoint, Error>)
    requires SplitRepoURI(uri).Some?
    requires newEndpoint(BlockchainURL(uri)) == Success(Endpoint("/" + uri))
    ensures NewJoystreamClient(uri, moduleName, author, newEndpoint).Success?
    ensures var c := NewJoystreamClient(uri, moduleName, author, newEndpoint).value;
      |c.endpoint.path| > 0 &&
      QueryPath(c.moduleName, c.endpoint.path) == "custom/" + moduleName + "/advertisedReferences/" + uri
  {
    assert ("/" + uri)[1..] == uri;
  }

  /**
    `AdvertisedReferences`: `query` stands for `QueryWithData` and `decode`
    for the JSON decoding of its answer, where `None` is a JSON `null` that
    leaves the `*packp.AdvRefs` nil. An empty endpoint path panics on
    `Path[1:]` before the query; either error is returned as is; a nil
    answer panics when its references are read for the debug message.
   */
  function AdvertisedReferences(c: Client, query: string -> Result<seq<bv8>, Error>,
                                decode: seq<bv8> -> Result<Option<AdvRefs>, Error>): (r: Fetched)
    ensures |c.endpoint.path| == 0 <==> r == FetchPanicked(SliceOutOfRange)
    ensures |c.endpoint.path| > 0 ==> var answer := query(QueryPath(c.moduleName, c.endpoint.path));
      && (answer.Failure? ==> r == FetchFailed(answer.error))
      && (answer.Success? && decode(answer.value).Failure? ==> r == FetchFailed(decode(answer.value).error))
      && (answer.Success? && decode(answer.value) == Success(None) ==> r == FetchPanicked(NilDereference))
      && (answer.Success? && decode(answer.value).Success? && decode(answer.value).value.Some? ==>
            r == Fetched(decode(answer.value).value.value))
  {
    if |c.endpoint.path| == 0 then FetchPanicked(SliceOutOfRange)
    else
      match query(QueryPath(c.moduleName, c.endpoint.path))
      case Failure(err) => FetchFailed(err)
      case Success(res) =>
        match decode(res)
        case Failure(err) => FetchFailed(err)
        case Success(None) => FetchPanicked(NilDereference)
        case Success(Some(refs)) => Fetched(refs)
  }

  /** `err.Error()`, or "ok" for nil: the status text of a reference or of the unpack step. */
  function StatusText(err: Error): (s: string)
    ensures s == "ok" <==> err.Nil? || err.message == "ok"
    ensures err.Error? ==> s == err.message
  {
    if err.Nil? then "ok" else err.message
  }

  /**
    `rs` is a report of `cmdStatus` and `unpackErr`: the unpack status, and
    one command status per reference in the table, no more, carrying that
    reference's status text, in any order.
   */
  predicate Reports(rs: ReportStatus, cmdStatus: map<string, Error>, unpackErr: Error) {
    var cs := rs.commandStatuses;
    && rs.unpackStatus == StatusText(unpackErr)
    && |cs| == |cmdStatus.Keys|
    && (forall i :: 0 <= i < |cs| ==>
          cs[i].referenceName in cmdStatus && cs[i].status == StatusText(cmdStatus[cs[i].referenceName]))
    && (forall ref :: ref in cmdStatus ==> exists i :: 0 <= i < |cs| && cs[i].referenceName == ref)
    && (forall i, j :: 0 <= i < j < |cs| ==> cs[i].referenceName != cs[j].referenceName)
  }

  /** With no recorded statuses and no unpack error, the only report is `unpack ok` and nothing else. */
  lemma EmptyReport(rs: ReportStatus)
    ensures Reports(rs, map[], Nil) <==> rs == ReportStatus("ok", [])
  {
    var empty: map<string, Error> := map[];
    assert empty.Keys == {};
  }

  /** The status table a sequence of `setStatus` calls leaves: later calls overwrite earlier ones. */
  ghost function Applied(log: seq<(string, Error)>): map<string, Error> {
    if log == [] then map[]
    else Applied(log[..|log| - 1])[log[|log| - 1].0 := log[|log| - 1].1]
  }

  /** The first non-nil error of a sequence of `setStatus` calls, or nil. */
  ghost function FirstError(log: seq<(string, Error)>): Error {
    if log == [] then Nil
    else if log[0].1.Error? then log[0].1
    else FirstError(log[1..])
  }

  lemma {:induction false} FirstErrorAppend(log: seq<(string, Error)>, ref: string, err: Error)
    ensures FirstError(log + [(ref, err)]) == if FirstError(log).Nil? then err else FirstError(log)
    decreases |log|
  {
    if log == [] {
      assert log + [(ref, err)] == [(ref, err)];
    } else {
      assert (log + [(ref, err)])[1..] == log[1..] + [(ref, err)];
      FirstErrorAppend(log[1..], ref, err);
    }
  }

  /**
    The first error is nil exactly when every call passed nil, and otherwise
    is the error of a call preceded only by nil errors.
   */
  lemma {:induction false} FirstErrorIsFirst(log: seq<(string, Error)>)
    ensures FirstError(log).Nil? <==> forall i :: 0 <= i < |log| ==> log[i].1.Nil?
    ensures FirstError(log).Error? ==>
      exists i :: 0 <= i < |log| && log[i].1 == FirstError(log) && forall j :: 0 <= j < i ==> log[j].1.Nil?
    decreases |log|
  {
    if log != [] && log[0].1.Nil? {
      FirstErrorIsFirst(log[1..]);
      if FirstError(log).Error? {
        var i :| 0 <= i < |log[1..]| && log[1..][i].1 == FirstError(log[1..])
          && forall j :: 0 <= j < i ==> log[1..][j].1.Nil?;
        assert log[i + 1].1 == FirstError(log);
        forall j | 0 <= j < i + 1 ensures log[j].1.Nil? {
          if j > 0 { assert log[j] == log[1..][j - 1]; }
        }
      } else {
        forall i | 0 <= i < |log| ensures log[i].1.Nil? {
          if i > 0 { assert log[i] == log[1..][i - 1]; }
        }
      }
    } else if log != [] {
      assert log[0].1 == FirstError(log);
    }
  }

  /** Once set, the first error stays whatever is recorded afterwards. */
  lemma {:induction false} FirstErrorStable(log: seq<(string, Error)>, more: seq<(string, Error)>)
    requires FirstError(log).Error?
    ensures FirstError(log + more) == FirstError(log)
    decreases |log|
  {
    if log[0].1.Nil? {
      assert (log + more)[1..] == log[1..] + more;
      FirstErrorStable(log[1..], more);
    } else {
      assert (log + more)[0] == log[0];
    }
  }

  /**
    A reference is in the table exactly when some call named it, and its
    entry is the error of the last call that did.
   */
  lemma {:induction false} AppliedLookup(log: seq<(string, Error)>, ref: string)
    ensures ref in Applied(log) <==> exists i :: 0 <= i < |log| && log[i].0 == ref
    ensures ref in Applied(log) ==>
      exists i :: 0 <= i < |log| && log[i] == (ref, Applied(log)[ref]) && forall j :: i < j < |log| ==> log[j].0 != ref
    decreases |log|
  {
    if log != [] {
      var init := log[..|log| - 1];
      var last := log[|log| - 1];
      AppliedLookup(init, ref);
      if last.0 != ref {
        if exists i :: 0 <= i < |log| && log[i].0 == ref {
          var i :| 0 <= i < |log| && log[i].0 == ref;
          assert init[i] == log[i];
        }
        if ref in Applied(log) {
          var i :| 0 <= i < |init| && init[i] == (ref, Applied(init)[ref]) && forall j :: i < j < |init| ==> init[j].0 != ref;
          assert log[i] == init[i];
          forall j | i < j < |log| ensures log[j].0 != ref {
            if j < |init| { assert log[j] == init[j]; }
          }
        }
      } else {
        assert log[|log| - 1] == (ref, Applied(log)[ref]);
      }
    }
  }

  /**
    `rpSession`. `log` is the sequence of `setStatus` calls so far; the
    status table and the first error are functions of it. The
    authentication method is stored by Go but never read, and is left out.
   */
  class RpSession {
    const endpoint: Endpoint
    const client: Client
    var cmdStatus: map<string, Error>
    var firstErr: Error
    var unpackErr: Error
    ghost var log: seq<(string, Error)>

    ghost predicate Valid()
      reads this
    {
      cmdStatus == Applied(log) && firstErr == FirstError(log)
    }

    /** `NewReceivePackSession`: an empty status table, no first error, no unpack error. */
    constructor NewReceivePackSession(client: Client, endpoint: Endpoint)
      ensures this.client == client && this.endpoint == endpoint
      ensures cmdStatus == map[] && firstErr == Nil && unpackErr == Nil
      ensures log == [] && Valid()
    {
      this.client := client;
      this.endpoint := endpoint;
      cmdStatus := map[];
      firstErr := Nil;
      unpackErr := Nil;
      log := [];
    }

    /**
      `setStatus`: the entry for `ref` becomes `err`, other entries stay;
      `firstErr` takes `err` only while it is still nil.
     */
    method SetStatus(ref: string, err: Error)
      requires Valid()
      modifies this
      ensures Valid()
      ensures log == old(log) + [(ref, err)]
      ensures cmdStatus == old(cmdStatus)[ref := err]
      ensures firstErr == if old(firstErr).Nil? && err.Error? then err else old(firstErr)
      ensures unpackErr == old(unpackErr)
    {
      FirstErrorAppend(log, ref, err);
      cmdStatus := cmdStatus[ref := err];
      if firstErr.Nil? && err.Error? {
        firstErr := err;
      }
      log := log + [(ref, err)];
      assert log[..|log| - 1] == old(log);
    }

    /** `reportStatus`: walks the table in an unspecified order. */
    method Report() returns (rs: ReportStatus)
      ensures Reports(rs, cmdStatus, unpackErr)
    {
      var unpackStatus := "ok";
      if unpackErr.Error? {
        unpackStatus := unpackErr.message;
      }
      var cs: seq<CommandStatus> := [];
      var left := cmdStatus.Keys;
      while left != {}
        invariant left <= cmdStatus.Keys
        invariant |cs| + |left| == |cmdStatus.Keys|
        invariant forall i :: 0 <= i < |cs| ==>
          cs[i].referenceName in cmdStatus.Keys - left && cs[i].status == StatusText(cmdStatus[cs[i].referenceName])
        invariant forall ref :: ref in cmdStatus.Keys - left ==> exists i :: 0 <= i < |cs| && cs[i].referenceName == ref
        invariant forall i, j :: 0 <= i < j < |cs| ==> cs[i].referenceName != cs[j].referenceName
        decreases left
      {
        var ref :| ref in left;
        var msg := "ok";
        if cmdStatus[ref].Error? {
          msg := cmdStatus[ref].message;
        }
        var before, leftBefore := cs, left;
        cs := cs + [CommandStatus(ref, msg)];
        left := left - {ref};
        forall r | r in cmdStatus.Keys - left ensures exists i :: 0 <= i < |cs| && cs[i].referenceName == r {
          if r == ref {
            assert cs[|cs| - 1].referenceName == r;
          } else {
            assert r in cmdStatus.Keys - leftBefore;
            var i :| 0 <= i < |before| && before[i].referenceName == r;
            assert cs[i] == before[i];
          }
        }
      }
      assert cmdStatus.Keys - left == cmdStatus.Keys;
      rs := ReportStatus(unpackStatus, cs);
    }

    /**
      `ReceivePack`. The packfile is copied and then closed, whatever the
      copy did; the message names the endpoint path without its first
      character and carries the request's reference updates `req` and the
      copied bytes; it is broadcast only if it
      could be built. The first failing step decides the error, and every
      path returns the session's report. No status is recorded on the way.
     */
    method ReceivePack(req: seq<RefCommand>, io: Foreign) returns (rs: ReportStatus, err: Error, calls: seq<Call>)
      requires io.copyErr.Nil? && io.closeErr.Nil? ==> |endpoint.path| > 0
      ensures Reports(rs, cmdStatus, unpackErr)
      ensures |calls| >= 2 && calls[..2] == [Copy, Close] && Close !in calls[2..]
      ensures io.copyErr.Error? ==> err == io.copyErr && calls == [Copy, Close]
      ensures io.copyErr.Nil? && io.closeErr.Error? ==> err == io.closeErr && calls == [Copy, Close]
      ensures io.copyErr.Nil? && io.closeErr.Nil? ==>
        |calls| >= 3 && calls[2] == NewMsg(endpoint.path[1..], req, io.packfile, client.author)
      ensures io.copyErr.Nil? && io.closeErr.Nil? && io.newMsgErr.Error? ==> err == io.newMsgErr && |calls| == 3
      ensures Broadcast in calls <==> io.copyErr.Nil? && io.closeErr.Nil? && io.newMsgErr.Nil?
      ensures Broadcast in calls ==> calls == [Copy, Close, calls[2], Broadcast] && err == io.broadcastErr
      ensures err.Nil? <==> io.copyErr.Nil? && io.closeErr.Nil? && io.newMsgErr.Nil? && io.broadcastErr.Nil?
    {
      calls := [Copy];
      if io.copyErr.Error? {
        calls := calls + [Close];
        rs := Report();
        err := io.copyErr;
        return;
      }
      var buf := io.packfile;
      calls := calls + [Close];
      if io.closeErr.Error? {
        rs := Report();
        err := io.closeErr;
        return;
      }
      var repoURI := endpoint.path[1..];
      calls := calls + [NewMsg(repoURI, req, buf, client.author)];
      if io.newMsgErr.Error? {
        rs := Report();
        err := io.newMsgErr;
        return;
      }
      calls := calls + [Broadcast];
      if io.broadcastErr.Error? {
        rs := Report();
        err := io.broadcastErr;
        return;
      }
      rs := Report();
      err := Nil;
    }
  }

  /**
    What the foreign calls of `ReceivePack` do: the bytes the packfile
    stream yields, and the errors of `io.Copy`, `Packfile.Close`,
    `NewMsgUpdateReferences` and `CompleteAndBroadcastTxCli`.
   */
  datatype Foreign = Foreign(packfile: seq<bv8>, copyErr: Error, closeErr: Error,
                             newMsgErr: Error, broadcastErr: Error)

  /** The foreign calls `ReceivePack` makes, in order, with the arguments that matter. */
  datatype Call = Copy | Close | NewMsg(repoURI: string, commands: seq<RefCommand>, packfile: seq<bv8>, author: Address) | Broadcast

  /**
    A session fresh from `NewReceivePackSession` reports `unpack ok` and no
    command status from `ReceivePack`, whatever the outcome of the push.
   */
  method ReceivePackOnNewSession(client: Client, endpoint: Endpoint, req: seq<RefCommand>, io: Foreign)
      returns (rs: ReportStatus, err: Error)
    requires io.copyErr.Nil? && io.closeErr.Nil? ==> |endpoint.path| > 0
    ensures rs == ReportStatus("ok", [])
    ensures err.Nil? <==> io.copyErr.Nil? && io.closeErr.Nil? && io.newMsgErr.Nil? && io.broadcastErr.Nil?
  {
    var session := new RpSession.NewReceivePackSession(client, endpoint);
    var calls;
    rs, err, calls := session.ReceivePack(req, io);
    EmptyReport(rs);
  }
}
