/**
 * A run of the dispatcher over the messages of one connection, in arrival
 * order: the connection hands each message to `LspHandler` in turn, and the
 * only state carried from one message to the next is the root path.
 */
module Session {
  import opened LspServer
  import opened Protocol

  /** What a run produced: the final root path, the replies in order, the notifications, the walks launched. */
  datatype Run = Run(rootPath: string, replies: seq<ReplierCall>, notes: seq<Notification>, walks: nat)

  predicate AllWellFormed(reqs: seq<Request>) {
    forall i :: 0 <= i < |reqs| ==> WellFormed(reqs[i])
  }

  /** Dispatches `reqs` one after another, starting from root path `rootPath`. Every message gets exactly one reply. */
  function Serve(rootPath: string, name: string, reqs: seq<Request>): (r: Run)
    requires AllWellFormed(reqs)
    ensures |r.replies| == |reqs|
    ensures r.walks <= |reqs|
    decreases |reqs|
  {
    if reqs == [] then Run(rootPath, [], [], 0)
    else
      var s := Handle(rootPath, name, reqs[0]);
      var rest := Serve(s.rootPath, name, reqs[1..]);
      Run(rest.rootPath, [s.reply] + rest.replies, s.notes + rest.notes,
          (if s.startsWalk then 1 else 0) + rest.walks)
  }

  /**
   * The root path after a run, defined from the end: the first folder name of
   * the last initialize request that sets one, or the starting root path if
   * no request does.
   */
  function LastRoot(rootPath: string, reqs: seq<Request>): string
    requires AllWellFormed(reqs)
    decreases |reqs|
  {
    if reqs == [] then rootPath
    else
      var last := reqs[|reqs| - 1];
      if SetsRoot(last) then last.params.folderNames[0] else LastRoot(rootPath, reqs[..|reqs| - 1])
  }

  /** Running `reqs` then one more request is handling that request after running `reqs`. */
  lemma {:induction false} ServeSnocRoot(rootPath: string, name: string, reqs: seq<Request>, req: Request)
    requires AllWellFormed(reqs) && WellFormed(req)
    ensures AllWellFormed(reqs + [req])
    ensures Serve(rootPath, name, reqs + [req]).rootPath
         == Handle(Serve(rootPath, name, reqs).rootPath, name, req).rootPath
    decreases |reqs|
  {
    if reqs != [] {
      var next := Handle(rootPath, name, reqs[0]).rootPath;
      assert (reqs + [req])[1..] == reqs[1..] + [req];
      ServeSnocRoot(next, name, reqs[1..], req);
    }
  }

  /** The root path after a run is the one the last root-setting initialize named. */
  lemma {:induction false} ServeRootIsLastRoot(rootPath: string, name: string, reqs: seq<Request>)
    requires AllWellFormed(reqs)
    ensures Serve(rootPath, name, reqs).rootPath == LastRoot(rootPath, reqs)
    decreases |reqs|
  {
    if reqs != [] {
      var init, last := reqs[..|reqs| - 1], reqs[|reqs| - 1];
      assert reqs == init + [last];
      ServeRootIsLastRoot(rootPath, name, init);
      ServeSnocRoot(rootPath, name, init, last);
    }
  }

  /**
   * Replies come back in request order: the i-th reply is the one the
   * dispatcher gives the i-th request in the state the earlier ones left.
   */
  lemma {:induction false} ReplyMatchesRequest(rootPath: string, name: string, reqs: seq<Request>, i: nat)
    requires AllWellFormed(reqs) && i < |reqs|
    ensures Serve(rootPath, name, reqs).replies[i]
         == Handle(Serve(rootPath, name, reqs[..i]).rootPath, name, reqs[i]).reply
    decreases i
  {
    if i > 0 {
      var next := Handle(rootPath, name, reqs[0]).rootPath;
      ReplyMatchesRequest(next, name, reqs[1..], i - 1);
      assert reqs[..i][1..] == reqs[1..][..i - 1];
    }
  }

  /** A failed initialize leaves the root path alone, so a later good one still takes effect. */
  lemma RetryAfterFailedInitialize(rootPath: string, name: string, bad: Params, folders: seq<string>)
    requires bad.DecodeFailure? || (|bad.folderNames| > 0 && bad.folderNames[0] == "")
    requires |folders| > 0 && folders[0] != ""
    ensures var reqs := [Request(MethodInitialize, bad), Request(MethodInitialize, Decoded(folders))];
      && AllWellFormed(reqs)
      && Serve(rootPath, name, reqs).rootPath == folders[0]
      && Serve(rootPath, name, reqs).replies[0].result.ErrorValue?
      && Serve(rootPath, name, reqs).replies[1].result.Initialized?
  {
    var first, second := Request(MethodInitialize, bad), Request(MethodInitialize, Decoded(folders));
    var reqs := [first, second];
    assert reqs[..|reqs| - 1] == [first] && reqs[..0] == [];
    ServeRootIsLastRoot(rootPath, name, reqs);
    ReplyMatchesRequest(rootPath, name, reqs, 0);
    ReplyMatchesRequest(rootPath, name, reqs, 1);
    if bad.DecodeFailure? {
      InitializeDecodeFailure(rootPath, name);
    } else {
      InitializeWithoutRootName(rootPath, name, bad.folderNames);
    }
  }
}
