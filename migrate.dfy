/**
 * The migration orchestrator: snapshot from the base instance, diff and apply
 * on the target instance, stopping at the first failure and labelling it with
 * the step that failed.
 */
module Migration {
  import opened Wrappers
  import opened Json
  import opened Http
  import opened Errors
  import opened Client

  /**
   * What a migration does over a server that has already seen `history`: its
   * outcome and the requests it sends, in order.
   */
  function MigrateSpec(baseURL: string, baseToken: string, targetURL: string, targetToken: string,
                       force: bool, codec: Codec, server: Server, history: seq<Request>)
    : (run: Exchange<Outcome<MigrateError>>)
    // the requests are always a prefix of snapshot to base, diff to target, apply to target
    ensures 1 <= |run.sent| <= 3
    ensures run.sent[0] == SnapshotRequest(baseURL, baseToken)
    ensures |run.sent| >= 2 ==> run.sent[1].verb == POST && run.sent[1].url == DiffUrl(targetURL, targetToken, force)
    ensures |run.sent| == 3 ==> run.sent[2].verb == POST && run.sent[2].url == ApplyUrl(targetURL, targetToken)
    // fail fast
    ensures run.result.Fail? && run.result.error.step == SnapshotStep ==> |run.sent| == 1
    ensures run.result.Fail? && run.result.error.step == DiffStep ==> |run.sent| <= 2
    ensures |run.sent| >= 2 ==> InterpretFetch(SnapshotOp, server(history, run.sent[0]), codec).Success?
    ensures |run.sent| == 3 ==> InterpretFetch(DiffOp, server(history + run.sent[..1], run.sent[1]), codec).Success?
    // success means all three requests went out and the apply request was answered with 204
    ensures run.result.Pass? <==>
      |run.sent| == 3 && var reply := server(history + run.sent[..2], run.sent[2]);
                        reply.Response? && reply.status == StatusNoContent
  {
    var snapshot := SnapshotExchange(baseURL, baseToken, codec, server, history);
    if snapshot.result.Failure? then
      Exchange(Fail(MigrateError(SnapshotStep, snapshot.result.error)), snapshot.sent)
    else
      var h1 := history + snapshot.sent;
      var diff := DiffExchange(targetURL, targetToken, snapshot.result.value, force, codec, server, h1);
      assert (snapshot.sent + diff.sent)[..1] == snapshot.sent;
      if diff.result.Failure? then
        Exchange(Fail(MigrateError(DiffStep, diff.result.error)), snapshot.sent + diff.sent)
      else
        var h2 := h1 + diff.sent;
        var apply := ApplyExchange(targetURL, targetToken, diff.result.value, codec, server, h2);
        var sent := snapshot.sent + diff.sent + apply.sent;
        assert sent[..1] == snapshot.sent && sent[..2] == snapshot.sent + diff.sent;
        assert history + sent[..2] == h2;
        var outcome := if apply.result.Fail? then Fail(MigrateError(ApplyStep, apply.result.error)) else Pass;
        Exchange(outcome, sent)
  }

  /**
   * One migration over a shared transport: both clients are new, the base
   * client takes the snapshot, the target client computes and applies the diff.
   */
  method Migrate(baseURL: string, baseToken: string, targetURL: string, targetToken: string,
                 force: bool, net: Transport, codec: Codec) returns (outcome: Outcome<MigrateError>)
    modifies net
    ensures var run := MigrateSpec(baseURL, baseToken, targetURL, targetToken, force, codec, net.server, old(net.log));
            outcome == run.result && net.log == old(net.log) + run.sent
  {
    var baseClient := new DirectusClient(baseURL, baseToken, net);
    var targetClient := new DirectusClient(targetURL, targetToken, net);

    var snapshot := baseClient.GetSnapshot(codec);
    if snapshot.Failure? {
      return Fail(MigrateError(SnapshotStep, snapshot.error));
    }

    var diff := targetClient.GetDiff(snapshot.value, force, codec);
    if diff.Failure? {
      return Fail(MigrateError(DiffStep, diff.error));
    }

    var applied := targetClient.ApplyDiff(diff.value, codec);
    if applied.Fail? {
      return Fail(MigrateError(ApplyStep, applied.error));
    }
    return Pass;
  }

  /** The snapshot the base instance returned is what the diff request carries, encoded and unchanged. */
  lemma MigrateForwardsSnapshot(baseURL: string, baseToken: string, targetURL: string, targetToken: string,
                                force: bool, codec: Codec, server: Server, history: seq<Request>)
    requires |MigrateSpec(baseURL, baseToken, targetURL, targetToken, force, codec, server, history).sent| >= 2
    ensures var run := MigrateSpec(baseURL, baseToken, targetURL, targetToken, force, codec, server, history);
            var snapshot := InterpretFetch(SnapshotOp, server(history, run.sent[0]), codec);
            && snapshot.Success?
            && codec.encode(JObject(snapshot.value)).Success?
            && run.sent[1] == DiffRequest(targetURL, targetToken, codec.encode(JObject(snapshot.value)).value, force)
  {
  }

  /** The diff the target instance returned is what the apply request carries, encoded and unchanged. */
  lemma MigrateForwardsDiff(baseURL: string, baseToken: string, targetURL: string, targetToken: string,
                            force: bool, codec: Codec, server: Server, history: seq<Request>)
    requires |MigrateSpec(baseURL, baseToken, targetURL, targetToken, force, codec, server, history).sent| == 3
    ensures var run := MigrateSpec(baseURL, baseToken, targetURL, targetToken, force, codec, server, history);
            var diff := InterpretFetch(DiffOp, server(history + run.sent[..1], run.sent[1]), codec);
            && diff.Success?
            && codec.encode(JObject(diff.value)).Success?
            && run.sent[2] == ApplyRequest(targetURL, targetToken, codec.encode(JObject(diff.value)).value)
  {
    var run := MigrateSpec(baseURL, baseToken, targetURL, targetToken, force, codec, server, history);
    var snapshot := SnapshotExchange(baseURL, baseToken, codec, server, history);
    assert run.sent[..1] == snapshot.sent;
  }

  /**
   * A failed migration carries the step that failed and, unchanged, the error
   * of the operation that failed there.
   */
  lemma MigrateWrapsCause(baseURL: string, baseToken: string, targetURL: string, targetToken: string,
                          force: bool, codec: Codec, server: Server, history: seq<Request>)
    ensures var run := MigrateSpec(baseURL, baseToken, targetURL, targetToken, force, codec, server, history);
            var snapshot := InterpretFetch(SnapshotOp, server(history, run.sent[0]), codec);
            && (snapshot.Failure? <==> run.result.Fail? && run.result.error.step == SnapshotStep)
            && (snapshot.Failure? ==> run.result.error.cause == snapshot.error)
            && (snapshot.Success? ==> (|run.sent| == 1 <==> codec.encode(JObject(snapshot.value)).Failure?))
            && (snapshot.Success? && |run.sent| == 1 ==>
                  run.result == Fail(MigrateError(DiffStep, MarshalFailed(DiffOp, codec.encode(JObject(snapshot.value)).error))))
            && (|run.sent| >= 2 ==>
                  var diff := InterpretFetch(DiffOp, server(history + run.sent[..1], run.sent[1]), codec);
                  diff.Failure? ==> run.result == Fail(MigrateError(DiffStep, diff.error)))
            && (|run.sent| >= 2 ==>
                  var diff := InterpretFetch(DiffOp, server(history + run.sent[..1], run.sent[1]), codec);
                  && (diff.Success? ==> (|run.sent| == 2 <==> codec.encode(JObject(diff.value)).Failure?))
                  && (diff.Success? && |run.sent| == 2 ==>
                        run.result == Fail(MigrateError(ApplyStep, MarshalFailed(ApplyOp, codec.encode(JObject(diff.value)).error)))))
            && (|run.sent| == 3 ==>
                  var applied := InterpretApply(server(history + run.sent[..2], run.sent[2]));
                  applied.Fail? ==> run.result == Fail(MigrateError(ApplyStep, applied.error)))
  {
    var run := MigrateSpec(baseURL, baseToken, targetURL, targetToken, force, codec, server, history);
    var snapshot := SnapshotExchange(baseURL, baseToken, codec, server, history);
    assert run.sent[..1] == snapshot.sent;
    if snapshot.result.Success? {
      var diff := DiffExchange(targetURL, targetToken, snapshot.result.value, force, codec, server, history + snapshot.sent);
      assert |run.sent| == 3 ==> history + run.sent[..2] == history + snapshot.sent + diff.sent;
    }
  }

  // ---------------------------------------------------------------------------
  // End-to-end scenarios against a stub server.
  // ---------------------------------------------------------------------------

  /** The base instance answers 500 "internal error": only the snapshot request is sent. */
  lemma ScenarioSnapshotRejected(baseURL: string, baseToken: string, targetURL: string, targetToken: string,
                                 force: bool, codec: Codec, server: Server, history: seq<Request>)
    requires server(history, SnapshotRequest(baseURL, baseToken)) == Response(500, "internal error")
    ensures var run := MigrateSpec(baseURL, baseToken, targetURL, targetToken, force, codec, server, history);
            && run.sent == [SnapshotRequest(baseURL, baseToken)]
            && run.result == Fail(MigrateError(SnapshotStep, StatusFailed(SnapshotOp, 500, "internal error")))
            && StartsWith(MigrateMessage(run.result.error), "failed to get snapshot: ")
            && EndsWith(MigrateMessage(run.result.error), "internal error")
  {
  }

  /** A base that serves a snapshot and a target that serves a diff for it. */
  predicate ServesSnapshotAndDiff(baseURL: string, baseToken: string, targetURL: string, targetToken: string,
                                  force: bool, codec: Codec, server: Server, history: seq<Request>,
                                  snapshotBody: string, snapshot: Document, snapshotWire: string,
                                  diffBody: string, diff: Document)
  {
    var snapshotReq := SnapshotRequest(baseURL, baseToken);
    && server(history, snapshotReq) == Response(200, snapshotBody)
    && codec.decode(snapshotBody) == Success(JObject(map["data" := JObject(snapshot)]))
    && codec.encode(JObject(snapshot)) == Success(snapshotWire)
    && server(history + [snapshotReq], DiffRequest(targetURL, targetToken, snapshotWire, force)) == Response(200, diffBody)
    && codec.decode(diffBody) == Success(JObject(map["data" := JObject(diff)]))
  }

  /**
   * Once the snapshot and the diff are served, a migration sends all three
   * requests and its outcome is decided by the reply to the apply request alone.
   */
  lemma MigrateDecidedByApply(baseURL: string, baseToken: string, targetURL: string, targetToken: string,
                              force: bool, codec: Codec, server: Server, history: seq<Request>,
                              snapshotBody: string, snapshot: Document, snapshotWire: string,
                              diffBody: string, diff: Document, diffWire: string)
    requires ServesSnapshotAndDiff(baseURL, baseToken, targetURL, targetToken, force, codec, server, history,
                                   snapshotBody, snapshot, snapshotWire, diffBody, diff)
    requires codec.encode(JObject(diff)) == Success(diffWire)
    ensures var run := MigrateSpec(baseURL, baseToken, targetURL, targetToken, force, codec, server, history);
            var snapshotReq := SnapshotRequest(baseURL, baseToken);
            var diffReq := DiffRequest(targetURL, targetToken, snapshotWire, force);
            var applyReq := ApplyRequest(targetURL, targetToken, diffWire);
            var applied := InterpretApply(server(history + [snapshotReq, diffReq], applyReq));
            && run.sent == [snapshotReq, diffReq, applyReq]
            && run.result == (if applied.Pass? then Pass else Fail(MigrateError(ApplyStep, applied.error)))
  {
    var snapshotReq := SnapshotRequest(baseURL, baseToken);
    var diffReq := DiffRequest(targetURL, targetToken, snapshotWire, force);
    var s := SnapshotExchange(baseURL, baseToken, codec, server, history);
    assert s.result == Success(snapshot);
    var d := DiffExchange(targetURL, targetToken, snapshot, force, codec, server, history + [snapshotReq]);
    assert d.sent == [diffReq] && d.result == Success(diff);
    assert history + [snapshotReq] + [diffReq] == history + [snapshotReq, diffReq];
  }

  /** Snapshot and diff succeed and the target answers the apply request with 204: the migration succeeds. */
  lemma ScenarioSuccess(baseURL: string, baseToken: string, targetURL: string, targetToken: string,
                        force: bool, codec: Codec, server: Server, history: seq<Request>,
                        snapshotBody: string, snapshot: Document, snapshotWire: string,
                        diffBody: string, diff: Document, diffWire: string)
    requires ServesSnapshotAndDiff(baseURL, baseToken, targetURL, targetToken, force, codec, server, history,
                                   snapshotBody, snapshot, snapshotWire, diffBody, diff)
    requires codec.encode(JObject(diff)) == Success(diffWire)
    requires server(history + [SnapshotRequest(baseURL, baseToken), DiffRequest(targetURL, targetToken, snapshotWire, force)],
                    ApplyRequest(targetURL, targetToken, diffWire)) == Response(204, "")
    ensures var run := MigrateSpec(baseURL, baseToken, targetURL, targetToken, force, codec, server, history);
            && run.result == Pass
            && run.sent == [SnapshotRequest(baseURL, baseToken),
                            DiffRequest(targetURL, targetToken, snapshotWire, force),
                            ApplyRequest(targetURL, targetToken, diffWire)]
  {
    MigrateDecidedByApply(baseURL, baseToken, targetURL, targetToken, force, codec, server, history,
                          snapshotBody, snapshot, snapshotWire, diffBody, diff, diffWire);
  }

  /**
   * Snapshot and diff succeed once each and the target rejects the apply with
   * 400 and a JSON error body: the error names the apply step and keeps the body.
   */
  lemma ScenarioApplyConflict(baseURL: string, baseToken: string, targetURL: string, targetToken: string,
                              force: bool, codec: Codec, server: Server, history: seq<Request>,
                              snapshotBody: string, snapshot: Document, snapshotWire: string,
                              diffBody: string, diff: Document, diffWire: string)
    requires ServesSnapshotAndDiff(baseURL, baseToken, targetURL, targetToken, force, codec, server, history,
                                   snapshotBody, snapshot, snapshotWire, diffBody, diff)
    requires codec.encode(JObject(diff)) == Success(diffWire)
    requires server(history + [SnapshotRequest(baseURL, baseToken), DiffRequest(targetURL, targetToken, snapshotWire, force)],
                    ApplyRequest(targetURL, targetToken, diffWire)) == Response(400, "{\"error\":\"conflict\"}")
    ensures var run := MigrateSpec(baseURL, baseToken, targetURL, targetToken, force, codec, server, history);
            && run.sent == [SnapshotRequest(baseURL, baseToken),
                            DiffRequest(targetURL, targetToken, snapshotWire, force),
                            ApplyRequest(targetURL, targetToken, diffWire)]
            && run.result == Fail(MigrateError(ApplyStep, StatusFailed(ApplyOp, 400, "{\"error\":\"conflict\"}")))
            && StartsWith(MigrateMessage(run.result.error), "failed to apply diff: ")
            && EndsWith(MigrateMessage(run.result.error), "{\"error\":\"conflict\"}")
  {
    MigrateDecidedByApply(baseURL, baseToken, targetURL, targetToken, force, codec, server, history,
                          snapshotBody, snapshot, snapshotWire, diffBody, diff, diffWire);
    MigrateMessageShowsLabelAndBody(MigrateError(ApplyStep, StatusFailed(ApplyOp, 400, "{\"error\":\"conflict\"}")));
  }
}
