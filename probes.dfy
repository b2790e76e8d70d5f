/** The liveness (`/healthz`) and readiness (`/readyz`) probes. */
module Probes {
  import opened Wrappers
  import opened Qbit

  /** The two HTTP statuses the probes answer with; neither response has a body. */
  datatype StatusCode = NoContent | ServiceUnavailable {
    function Code(): (n: int)
      ensures n == 204 <==> NoContent?
      ensures n == 503 <==> ServiceUnavailable?
    {
      match this
      case NoContent => 204
      case ServiceUnavailable => 503
    }
  }

  /**
   * The liveness verdict from the answer to the "resumed" listing and the answer the
   * "stalled" listing would give; the latter matters only when some torrent is resumed.
   */
  function Liveness(resumed: Response<seq<Torrent>>, stalled: Response<seq<Torrent>>): (code: StatusCode)
    ensures resumed.Err? ==> code == ServiceUnavailable
    ensures resumed == Ok([]) ==> code == NoContent
    ensures resumed.Ok? && resumed.value != [] && stalled.Err? ==> code == ServiceUnavailable
    ensures resumed.Ok? && resumed.value != [] && stalled.Ok? ==>
      (code == ServiceUnavailable <==> |stalled.value| >= |resumed.value|)
  {
    match resumed
    case Err(_) => ServiceUnavailable
    case Ok(resumedTorrents) =>
      if resumedTorrents == [] then NoContent
      else
        match stalled
        case Ok(stalledTorrents) =>
          if |stalledTorrents| >= |resumedTorrents| then ServiceUnavailable else NoContent
        case Err(_) => ServiceUnavailable
  }

  /** The queries one liveness check issues, given the answer to the first. */
  function LivenessQueries(resumed: Response<seq<Torrent>>): (q: seq<Query>)
    ensures 1 <= |q| <= 2 && q[0] == TorrentListQuery(Resumed)
    ensures TorrentListQuery(Stalled) in q <==> resumed.Ok? && resumed.value != []
    ensures |q| == 2 ==> q[1] == TorrentListQuery(Stalled)
  {
    if resumed.Ok? && resumed.value != [] then [TorrentListQuery(Resumed), TorrentListQuery(Stalled)]
    else [TorrentListQuery(Resumed)]
  }

  /** The readiness verdict from the answer to the transfer-information query. */
  function Readiness(info: Response<TransferInfo>): (code: StatusCode)
    ensures code == NoContent <==>
      info.Ok? && (info.value.connectionStatus.Connected? || info.value.connectionStatus.Firewalled?)
  {
    match info
    case Err(_) => ServiceUnavailable
    case Ok(transfer) =>
      match transfer.connectionStatus
      case Connected | Firewalled => NoContent
      case _ => ServiceUnavailable
  }

  /** The liveness probe: at most two sequential listing queries, with early answers. */
  method Healthz(qbit: FakeQbit) returns (code: StatusCode)
    modifies qbit`issued
    ensures code == Liveness(qbit.resumedList, qbit.stalledList)
    ensures qbit.issued == old(qbit.issued) + LivenessQueries(qbit.resumedList)
  {
    var resumed := qbit.GetTorrentList(Resumed);
    var resumedCount: nat;
    match resumed {
      case Ok(torrents) =>
        if torrents == [] {
          return NoContent;
        }
        resumedCount := |torrents|;
      case Err(_) =>
        return ServiceUnavailable;
    }
    var stalled := qbit.GetTorrentList(Stalled);
    match stalled {
      case Ok(torrents) =>
        if |torrents| >= resumedCount {
          code := ServiceUnavailable;
        } else {
          code := NoContent;
        }
      case Err(_) =>
        code := ServiceUnavailable;
    }
  }

  /** The readiness probe: one transfer-information query. */
  method Readyz(qbit: FakeQbit) returns (code: StatusCode)
    modifies qbit`issued
    ensures code == Readiness(qbit.transferInfo)
    ensures qbit.issued == old(qbit.issued) + [TransferInfoQuery]
  {
    var transfer := qbit.GetTransferInfo();
    match transfer {
      case Err(_) =>
        return ServiceUnavailable;
      case Ok(info) =>
        match info.connectionStatus {
          case Connected | Firewalled => code := NoContent;
          case _ => code := ServiceUnavailable;
        }
    }
  }

  /** When the first listing fails or is empty, the answer to the second listing is irrelevant. */
  lemma LivenessIgnoresUnissuedQuery(resumed: Response<seq<Torrent>>, stalled: Response<seq<Torrent>>,
                                     stalled': Response<seq<Torrent>>)
    requires TorrentListQuery(Stalled) !in LivenessQueries(resumed)
    ensures Liveness(resumed, stalled) == Liveness(resumed, stalled')
  {
  }

  /** More stalled torrents never turn an unhealthy verdict into a healthy one. */
  lemma MoreStalledNeverHealthier(resumed: Response<seq<Torrent>>, stalled: seq<Torrent>, more: seq<Torrent>)
    requires |stalled| <= |more|
    ensures Liveness(resumed, Ok(stalled)) == ServiceUnavailable ==>
      Liveness(resumed, Ok(more)) == ServiceUnavailable
  {
  }

  /** Ten resumed and ten stalled torrents: the inclusive threshold answers 503. */
  method EqualCountsScenario() returns (code: StatusCode, issued: seq<Query>)
    ensures code.Code() == 503
    ensures issued == [TorrentListQuery(Resumed), TorrentListQuery(Stalled)]
  {
    var ten := seq(10, _ => Torrent);
    var qbit := new FakeQbit(Ok(ten), Ok(ten), Err(ClientError("not asked")));
    code := Healthz(qbit);
    issued := qbit.issued;
  }

  /** A failing first listing answers 503 without asking for the stalled list. */
  method UnreachableDaemonScenario() returns (code: StatusCode, issued: seq<Query>)
    ensures code.Code() == 503
    ensures issued == [TorrentListQuery(Resumed)]
  {
    var qbit := new FakeQbit(Err(ClientError("connection refused")), Ok([]), Err(ClientError("not asked")));
    code := Healthz(qbit);
    issued := qbit.issued;
  }

  /** A firewalled daemon is ready. */
  method FirewalledScenario() returns (code: StatusCode)
    ensures code.Code() == 204
  {
    var qbit := new FakeQbit(Ok([]), Ok([]), Ok(TransferInfo(Firewalled)));
    code := Readyz(qbit);
  }
}
