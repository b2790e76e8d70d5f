/**
 * The two queries the probes put to the qBittorrent daemon, and a deterministic
 * stand-in for the daemon client that answers them from canned responses and
 * records every query it is asked.
 */
module Qbit {
  import opened Wrappers

  /** The torrent-list filters the probes use. */
  datatype TorrentFilter = Resumed | Stalled

  /** One entry of a torrent list; the probes only count entries. */
  datatype Torrent = Torrent

  /**
   * The daemon's network connection status. `Other` stands for any status value
   * beyond the three the probes know of.
   */
  datatype ConnectionStatus = Connected | Firewalled | Disconnected | Other(name: string)

  /** The part of the daemon's transfer information that the readiness probe reads. */
  datatype TransferInfo = TransferInfo(connectionStatus: ConnectionStatus)

  /** Any failure of a query: network, session or decoding. */
  datatype ClientError = ClientError(message: string)

  type Response<T> = Result<T, ClientError>

  /** A query issued to the daemon. */
  datatype Query = TorrentListQuery(filter: TorrentFilter) | TransferInfoQuery

  /** A daemon client with fixed answers; `issued` lists the queries asked so far, oldest first. */
  class FakeQbit {
    const resumedList: Response<seq<Torrent>>
    const stalledList: Response<seq<Torrent>>
    const transferInfo: Response<TransferInfo>
    var issued: seq<Query>

    constructor (resumedList: Response<seq<Torrent>>, stalledList: Response<seq<Torrent>>,
                 transferInfo: Response<TransferInfo>)
      ensures this.resumedList == resumedList && this.stalledList == stalledList
      ensures this.transferInfo == transferInfo
      ensures issued == []
    {
      this.resumedList := resumedList;
      this.stalledList := stalledList;
      this.transferInfo := transferInfo;
      issued := [];
    }

    /** The canned answer to a torrent-list query with `filter`. */
    function Listing(filter: TorrentFilter): (r: Response<seq<Torrent>>)
      ensures filter == Resumed ==> r == resumedList
      ensures filter == Stalled ==> r == stalledList
    {
      match filter
      case Resumed => resumedList
      case Stalled => stalledList
    }

    /** Lists the torrents matching `filter`. */
    method GetTorrentList(filter: TorrentFilter) returns (r: Response<seq<Torrent>>)
      modifies this`issued
      ensures r == Listing(filter)
      ensures issued == old(issued) + [TorrentListQuery(filter)]
    {
      r := Listing(filter);
      issued := issued + [TorrentListQuery(filter)];
    }

    /** Fetches the daemon's transfer information. */
    method GetTransferInfo() returns (r: Response<TransferInfo>)
      modifies this`issued
      ensures r == transferInfo
      ensures issued == old(issued) + [TransferInfoQuery]
    {
      r := transferInfo;
      issued := issued + [TransferInfoQuery];
    }
  }
}
