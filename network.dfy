/** The collaborators the core talks to. Every HTTP request the source makes
    through `http_get_json` becomes one injected lookup here: given the
    endpoint's base URL (and the identifiers the request path is built from)
    it either returns the decoded JSON document or fails with a message, the
    way `http_get_json` either returns or raises. */
module Lookups {
  import opened Wrappers
  import opened JsonModel

  /** The query of one list-channels request: `pagination.limit` always,
      `pagination.key` only when `key` is present. */
  datatype PageQuery = PageQuery(limit: int, key: Option<string>)

  datatype Network = Network(
    /** GET /ibc/core/channel/v1/channels with the given query */
    listChannels: (string, PageQuery) -> Result<Json, string>,
    /** GET /ibc/core/channel/v1/channels/{channel_id}/ports/{port_id} */
    channel: (string, Json, Json) -> Result<Json, string>,
    /** GET /ibc/core/connection/v1/connections/{connection_id} */
    connection: (string, Json) -> Result<Json, string>,
    /** GET /ibc/core/client/v1/client_states/{client_id} */
    clientState: (string, Json) -> Result<Json, string>,
    /** GET /cosmos/base/tendermint/v1beta1/node_info */
    nodeInfo: string -> Result<Json, string>,
    /** GET /cosmos/base/tendermint/v1beta1/blocks/latest */
    latestBlock: string -> Result<Json, string>)

  /** One configured chain: its symbol and the base URL of its REST API. */
  datatype Endpoint = Endpoint(symbol: string, base: string)
}
