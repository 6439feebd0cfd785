/** The part of the host configuration document (`config.config` in
    api_backup/) that the broadcast, form, session and StarTram code read and
    write. Loading and saving the file belong to a collaborator. */
module SystemConfig {
  import opened Json

  /** A stored session: the hex digest of its token and where it came from. */
  datatype SessionRecord = SessionRecord(hash: string, created: int, ip: string, userAgent: string)

  /** `config['sessions']`, split into the authorized and unauthorized partitions. */
  datatype Sessions = Sessions(authorized: map<string, SessionRecord>, unauthorized: map<string, SessionRecord>)

  datatype HostConfig = HostConfig(
    piers: seq<string>,
    wgRegistered: bool,
    wgOn: bool,
    endpointUrl: Json,
    apiVersion: string,
    pubkey: string,
    sessions: Sessions)

  /** The configuration object shared, by reference, between the orchestrator
      and the websocket utilities. */
  class ConfigStore {
    var doc: HostConfig

    constructor (doc: HostConfig)
      ensures this.doc == doc
    {
      this.doc := doc;
    }
  }
}
