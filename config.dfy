/** The client's configuration record (`PlexClientConfig`, `src/config.ts`). */
module PlexConfig {
  datatype Config = Config(plexToken: string, serverUrl: string, clientIdentifier: string, product: string)
}
