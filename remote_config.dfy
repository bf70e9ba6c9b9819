/** The remote-configuration collaborator (a realtime database read), as the launch
    pipeline sees it: a host/path pair or one of two errors. */
module RemoteConfig {

  /** The `{host, path}` record read from remote configuration. */
  datatype RemoteLinkParts = RemoteLinkParts(host: string, path: string)

  /** `invalidPayload`: the snapshot had no value; `decodingFailed`: it did not decode. */
  datatype RemoteConfigError = InvalidPayload | ConfigDecodingFailed
}
