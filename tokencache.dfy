/**
 * The token cache repository's interface as the clean use case sees it:
 * DeleteAll over a (directory, storage) configuration. The repository here
 * is the strict mock of the tests: its answers are scripted up front and
 * it keeps the trace of every call it receives.
 */
module TokenCache {
  import opened Wrappers
  import opened Errors

  /** tokencache.StorageDisk and tokencache.StorageKeyring. */
  datatype Storage = StorageDisk | StorageKeyring

  /** tokencache.Config. */
  datatype Config = Config(directory: string, storage: Storage)

  /** What a scripted repository answers to DeleteAll(config): the error it was given for that configuration, if any. */
  function Answer(failures: map<Config, Error>, config: Config): Option<Error>
  {
    if config in failures then Some(failures[config]) else None
  }

  class Repository {
    /** Every DeleteAll call so far, oldest first. */
    var calls: seq<Config>
    /** The configurations whose deletion fails, and with which error. */
    const failures: map<Config, Error>

    constructor (failures: map<Config, Error>)
      ensures calls == [] && this.failures == failures
    {
      calls := [];
      this.failures := failures;
    }

    /** DeleteAll: records the call and gives the scripted answer. */
    method DeleteAll(config: Config) returns (err: Option<Error>)
      modifies this`calls
      ensures calls == old(calls) + [config]
      ensures err == Answer(failures, config)
    {
      calls := calls + [config];
      err := Answer(failures, config);
    }
  }
}
