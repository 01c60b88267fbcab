/**
 * The clean use case: delete the token cache from disk, then from the
 * keyring. A disk failure is fatal, is reported with the directory and the
 * cause, and stops before the keyring is touched; a keyring failure is
 * swallowed (the source only logs it).
 */
module Clean {
  import opened Wrappers
  import opened Errors
  import opened TokenCache

  /** clean.Input. */
  datatype Input = Input(tokenCacheDir: string)

  function DiskConfig(dir: string): Config { Config(dir, StorageDisk) }

  function KeyringConfig(dir: string): Config { Config(dir, StorageKeyring) }

  /** The context a disk failure is reported under. */
  function DeleteContext(dir: string): string { "delete the token cache from " + dir }

  /**
   * The DeleteAll calls one Do issues for directory dir, given which
   * deletions fail: the disk first, and the keyring only after the disk
   * succeeded. Both carry dir verbatim, and no storage is asked twice.
   */
  function Attempts(dir: string, failures: map<Config, Error>): (calls: seq<Config>)
    ensures 1 <= |calls| <= 2 && calls[0] == DiskConfig(dir)
    ensures forall i :: 0 <= i < |calls| ==> calls[i].directory == dir
    ensures forall i, j :: 0 <= i < j < |calls| ==> calls[i].storage != calls[j].storage
    ensures KeyringConfig(dir) in calls <==> DiskConfig(dir) !in failures
  {
    if DiskConfig(dir) in failures then [DiskConfig(dir)] else [DiskConfig(dir), KeyringConfig(dir)]
  }

  /** The error one Do returns for directory dir: only a disk failure is one. */
  function Outcome(dir: string, failures: map<Config, Error>): (err: Option<Error>)
    ensures err.None? <==> DiskConfig(dir) !in failures
  {
    if DiskConfig(dir) in failures then Some(Wrapped(DeleteContext(dir), failures[DiskConfig(dir)])) else None
  }

  class Clean {
    const repository: Repository

    constructor (repository: Repository)
      ensures this.repository == repository
    {
      this.repository := repository;
    }

    /** Clean.Do. */
    method Do(input: Input) returns (err: Option<Error>)
      modifies repository
      ensures repository.calls == old(repository.calls) + Attempts(input.tokenCacheDir, repository.failures)
      ensures err == Outcome(input.tokenCacheDir, repository.failures)
    {
      var dir := input.tokenCacheDir;
      var diskErr := repository.DeleteAll(DiskConfig(dir));
      if diskErr.Some? {
        return Some(Wrapped(DeleteContext(dir), diskErr.value));
      }
      var keyringErr := repository.DeleteAll(KeyringConfig(dir));
      // A keyring failure is only logged.
      err := None;
    }
  }

  /**
   * A disk failure is reported: the error's text names the directory and
   * contains the cause's text, and errors.Is still finds the cause.
   */
  lemma DiskFailureIsReported(dir: string, failures: map<Config, Error>)
    requires DiskConfig(dir) in failures
    ensures Outcome(dir, failures).Some?
    ensures Contains(Text(Outcome(dir, failures).value), DeleteContext(dir))
    ensures Contains(Text(Outcome(dir, failures).value), Text(failures[DiskConfig(dir)]))
    ensures Is(Outcome(dir, failures).value, failures[DiskConfig(dir)])
  {
    WrappedKeepsCause(DeleteContext(dir), failures[DiskConfig(dir)]);
  }

  /**
   * Whether the keyring deletion fails changes neither the outcome nor the
   * calls made: with the disk deletion succeeding, Do succeeds either way.
   */
  lemma KeyringFailureIsNotFatal(dir: string, failures: map<Config, Error>, keyringErr: Error)
    requires DiskConfig(dir) !in failures
    ensures Outcome(dir, failures[KeyringConfig(dir) := keyringErr]) == None
    ensures Attempts(dir, failures[KeyringConfig(dir) := keyringErr]) == Attempts(dir, failures)
  {
    assert DiskConfig(dir) != KeyringConfig(dir);
  }

  // The four cases of the clean use case's unit test, run against a fresh scripted repository.

  const TestDir: string := "/test/cache/dir"

  method SuccessBothStorages() returns (calls: seq<Config>, err: Option<Error>)
    ensures calls == [Config(TestDir, StorageDisk), Config(TestDir, StorageKeyring)]
    ensures err == None
  {
    var repository := new Repository(map[]);
    var clean := new Clean(repository);
    err := clean.Do(Input(TestDir));
    calls := repository.calls;
  }

  method DiskDeletionError() returns (calls: seq<Config>, err: Option<Error>)
    ensures calls == [Config(TestDir, StorageDisk)]
    ensures err.Some?
    ensures Contains(Text(err.value), "delete the token cache from /test/cache/dir")
    ensures Contains(Text(err.value), "disk deletion failed")
  {
    var diskError := Message("disk deletion failed");
    var repository := new Repository(map[Config(TestDir, StorageDisk) := diskError]);
    var clean := new Clean(repository);
    err := clean.Do(Input(TestDir));
    calls := repository.calls;
    DiskFailureIsReported(TestDir, repository.failures);
    assert DeleteContext(TestDir) == "delete the token cache from /test/cache/dir";
    assert Text(diskError) == "disk deletion failed";
  }

  method KeyringDeletionErrorNotFatal() returns (calls: seq<Config>, err: Option<Error>)
    ensures calls == [Config(TestDir, StorageDisk), Config(TestDir, StorageKeyring)]
    ensures err == None
  {
    var keyringError := Message("keyring not available");
    var repository := new Repository(map[Config(TestDir, StorageKeyring) := keyringError]);
    var clean := new Clean(repository);
    err := clean.Do(Input(TestDir));
    calls := repository.calls;
  }

  method EmptyTokenCacheDir() returns (calls: seq<Config>, err: Option<Error>)
    ensures calls == [Config("", StorageDisk), Config("", StorageKeyring)]
    ensures err == None
  {
    var repository := new Repository(map[]);
    var clean := new Clean(repository);
    err := clean.Do(Input(""));
    calls := repository.calls;
  }
}
