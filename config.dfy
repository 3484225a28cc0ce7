/**
 * The service configuration and the defaulting applied to it after it is
 * read (`Configuration` and `makeDefaults` in main.go).
 */
module Config {

  /** A Go `time.Duration`: a signed 64-bit count of nanoseconds. */
  newtype Duration = x: int | -0x8000_0000_0000_0000 <= x < 0x8000_0000_0000_0000

  /** `time.Hour` in nanoseconds. */
  const Hour: Duration := 3_600_000_000_000

  const DefaultApiPrefix := "/"
  const DefaultListenAddress := "localhost:3000"
  const DefaultDataDir := "data"
  const DefaultCleanupInterval := Hour

  /** The value of a configuration, field by field. */
  datatype Settings = Settings(
    postgresUrl: string,
    listenAddress: string,
    apiPrefix: string,
    dataDir: string,
    enableSwagger: bool,
    cleanupInterval: Duration)

  /** A configuration in which every defaulted field is set. */
  predicate Complete(c: Settings)
  {
    c.apiPrefix != "" && c.listenAddress != "" && c.dataDir != "" && c.cleanupInterval != 0
  }

  /**
   * The configuration after defaulting: every empty string field and a
   * zero interval take their default, everything else stays.
   */
  function WithDefaults(c: Settings): (r: Settings)
    ensures Complete(r)
    ensures r.postgresUrl == c.postgresUrl && r.enableSwagger == c.enableSwagger
    ensures c.apiPrefix != "" ==> r.apiPrefix == c.apiPrefix
    ensures c.listenAddress != "" ==> r.listenAddress == c.listenAddress
    ensures c.dataDir != "" ==> r.dataDir == c.dataDir
    ensures c.cleanupInterval != 0 ==> r.cleanupInterval == c.cleanupInterval
    ensures c.apiPrefix == "" ==> r.apiPrefix == DefaultApiPrefix
    ensures c.listenAddress == "" ==> r.listenAddress == DefaultListenAddress
    ensures c.dataDir == "" ==> r.dataDir == DefaultDataDir
    ensures c.cleanupInterval == 0 ==> r.cleanupInterval == DefaultCleanupInterval
  {
    c.(
      apiPrefix := if c.apiPrefix == "" then DefaultApiPrefix else c.apiPrefix,
      listenAddress := if c.listenAddress == "" then DefaultListenAddress else c.listenAddress,
      dataDir := if c.dataDir == "" then DefaultDataDir else c.dataDir,
      cleanupInterval := if c.cleanupInterval == 0 then DefaultCleanupInterval else c.cleanupInterval)
  }

  /** Defaulting twice is defaulting once. */
  lemma DefaultsIdempotent(c: Settings)
    ensures WithDefaults(WithDefaults(c)) == WithDefaults(c)
  {
  }

  /** Defaulting leaves a configuration alone exactly when every defaulted field is already set. */
  lemma DefaultsFixComplete(c: Settings)
    ensures WithDefaults(c) == c <==> Complete(c)
  {
  }

  /** An empty configuration comes out with all four defaults. */
  lemma DefaultsOfEmpty(postgresUrl: string, enableSwagger: bool)
    ensures WithDefaults(Settings(postgresUrl, "", "", "", enableSwagger, 0))
         == Settings(postgresUrl, "localhost:3000", "/", "data", enableSwagger, 3_600_000_000_000)
  {
  }

  /** The configuration object that defaulting updates in place. */
  class Configuration {
    var postgresUrl: string
    var listenAddress: string
    var apiPrefix: string
    var dataDir: string
    var enableSwagger: bool
    var cleanupInterval: Duration

    constructor (s: Settings)
      ensures Value() == s
    {
      postgresUrl := s.postgresUrl;
      listenAddress := s.listenAddress;
      apiPrefix := s.apiPrefix;
      dataDir := s.dataDir;
      enableSwagger := s.enableSwagger;
      cleanupInterval := s.cleanupInterval;
    }

    function Value(): Settings
      reads this
    {
      Settings(postgresUrl, listenAddress, apiPrefix, dataDir, enableSwagger, cleanupInterval)
    }

    /** Fills in each empty or zero defaulted field; the other fields are untouched. */
    method MakeDefaults()
      modifies this
      ensures Value() == WithDefaults(old(Value()))
      ensures Complete(Value())
      ensures postgresUrl == old(postgresUrl) && enableSwagger == old(enableSwagger)
      ensures old(apiPrefix) != "" ==> apiPrefix == old(apiPrefix)
      ensures old(listenAddress) != "" ==> listenAddress == old(listenAddress)
      ensures old(dataDir) != "" ==> dataDir == old(dataDir)
      ensures old(cleanupInterval) != 0 ==> cleanupInterval == old(cleanupInterval)
    {
      if apiPrefix == "" {
        apiPrefix := DefaultApiPrefix;
      }
      if listenAddress == "" {
        listenAddress := DefaultListenAddress;
      }
      if dataDir == "" {
        dataDir := DefaultDataDir;
      }
      if cleanupInterval == 0 {
        cleanupInterval := DefaultCleanupInterval;
      }
    }
  }
}
