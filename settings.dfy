/** The package's constants and the per-datasource configuration record. */
module Settings {
  import opened Outcomes

  const ModuleName := "db"
  /** Context key under which a trace identifier (a string) travels. */
  const CtxTraceIdKey := "kboot-db-trace-id"
  /** Context key under which an extra caller-skip count (an int) travels. */
  const CtxTraceSkipKey := "kboot-db-trace-skip"

  /** Name of the default datasource, and of the configuration key that holds it. */
  const CfgKeyDefault := "default"

  const DsTypePg := "postgres"
  const DsTypeSqlLite := "sqlite"

  /** One datasource's configuration. `name` is filled in by the loader, not read
      from the settings; `colorful` is `None` when the setting is absent. */
  datatype Config = Config(
    name: string,
    dbType: string,
    dsn: string,
    debug: bool,
    slowThresholdMs: int,
    colorful: Option<bool>)
}
