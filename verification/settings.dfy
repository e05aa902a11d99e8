/** The plugin's configuration parameters that `write` reads, with their declared defaults. */
module Settings {

  datatype Config = Config(
    timeKey: string,        // time_key: the record field holding the record's own time
    influxTimeKey: string,  // influx_time_key: the column InfluxDB reads the point's time from
    includeTimeKey: bool,   // include_time_key: take the event time instead of the record's own
    timeZone: string,       // time_zone: "" leaves the time unshifted
    dbname: string,
    user: string,
    password: string,
    timePrecision: string)

  /** Every parameter left at its default. */
  const Defaults := Config("time", "time", false, "", "fluentd", "root", "root", "s")
}
